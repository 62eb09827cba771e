/**
 * Every view-manager transition keeps `Inv`: one slot per registered
 * layer, slots hold views registered for them, pending completions are
 * covered by the in-flight guard sets, and the input flag follows the
 * disable counter.
 *
 * The first group of lemmas is about the elementary changes (a new layer,
 * a new descriptor, placing a view, clearing a slot, issuing or dropping a
 * ticket); the second composes them along each transition.
 */
module ViewManagerInvariant {
  import opened Wrappers
  import opened ViewData
  import opened Sorting
  import opened ViewManagerSpec

  // ---------------------------------------------------------------- elementary changes

  lemma SameKeys<K, V>(m: map<K, V>, k: K, v: V)
    requires k in m
    ensures m[k := v].Keys == m.Keys
  {
  }

  lemma AppendKeepsDistinct(s: seq<int>, x: int)
    requires Distinct(s) && x !in s
    ensures Distinct(s + [x])
  {
    var r := s + [x];
    forall i, j | 0 <= i < j < |r| ensures r[i] != r[j] {
      if j == |s| {
        assert r[i] == s[i];
      } else {
        assert r[i] == s[i] && r[j] == s[j];
      }
    }
  }

  lemma LayersSorted(layers: seq<Id>, slots: set<Id>, layerNames: map<Id, string>, canvasLinked: bool)
    requires LayersOk(layers, slots, layerNames, canvasLinked)
    ensures LayersOk(Sort(layers), slots, layerNames, true)
  {
    SortKeepsDistinct(layers);
    assert forall l :: l in Sort(layers) <==> l in multiset(layers);
  }

  lemma LayersAdded(layers: seq<Id>, slots: set<Id>, layerNames: map<Id, string>, canvasLinked: bool, layerId: Id, name: string)
    requires LayersOk(layers, slots, layerNames, canvasLinked) && layerId !in layers
    ensures
      var appended := layers + [layerId];
      LayersOk(if canvasLinked then Sort(appended) else appended, slots + {layerId},
               if layerId in layerNames then layerNames else layerNames[layerId := name], canvasLinked)
  {
    var appended := layers + [layerId];
    var names := if layerId in layerNames then layerNames else layerNames[layerId := name];
    AppendKeepsDistinct(layers, layerId);
    assert LayersOk(appended, slots + {layerId}, names, false);
    if canvasLinked {
      LayersSorted(appended, slots + {layerId}, names, false);
    }
  }

  lemma SlotsRegistered(activeViews: map<Id, Option<LiveView>>, registered: map<Id, ViewInfo>, nextInstance: nat, info: ViewInfo)
    requires SlotsOk(activeViews, registered, nextInstance) && info.viewId !in registered
    ensures SlotsOk(activeViews, registered[info.viewId := info], nextInstance)
  {
    forall l | l in activeViews && activeViews[l].Some?
      ensures Placed(registered[info.viewId := info], nextInstance, activeViews[l].value, l)
    {
      assert Placed(registered, nextInstance, activeViews[l].value, l);
    }
  }

  lemma SlotsPlaced(activeViews: map<Id, Option<LiveView>>, registered: map<Id, ViewInfo>, nextInstance: nat, view: ViewInfo)
    requires SlotsOk(activeViews, registered, nextInstance)
    requires view.viewId in registered && registered[view.viewId] == view
    ensures SlotsOk(activeViews[view.layerId := Some(LiveView(nextInstance, view.viewId))], registered, nextInstance + 1)
  {
    var a1 := activeViews[view.layerId := Some(LiveView(nextInstance, view.viewId))];
    forall l | l in a1 && a1[l].Some? ensures Placed(registered, nextInstance + 1, a1[l].value, l) {
      if l != view.layerId {
        assert Placed(registered, nextInstance, activeViews[l].value, l);
      }
    }
  }

  lemma SlotsCleared(activeViews: map<Id, Option<LiveView>>, registered: map<Id, ViewInfo>, nextInstance: nat, layer: Id)
    requires SlotsOk(activeViews, registered, nextInstance)
    ensures SlotsOk(activeViews[layer := None], registered, nextInstance)
  {
    var a1 := activeViews[layer := None];
    forall l | l in a1 && a1[l].Some? ensures Placed(registered, nextInstance, a1[l].value, l) {
      assert Placed(registered, nextInstance, activeViews[l].value, l);
    }
  }

  lemma PendingRegistered(pendingOut: map<nat, Completion>, pendingBundles: map<nat, BundleRequest>, nextTicket: nat,
                          registered: map<Id, ViewInfo>, nextInstance: nat, adding: set<Id>, removing: set<Id>, info: ViewInfo)
    requires PendingOk(pendingOut, pendingBundles, nextTicket, registered, nextInstance, adding, removing)
    requires info.viewId !in registered
    ensures PendingOk(pendingOut, pendingBundles, nextTicket, registered[info.viewId := info], nextInstance, adding, removing)
  {
    var r1 := registered[info.viewId := info];
    forall t | t in pendingOut ensures Awaiting(r1, nextInstance, adding, removing, pendingOut[t]) {
      assert Awaiting(registered, nextInstance, adding, removing, pendingOut[t]);
    }
    forall t | t in pendingBundles ensures Requested(r1, pendingBundles[t]) {
      assert Requested(registered, pendingBundles[t]);
    }
  }

  lemma PendingNewInstance(pendingOut: map<nat, Completion>, pendingBundles: map<nat, BundleRequest>, nextTicket: nat,
                           registered: map<Id, ViewInfo>, nextInstance: nat, adding: set<Id>, removing: set<Id>)
    requires PendingOk(pendingOut, pendingBundles, nextTicket, registered, nextInstance, adding, removing)
    ensures PendingOk(pendingOut, pendingBundles, nextTicket, registered, nextInstance + 1, adding, removing)
  {
    forall t | t in pendingOut ensures Awaiting(registered, nextInstance + 1, adding, removing, pendingOut[t]) {
      assert Awaiting(registered, nextInstance, adding, removing, pendingOut[t]);
    }
  }

  /** A transition-out request issued under a fresh ticket together with its guard. */
  lemma PendingIssued(pendingOut: map<nat, Completion>, pendingBundles: map<nat, BundleRequest>, nextTicket: nat,
                      registered: map<Id, ViewInfo>, nextInstance: nat, adding: set<Id>, removing: set<Id>, x: Completion)
    requires PendingOk(pendingOut, pendingBundles, nextTicket, registered, nextInstance, adding, removing)
    requires x.view.viewId in registered && registered[x.view.viewId] == x.view
    requires x.outgoing.instance < nextInstance
    requires x.RemoveCompletion? ==> x.outgoing.viewId == x.view.viewId
    requires x.AddCompletion? ==> x.view.viewId !in adding
    requires x.RemoveCompletion? ==> x.view.viewId !in removing
    ensures PendingOk(pendingOut[nextTicket := x], pendingBundles, nextTicket + 1, registered, nextInstance,
                      if x.AddCompletion? then adding + {x.view.viewId} else adding,
                      if x.RemoveCompletion? then removing + {x.view.viewId} else removing)
  {
    var p1 := pendingOut[nextTicket := x];
    var a1 := if x.AddCompletion? then adding + {x.view.viewId} else adding;
    var r1 := if x.RemoveCompletion? then removing + {x.view.viewId} else removing;
    forall u | u in p1 ensures u < nextTicket + 1 && Awaiting(registered, nextInstance, a1, r1, p1[u]) {
      if u != nextTicket {
        assert Awaiting(registered, nextInstance, adding, removing, pendingOut[u]);
      }
    }
    forall t1, t2 | t1 in p1 && t2 in p1 && SameRequest(p1[t1], p1[t2]) ensures t1 == t2 {
      if t1 != nextTicket {
        assert Awaiting(registered, nextInstance, adding, removing, pendingOut[t1]);
      }
      if t2 != nextTicket {
        assert Awaiting(registered, nextInstance, adding, removing, pendingOut[t2]);
      }
    }
  }

  /** A fired ticket dropped, keeping the guards. */
  lemma PendingDropped(pendingOut: map<nat, Completion>, pendingBundles: map<nat, BundleRequest>, nextTicket: nat,
                       registered: map<Id, ViewInfo>, nextInstance: nat, adding: set<Id>, removing: set<Id>, ticket: nat)
    requires PendingOk(pendingOut, pendingBundles, nextTicket, registered, nextInstance, adding, removing)
    ensures PendingOk(pendingOut - {ticket}, pendingBundles, nextTicket, registered, nextInstance, adding, removing)
  {
  }

  /** A guard released once no completion of its kind waits for the view. */
  lemma PendingReleased(pendingOut: map<nat, Completion>, pendingBundles: map<nat, BundleRequest>, nextTicket: nat,
                        registered: map<Id, ViewInfo>, nextInstance: nat, adding: set<Id>, removing: set<Id>,
                        id: Id, isAdd: bool)
    requires PendingOk(pendingOut, pendingBundles, nextTicket, registered, nextInstance, adding, removing)
    requires forall t :: t in pendingOut ==> !(pendingOut[t].AddCompletion? == isAdd && pendingOut[t].view.viewId == id)
    ensures PendingOk(pendingOut, pendingBundles, nextTicket, registered, nextInstance,
                      if isAdd then adding - {id} else adding, if isAdd then removing else removing - {id})
  {
    var a1 := if isAdd then adding - {id} else adding;
    var r1 := if isAdd then removing else removing - {id};
    forall u | u in pendingOut ensures Awaiting(registered, nextInstance, a1, r1, pendingOut[u]) {
      assert Awaiting(registered, nextInstance, adding, removing, pendingOut[u]);
    }
  }

  /** After its ticket is dropped, no other completion of the same kind waits for that view. */
  lemma OnlyOneWaiting(pendingOut: map<nat, Completion>, pendingBundles: map<nat, BundleRequest>, nextTicket: nat,
                       registered: map<Id, ViewInfo>, nextInstance: nat, adding: set<Id>, removing: set<Id>, ticket: nat)
    requires PendingOk(pendingOut, pendingBundles, nextTicket, registered, nextInstance, adding, removing)
    requires ticket in pendingOut
    ensures forall t :: t in pendingOut - {ticket} ==>
              !(pendingOut[t].AddCompletion? == pendingOut[ticket].AddCompletion? &&
                pendingOut[t].view.viewId == pendingOut[ticket].view.viewId)
  {
    forall t | t in pendingOut - {ticket}
      ensures !(pendingOut[t].AddCompletion? == pendingOut[ticket].AddCompletion? &&
                pendingOut[t].view.viewId == pendingOut[ticket].view.viewId)
    {
      assert !SameRequest(pendingOut[t], pendingOut[ticket]);
    }
  }

  lemma PendingBundleRequested(pendingOut: map<nat, Completion>, pendingBundles: map<nat, BundleRequest>, nextTicket: nat,
                               registered: map<Id, ViewInfo>, nextInstance: nat, adding: set<Id>, removing: set<Id>, r: BundleRequest)
    requires PendingOk(pendingOut, pendingBundles, nextTicket, registered, nextInstance, adding, removing)
    requires Requested(registered, r)
    ensures PendingOk(pendingOut, pendingBundles[nextTicket := r], nextTicket + 1, registered, nextInstance, adding, removing)
  {
    var b1 := pendingBundles[nextTicket := r];
    forall u | u in b1 ensures u < nextTicket + 1 && u !in pendingOut && Requested(registered, b1[u]) {
      if u != nextTicket {
        assert Requested(registered, pendingBundles[u]);
      }
    }
  }

  lemma PendingBundleDropped(pendingOut: map<nat, Completion>, pendingBundles: map<nat, BundleRequest>, nextTicket: nat,
                             registered: map<Id, ViewInfo>, nextInstance: nat, adding: set<Id>, removing: set<Id>, ticket: nat)
    requires PendingOk(pendingOut, pendingBundles, nextTicket, registered, nextInstance, adding, removing)
    ensures PendingOk(pendingOut, pendingBundles - {ticket}, nextTicket, registered, nextInstance, adding, removing)
  {
  }

  // ---------------------------------------------------------------- transitions

  lemma InitialInv(editorChecks: bool)
    ensures Inv(Initial(editorChecks))
  {
  }

  /** `Inv`, except that descriptors may name `layerId` before it has a slot. */
  ghost predicate InvAwaitingLayer(st: ViewState, layerId: Id) {
    && LayersOk(st.layers, st.activeViews.Keys, st.layerNames, st.canvasLinked)
    && RegistryOk(st.registered, st.activeViews.Keys + {layerId}, st.adding, st.removing)
    && SlotsOk(st.activeViews, st.registered, st.nextInstance)
    && PendingOk(st.pendingOut, st.pendingBundles, st.nextTicket, st.registered, st.nextInstance, st.adding, st.removing)
    && InputOk(st.interactable, st.inputDisableCounter, st.canvasLinked, st.pendingOut, st.activeViews)
  }

  lemma RegisterLayerInv(st: ViewState, layerId: Id)
    requires InvAwaitingLayer(st, layerId)
    ensures Inv(RegisterLayer(st, layerId))
  {
    var st1 := RegisterLayer(st, layerId);
    if layerId !in st.layers {
      LayersAdded(st.layers, st.activeViews.Keys, st.layerNames, st.canvasLinked, layerId, IdName(layerId));
      assert st1.activeViews.Keys == st.activeViews.Keys + {layerId};
      SlotsCleared(st.activeViews, st.registered, st.nextInstance, layerId);
    } else {
      assert st.activeViews.Keys + {layerId} == st.activeViews.Keys;
    }
  }

  lemma RegisterViewInv(st: ViewState, id: Id, layerId: Id, path: string, bundlePath: Option<string>)
    requires Inv(st)
    ensures Inv(RegisterView(st, id, layerId, path, bundlePath).st)
  {
    if id !in st.registered {
      var info := NewViewInfo(id, layerId, path, bundlePath);
      var st1 := st.(registered := st.registered[id := info]);
      SlotsRegistered(st.activeViews, st.registered, st.nextInstance, info);
      PendingRegistered(st.pendingOut, st.pendingBundles, st.nextTicket, st.registered, st.nextInstance,
                        st.adding, st.removing, info);
      assert RegistryOk(st1.registered, st1.activeViews.Keys + {layerId}, st1.adding, st1.removing);
      RegisterLayerInv(st1, layerId);
    }
  }

  lemma LinkCanvasInv(st: ViewState)
    requires Inv(st)
    ensures Inv(LinkCanvas(st))
  {
    LayersSorted(st.layers, st.activeViews.Keys, st.layerNames, st.canvasLinked);
  }

  lemma NameLayerInv(st: ViewState, layerId: Id, name: string)
    requires Inv(st)
    ensures Inv(NameLayer(st, layerId, name).st)
  {
    if layerId in st.layerNames && !st.canvasLinked {
      assert NameLayer(st, layerId, name).st == st;
    } else {
      assert NameLayer(st, layerId, name).st == st.(layerNames := st.layerNames[layerId := name]);
      assert LayersOk(st.layers, st.activeViews.Keys, st.layerNames[layerId := name], st.canvasLinked);
    }
  }

  lemma SettingsInv(st: ViewState, overlayLayers: Option<seq<Id>>, loaderSet: bool, onOpened: bool, onClosed: bool)
    requires Inv(st)
    ensures Inv(DeclareOverlays(st, overlayLayers).st)
    ensures Inv(SetBundleLoadMethod(st, loaderSet))
    ensures Inv(SetListeners(st, onOpened, onClosed))
  {
  }

  /** The greyout update changes nothing but the greyout. */
  lemma UpdateGreyoutFrame(st: ViewState, layer: Id)
    ensures UpdateGreyout(st, layer).st == st.(greyoutOn := UpdateGreyout(st, layer).st.greyoutOn)
  {
  }

  /** Showing, announcing and feeding a view leave the registry, the guards and the pending completions alone. */
  ghost predicate GuardsKept(st: ViewState, st': ViewState) {
    && st'.registered == st.registered
    && st'.adding == st.adding
    && st'.removing == st.removing
    && st'.pendingOut == st.pendingOut
  }

  /** Placing a registered view in its slot keeps the invariant. */
  lemma PlaceInv(st: ViewState, view: ViewInfo)
    requires Inv(st) && st.canvasLinked
    requires view.viewId in st.registered && st.registered[view.viewId] == view
    ensures Inv(st.(activeViews := st.activeViews[view.layerId := Some(LiveView(st.nextInstance, view.viewId))],
                    nextInstance := st.nextInstance + 1))
  {
    SameKeys(st.activeViews, view.layerId, Some(LiveView(st.nextInstance, view.viewId)));
    SlotsPlaced(st.activeViews, st.registered, st.nextInstance, view);
    PendingNewInstance(st.pendingOut, st.pendingBundles, st.nextTicket, st.registered, st.nextInstance, st.adding, st.removing);
  }

  /** Emptying the slot of a known layer keeps the invariant. */
  lemma ClearInv(st: ViewState, layer: Id)
    requires Inv(st) && layer in st.activeViews
    ensures Inv(st.(activeViews := st.activeViews[layer := None]))
  {
    SameKeys(st.activeViews, layer, None);
    SlotsCleared(st.activeViews, st.registered, st.nextInstance, layer);
  }

  // Each path through a transition gets a lemma of its own, selected by its
  // `requires`; the lemma named after the transition only dispatches.

  lemma CreateAndAddViewUnchanged(st: ViewState, view: ViewInfo, prefabIsView: bool)
    requires || !st.canvasLinked || view.layerId !in st.layerNames
             || (!view.LoadFromBundle() && !prefabIsView) || (view.LoadFromBundle() && !st.bundleLoaderSet)
    ensures CreateAndAddView(st, view, prefabIsView).st == st
  {
  }

  lemma CreateAndAddViewPlacedInv(st: ViewState, view: ViewInfo)
    requires Inv(st) && view.viewId in st.registered && st.registered[view.viewId] == view
    requires st.canvasLinked && view.layerId in st.layerNames && !view.LoadFromBundle()
    ensures Inv(CreateAndAddView(st, view, true).st) && GuardsKept(st, CreateAndAddView(st, view, true).st)
  {
    var st1 := st.(activeViews := st.activeViews[view.layerId := Some(LiveView(st.nextInstance, view.viewId))],
                   nextInstance := st.nextInstance + 1);
    assert CreateAndAddView(st, view, true) == UpdateGreyout(st1, view.layerId);
    PlaceInv(st, view);
    UpdateGreyoutFrame(st1, view.layerId);
  }

  lemma CreateAndAddViewRequestedInv(st: ViewState, view: ViewInfo, prefabIsView: bool)
    requires Inv(st) && view.viewId in st.registered && st.registered[view.viewId] == view
    requires st.canvasLinked && view.layerId in st.layerNames && view.LoadFromBundle() && st.bundleLoaderSet
    ensures Inv(CreateAndAddView(st, view, prefabIsView).st) && GuardsKept(st, CreateAndAddView(st, view, prefabIsView).st)
  {
    assert CreateAndAddView(st, view, prefabIsView).st
        == st.(pendingBundles := st.pendingBundles[st.nextTicket := ViewBundle(view)], nextTicket := st.nextTicket + 1);
    PendingBundleRequested(st.pendingOut, st.pendingBundles, st.nextTicket, st.registered, st.nextInstance,
                           st.adding, st.removing, ViewBundle(view));
  }

  lemma CreateAndAddViewInv(st: ViewState, view: ViewInfo, prefabIsView: bool)
    requires Inv(st) && view.viewId in st.registered && st.registered[view.viewId] == view
    ensures Inv(CreateAndAddView(st, view, prefabIsView).st)
    ensures GuardsKept(st, CreateAndAddView(st, view, prefabIsView).st)
  {
    if || !st.canvasLinked || view.layerId !in st.layerNames
       || (!view.LoadFromBundle() && !prefabIsView) || (view.LoadFromBundle() && !st.bundleLoaderSet) {
      CreateAndAddViewUnchanged(st, view, prefabIsView);
    } else if !view.LoadFromBundle() {
      CreateAndAddViewPlacedInv(st, view);
    } else {
      CreateAndAddViewRequestedInv(st, view, prefabIsView);
    }
  }

  lemma AnnounceInv(st: ViewState, id: Id, initData: Option<Data>)
    requires Inv(st)
    ensures Inv(Announce(st, id, initData)) && GuardsKept(st, Announce(st, id, initData))
  {
    DispatchOpenedInv(st, id);
    if initData.Some? {
      UpdateViewInv(DispatchOpened(st, id), id, initData.value);
    }
  }

  lemma DispatchOpenedInv(st: ViewState, id: Id)
    requires Inv(st)
    ensures Inv(DispatchOpened(st, id)) && GuardsKept(st, DispatchOpened(st, id))
  {
  }

  /** Handing a view its data only logs the update. */
  lemma UpdateViewInv(st: ViewState, id: Id, data: Data)
    requires Inv(st)
    ensures Inv(UpdateView(st, id, data).st) && GuardsKept(st, UpdateView(st, id, data).st)
  {
    if IsActiveView(st, id) {
      var v := st.activeViews[st.registered[id].layerId].value;
      UpdatesKeepInv(st, st.updates + [Update(v, data)]);
    }
  }

  /** The update log plays no part in the invariant. */
  lemma UpdatesKeepInv(st: ViewState, updates: seq<Update>)
    requires Inv(st)
    ensures Inv(st.(updates := updates))
  {
  }

  lemma OpenViewFaulted(st: ViewState, view: ViewInfo, initData: Option<Data>, prefabIsView: bool)
    requires CreateAndAddView(st, view, prefabIsView).status.Faulted?
    ensures OpenView(st, view, initData, prefabIsView) == CreateAndAddView(st, view, prefabIsView)
  {
  }

  lemma OpenViewAnnounced(st: ViewState, view: ViewInfo, initData: Option<Data>, prefabIsView: bool)
    requires !CreateAndAddView(st, view, prefabIsView).status.Faulted?
    ensures OpenView(st, view, initData, prefabIsView).st == Announce(CreateAndAddView(st, view, prefabIsView).st, view.viewId, initData)
  {
  }

  lemma OpenViewInv(st: ViewState, view: ViewInfo, initData: Option<Data>, prefabIsView: bool)
    requires Inv(st) && view.viewId in st.registered && st.registered[view.viewId] == view
    ensures Inv(OpenView(st, view, initData, prefabIsView).st)
    ensures GuardsKept(st, OpenView(st, view, initData, prefabIsView).st)
  {
    CreateAndAddViewInv(st, view, prefabIsView);
    var r := CreateAndAddView(st, view, prefabIsView);
    if r.status.Faulted? {
      OpenViewFaulted(st, view, initData, prefabIsView);
    } else {
      OpenViewAnnounced(st, view, initData, prefabIsView);
      AnnounceInv(r.st, view.viewId, initData);
    }
  }

  /** Issuing a transition-out request keeps the invariant. */
  lemma IssueInv(st: ViewState, x: Completion)
    requires Inv(st)
    requires x.view.viewId in st.registered && st.registered[x.view.viewId] == x.view
    requires x.outgoing.instance < st.nextInstance
    requires x.RemoveCompletion? ==> x.outgoing.viewId == x.view.viewId
    requires x.AddCompletion? ==> x.view.viewId !in st.adding
    requires x.RemoveCompletion? ==> x.view.viewId !in st.removing
    requires st.canvasLinked
    ensures Inv(st.(adding := if x.AddCompletion? then st.adding + {x.view.viewId} else st.adding,
                    removing := if x.RemoveCompletion? then st.removing + {x.view.viewId} else st.removing,
                    pendingOut := st.pendingOut[st.nextTicket := x],
                    nextTicket := st.nextTicket + 1))
  {
    PendingIssued(st.pendingOut, st.pendingBundles, st.nextTicket, st.registered, st.nextInstance, st.adding, st.removing, x);
  }

  lemma AddViewUnchanged(st: ViewState, id: Id, initData: Option<Data>, prefabIsView: bool)
    requires || id !in st.registered || st.registered[id].layerId !in st.activeViews
             || (var slot := st.activeViews[st.registered[id].layerId];
                 slot.Some? && (slot.value.viewId == st.registered[id].viewId || st.registered[id].viewId in st.adding))
    ensures AddView(st, id, initData, prefabIsView).st == st
  {
  }

  lemma AddViewIssuedInv(st: ViewState, id: Id, initData: Option<Data>, prefabIsView: bool)
    requires Inv(st) && id in st.registered && st.registered[id].layerId in st.activeViews
    requires var slot := st.activeViews[st.registered[id].layerId];
             slot.Some? && slot.value.viewId != st.registered[id].viewId && st.registered[id].viewId !in st.adding
    ensures Inv(AddView(st, id, initData, prefabIsView).st)
  {
    var view := st.registered[id];
    var occupant := st.activeViews[view.layerId].value;
    var x := AddCompletion(view, occupant, initData);
    assert AddView(st, id, initData, prefabIsView).st
        == st.(adding := st.adding + {view.viewId}, pendingOut := st.pendingOut[st.nextTicket := x],
               nextTicket := st.nextTicket + 1);
    assert Placed(st.registered, st.nextInstance, occupant, view.layerId);
    IssueInv(st, x);
  }

  lemma AddViewOpened(st: ViewState, id: Id, initData: Option<Data>, prefabIsView: bool)
    requires id in st.registered && st.registered[id].layerId in st.activeViews
    requires st.activeViews[st.registered[id].layerId].None?
    ensures AddView(st, id, initData, prefabIsView) == OpenView(st, st.registered[id], initData, prefabIsView)
  {
  }

  lemma AddViewInv(st: ViewState, id: Id, initData: Option<Data>, prefabIsView: bool)
    requires Inv(st)
    ensures Inv(AddView(st, id, initData, prefabIsView).st)
  {
    if || id !in st.registered || st.registered[id].layerId !in st.activeViews
       || (var slot := st.activeViews[st.registered[id].layerId];
           slot.Some? && (slot.value.viewId == st.registered[id].viewId || st.registered[id].viewId in st.adding)) {
      AddViewUnchanged(st, id, initData, prefabIsView);
    } else if st.activeViews[st.registered[id].layerId].Some? {
      AddViewIssuedInv(st, id, initData, prefabIsView);
    } else {
      AddViewOpened(st, id, initData, prefabIsView);
      OpenViewInv(st, st.registered[id], initData, prefabIsView);
    }
  }

  lemma RemoveViewUnchanged(st: ViewState, id: Id, callback: Option<Callback>)
    requires || id !in st.registered || st.registered[id].layerId !in st.activeViews
             || (var slot := st.activeViews[st.registered[id].layerId];
                 slot.None? || slot.value.viewId != st.registered[id].viewId || id in st.removing)
    ensures RemoveView(st, id, callback).st == st
  {
  }

  lemma RemoveViewIssuedInv(st: ViewState, id: Id, callback: Option<Callback>)
    requires Inv(st) && id in st.registered && st.registered[id].layerId in st.activeViews
    requires var slot := st.activeViews[st.registered[id].layerId];
             slot.Some? && slot.value.viewId == st.registered[id].viewId && id !in st.removing
    ensures Inv(RemoveView(st, id, callback).st)
  {
    var view := st.registered[id];
    var occupant := st.activeViews[view.layerId].value;
    var x := RemoveCompletion(view, occupant, callback);
    assert RemoveView(st, id, callback).st
        == st.(removing := st.removing + {id}, pendingOut := st.pendingOut[st.nextTicket := x],
               nextTicket := st.nextTicket + 1);
    assert Placed(st.registered, st.nextInstance, occupant, view.layerId);
    IssueInv(st, x);
  }

  lemma RemoveViewInv(st: ViewState, id: Id, callback: Option<Callback>)
    requires Inv(st)
    ensures Inv(RemoveView(st, id, callback).st)
  {
    if || id !in st.registered || st.registered[id].layerId !in st.activeViews
       || (var slot := st.activeViews[st.registered[id].layerId];
           slot.None? || slot.value.viewId != st.registered[id].viewId || id in st.removing) {
      RemoveViewUnchanged(st, id, callback);
    } else {
      RemoveViewIssuedInv(st, id, callback);
    }
  }

  /** No completion of the given kind waits for view `id`. */
  ghost predicate NoneWaiting(pendingOut: map<nat, Completion>, id: Id, isAdd: bool) {
    forall t :: t in pendingOut ==> !(pendingOut[t].AddCompletion? == isAdd && pendingOut[t].view.viewId == id)
  }

  lemma CompleteAddFaulted(st: ViewState, view: ViewInfo, outgoing: LiveView, initData: Option<Data>, prefabIsView: bool)
    requires
      var cleared := st.(activeViews := st.activeViews[view.layerId := None], destroyed := st.destroyed + [outgoing]);
      OpenView(cleared, view, initData, prefabIsView).status.Faulted?
    ensures
      var cleared := st.(activeViews := st.activeViews[view.layerId := None], destroyed := st.destroyed + [outgoing]);
      CompleteAdd(st, view, outgoing, initData, prefabIsView) == OpenView(cleared, view, initData, prefabIsView)
  {
  }

  lemma CompleteAddShown(st: ViewState, view: ViewInfo, outgoing: LiveView, initData: Option<Data>, prefabIsView: bool)
    requires
      var cleared := st.(activeViews := st.activeViews[view.layerId := None], destroyed := st.destroyed + [outgoing]);
      !OpenView(cleared, view, initData, prefabIsView).status.Faulted?
    ensures
      var cleared := st.(activeViews := st.activeViews[view.layerId := None], destroyed := st.destroyed + [outgoing]);
      var r := OpenView(cleared, view, initData, prefabIsView);
      CompleteAdd(st, view, outgoing, initData, prefabIsView).st == r.st.(adding := r.st.adding - {view.viewId})
  {
  }

  lemma CompleteAddInv(st: ViewState, view: ViewInfo, outgoing: LiveView, initData: Option<Data>, prefabIsView: bool)
    requires Inv(st) && view.viewId in st.registered && st.registered[view.viewId] == view
    requires NoneWaiting(st.pendingOut, view.viewId, true)
    ensures Inv(CompleteAdd(st, view, outgoing, initData, prefabIsView).st)
    ensures CompleteAdd(st, view, outgoing, initData, prefabIsView).st.pendingOut == st.pendingOut
  {
    var cleared := st.(activeViews := st.activeViews[view.layerId := None], destroyed := st.destroyed + [outgoing]);
    ClearInv(st, view.layerId);
    assert Inv(cleared);
    OpenViewInv(cleared, view, initData, prefabIsView);
    var r := OpenView(cleared, view, initData, prefabIsView);
    if r.status.Faulted? {
      CompleteAddFaulted(st, view, outgoing, initData, prefabIsView);
    } else {
      CompleteAddShown(st, view, outgoing, initData, prefabIsView);
      PendingReleased(r.st.pendingOut, r.st.pendingBundles, r.st.nextTicket, r.st.registered, r.st.nextInstance,
                      r.st.adding, r.st.removing, view.viewId, true);
    }
  }

  /** The stale check and the callback keep the invariant. */
  lemma EndRemovalInv(st: ViewState, layer: Id, outgoing: LiveView, current: LiveView, callback: Option<Callback>)
    requires Inv(st) && layer in st.activeViews
    ensures Inv(EndRemoval(st, layer, outgoing, current, callback))
  {
    if outgoing.viewId == current.viewId {
      ClearInv(st, layer);
    }
  }

  lemma CompleteRemoveFaulted(st: ViewState, view: ViewInfo, outgoing: LiveView, callback: Option<Callback>)
    requires view.layerId !in st.activeViews || st.activeViews[view.layerId].None?
    ensures CompleteRemove(st, view, outgoing, callback).st
         == DispatchClosed(st, view.viewId).(removing := st.removing - {view.viewId}, destroyed := st.destroyed + [outgoing])
  {
  }

  lemma CompleteRemoveFinished(st: ViewState, view: ViewInfo, outgoing: LiveView, callback: Option<Callback>)
    requires view.layerId in st.activeViews && st.activeViews[view.layerId].Some?
    ensures
      var st1 := DispatchClosed(st, view.viewId).(removing := st.removing - {view.viewId}, destroyed := st.destroyed + [outgoing]);
      CompleteRemove(st, view, outgoing, callback)
        == UpdateGreyout(EndRemoval(st1, view.layerId, outgoing, st.activeViews[view.layerId].value, callback), view.layerId)
  {
  }

  lemma CompleteRemoveInv(st: ViewState, view: ViewInfo, outgoing: LiveView, callback: Option<Callback>)
    requires Inv(st) && NoneWaiting(st.pendingOut, view.viewId, false)
    ensures Inv(CompleteRemove(st, view, outgoing, callback).st)
    ensures CompleteRemove(st, view, outgoing, callback).st.pendingOut == st.pendingOut
  {
    PendingReleased(st.pendingOut, st.pendingBundles, st.nextTicket, st.registered, st.nextInstance,
                    st.adding, st.removing, view.viewId, false);
    var st1 := DispatchClosed(st, view.viewId).(removing := st.removing - {view.viewId}, destroyed := st.destroyed + [outgoing]);
    assert Inv(st1);
    if view.layerId !in st.activeViews || st.activeViews[view.layerId].None? {
      CompleteRemoveFaulted(st, view, outgoing, callback);
    } else {
      CompleteRemoveFinished(st, view, outgoing, callback);
      var st3 := EndRemoval(st1, view.layerId, outgoing, st.activeViews[view.layerId].value, callback);
      EndRemovalInv(st1, view.layerId, outgoing, st.activeViews[view.layerId].value, callback);
      UpdateGreyoutFrame(st3, view.layerId);
    }
  }

  /** Dropping the fired ticket leaves no other completion of its kind for the view. */
  lemma FiredInv(st: ViewState, ticket: nat)
    requires Inv(st) && ticket in st.pendingOut
    ensures
      var x := st.pendingOut[ticket];
      var st0 := st.(pendingOut := st.pendingOut - {ticket});
      && Inv(st0)
      && x.view.viewId in st0.registered && st0.registered[x.view.viewId] == x.view
      && NoneWaiting(st0.pendingOut, x.view.viewId, x.AddCompletion?)
  {
    var x := st.pendingOut[ticket];
    assert Awaiting(st.registered, st.nextInstance, st.adding, st.removing, x);
    PendingDropped(st.pendingOut, st.pendingBundles, st.nextTicket, st.registered, st.nextInstance, st.adding, st.removing, ticket);
    OnlyOneWaiting(st.pendingOut, st.pendingBundles, st.nextTicket, st.registered, st.nextInstance, st.adding, st.removing, ticket);
  }

  lemma FireTransitionOutInv(st: ViewState, ticket: nat, prefabIsView: bool)
    requires Inv(st)
    ensures Inv(FireTransitionOut(st, ticket, prefabIsView).st)
    ensures ticket in st.pendingOut ==> FireTransitionOut(st, ticket, prefabIsView).st.pendingOut == st.pendingOut - {ticket}
  {
    if ticket in st.pendingOut {
      var x := st.pendingOut[ticket];
      var st0 := st.(pendingOut := st.pendingOut - {ticket});
      FiredInv(st, ticket);
      if x.AddCompletion? {
        assert FireTransitionOut(st, ticket, prefabIsView) == CompleteAdd(st0, x.view, x.outgoing, x.initData, prefabIsView);
        CompleteAddInv(st0, x.view, x.outgoing, x.initData, prefabIsView);
      } else {
        assert FireTransitionOut(st, ticket, prefabIsView) == CompleteRemove(st0, x.view, x.outgoing, x.callback);
        CompleteRemoveInv(st0, x.view, x.outgoing, x.callback);
      }
    }
  }

  lemma BundleLoadedUnplaced(st: ViewState, ticket: nat, loaded: LoadedObject)
    requires ticket in st.pendingBundles
    requires || loaded != GameObjectWithView || st.pendingBundles[ticket].SceneBundle? || !st.canvasLinked
             || st.pendingBundles[ticket].view.layerId !in st.layerNames
    ensures BundleLoaded(st, ticket, loaded).st == st.(pendingBundles := st.pendingBundles - {ticket})
  {
  }

  lemma BundleLoadedPlaced(st: ViewState, ticket: nat)
    requires ticket in st.pendingBundles && st.pendingBundles[ticket].ViewBundle? && st.canvasLinked
    requires st.pendingBundles[ticket].view.layerId in st.layerNames
    ensures
      var view := st.pendingBundles[ticket].view;
      var st1 := st.(pendingBundles := st.pendingBundles - {ticket});
      BundleLoaded(st, ticket, GameObjectWithView).st
        == st1.(activeViews := st1.activeViews[view.layerId := Some(LiveView(st1.nextInstance, view.viewId))],
                nextInstance := st1.nextInstance + 1)
  {
  }

  /** The loaded object is not placed: only the ticket goes. */
  lemma BundleDroppedInv(st: ViewState, ticket: nat)
    requires Inv(st) && ticket in st.pendingBundles
    ensures Inv(st.(pendingBundles := st.pendingBundles - {ticket}))
  {
    PendingBundleDropped(st.pendingOut, st.pendingBundles, st.nextTicket, st.registered, st.nextInstance,
                         st.adding, st.removing, ticket);
  }

  lemma BundleLoadedInv(st: ViewState, ticket: nat, loaded: LoadedObject)
    requires Inv(st)
    ensures Inv(BundleLoaded(st, ticket, loaded).st)
  {
    if ticket in st.pendingBundles {
      var st1 := st.(pendingBundles := st.pendingBundles - {ticket});
      BundleDroppedInv(st, ticket);
      var req := st.pendingBundles[ticket];
      if || loaded != GameObjectWithView || req.SceneBundle? || !st.canvasLinked || req.view.layerId !in st.layerNames {
        BundleLoadedUnplaced(st, ticket, loaded);
      } else {
        assert Requested(st.registered, req);
        BundleLoadedPlaced(st, ticket);
        PlaceInv(st1, req.view);
      }
    }
  }

  lemma RemoveOccupantInv(st: ViewState, layer: Id, sync: set<Id>)
    requires Inv(st)
    ensures Inv(RemoveOccupant(st, layer, sync).st)
  {
    if layer in st.activeViews && st.activeViews[layer].Some? {
      var r := RemoveView(st, st.activeViews[layer].value.viewId, None);
      RemoveViewInv(st, st.activeViews[layer].value.viewId, None);
      if r.status.Pending? && layer in sync {
        FireTransitionOutInv(r.st, r.status.ticket, false);
      }
    }
  }

  lemma {:induction false} RemoveEachInv(st: ViewState, occupied: seq<Id>, sync: set<Id>)
    requires Inv(st)
    ensures Inv(RemoveEach(st, occupied, sync).st)
    decreases |occupied|
  {
    if occupied != [] {
      RemoveOccupantInv(st, occupied[0], sync);
      var r := RemoveOccupant(st, occupied[0], sync);
      if !r.status.Faulted? {
        RemoveEachInv(r.st, occupied[1..], sync);
      }
    }
  }

  lemma RemoveAllViewsInv(st: ViewState, sync: set<Id>)
    requires Inv(st)
    ensures Inv(RemoveAllViews(st, sync).st)
  {
    RemoveEachInv(st, GetOccupiedLayers(st), sync);
  }

  lemma {:induction false} RemoveEachExceptInv(st: ViewState, occupied: seq<Id>, exempt: Option<seq<Id>>, sync: set<Id>)
    requires Inv(st)
    ensures Inv(RemoveEachExcept(st, occupied, exempt, sync).st)
    decreases |occupied|
  {
    if occupied != [] && exempt.Some? {
      if occupied[0] in exempt.value {
        RemoveEachExceptInv(st, occupied[1..], exempt, sync);
      } else {
        RemoveOccupantInv(st, occupied[0], sync);
        var r := RemoveOccupant(st, occupied[0], sync);
        if !r.status.Faulted? {
          UpdateGreyoutFrame(r.st, occupied[0]);
          var g := UpdateGreyout(r.st, occupied[0]);
          if !g.status.Faulted? {
            RemoveEachExceptInv(g.st, occupied[1..], exempt, sync);
          }
        }
      }
    }
  }

  lemma RemoveAllViewsExceptInv(st: ViewState, exempt: Option<seq<Id>>, sync: set<Id>)
    requires Inv(st)
    ensures Inv(RemoveAllViewsExcept(st, exempt, sync).st)
  {
    RemoveEachExceptInv(st, GetOccupiedLayers(st), exempt, sync);
  }

  lemma ToggleCanvasInputInv(st: ViewState, enabled: bool)
    requires Inv(st)
    ensures Inv(ToggleCanvasInput(st, enabled).st)
  {
  }

  lemma ChangeSceneInv(st: ViewState, name: string, loadComplete: Option<Callback>)
    requires Inv(st)
    ensures Inv(ChangeScene(st, name, loadComplete))
  {
  }

  lemma ChangeSceneBundleInv(st: ViewState, bundlePath: string, loadComplete: Option<Callback>)
    requires Inv(st)
    ensures Inv(ChangeSceneBundle(st, bundlePath, loadComplete).st)
  {
    if st.bundleLoaderSet {
      PendingBundleRequested(st.pendingOut, st.pendingBundles, st.nextTicket, st.registered, st.nextInstance,
                             st.adding, st.removing, SceneBundle(NewBundleInfo(Some(bundlePath))));
    }
  }

  lemma OnSceneLoadCompleteInv(st: ViewState)
    requires Inv(st)
    ensures Inv(OnSceneLoadComplete(st))
  {
  }
}
