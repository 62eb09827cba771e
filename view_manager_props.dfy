/**
 * What the view manager promises its callers, stated about the transition
 * functions: registration, the add and remove guards, the deferred
 * replacement, the stale-completion check, the occupied-layer query, the
 * input counter, the scene callbacks and the greyout decision.
 */
module ViewManagerProperties {
  import opened Wrappers
  import opened ViewData
  import opened Sorting
  import opened ViewManagerSpec
  import opened ViewManagerInvariant

  // ---------------------------------------------------------------- greyout

  /** Some overlay layer holds a view. */
  ghost predicate AnyOverlayOccupied(overlays: seq<Id>, active: map<Id, Option<LiveView>>) {
    exists i :: 0 <= i < |overlays| && overlays[i] in active && active[overlays[i]].Some?
  }

  /** With every overlay layer registered, the top-down scan answers whether any of them is occupied. */
  lemma {:induction false} ScanOverlaysFindsOccupied(overlays: seq<Id>, active: map<Id, Option<LiveView>>)
    requires forall i :: 0 <= i < |overlays| ==> overlays[i] in active
    ensures ScanOverlays(overlays, active) == Some(AnyOverlayOccupied(overlays, active))
    decreases |overlays|
  {
    if overlays != [] {
      var init := overlays[..|overlays| - 1];
      var top := overlays[|overlays| - 1];
      if !active[top].Some? {
        ScanOverlaysFindsOccupied(init, active);
        if AnyOverlayOccupied(overlays, active) {
          var i :| 0 <= i < |overlays| && overlays[i] in active && active[overlays[i]].Some?;
          assert init[i] == overlays[i];
        }
        if AnyOverlayOccupied(init, active) {
          var i :| 0 <= i < |init| && init[i] in active && active[init[i]].Some?;
          assert overlays[i] == init[i];
        }
      }
    }
  }

  /** The scan throws only when it reaches an overlay layer that has no slot. */
  lemma {:induction false} ScanOverlaysFailsOnMissingLayer(overlays: seq<Id>, active: map<Id, Option<LiveView>>)
    requires ScanOverlays(overlays, active).None?
    ensures exists i :: 0 <= i < |overlays| && overlays[i] !in active
    decreases |overlays|
  {
    var init := overlays[..|overlays| - 1];
    var top := overlays[|overlays| - 1];
    if top in active {
      ScanOverlaysFailsOnMissingLayer(init, active);
      var i :| 0 <= i < |init| && init[i] !in active;
      assert overlays[i] == init[i];
    }
  }

  /**
   * `UpdateGreyoutPosition` on an overlay layer turns the greyout on
   * exactly when some overlay layer is occupied; other layers leave it.
   */
  lemma GreyoutFollowsOverlays(st: ViewState, layer: Id)
    requires st.overlays.Some? ==> forall i :: 0 <= i < |st.overlays.value| ==> st.overlays.value[i] in st.activeViews
    ensures UpdateGreyout(st, layer).status == Completed
    ensures st.overlays.Some? && layer in st.overlays.value ==>
              UpdateGreyout(st, layer).st.greyoutOn == AnyOverlayOccupied(st.overlays.value, st.activeViews)
    ensures st.overlays.None? || layer !in st.overlays.value ==> UpdateGreyout(st, layer).st.greyoutOn == st.greyoutOn
  {
    if st.overlays.Some? {
      ScanOverlaysFindsOccupied(st.overlays.value, st.activeViews);
    }
  }

  // ---------------------------------------------------------------- registration

  lemma RegisterKnownViewThrows(st: ViewState, id: Id, layerId: Id, path: string, bundlePath: Option<string>)
    requires id in st.registered
    ensures RegisterView(st, id, layerId, path, bundlePath) == Step(st, Faulted(AlreadyRegistered))
  {
  }

  /** A new ID gets its descriptor; a new layer gets an empty slot and, if unnamed, its default name. */
  lemma RegisterNewView(st: ViewState, id: Id, layerId: Id, path: string, bundlePath: Option<string>)
    requires Inv(st) && id !in st.registered
    ensures
      var r := RegisterView(st, id, layerId, path, bundlePath);
      && r.status == Completed
      && r.st.registered == st.registered[id := NewViewInfo(id, layerId, path, bundlePath)]
      && (layerId in st.activeViews ==> r.st.activeViews == st.activeViews && r.st.layerNames == st.layerNames)
      && (layerId !in st.activeViews ==>
            && r.st.activeViews == st.activeViews[layerId := None]
            && r.st.layerNames == (if layerId in st.layerNames then st.layerNames else st.layerNames[layerId := IdName(layerId)]))
  {
  }

  // ---------------------------------------------------------------- adding

  /** `AddView` ignores an unknown ID, a view already on its layer and a view already waiting to replace the occupant. */
  lemma AddViewIgnored(st: ViewState, id: Id, initData: Option<Data>, prefabIsView: bool)
    requires Inv(st)
    requires || id !in st.registered
             || (var slot := st.activeViews[st.registered[id].layerId];
                 slot.Some? && (slot.value.viewId == id || id in st.adding))
    ensures AddView(st, id, initData, prefabIsView) == Step(st, Ignored)
  {
  }

  /** A shown view's `Opened` event, if anyone listens. */
  function OpenedEvent(st: ViewState, id: Id): seq<ViewEvent> {
    if st.openedListened then [Opened(id)] else []
  }

  /** Every declared overlay layer has a slot, so re-placing the greyout cannot throw. */
  ghost predicate OverlaysRegistered(st: ViewState) {
    st.overlays.Some? ==> forall i :: 0 <= i < |st.overlays.value| ==> st.overlays.value[i] in st.activeViews
  }

  /** Announcing a view that is on its layer sends one `Opened` and hands it the data. */
  lemma AnnounceShown(st: ViewState, id: Id, initData: Option<Data>)
    requires IsActiveView(st, id)
    ensures
      var v := st.activeViews[st.registered[id].layerId].value;
      Announce(st, id, initData)
        == st.(events := st.events + OpenedEvent(st, id),
               updates := if initData.Some? then st.updates + [Update(v, initData.value)] else st.updates)
  {
  }

  /** A local view whose prefab carries a view is placed under a fresh instance; only the greyout changes besides. */
  lemma PlaceLocalView(st: ViewState, view: ViewInfo)
    requires st.canvasLinked && view.layerId in st.layerNames && view.layerId in st.activeViews
    requires OverlaysRegistered(st) && !view.LoadFromBundle()
    ensures
      var r := CreateAndAddView(st, view, true);
      && r.status == Completed
      && r.st == st.(activeViews := st.activeViews[view.layerId := Some(LiveView(st.nextInstance, view.viewId))],
                     nextInstance := st.nextInstance + 1, greyoutOn := r.st.greyoutOn)
  {
    var v := LiveView(st.nextInstance, view.viewId);
    var st1 := st.(activeViews := st.activeViews[view.layerId := Some(v)], nextInstance := st.nextInstance + 1);
    assert CreateAndAddView(st, view, true) == UpdateGreyout(st1, view.layerId);
    SameKeys(st.activeViews, view.layerId, Some(v));
    GreyoutFollowsOverlays(st1, view.layerId);
    UpdateGreyoutFrame(st1, view.layerId);
  }

  /** Showing a local view whose prefab carries a view: placed under a fresh instance, announced once. */
  lemma OpenLocalView(st: ViewState, view: ViewInfo, initData: Option<Data>)
    requires Inv(st) && st.canvasLinked && OverlaysRegistered(st)
    requires view.viewId in st.registered && st.registered[view.viewId] == view && !view.LoadFromBundle()
    ensures
      var r := OpenView(st, view, initData, true);
      var v := LiveView(st.nextInstance, view.viewId);
      && r.status == Completed
      && r.st.activeViews == st.activeViews[view.layerId := Some(v)]
      && r.st.events == st.events + OpenedEvent(st, view.viewId)
      && r.st.updates == (if initData.Some? then st.updates + [Update(v, initData.value)] else st.updates)
      && r.st.destroyed == st.destroyed
      && GuardsKept(st, r.st)
  {
    assert view.layerId in st.layerNames;
    PlaceLocalView(st, view);
    OpenViewAnnounced(st, view, initData, true);
    AnnounceShown(CreateAndAddView(st, view, true).st, view.viewId, initData);
  }

  /** On an empty layer the view is shown at once and announced once. */
  lemma AddViewOnEmptyLayer(st: ViewState, id: Id, initData: Option<Data>)
    requires Inv(st) && st.canvasLinked && OverlaysRegistered(st) && id in st.registered
    requires st.activeViews[st.registered[id].layerId].None? && !st.registered[id].LoadFromBundle()
    ensures
      var r := AddView(st, id, initData, true);
      && r.status == Completed
      && IsActiveView(r.st, id)
      && r.st.events == st.events + OpenedEvent(st, id)
      && r.st.adding == st.adding && r.st.pendingOut == st.pendingOut
      && (initData.Some? ==> r.st.updates == st.updates + [Update(LiveView(st.nextInstance, id), initData.value)])
  {
    AddViewOpened(st, id, initData, true);
    OpenLocalView(st, st.registered[id], initData);
  }

  /** On an occupied layer the view waits behind the occupant's transition out; the occupant stays for now. */
  lemma AddViewOnOccupiedLayer(st: ViewState, id: Id, initData: Option<Data>, prefabIsView: bool)
    requires Inv(st) && id in st.registered
    requires var slot := st.activeViews[st.registered[id].layerId];
             slot.Some? && slot.value.viewId != id && id !in st.adding
    ensures
      var r := AddView(st, id, initData, prefabIsView);
      var occupant := st.activeViews[st.registered[id].layerId].value;
      && r.status == Pending(st.nextTicket)
      && r.st.activeViews == st.activeViews
      && r.st.adding == st.adding + {id}
      && r.st.pendingOut == st.pendingOut[st.nextTicket := AddCompletion(st.registered[id], occupant, initData)]
      && r.st.events == st.events
  {
  }

  /**
   * When the occupant finishes leaving, it is destroyed, the waiting view
   * is shown and announced once, no `Closed` is sent for the occupant, and
   * the view leaves the add set.
   */
  lemma ReplacementCompletes(st: ViewState, ticket: nat)
    requires Inv(st) && st.canvasLinked && OverlaysRegistered(st)
    requires ticket in st.pendingOut && st.pendingOut[ticket].AddCompletion?
    requires !st.pendingOut[ticket].view.LoadFromBundle()
    ensures
      var x := st.pendingOut[ticket];
      var r := FireTransitionOut(st, ticket, true);
      && r.status == Completed
      && IsActiveView(r.st, x.view.viewId)
      && r.st.events == st.events + OpenedEvent(st, x.view.viewId)
      && r.st.destroyed == st.destroyed + [x.outgoing]
      && x.view.viewId !in r.st.adding
      && r.st.pendingOut == st.pendingOut - {ticket}
  {
    var x := st.pendingOut[ticket];
    var view := x.view;
    var st0 := st.(pendingOut := st.pendingOut - {ticket});
    FiredInv(st, ticket);
    assert FireTransitionOut(st, ticket, true) == CompleteAdd(st0, view, x.outgoing, x.initData, true);
    var cleared := st0.(activeViews := st0.activeViews[view.layerId := None], destroyed := st0.destroyed + [x.outgoing]);
    ClearInv(st0, view.layerId);
    assert Inv(cleared);
    SameKeys(st0.activeViews, view.layerId, None);
    OpenLocalView(cleared, view, x.initData);
    CompleteAddShown(st0, view, x.outgoing, x.initData, true);
  }

  // ---------------------------------------------------------------- removing

  /** A removal starts exactly when the view is the one on its layer and no removal of it is under way. */
  lemma RemoveViewStartsOnlyForOccupant(st: ViewState, id: Id, callback: Option<Callback>)
    requires Inv(st)
    ensures RemoveView(st, id, callback).status.Pending? <==> IsActiveView(st, id) && id !in st.removing
    ensures !RemoveView(st, id, callback).status.Pending? ==> RemoveView(st, id, callback) == Step(st, Ignored)
  {
  }

  /** A second `RemoveView` while the first is in flight does nothing. */
  lemma SecondRemoveIgnored(st: ViewState, id: Id, first: Option<Callback>, second: Option<Callback>)
    requires Inv(st) && RemoveView(st, id, first).status.Pending?
    ensures
      var r := RemoveView(st, id, first);
      RemoveView(r.st, id, second) == Step(r.st, Ignored)
  {
    RemoveViewStartsOnlyForOccupant(st, id, first);
    var view := st.registered[id];
    var occupant := st.activeViews[view.layerId].value;
    assert RemoveView(st, id, first).st
        == st.(removing := st.removing + {id},
               pendingOut := st.pendingOut[st.nextTicket := RemoveCompletion(view, occupant, first)],
               nextTicket := st.nextTicket + 1);
  }

  /** A view's `Closed` event, if anyone listens. */
  function ClosedEvent(st: ViewState, id: Id): seq<ViewEvent> {
    if st.closedListened then [Closed(id)] else []
  }

  /**
   * The removal completion announces the close once, releases the guard,
   * destroys the view, runs the callback once, and empties the slot only
   * when it still holds a view of the removed ID: a view added meanwhile
   * stays.
   */
  lemma RemovalCompletes(st: ViewState, ticket: nat)
    requires Inv(st) && ticket in st.pendingOut && st.pendingOut[ticket].RemoveCompletion?
    requires st.pendingOut[ticket].view.layerId in st.activeViews
    requires st.activeViews[st.pendingOut[ticket].view.layerId].Some?
    ensures
      var x := st.pendingOut[ticket];
      var layer := x.view.layerId;
      var current := st.activeViews[layer].value;
      var r := FireTransitionOut(st, ticket, false);
      && r.st.events == st.events + ClosedEvent(st, x.view.viewId)
      && r.st.removing == st.removing - {x.view.viewId}
      && r.st.destroyed == st.destroyed + [x.outgoing]
      && r.st.invoked == st.invoked + (if x.callback.Some? then [x.callback.value] else [])
      && r.st.activeViews == (if current.viewId == x.view.viewId then st.activeViews[layer := None] else st.activeViews)
      && r.st.pendingOut == st.pendingOut - {ticket}
  {
    var x := st.pendingOut[ticket];
    var st0 := st.(pendingOut := st.pendingOut - {ticket});
    assert Awaiting(st.registered, st.nextInstance, st.adding, st.removing, x);
    assert FireTransitionOut(st, ticket, false) == CompleteRemove(st0, x.view, x.outgoing, x.callback);
    CompleteRemoveFinished(st0, x.view, x.outgoing, x.callback);
    var st1 := DispatchClosed(st0, x.view.viewId).(removing := st0.removing - {x.view.viewId},
                                                    destroyed := st0.destroyed + [x.outgoing]);
    UpdateGreyoutFrame(EndRemoval(st1, x.view.layerId, x.outgoing, st.activeViews[x.view.layerId].value, x.callback),
                       x.view.layerId);
  }

  /** A completion runs once: firing its ticket again is ignored. */
  lemma CompletionRunsOnce(st: ViewState, ticket: nat, prefabIsView: bool, again: bool)
    requires Inv(st) && ticket in st.pendingOut
    ensures
      var r := FireTransitionOut(st, ticket, prefabIsView);
      FireTransitionOut(r.st, ticket, again) == Step(r.st, Ignored)
  {
    FireTransitionOutInv(st, ticket, prefabIsView);
  }

  // ---------------------------------------------------------------- queries

  /** `IsActiveView` and `GetViewOnLayer` agree for every ID other than the "no view" value. */
  lemma ActiveViewIsViewOnLayer(st: ViewState, id: Id)
    requires Inv(st) && id in st.registered && id != NoView
    ensures IsActiveView(st, id) <==> GetViewOnLayer(st, st.registered[id].layerId) == id
  {
  }

  /** A view registered under -1 cannot be told apart from an empty layer by `GetViewOnLayer`. */
  lemma NoViewIsAmbiguous(st: ViewState, layer: Id)
    requires layer in st.activeViews && st.activeViews[layer] == Some(LiveView(0, NoView))
    ensures GetViewOnLayer(st, layer) == GetViewOnLayer(st.(activeViews := st.activeViews[layer := None]), layer)
  {
  }

  /** `OccupiedLayers` keeps the layers' order: a sorted list of distinct layers stays so. */
  lemma {:induction false} OccupiedLayersKeepOrder(layers: seq<Id>, active: map<Id, Option<LiveView>>)
    requires Sorted(layers) && Distinct(layers)
    ensures Sorted(OccupiedLayers(layers, active)) && Distinct(OccupiedLayers(layers, active))
    decreases |layers|
  {
    if layers != [] {
      var rest := OccupiedLayers(layers[1..], active);
      assert Sorted(layers[1..]) && Distinct(layers[1..]);
      OccupiedLayersKeepOrder(layers[1..], active);
      if layers[0] in active && active[layers[0]].Some? {
        var r := [layers[0]] + rest;
        forall i, j | 0 <= i < j < |r| ensures r[i] < r[j] {
          if i == 0 {
            assert r[j] in layers[1..];
            var k :| 0 <= k < |layers[1..]| && layers[1..][k] == r[j];
            assert layers[0] < layers[k + 1];
          }
        }
      }
    }
  }

  /** Once the canvas exists, the occupied layers come out in hierarchy order, each once. */
  lemma OccupiedLayersInOrder(st: ViewState)
    requires Inv(st) && st.canvasLinked
    ensures Sorted(GetOccupiedLayers(st)) && Distinct(GetOccupiedLayers(st))
    ensures forall l :: l in GetOccupiedLayers(st) <==> l in st.activeViews && st.activeViews[l].Some?
  {
    OccupiedLayersKeepOrder(st.layers, st.activeViews);
  }

  // ---------------------------------------------------------------- removing everything

  /** Removing with every transition deferred: each occupant is asked to leave, and the slots stay as they are. */
  lemma {:induction false} RemoveEachDeferred(st: ViewState, occupied: seq<Id>)
    requires Inv(st)
    requires forall i :: 0 <= i < |occupied| ==> occupied[i] in st.activeViews && st.activeViews[occupied[i]].Some?
    ensures
      var r := RemoveEach(st, occupied, {});
      && r.status == Completed
      && r.st.activeViews == st.activeViews && r.st.canvasLinked == st.canvasLinked
      && st.removing <= r.st.removing
      && forall i :: 0 <= i < |occupied| ==> st.activeViews[occupied[i]].value.viewId in r.st.removing
    decreases |occupied|
  {
    if occupied != [] {
      var l := occupied[0];
      var occupant := st.activeViews[l].value;
      assert Placed(st.registered, st.nextInstance, occupant, l);
      RemoveOccupantInv(st, l, {});
      RemoveOccupantDeferred(st, l);
      var r := RemoveOccupant(st, l, {});
      RemoveEachDeferred(r.st, occupied[1..]);
      forall i | 0 <= i < |occupied|
        ensures st.activeViews[occupied[i]].value.viewId in RemoveEach(st, occupied, {}).st.removing
      {
        if i > 0 {
          assert occupied[1..][i - 1] == occupied[i];
        }
      }
    }
  }

  /** One deferred removal: the occupant joins the remove set, nothing else the caller sees changes. */
  lemma RemoveOccupantDeferred(st: ViewState, layer: Id)
    requires Inv(st) && layer in st.activeViews && st.activeViews[layer].Some?
    ensures
      var r := RemoveOccupant(st, layer, {});
      && !r.status.Faulted?
      && r.st.activeViews == st.activeViews && r.st.canvasLinked == st.canvasLinked
      && r.st.removing == st.removing + {st.activeViews[layer].value.viewId}
  {
    var occupant := st.activeViews[layer].value;
    assert Placed(st.registered, st.nextInstance, occupant, layer);
    assert RemoveOccupant(st, layer, {}) == RemoveView(st, occupant.viewId, None);
    RemoveViewStartsOnlyForOccupant(st, occupant.viewId, None);
  }

  /**
   * `RemoveAllViews()` with every transition deferred asks each occupant
   * to leave and hides the greyout; the views go when their transitions
   * complete.
   */
  lemma RemoveAllViewsAsksEveryOccupant(st: ViewState)
    requires Inv(st) && st.canvasLinked
    ensures
      var r := RemoveAllViews(st, {});
      && r.status == Completed
      && r.st.activeViews == st.activeViews
      && !r.st.greyoutOn
      && forall l :: l in st.activeViews && st.activeViews[l].Some? ==> st.activeViews[l].value.viewId in r.st.removing
  {
    var occupied := GetOccupiedLayers(st);
    RemoveEachDeferred(st, occupied);
    forall l | l in st.activeViews && st.activeViews[l].Some?
      ensures st.activeViews[l].value.viewId in RemoveEach(st, occupied, {}).st.removing
    {
      var i :| 0 <= i < |occupied| && occupied[i] == l;
    }
  }

  /** With every occupied layer exempt, the exempt variant changes nothing. */
  lemma {:induction false} RemoveEachExceptAllExempt(st: ViewState, occupied: seq<Id>, exempt: seq<Id>, sync: set<Id>)
    requires forall i :: 0 <= i < |occupied| ==> occupied[i] in exempt
    ensures RemoveEachExcept(st, occupied, Some(exempt), sync) == Step(st, Completed)
    decreases |occupied|
  {
    if occupied != [] {
      RemoveEachExceptAllExempt(st, occupied[1..], exempt, sync);
    }
  }

  /** A null exempt array throws as soon as there is an occupied layer to test against it. */
  lemma RemoveAllViewsExceptNull(st: ViewState, sync: set<Id>)
    ensures RemoveAllViewsExcept(st, None, sync).st == st
    ensures RemoveAllViewsExcept(st, None, sync).status == if GetOccupiedLayers(st) == [] then Completed else Faulted(ArgumentNull)
  {
  }

  // ---------------------------------------------------------------- input

  /** The canvas-group flag is written only when the count leaves or returns to zero. */
  lemma ToggleWritesFlagOnlyAtZero(counter: int, interactable: bool, canvasLinked: bool, editorChecks: bool, enabled: bool)
    ensures
      var e := Toggle(counter, interactable, canvasLinked, editorChecks, enabled);
      e.interactable != interactable ==> (enabled && counter == 1) || (!enabled && counter == 0)
  {
  }

  /** Once the canvas exists, an enable counts down and a disable counts up, and the flag says whether the count is at most zero. */
  lemma ToggleCounts(counter: int, interactable: bool, editorChecks: bool, enabled: bool)
    requires interactable <==> counter <= 0
    ensures
      var e := Toggle(counter, interactable, true, editorChecks, enabled);
      && e.counter == (if enabled then counter - 1 else counter + 1)
      && (e.interactable <==> e.counter <= 0)
      && (e.fault.Some? <==> editorChecks && e.counter < 0)
  {
  }

  /** A disable followed by an enable restores the count and the flag. */
  lemma DisableThenEnableRestores(counter: int, interactable: bool, editorChecks: bool)
    requires interactable <==> counter <= 0
    ensures
      var d := Toggle(counter, interactable, true, editorChecks, false);
      var e := Toggle(d.counter, d.interactable, true, editorChecks, true);
      e.counter == counter && e.interactable == interactable
  {
  }

  /** Nested disables: the canvas is interactable again only after the last matching enable. */
  lemma NestedDisables(editorChecks: bool)
    ensures
      var d1 := Toggle(0, true, true, editorChecks, false);
      var d2 := Toggle(d1.counter, d1.interactable, true, editorChecks, false);
      var e1 := Toggle(d2.counter, d2.interactable, true, editorChecks, true);
      var e2 := Toggle(e1.counter, e1.interactable, true, editorChecks, true);
      && !d1.interactable && !d2.interactable && !e1.interactable && e2.interactable
      && e2.counter == 0 && e2.fault.None?
  {
  }

  /** Before the canvas exists, reaching the canvas group throws. */
  lemma ToggleWithoutCanvas(counter: int, interactable: bool, editorChecks: bool, enabled: bool)
    requires (enabled && counter == 1) || (!enabled && counter == 0)
    ensures Toggle(counter, interactable, false, editorChecks, enabled).fault == Some(NullReference)
    ensures Toggle(counter, interactable, false, editorChecks, enabled).interactable == interactable
  {
  }

  // ---------------------------------------------------------------- scenes

  /** A load already under way only draws a warning: the new load is still requested. */
  lemma ChangeSceneAlwaysLoads(st: ViewState, name: string, loadComplete: Option<Callback>)
    ensures ChangeScene(st, name, loadComplete).loadingScene
    ensures ChangeScene(st, name, loadComplete).sceneLoads == st.sceneLoads + [name]
  {
  }

  /** Completing a load runs every queued callback once, in the order queued, and empties the queue. */
  lemma SceneCallbacksRunOnceInOrder(st: ViewState, name: string, cb: Callback)
    ensures
      var loaded := OnSceneLoadComplete(ChangeScene(st, name, Some(cb)));
      && loaded.invoked == st.invoked + st.sceneCallbacks + [cb]
      && loaded.sceneCallbacks == []
      && !loaded.loadingScene
      && OnSceneLoadComplete(loaded).invoked == loaded.invoked
  {
  }

  /** `ChangeSceneBundle` never sets the loading flag, and without a loader it changes nothing. */
  lemma ChangeSceneBundleLeavesFlag(st: ViewState, bundlePath: string, loadComplete: Option<Callback>)
    ensures ChangeSceneBundle(st, bundlePath, loadComplete).st.loadingScene == st.loadingScene
    ensures !st.bundleLoaderSet ==> ChangeSceneBundle(st, bundlePath, loadComplete) == Step(st, Ignored)
    ensures st.bundleLoaderSet ==>
              ChangeSceneBundle(st, bundlePath, loadComplete).st.sceneCallbacks
                == st.sceneCallbacks + (if loadComplete.Some? then [loadComplete.value] else [])
  {
  }
}
