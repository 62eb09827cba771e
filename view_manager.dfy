/**
 * `ViewManager` (with its base `BaseViewManager`) as a class whose fields
 * the methods update in place. Each method is proved to do what the
 * transition function of the same name in `ViewManagerSpec` does, so the
 * invariant proved of those functions in `ViewManagerInvariant` (which
 * `Init` establishes) and the properties proved in
 * `ViewManagerProperties` hold of the class.
 *
 * Besides the program's own fields the class keeps, in `world`, what its
 * collaborators have seen: the events the listeners heard, the scene
 * loads, the delegates handed to outgoing views (`pendingOut`), the
 * requests handed to the bundle loader (`pendingBundles`), and the
 * destroyed views, delivered updates and invoked callbacks.
 */
module ViewManagerSystem {
  import opened Wrappers
  import opened ViewData
  import opened Sorting
  import opened ViewManagerSpec
  import opened ViewManagerInvariant
  import opened Singleton

  /** What the manager has handed to or done to its collaborators. */
  datatype World = World(
    events: seq<ViewEvent>,
    sceneLoads: seq<string>,
    pendingOut: map<nat, Completion>,
    pendingBundles: map<nat, BundleRequest>,
    nextTicket: nat,
    nextInstance: nat,
    destroyed: seq<LiveView>,
    updates: seq<Update>,
    invoked: seq<Callback>)

  class ViewManager {
    // BaseViewManager
    var activeViews: map<Id, Option<LiveView>>
    var openedListened: bool
    var closedListened: bool
    // ViewManager
    var registered: map<Id, ViewInfo>
    var layers: seq<Id>
    var layerNames: map<Id, string>
    var canvasLinked: bool
    var adding: set<Id>
    var removing: set<Id>
    var overlays: Option<seq<Id>>
    var greyoutOn: bool
    var inputDisableCounter: int
    var interactable: bool
    /** Whether the UNITY_EDITOR-only counter check is compiled in. */
    const editorChecks: bool
    var loadingScene: bool
    var sceneCallbacks: seq<Callback>
    var bundleLoaderSet: bool
    var world: World

    /** The manager's fields as a state value. */
    function State(): ViewState
      reads this
    {
      ViewState(activeViews, openedListened, closedListened, world.events, registered, layers, layerNames,
                canvasLinked, adding, removing, overlays, greyoutOn, inputDisableCounter, interactable,
                editorChecks, loadingScene, sceneCallbacks, bundleLoaderSet, world.sceneLoads, world.pendingOut,
                world.pendingBundles, world.nextTicket, world.nextInstance, world.destroyed, world.updates,
                world.invoked)
    }

    ghost predicate Valid()
      reads this
    {
      Inv(State())
    }

    /** The field initialisers of both classes; the static guard is claimed by `Create`. */
    constructor Init(withEditorChecks: bool)
      ensures State() == Initial(withEditorChecks) && Valid()
    {
      activeViews, openedListened, closedListened := map[], false, false;
      registered, layers, layerNames, canvasLinked := map[], [], map[], false;
      adding, removing, overlays, greyoutOn := {}, {}, None, false;
      inputDisableCounter, interactable, editorChecks := 0, true, withEditorChecks;
      loadingScene, sceneCallbacks, bundleLoaderSet := false, [], false;
      world := World([], [], map[], map[], 0, 0, [], [], []);
      new;
      InitialInv(withEditorChecks);
    }

    /**
     * `new ViewManager()`: the base constructor throws (here: answers
     * null) once any view manager has been built, since its flag is static.
     */
    static method Create(guard: InstanceGuard, withEditorChecks: bool) returns (vm: ViewManager?)
      modifies guard
      ensures vm != null <==> !old(guard.isInstantiated)
      ensures guard.isInstantiated
      ensures vm != null ==> fresh(vm) && vm.State() == Initial(withEditorChecks) && vm.Valid()
    {
      var ok := guard.Claim();
      if !ok {
        return null;
      }
      vm := new ViewManager.Init(withEditorChecks);
    }

    // ---------------------------------------------------------------- registration and set-up

    /** `CreateLayers`: sort the layers into hierarchy order. */
    method CreateLayers()
      modifies this
      ensures State() == old(State()).(layers := Sort(old(layers)))
    {
      layers := Sort(layers);
    }

    /** The first half of `RegisterLayer`: a new layer gets an empty slot and, unless named already, its default name. */
    method AddLayer(layerId: Id)
      modifies this
      ensures State() == old(State()).(layers := old(layers) + [layerId], activeViews := old(activeViews)[layerId := None],
                                       layerNames := if layerId in old(layerNames) then old(layerNames)
                                                     else old(layerNames)[layerId := IdName(layerId)])
    {
      var names := layerNames;
      if layerId !in names {
        names := names[layerId := IdName(layerId)];
      }
      layers, activeViews, layerNames := layers + [layerId], activeViews[layerId := None], names;
    }

    method RegisterLayer(layerId: Id)
      modifies this
      ensures State() == ViewManagerSpec.RegisterLayer(old(State()), layerId)
    {
      if layerId in layers {
        return;
      }
      AddLayer(layerId);
      if canvasLinked {
        CreateLayers();
      }
    }

    /** Both `RegisterView` overloads; the three-argument one passes `Some("")`. */
    method RegisterView(id: Id, layerId: Id, path: string, bundlePath: Option<string>) returns (status: Status)
      requires Valid()
      modifies this
      ensures Step(State(), status) == ViewManagerSpec.RegisterView(old(State()), id, layerId, path, bundlePath)
      ensures Valid()
    {
      RegisterViewInv(State(), id, layerId, path, bundlePath);
      status := RecordView(id, layerId, path, bundlePath);
    }

    /** The body of `RegisterView`: record the view and register its layer. */
    method RecordView(id: Id, layerId: Id, path: string, bundlePath: Option<string>) returns (status: Status)
      modifies this
      ensures Step(State(), status) == ViewManagerSpec.RegisterView(old(State()), id, layerId, path, bundlePath)
    {
      if id in registered {
        return Faulted(AlreadyRegistered);
      }
      registered := registered[id := NewViewInfo(id, layerId, path, bundlePath)];
      RegisterLayer(layerId);
      status := Completed;
    }

    /** `CreateGreyoutImage`: a new greyout, hidden at once. */
    method CreateGreyoutImage()
      modifies this
      ensures State() == old(State()).(greyoutOn := false)
    {
      greyoutOn := false;
    }

    method LinkCanvas()
      requires Valid()
      modifies this
      ensures State() == ViewManagerSpec.LinkCanvas(old(State()))
      ensures Valid()
    {
      LinkCanvasInv(State());
      canvasLinked := true;
      CreateLayers();
      CreateGreyoutImage();
    }

    method NameLayer(layerId: Id, name: string) returns (status: Status)
      requires Valid()
      modifies this
      ensures Step(State(), status) == ViewManagerSpec.NameLayer(old(State()), layerId, name)
      ensures Valid()
    {
      NameLayerInv(State(), layerId, name);
      if layerId in layerNames && !canvasLinked {
        return Faulted(NullReference);
      }
      layerNames := layerNames[layerId := name];
      status := Completed;
    }

    /** `DeclareOverlays`; `None` is a null list. */
    method DeclareOverlays(overlayLayers: Option<seq<Id>>) returns (status: Status)
      requires Valid()
      modifies this
      ensures Step(State(), status) == ViewManagerSpec.DeclareOverlays(old(State()), overlayLayers)
      ensures Valid()
    {
      SettingsInv(State(), overlayLayers, bundleLoaderSet, openedListened, closedListened);
      if overlayLayers.None? {
        overlays := None;
        return Faulted(NullReference);
      }
      overlays := Some(Sort(overlayLayers.value));
      status := Completed;
    }

    method SetBundleLoadMethod(loaderSet: bool)
      requires Valid()
      modifies this
      ensures State() == ViewManagerSpec.SetBundleLoadMethod(old(State()), loaderSet)
      ensures Valid()
    {
      SettingsInv(State(), None, loaderSet, openedListened, closedListened);
      bundleLoaderSet := loaderSet;
    }

    /** Subscribing to or unsubscribing from `onViewOpened` / `onViewClosed`. */
    method SetListeners(openedSubscribed: bool, closedSubscribed: bool)
      requires Valid()
      modifies this
      ensures State() == ViewManagerSpec.SetListeners(old(State()), openedSubscribed, closedSubscribed)
      ensures Valid()
    {
      SettingsInv(State(), None, bundleLoaderSet, openedSubscribed, closedSubscribed);
      openedListened, closedListened := openedSubscribed, closedSubscribed;
    }

    // ---------------------------------------------------------------- events and greyout

    method DispatchViewOpened(id: Id)
      modifies this
      ensures State() == DispatchOpened(old(State()), id)
    {
      if openedListened {
        world := world.(events := world.events + [Opened(id)]);
      }
    }

    method DispatchViewClosed(id: Id)
      modifies this
      ensures State() == DispatchClosed(old(State()), id)
    {
      if closedListened {
        world := world.(events := world.events + [Closed(id)]);
      }
    }

    /** `UpdateGreyoutPosition`: scan the overlay layers from the top for an occupied one. */
    method UpdateGreyoutPosition(updatedLayer: Id) returns (status: Status)
      modifies this
      ensures Step(State(), status) == UpdateGreyout(old(State()), updatedLayer)
    {
      status := Completed;
      if overlays.None? || updatedLayer !in overlays.value {
        return;
      }
      var scan := overlays.value;
      var i := |scan|;
      assert scan[..i] == scan;
      while i > 0
        invariant 0 <= i <= |scan|
        invariant ScanOverlays(scan, activeViews) == ScanOverlays(scan[..i], activeViews)
        invariant State() == old(State())
      {
        i := i - 1;
        assert scan[..i + 1][..i] == scan[..i];
        if scan[i] !in activeViews {
          return Faulted(KeyNotFound);
        }
        if activeViews[scan[i]].Some? {
          greyoutOn := true;
          return;
        }
      }
      greyoutOn := false;
    }

    // ---------------------------------------------------------------- showing views

    /** The prefab branch of `CreateAndAddView` when the prefab carries an `IView`. */
    method PlaceView(view: ViewInfo) returns (status: Status)
      modifies this
      ensures
        var st := old(State());
        Step(State(), status)
          == UpdateGreyout(st.(activeViews := st.activeViews[view.layerId := Some(LiveView(st.nextInstance, view.viewId))],
                               nextInstance := st.nextInstance + 1), view.layerId)
    {
      activeViews := activeViews[view.layerId := Some(LiveView(world.nextInstance, view.viewId))];
      world := world.(nextInstance := world.nextInstance + 1);
      status := UpdateGreyoutPosition(view.layerId);
    }

    method CreateAndAddView(view: ViewInfo, prefabIsView: bool) returns (status: Status)
      modifies this
      ensures Step(State(), status) == ViewManagerSpec.CreateAndAddView(old(State()), view, prefabIsView)
    {
      if !canvasLinked {
        return Faulted(NullReference);
      }
      if view.layerId !in layerNames {
        return Faulted(KeyNotFound);
      }
      if !view.LoadFromBundle() {
        if !prefabIsView {
          return Completed;
        }
        status := PlaceView(view);
      } else if !bundleLoaderSet {
        return Completed;
      } else {
        world := world.(pendingBundles := world.pendingBundles[world.nextTicket := ViewBundle(view)],
                        nextTicket := world.nextTicket + 1);
        status := Completed;
      }
    }

    /** Also called by `OpenView` halfway through a transition, so `Valid()` is kept rather than demanded. */
    method UpdateView(id: Id, data: Data) returns (status: Status)
      modifies this
      ensures Step(State(), status) == ViewManagerSpec.UpdateView(old(State()), id, data)
      ensures old(Valid()) ==> Valid()
    {
      if Valid() {
        UpdateViewInv(State(), id, data);
      }
      if id !in registered || registered[id].layerId !in activeViews {
        return Ignored;
      }
      var viewOnLayer := activeViews[registered[id].layerId];
      if viewOnLayer.Some? && viewOnLayer.value.viewId == id {
        world := world.(updates := world.updates + [Update(viewOnLayer.value, data)]);
        return Completed;
      }
      status := Ignored;
    }

    /** Create the view, announce it, hand it `initData`: the tail shared by both branches of `AddView`. */
    method OpenView(view: ViewInfo, initData: Option<Data>, prefabIsView: bool) returns (status: Status)
      modifies this
      ensures Step(State(), status) == ViewManagerSpec.OpenView(old(State()), view, initData, prefabIsView)
    {
      status := CreateAndAddView(view, prefabIsView);
      if status.Faulted? {
        return;
      }
      DispatchViewOpened(view.viewId);
      if initData.Some? {
        var _ := UpdateView(view.viewId, initData.value);
      }
      status := Completed;
    }

    method AddView(id: Id, initData: Option<Data>, prefabIsView: bool) returns (status: Status)
      requires Valid()
      modifies this
      ensures Step(State(), status) == ViewManagerSpec.AddView(old(State()), id, initData, prefabIsView)
      ensures Valid()
    {
      AddViewInv(State(), id, initData, prefabIsView);
      status := RequestView(id, initData, prefabIsView);
    }

    /** The body of `AddView`: open the view on an empty slot, or hand the occupant a delegate. */
    method RequestView(id: Id, initData: Option<Data>, prefabIsView: bool) returns (status: Status)
      modifies this
      ensures Step(State(), status) == ViewManagerSpec.AddView(old(State()), id, initData, prefabIsView)
    {
      if id !in registered {
        return Ignored;
      }
      var view := registered[id];
      if view.layerId !in activeViews {
        return Faulted(KeyNotFound);
      }
      var viewOnLayer := activeViews[view.layerId];
      if viewOnLayer.None? {
        status := OpenView(view, initData, prefabIsView);
        return;
      }
      if viewOnLayer.value.viewId == view.viewId || view.viewId in adding {
        return Ignored;
      }
      adding := adding + {view.viewId};
      status := Pending(world.nextTicket);
      world := world.(pendingOut := world.pendingOut[world.nextTicket := AddCompletion(view, viewOnLayer.value, initData)],
                      nextTicket := world.nextTicket + 1);
    }

    method RemoveView(id: Id, callback: Option<Callback>) returns (status: Status)
      requires Valid()
      modifies this
      ensures Step(State(), status) == ViewManagerSpec.RemoveView(old(State()), id, callback)
      ensures Valid()
    {
      RemoveViewInv(State(), id, callback);
      status := RequestRemoval(id, callback);
    }

    /** The body of `RemoveView`: hand the view on its layer a delegate that finishes the removal. */
    method RequestRemoval(id: Id, callback: Option<Callback>) returns (status: Status)
      modifies this
      ensures Step(State(), status) == ViewManagerSpec.RemoveView(old(State()), id, callback)
    {
      if id !in registered {
        return Ignored;
      }
      var view := registered[id];
      if view.layerId !in activeViews {
        return Faulted(KeyNotFound);
      }
      var viewOnLayer := activeViews[view.layerId];
      if viewOnLayer.None? || view.viewId != viewOnLayer.value.viewId || id in removing {
        return Ignored;
      }
      removing := removing + {id};
      status := Pending(world.nextTicket);
      world := world.(pendingOut := world.pendingOut[world.nextTicket := RemoveCompletion(view, viewOnLayer.value, callback)],
                      nextTicket := world.nextTicket + 1);
    }

    // ---------------------------------------------------------------- transitions finishing

    /** Empty the slot and destroy the view that left it. */
    method ClearSlot(layer: Id, outgoing: LiveView)
      modifies this
      ensures State() == old(State()).(activeViews := old(activeViews)[layer := None],
                                       destroyed := old(world.destroyed) + [outgoing])
    {
      activeViews := activeViews[layer := None];
      world := world.(destroyed := world.destroyed + [outgoing]);
    }

    /** The delegate `AddView` hands the occupant. */
    method CompleteAdd(view: ViewInfo, outgoing: LiveView, initData: Option<Data>, prefabIsView: bool) returns (status: Status)
      modifies this
      ensures Step(State(), status) == ViewManagerSpec.CompleteAdd(old(State()), view, outgoing, initData, prefabIsView)
    {
      ghost var st := State();
      ClearSlot(view.layerId, outgoing);
      status := OpenView(view, initData, prefabIsView);
      if status.Faulted? {
        CompleteAddFaulted(st, view, outgoing, initData, prefabIsView);
        return;
      }
      CompleteAddShown(st, view, outgoing, initData, prefabIsView);
      adding := adding - {view.viewId};
    }

    /** The stale check and the callback at the end of `RemoveView`'s delegate. */
    method EndRemoval(layer: Id, outgoing: LiveView, current: LiveView, callback: Option<Callback>)
      modifies this
      ensures State() == ViewManagerSpec.EndRemoval(old(State()), layer, outgoing, current, callback)
    {
      if outgoing.viewId == current.viewId {
        activeViews := activeViews[layer := None];
      }
      if callback.Some? {
        world := world.(invoked := world.invoked + [callback.value]);
      }
    }

    /** The delegate `RemoveView` hands the view. */
    method CompleteRemove(view: ViewInfo, outgoing: LiveView, callback: Option<Callback>) returns (status: Status)
      modifies this
      ensures Step(State(), status) == ViewManagerSpec.CompleteRemove(old(State()), view, outgoing, callback)
    {
      DispatchViewClosed(view.viewId);
      removing := removing - {view.viewId};
      world := world.(destroyed := world.destroyed + [outgoing]);
      if view.layerId !in activeViews {
        return Faulted(KeyNotFound);
      }
      var current := activeViews[view.layerId];
      if current.None? {
        return Faulted(NullReference);
      }
      EndRemoval(view.layerId, outgoing, current.value, callback);
      status := UpdateGreyoutPosition(view.layerId);
    }

    /**
     * An outgoing view finishing its transition and calling the delegate
     * it was handed under `ticket`.
     */
    method FireTransitionOut(ticket: nat, prefabIsView: bool) returns (status: Status)
      requires Valid()
      modifies this
      ensures Step(State(), status) == ViewManagerSpec.FireTransitionOut(old(State()), ticket, prefabIsView)
      ensures Valid()
    {
      FireTransitionOutInv(State(), ticket, prefabIsView);
      status := RunCompletion(ticket, prefabIsView);
    }

    /** The body of `FireTransitionOut`: take the delegate handed out under `ticket` and run it. */
    method RunCompletion(ticket: nat, prefabIsView: bool) returns (status: Status)
      modifies this
      ensures Step(State(), status) == ViewManagerSpec.FireTransitionOut(old(State()), ticket, prefabIsView)
    {
      if ticket !in world.pendingOut {
        return Ignored;
      }
      var completion := world.pendingOut[ticket];
      world := world.(pendingOut := world.pendingOut - {ticket});
      match completion
      case AddCompletion(view, outgoing, initData) =>
        status := CompleteAdd(view, outgoing, initData, prefabIsView);
      case RemoveCompletion(view, outgoing, callback) =>
        status := CompleteRemove(view, outgoing, callback);
    }

    /** `ViewLoadedFromBundle`: the loader answering the request under `ticket`. */
    method ViewLoadedFromBundle(ticket: nat, loaded: LoadedObject) returns (status: Status)
      requires Valid()
      modifies this
      ensures Step(State(), status) == BundleLoaded(old(State()), ticket, loaded)
      ensures Valid()
    {
      BundleLoadedInv(State(), ticket, loaded);
      status := PlaceLoadedView(ticket, loaded);
    }

    /** The body of `ViewLoadedFromBundle`: answer the request and place a loaded view. */
    method PlaceLoadedView(ticket: nat, loaded: LoadedObject) returns (status: Status)
      modifies this
      ensures Step(State(), status) == BundleLoaded(old(State()), ticket, loaded)
    {
      if ticket !in world.pendingBundles {
        return Ignored;
      }
      var request := world.pendingBundles[ticket];
      world := world.(pendingBundles := world.pendingBundles - {ticket});
      if loaded == Nothing || loaded == NotAGameObject {
        return Completed;
      }
      if request.SceneBundle? || !canvasLinked {
        return Faulted(NullReference);
      }
      if request.view.layerId !in layerNames {
        return Faulted(KeyNotFound);
      }
      if loaded == GameObjectWithoutView {
        return Completed;
      }
      activeViews := activeViews[request.view.layerId := Some(LiveView(world.nextInstance, request.view.viewId))];
      world := world.(nextInstance := world.nextInstance + 1);
      status := Completed;
    }

    // ---------------------------------------------------------------- queries

    method GetViewOnLayer(layer: Id) returns (id: Id)
      ensures id == ViewManagerSpec.GetViewOnLayer(State(), layer)
    {
      if layer in activeViews && activeViews[layer].Some? {
        return activeViews[layer].value.viewId;
      }
      id := NoView;
    }

    method IsActiveView(id: Id) returns (active: bool)
      requires Valid()
      ensures active == ViewManagerSpec.IsActiveView(State(), id)
    {
      if id !in registered {
        return false;
      }
      var view := registered[id];
      var viewOnLayer := activeViews[view.layerId];
      active := viewOnLayer.Some? && view.viewId == viewOnLayer.value.viewId;
    }

    /** `GetOccupiedLayers`: walk the layers in order, keeping those whose slot holds a view. */
    method GetOccupiedLayers() returns (occupied: seq<Id>)
      ensures occupied == ViewManagerSpec.GetOccupiedLayers(State())
    {
      occupied := [];
      var i := 0;
      while i < |layers|
        invariant 0 <= i <= |layers|
        invariant occupied == OccupiedLayers(layers[..i], activeViews)
      {
        OccupiedLayersAppend(layers[..i], layers[i], activeViews);
        assert layers[..i + 1] == layers[..i] + [layers[i]];
        if layers[i] in activeViews && activeViews[layers[i]].Some? {
          occupied := occupied + [layers[i]];
        }
        i := i + 1;
      }
      assert layers[..i] == layers;
    }

    // ---------------------------------------------------------------- removing everything

    /**
     * One iteration of the `RemoveAllViews` loops: `RemoveView` on the view
     * now on `layer`; when `layer` is in `sync`, that view's transition
     * finishes inside the call.
     */
    method RemoveOccupant(layer: Id, sync: set<Id>) returns (status: Status)
      modifies this
      ensures Step(State(), status) == ViewManagerSpec.RemoveOccupant(old(State()), layer, sync)
    {
      if layer !in activeViews {
        return Faulted(KeyNotFound);
      }
      var occupant := activeViews[layer];
      if occupant.None? {
        return Faulted(NullReference);
      }
      status := RequestRemoval(occupant.value.viewId, None);
      if status.Pending? && layer in sync {
        status := RunCompletion(status.ticket, false);
      }
    }

    /** `RemoveAllViews()`. */
    method RemoveAllViews(sync: set<Id>) returns (status: Status)
      requires Valid()
      modifies this
      ensures Step(State(), status) == ViewManagerSpec.RemoveAllViews(old(State()), sync)
      ensures Valid()
    {
      RemoveAllViewsInv(State(), sync);
      status := RemoveEachOccupied(sync);
    }

    /** The body of `RemoveAllViews()`: remove the view on each occupied layer, then hide the greyout. */
    method RemoveEachOccupied(sync: set<Id>) returns (status: Status)
      modifies this
      ensures Step(State(), status) == ViewManagerSpec.RemoveAllViews(old(State()), sync)
    {
      var occupied := GetOccupiedLayers();
      ghost var st := State();
      var i := 0;
      while i < |occupied|
        invariant 0 <= i <= |occupied|
        invariant RemoveEach(st, occupied, sync) == RemoveEach(State(), occupied[i..], sync)
      {
        assert occupied[i..][1..] == occupied[i + 1..];
        status := RemoveOccupant(occupied[i], sync);
        if status.Faulted? {
          return;
        }
        i := i + 1;
      }
      if !canvasLinked {
        return Faulted(NullReference);
      }
      greyoutOn := false;
      status := Completed;
    }

    /** `RemoveAllViews(exemptLayers)`; `None` is a null array. */
    method RemoveAllViewsExcept(exempt: Option<seq<Id>>, sync: set<Id>) returns (status: Status)
      requires Valid()
      modifies this
      ensures Step(State(), status) == ViewManagerSpec.RemoveAllViewsExcept(old(State()), exempt, sync)
      ensures Valid()
    {
      RemoveAllViewsExceptInv(State(), exempt, sync);
      status := RemoveEachOccupiedExcept(exempt, sync);
    }

    /** The body of `RemoveAllViews(exemptLayers)`: remove the view on each occupied layer not exempt. */
    method RemoveEachOccupiedExcept(exempt: Option<seq<Id>>, sync: set<Id>) returns (status: Status)
      modifies this
      ensures Step(State(), status) == ViewManagerSpec.RemoveAllViewsExcept(old(State()), exempt, sync)
    {
      var occupied := GetOccupiedLayers();
      ghost var st := State();
      status := Completed;
      var i := 0;
      while i < |occupied|
        invariant 0 <= i <= |occupied|
        invariant RemoveEachExcept(st, occupied, exempt, sync) == RemoveEachExcept(State(), occupied[i..], exempt, sync)
        invariant status == Completed
      {
        assert occupied[i..][1..] == occupied[i + 1..];
        if exempt.None? {
          return Faulted(ArgumentNull);
        }
        if occupied[i] !in exempt.value {
          status := RemoveOccupant(occupied[i], sync);
          if status.Faulted? {
            return;
          }
          status := UpdateGreyoutPosition(occupied[i]);
          if status.Faulted? {
            return;
          }
        }
        i := i + 1;
      }
      assert occupied[i..] == [];
    }

    // ---------------------------------------------------------------- input and scenes

    method ToggleCanvasInput(enabled: bool) returns (status: Status)
      requires Valid()
      modifies this
      ensures Step(State(), status) == ViewManagerSpec.ToggleCanvasInput(old(State()), enabled)
      ensures Valid()
    {
      ToggleCanvasInputInv(State(), enabled);
      status := CountInputToggle(enabled);
    }

    /** The body of `ToggleCanvasInput`: move the counter and switch the canvas group at zero. */
    method CountInputToggle(enabled: bool) returns (status: Status)
      modifies this
      ensures Step(State(), status) == ViewManagerSpec.ToggleCanvasInput(old(State()), enabled)
    {
      if enabled {
        inputDisableCounter := inputDisableCounter - 1;
        if inputDisableCounter == 0 {
          if !canvasLinked {
            return Faulted(NullReference);
          }
          interactable := true;
        }
      } else {
        if inputDisableCounter == 0 {
          if !canvasLinked {
            return Faulted(NullReference);
          }
          interactable := false;
        }
        inputDisableCounter := inputDisableCounter + 1;
      }
      if editorChecks && inputDisableCounter < 0 {
        return Faulted(InputCounterBelowZero);
      }
      status := Completed;
    }

    method ChangeScene(name: string, loadComplete: Option<Callback>)
      requires Valid()
      modifies this
      ensures State() == ViewManagerSpec.ChangeScene(old(State()), name, loadComplete)
      ensures Valid()
    {
      ChangeSceneInv(State(), name, loadComplete);
      loadingScene := true;
      if loadComplete.Some? {
        sceneCallbacks := sceneCallbacks + [loadComplete.value];
      }
      world := world.(sceneLoads := world.sceneLoads + [name]);
    }

    method ChangeSceneBundle(bundlePath: string, loadComplete: Option<Callback>) returns (status: Status)
      requires Valid()
      modifies this
      ensures Step(State(), status) == ViewManagerSpec.ChangeSceneBundle(old(State()), bundlePath, loadComplete)
      ensures Valid()
    {
      ChangeSceneBundleInv(State(), bundlePath, loadComplete);
      if !bundleLoaderSet {
        return Ignored;
      }
      if loadComplete.Some? {
        sceneCallbacks := sceneCallbacks + [loadComplete.value];
      }
      status := Pending(world.nextTicket);
      world := world.(pendingBundles := world.pendingBundles[world.nextTicket := SceneBundle(NewBundleInfo(Some(bundlePath)))],
                      nextTicket := world.nextTicket + 1);
    }

    method OnSceneLoadComplete()
      requires Valid()
      modifies this
      ensures State() == ViewManagerSpec.OnSceneLoadComplete(old(State()))
      ensures Valid()
    {
      OnSceneLoadCompleteInv(State());
      loadingScene := false;
      world := world.(invoked := world.invoked + sceneCallbacks);
      sceneCallbacks := [];
    }
  }

  /** Walking one more layer appends it when its slot holds a view. */
  lemma {:induction false} OccupiedLayersAppend(s: seq<Id>, l: Id, active: map<Id, Option<LiveView>>)
    ensures OccupiedLayers(s + [l], active)
         == OccupiedLayers(s, active) + (if l in active && active[l].Some? then [l] else [])
    decreases |s|
  {
    if s == [] {
      assert s + [l] == [l] && [l][1..] == [];
    } else {
      assert (s + [l])[0] == s[0] && (s + [l])[1..] == s[1..] + [l];
      OccupiedLayersAppend(s[1..], l, active);
    }
  }
}
