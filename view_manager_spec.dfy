/**
 * The view manager's behaviour as functions on a state value.
 *
 * Every public operation of `ViewManager` (and the private steps it is
 * built from) is a function from the manager's state to a `Step`: the
 * new state and what the call did. The imperative class in
 * view_manager.dfy is proved against these functions, and the lemmas in
 * view_manager_props.dfy state what the design promises about them.
 *
 * Collaborators the manager only calls into are recorded, not executed:
 * - `TransitionOut(callback)` on an outgoing view leaves a pending
 *   completion under a ticket; `FireTransitionOut` runs it later. A view
 *   that calls back at once is the same as firing the ticket right after
 *   the call returns, since `TransitionOut` is the last statement of both
 *   `AddView` and `RemoveView`.
 * - the bundle loader leaves a pending request under a ticket;
 *   `BundleLoaded` is the loader calling back.
 * - destroyed views, delivered updates, invoked callbacks and requested
 *   scene loads are appended to logs.
 */
module ViewManagerSpec {
  import opened Wrappers
  import opened ViewData
  import opened Sorting

  /** What `GetViewOnLayer` returns for a layer without a view. */
  const NoView: Id := -1

  /** A view instantiated from a prefab: a fresh instance number and the ID given by `SetViewID`. */
  datatype LiveView = LiveView(instance: nat, viewId: Id)

  /** A caller's delegate (a `RemoveView` or a scene-load callback), told apart by a key. */
  datatype Callback = Callback(key: nat)

  /** The opaque object handed to `UpdateView`. */
  datatype Data = Data(key: nat)

  /** What the `viewOpened` and `viewClosed` subscribers receive. */
  datatype ViewEvent = Opened(id: Id) | Closed(id: Id)

  /** A call of `IView.UpdateView` on a live view. */
  datatype Update = Update(target: LiveView, data: Data)

  /** The object a bundle loader passes back to `ViewLoadedFromBundle`. */
  datatype LoadedObject = Nothing | NotAGameObject | GameObjectWithoutView | GameObjectWithView

  /** What was handed to the bundle loader: a view descriptor or a plain bundle (a scene). */
  datatype BundleRequest = ViewBundle(view: ViewInfo) | SceneBundle(info: BundleInfo)

  /** The delegate a `TransitionOut` call is waiting to run. */
  datatype Completion =
    | AddCompletion(view: ViewInfo, outgoing: LiveView, initData: Option<Data>)
    | RemoveCompletion(view: ViewInfo, outgoing: LiveView, callback: Option<Callback>)

  /** The exceptions that can escape the manager. */
  datatype Fault =
    | AlreadyRegistered      // InvalidOperationException from RegisterView
    | NullReference          // a null canvas, slot, overlay list or bundle descriptor dereferenced
    | KeyNotFound            // a Dictionary indexer on a missing key
    | ArgumentNull           // Array.IndexOf on a null exempt array
    | InputCounterBelowZero  // the editor-only check in ToggleCanvasInput

  /** What a call did: nothing (a warning at most), all of its work, wait on a ticket, or throw. */
  datatype Status = Ignored | Completed | Pending(ticket: nat) | Faulted(fault: Fault)

  datatype ViewState = ViewState(
    // BaseViewManager
    activeViews: map<Id, Option<LiveView>>,
    openedListened: bool,
    closedListened: bool,
    events: seq<ViewEvent>,
    // registry and layers
    registered: map<Id, ViewInfo>,
    layers: seq<Id>,
    layerNames: map<Id, string>,
    canvasLinked: bool,
    // the in-flight guards
    adding: set<Id>,
    removing: set<Id>,
    // the overlay backdrop
    overlays: Option<seq<Id>>,
    greyoutOn: bool,
    // input
    inputDisableCounter: int,
    interactable: bool,
    editorChecks: bool,
    // scenes and bundles
    loadingScene: bool,
    sceneCallbacks: seq<Callback>,
    bundleLoaderSet: bool,
    sceneLoads: seq<string>,
    // collaborators
    pendingOut: map<nat, Completion>,
    pendingBundles: map<nat, BundleRequest>,
    nextTicket: nat,
    nextInstance: nat,
    destroyed: seq<LiveView>,
    updates: seq<Update>,
    invoked: seq<Callback>
  )

  datatype Step = Step(st: ViewState, status: Status)

  /** A freshly constructed manager; `editorChecks` says whether the UNITY_EDITOR-only check is compiled in. */
  function Initial(editorChecks: bool): ViewState {
    ViewState(map[], false, false, [], map[], [], map[], false, {}, {}, None, false,
              0, true, editorChecks, false, [], false, [], map[], map[], 0, 0, [], [], [])
  }

  // ---------------------------------------------------------------- invariant
  //
  // Each part takes only the fields it constrains, so a transition that
  // leaves those fields alone keeps the part without reopening it.

  /** One slot per layer, each layer listed once and named, in order once the canvas exists. */
  ghost predicate LayersOk(layers: seq<Id>, slots: set<Id>, layerNames: map<Id, string>, canvasLinked: bool) {
    && Distinct(layers)
    && (forall l :: l in layers <==> l in slots)
    && (forall l :: l in layers ==> l in layerNames)
    && (canvasLinked ==> Sorted(layers))
  }

  /** Descriptors are keyed by their own ID, their layer has a slot, and the guards name registered views. */
  ghost predicate RegistryOk(registered: map<Id, ViewInfo>, slots: set<Id>, adding: set<Id>, removing: set<Id>) {
    && (forall id :: id in registered ==> registered[id].viewId == id && registered[id].layerId in slots)
    && adding <= registered.Keys
    && removing <= registered.Keys
  }

  /** A view on layer `l` is a registered view of that layer, created by this manager. */
  ghost predicate Placed(registered: map<Id, ViewInfo>, nextInstance: nat, v: LiveView, l: Id) {
    v.viewId in registered && registered[v.viewId].layerId == l && v.instance < nextInstance
  }

  ghost predicate SlotsOk(activeViews: map<Id, Option<LiveView>>, registered: map<Id, ViewInfo>, nextInstance: nat) {
    forall l :: l in activeViews && activeViews[l].Some? ==> Placed(registered, nextInstance, activeViews[l].value, l)
  }

  /** A pending completion belongs to a registered view and is covered by its guard set. */
  ghost predicate Awaiting(registered: map<Id, ViewInfo>, nextInstance: nat, adding: set<Id>, removing: set<Id>, x: Completion) {
    && x.view.viewId in registered
    && registered[x.view.viewId] == x.view
    && x.outgoing.instance < nextInstance
    && (x.AddCompletion? ==> x.view.viewId in adding)
    && (x.RemoveCompletion? ==> x.view.viewId in removing && x.outgoing.viewId == x.view.viewId)
  }

  ghost predicate Requested(registered: map<Id, ViewInfo>, r: BundleRequest) {
    r.ViewBundle? ==> r.view.viewId in registered && registered[r.view.viewId] == r.view
  }

  /** Two completions of the same kind for the same view. */
  predicate SameRequest(x: Completion, y: Completion) {
    x.AddCompletion? == y.AddCompletion? && x.view.viewId == y.view.viewId
  }

  /** Tickets are issued once, and at most one completion of each kind waits per view. */
  ghost predicate PendingOk(pendingOut: map<nat, Completion>, pendingBundles: map<nat, BundleRequest>, nextTicket: nat,
                            registered: map<Id, ViewInfo>, nextInstance: nat, adding: set<Id>, removing: set<Id>) {
    && (forall t :: t in pendingOut ==> t < nextTicket && Awaiting(registered, nextInstance, adding, removing, pendingOut[t]))
    && (forall t :: t in pendingBundles ==> t < nextTicket && t !in pendingOut && Requested(registered, pendingBundles[t]))
    && (forall t1, t2 ::
          (t1 in pendingOut && t2 in pendingOut && SameRequest(pendingOut[t1], pendingOut[t2])) ==> t1 == t2)
  }

  /** The canvas is interactable exactly when no disable is outstanding; nothing is shown before the canvas exists. */
  ghost predicate InputOk(interactable: bool, inputDisableCounter: int, canvasLinked: bool,
                          pendingOut: map<nat, Completion>, activeViews: map<Id, Option<LiveView>>) {
    && (interactable <==> inputDisableCounter <= 0)
    && (!canvasLinked ==>
          && inputDisableCounter <= 0
          && pendingOut == map[]
          && forall l :: l in activeViews ==> activeViews[l].None?)
  }

  ghost predicate Inv(st: ViewState) {
    && LayersOk(st.layers, st.activeViews.Keys, st.layerNames, st.canvasLinked)
    && RegistryOk(st.registered, st.activeViews.Keys, st.adding, st.removing)
    && SlotsOk(st.activeViews, st.registered, st.nextInstance)
    && PendingOk(st.pendingOut, st.pendingBundles, st.nextTicket, st.registered, st.nextInstance, st.adding, st.removing)
    && InputOk(st.interactable, st.inputDisableCounter, st.canvasLinked, st.pendingOut, st.activeViews)
  }

  // ---------------------------------------------------------------- layers

  /** The hierarchy name a layer gets from `layerId.ToString()`. */
  function IdName(id: Id): string {
    if id < 0 then "-" + Digits(-id) else Digits(id)
  }

  function Digits(n: nat): string
    decreases n
  {
    if n < 10 then ["0123456789"[n]] else Digits(n / 10) + ["0123456789"[n % 10]]
  }

  /** `RegisterLayer`: a new layer gets an empty slot and a default name; the list is re-sorted once a canvas is linked. */
  function RegisterLayer(st: ViewState, layerId: Id): ViewState {
    if layerId in st.layers then st
    else
      var layers := st.layers + [layerId];
      st.(layers := if st.canvasLinked then Sort(layers) else layers,
          activeViews := st.activeViews[layerId := None],
          layerNames := if layerId in st.layerNames then st.layerNames
                        else st.layerNames[layerId := IdName(layerId)])
  }

  /**
   * Both `RegisterView` overloads: the three-argument one passes
   * `Some("")` as `bundlePath`. A known ID throws and changes nothing.
   */
  function RegisterView(st: ViewState, id: Id, layerId: Id, path: string, bundlePath: Option<string>): Step {
    if id in st.registered then Step(st, Faulted(AlreadyRegistered))
    else
      var info := NewViewInfo(id, layerId, path, bundlePath);
      Step(RegisterLayer(st.(registered := st.registered[id := info]), layerId), Completed)
  }

  /** `LinkCanvas`: the layers are sorted into hierarchy order and a new, hidden greyout is created. */
  function LinkCanvas(st: ViewState): ViewState {
    st.(canvasLinked := true, layers := Sort(st.layers), greyoutOn := false)
  }

  /** `NameLayer`: renaming a known layer looks it up under the canvas, which must exist. */
  function NameLayer(st: ViewState, layerId: Id, name: string): Step {
    if layerId in st.layerNames && !st.canvasLinked then Step(st, Faulted(NullReference))
    else Step(st.(layerNames := st.layerNames[layerId := name]), Completed)
  }

  /**
   * `DeclareOverlays`: the overlay layers, kept sorted bottom to top.  A null
   * list (`None`) is stored before its `Sort` throws.
   */
  function DeclareOverlays(st: ViewState, overlayLayers: Option<seq<Id>>): Step {
    match overlayLayers
    case None => Step(st.(overlays := None), Faulted(NullReference))
    case Some(layers) => Step(st.(overlays := Some(Sort(layers))), Completed)
  }

  function SetBundleLoadMethod(st: ViewState, loaderSet: bool): ViewState {
    st.(bundleLoaderSet := loaderSet)
  }

  /** Subscribing to or unsubscribing from `viewOpened` / `viewClosed`. */
  function SetListeners(st: ViewState, openedSubscribed: bool, closedSubscribed: bool): ViewState {
    st.(openedListened := openedSubscribed, closedListened := closedSubscribed)
  }

  // ---------------------------------------------------------------- events

  /** `DispatchViewOpened`: subscribers, if any, hear of the view. */
  function DispatchOpened(st: ViewState, id: Id): ViewState {
    st.(events := if st.openedListened then st.events + [Opened(id)] else st.events)
  }

  /** `DispatchViewClosed`. */
  function DispatchClosed(st: ViewState, id: Id): ViewState {
    st.(events := if st.closedListened then st.events + [Closed(id)] else st.events)
  }

  // ---------------------------------------------------------------- greyout

  /**
   * The top-down scan of `UpdateGreyoutPosition`: `Some(true)` when it
   * stops at an occupied overlay, `Some(false)` when it finds none, and
   * `None` when it reaches an overlay layer that has no slot (the
   * indexer throws).
   */
  function ScanOverlays(overlays: seq<Id>, active: map<Id, Option<LiveView>>): Option<bool>
    decreases |overlays|
  {
    if overlays == [] then Some(false)
    else
      var top := overlays[|overlays| - 1];
      if top !in active then None
      else if active[top].Some? then Some(true)
      else ScanOverlays(overlays[..|overlays| - 1], active)
  }

  /** What `UpdateGreyoutPosition` does to the greyout. */
  datatype GreyoutChange = Untouched | SetTo(on: bool) | Throws

  /** Only a change on an overlay layer moves the greyout. */
  function GreyoutChangeFor(overlays: Option<seq<Id>>, active: map<Id, Option<LiveView>>, updatedLayer: Id): GreyoutChange {
    if overlays.None? || updatedLayer !in overlays.value then Untouched
    else match ScanOverlays(overlays.value, active)
      case None => Throws
      case Some(on) => SetTo(on)
  }

  /** `UpdateGreyoutPosition`. */
  function UpdateGreyout(st: ViewState, updatedLayer: Id): Step {
    var change := GreyoutChangeFor(st.overlays, st.activeViews, updatedLayer);
    Step(st.(greyoutOn := if change.SetTo? then change.on else st.greyoutOn),
         if change.Throws? then Faulted(KeyNotFound) else Completed)
  }

  // ---------------------------------------------------------------- showing views

  /**
   * `CreateAndAddView`: a prefab from Resources is instantiated into the
   * slot when it carries an `IView` (an error is logged otherwise); a
   * bundled view is requested from the loader, or an error is logged
   * when no loader is set.
   */
  function CreateAndAddView(st: ViewState, view: ViewInfo, prefabIsView: bool): Step {
    if !st.canvasLinked then Step(st, Faulted(NullReference))
    else if view.layerId !in st.layerNames then Step(st, Faulted(KeyNotFound))
    else if !view.LoadFromBundle() then
      if !prefabIsView then Step(st, Completed)
      else
        var v := LiveView(st.nextInstance, view.viewId);
        UpdateGreyout(st.(activeViews := st.activeViews[view.layerId := Some(v)],
                          nextInstance := st.nextInstance + 1), view.layerId)
    else if !st.bundleLoaderSet then Step(st, Completed)
    else
      Step(st.(pendingBundles := st.pendingBundles[st.nextTicket := ViewBundle(view)],
               nextTicket := st.nextTicket + 1), Completed)
  }

  /**
   * `UpdateView`: the data reaches the view only when that view is the one
   * on its layer; an unregistered ID, a layer without a slot, an empty slot
   * and another view on the layer each draw a warning.
   */
  function UpdateView(st: ViewState, id: Id, data: Data): Step {
    if IsActiveView(st, id) then
      var v := st.activeViews[st.registered[id].layerId].value;
      Step(st.(updates := st.updates + [Update(v, data)]), Completed)
    else Step(st, Ignored)
  }

  /** Announce a view that was just shown, then hand it `initData`, if any. */
  function Announce(st: ViewState, id: Id, initData: Option<Data>): ViewState {
    var announced := DispatchOpened(st, id);
    match initData
      case None => announced
      case Some(d) => UpdateView(announced, id, d).st
  }

  /** Create the view, then announce it: the tail shared by both branches of `AddView`. */
  function OpenView(st: ViewState, view: ViewInfo, initData: Option<Data>, prefabIsView: bool): Step {
    var r := CreateAndAddView(st, view, prefabIsView);
    if r.status.Faulted? then r else Step(Announce(r.st, view.viewId, initData), Completed)
  }

  /**
   * `AddView`: an unregistered ID, a view already on its layer and a view
   * already waiting to replace the occupant are ignored; an occupied layer
   * asks the occupant to transition out and waits; an empty layer gets
   * the view at once.
   */
  function AddView(st: ViewState, id: Id, initData: Option<Data>, prefabIsView: bool): Step {
    if id !in st.registered then Step(st, Ignored)
    else
      var view := st.registered[id];
      if view.layerId !in st.activeViews then Step(st, Faulted(KeyNotFound))
      else match st.activeViews[view.layerId]
        case Some(occupant) =>
          if occupant.viewId == view.viewId || view.viewId in st.adding then Step(st, Ignored)
          else
            var t := st.nextTicket;
            Step(st.(adding := st.adding + {view.viewId},
                     pendingOut := st.pendingOut[t := AddCompletion(view, occupant, initData)],
                     nextTicket := t + 1), Pending(t))
        case None => OpenView(st, view, initData, prefabIsView)
  }

  /** `RemoveView`: only the view on its layer, and only once at a time, is asked to transition out. */
  function RemoveView(st: ViewState, id: Id, callback: Option<Callback>): Step {
    if id !in st.registered then Step(st, Ignored)
    else
      var view := st.registered[id];
      if view.layerId !in st.activeViews then Step(st, Faulted(KeyNotFound))
      else match st.activeViews[view.layerId]
        case Some(occupant) =>
          if view.viewId == occupant.viewId && id !in st.removing then
            var t := st.nextTicket;
            Step(st.(removing := st.removing + {id},
                     pendingOut := st.pendingOut[t := RemoveCompletion(view, occupant, callback)],
                     nextTicket := t + 1), Pending(t))
          else Step(st, Ignored)
        case None => Step(st, Ignored)
  }

  /**
   * An outgoing view finishing its transition: the delegate `AddView` or
   * `RemoveView` passed to `TransitionOut` runs. `prefabIsView` is what
   * the replacing view's prefab turns out to be.
   */
  function FireTransitionOut(st: ViewState, ticket: nat, prefabIsView: bool): Step {
    if ticket !in st.pendingOut then Step(st, Ignored)
    else
      var st0 := st.(pendingOut := st.pendingOut - {ticket});
      match st.pendingOut[ticket]
        case AddCompletion(view, outgoing, initData) => CompleteAdd(st0, view, outgoing, initData, prefabIsView)
        case RemoveCompletion(view, outgoing, callback) => CompleteRemove(st0, view, outgoing, callback)
  }

  /** The delegate `AddView` hands the occupant: destroy it, then show the waiting view and release its guard. */
  function CompleteAdd(st: ViewState, view: ViewInfo, outgoing: LiveView, initData: Option<Data>, prefabIsView: bool): Step {
    var cleared := st.(activeViews := st.activeViews[view.layerId := None], destroyed := st.destroyed + [outgoing]);
    var r := OpenView(cleared, view, initData, prefabIsView);
    if r.status.Faulted? then r
    else Step(r.st.(adding := r.st.adding - {view.viewId}), Completed)
  }

  /**
   * The delegate `RemoveView` hands the view: announce the close, release
   * the guard, destroy the view, empty the slot unless another view took
   * it meanwhile, run the caller's callback and re-place the greyout.
   */
  function CompleteRemove(st: ViewState, view: ViewInfo, outgoing: LiveView, callback: Option<Callback>): Step {
    var closed := DispatchClosed(st, view.viewId);
    var st1 := closed.(removing := closed.removing - {view.viewId}, destroyed := closed.destroyed + [outgoing]);
    if view.layerId !in st1.activeViews then Step(st1, Faulted(KeyNotFound))
    else match st1.activeViews[view.layerId]
      case None => Step(st1, Faulted(NullReference))
      case Some(current) => UpdateGreyout(EndRemoval(st1, view.layerId, outgoing, current, callback), view.layerId)
  }

  /** The stale check and the callback: the slot is emptied only while it still holds a view of the outgoing ID. */
  function EndRemoval(st: ViewState, layer: Id, outgoing: LiveView, current: LiveView, callback: Option<Callback>): ViewState {
    st.(activeViews := if outgoing.viewId == current.viewId then st.activeViews[layer := None] else st.activeViews,
        invoked := if callback.Some? then st.invoked + [callback.value] else st.invoked)
  }

  /** `ViewLoadedFromBundle`: the loader answering the request under `ticket`. */
  function BundleLoaded(st: ViewState, ticket: nat, loaded: LoadedObject): Step {
    if ticket !in st.pendingBundles then Step(st, Ignored)
    else
      var st1 := st.(pendingBundles := st.pendingBundles - {ticket});
      if loaded == Nothing || loaded == NotAGameObject then Step(st1, Completed)
      else match st.pendingBundles[ticket]
        case SceneBundle(_) => Step(st1, Faulted(NullReference))
        case ViewBundle(view) =>
          if !st1.canvasLinked then Step(st1, Faulted(NullReference))
          else if view.layerId !in st1.layerNames then Step(st1, Faulted(KeyNotFound))
          else if loaded == GameObjectWithoutView then Step(st1, Completed)
          else
            var v := LiveView(st1.nextInstance, view.viewId);
            Step(st1.(activeViews := st1.activeViews[view.layerId := Some(v)],
                      nextInstance := st1.nextInstance + 1), Completed)
  }

  // ---------------------------------------------------------------- queries

  /** `GetViewOnLayer`: the ID of the view on `layer`, or -1. */
  function GetViewOnLayer(st: ViewState, layer: Id): Id {
    if layer in st.activeViews && st.activeViews[layer].Some? then st.activeViews[layer].value.viewId
    else NoView
  }

  /** `IsActiveView`: the view is registered and is the one on its layer. */
  function IsActiveView(st: ViewState, id: Id): bool {
    && id in st.registered
    && st.registered[id].layerId in st.activeViews
    && st.activeViews[st.registered[id].layerId].Some?
    && st.activeViews[st.registered[id].layerId].value.viewId == id
  }

  /** The layers of `layers` whose slot holds a view, in the same order. */
  function OccupiedLayers(layers: seq<Id>, active: map<Id, Option<LiveView>>): (r: seq<Id>)
    ensures forall l :: l in r ==> l in layers && l in active && active[l].Some?
    ensures forall l :: l in layers && l in active && active[l].Some? ==> l in r
    ensures |r| <= |layers|
  {
    if layers == [] then []
    else
      var rest := OccupiedLayers(layers[1..], active);
      if layers[0] in active && active[layers[0]].Some? then [layers[0]] + rest else rest
  }

  function GetOccupiedLayers(st: ViewState): seq<Id> {
    OccupiedLayers(st.layers, st.activeViews)
  }

  // ---------------------------------------------------------------- removing everything

  /**
   * One iteration of the `RemoveAllViews` loops: remove the view now on
   * `layer`. `sync` holds the layers whose view finishes its transition
   * at once, inside the call.
   */
  function RemoveOccupant(st: ViewState, layer: Id, sync: set<Id>): Step {
    if layer !in st.activeViews then Step(st, Faulted(KeyNotFound))
    else match st.activeViews[layer]
      case None => Step(st, Faulted(NullReference))
      case Some(occupant) =>
        var r := RemoveView(st, occupant.viewId, None);
        if r.status.Pending? && layer in sync then FireTransitionOut(r.st, r.status.ticket, false) else r
  }

  function RemoveEach(st: ViewState, occupied: seq<Id>, sync: set<Id>): Step
    decreases |occupied|
  {
    if occupied == [] then Step(st, Completed)
    else
      var r := RemoveOccupant(st, occupied[0], sync);
      if r.status.Faulted? then r else RemoveEach(r.st, occupied[1..], sync)
  }

  /** `RemoveAllViews()`: remove the view on every occupied layer, then hide the greyout at once. */
  function RemoveAllViews(st: ViewState, sync: set<Id>): Step {
    var r := RemoveEach(st, GetOccupiedLayers(st), sync);
    if r.status.Faulted? then r
    else if !r.st.canvasLinked then Step(r.st, Faulted(NullReference))
    else Step(r.st.(greyoutOn := false), Completed)
  }

  function RemoveEachExcept(st: ViewState, occupied: seq<Id>, exempt: Option<seq<Id>>, sync: set<Id>): Step
    decreases |occupied|
  {
    if occupied == [] then Step(st, Completed)
    else if exempt.None? then Step(st, Faulted(ArgumentNull))
    else if occupied[0] in exempt.value then RemoveEachExcept(st, occupied[1..], exempt, sync)
    else
      var r := RemoveOccupant(st, occupied[0], sync);
      if r.status.Faulted? then r
      else
        var g := UpdateGreyout(r.st, occupied[0]);
        if g.status.Faulted? then g else RemoveEachExcept(g.st, occupied[1..], exempt, sync)
  }

  /** `RemoveAllViews(exemptLayers)`: as above, skipping the exempt layers, re-placing the greyout after each. */
  function RemoveAllViewsExcept(st: ViewState, exempt: Option<seq<Id>>, sync: set<Id>): Step {
    RemoveEachExcept(st, GetOccupiedLayers(st), exempt, sync)
  }

  // ---------------------------------------------------------------- input

  /** The disable counter and canvas-group flag after a toggle, and the exception it throws, if any. */
  datatype InputEffect = InputEffect(counter: int, interactable: bool, fault: Option<Fault>)

  /**
   * Nested disables are counted and only the first disable and the
   * matching last enable touch the canvas group, which needs the canvas.
   * An enable decrements before it reaches the canvas; a disable reaches
   * the canvas before it increments. With the editor check compiled in, a
   * count below zero throws after the update.
   */
  function Toggle(counter: int, interactable: bool, canvasLinked: bool, editorChecks: bool, enabled: bool): InputEffect {
    if enabled then
      var c := counter - 1;
      if c == 0 && !canvasLinked then InputEffect(c, interactable, Some(NullReference))
      else
        var flag := if c == 0 then true else interactable;
        InputEffect(c, flag, if editorChecks && c < 0 then Some(InputCounterBelowZero) else None)
    else if counter == 0 && !canvasLinked then InputEffect(counter, interactable, Some(NullReference))
    else
      var flag := if counter == 0 then false else interactable;
      var c := counter + 1;
      InputEffect(c, flag, if editorChecks && c < 0 then Some(InputCounterBelowZero) else None)
  }

  /** `ToggleCanvasInput`. */
  function ToggleCanvasInput(st: ViewState, enabled: bool): Step {
    var e := Toggle(st.inputDisableCounter, st.interactable, st.canvasLinked, st.editorChecks, enabled);
    Step(st.(inputDisableCounter := e.counter, interactable := e.interactable),
         if e.fault.Some? then Faulted(e.fault.value) else Completed)
  }

  // ---------------------------------------------------------------- scenes

  /** `ChangeScene`: always loads (a load already under way only draws a warning) and queues the callback. */
  function ChangeScene(st: ViewState, name: string, loadComplete: Option<Callback>): ViewState {
    st.(loadingScene := true,
        sceneCallbacks := st.sceneCallbacks + (if loadComplete.Some? then [loadComplete.value] else []),
        sceneLoads := st.sceneLoads + [name])
  }

  /** `ChangeSceneBundle`: without a loader nothing happens; otherwise the callback is queued and the bundle requested. */
  function ChangeSceneBundle(st: ViewState, bundlePath: string, loadComplete: Option<Callback>): Step {
    if !st.bundleLoaderSet then Step(st, Ignored)
    else
      var t := st.nextTicket;
      Step(st.(sceneCallbacks := st.sceneCallbacks + (if loadComplete.Some? then [loadComplete.value] else []),
               pendingBundles := st.pendingBundles[t := SceneBundle(NewBundleInfo(Some(bundlePath)))],
               nextTicket := t + 1), Pending(t))
  }

  /** `OnSceneLoadComplete`: the queued callbacks run once, in order, and the queue is emptied. */
  function OnSceneLoadComplete(st: ViewState): ViewState {
    st.(loadingScene := false, invoked := st.invoked + st.sceneCallbacks, sceneCallbacks := [])
  }
}
