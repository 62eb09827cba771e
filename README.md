# Verified model of the ThereBeDragons core modules and the PriorityQueue sample

This project is a Dafny model of the logic in a small Unity game framework,
and of the console priority queue that ships with it. Each module is proved
against contracts that say what the original C# promises.

- **View manager** (`ViewManagerSystem`, with the pure specification
  `ViewManagerSpec`).
  - It holds a registry of view descriptors and one occupant slot per UI
    layer.
  - Two guard sets track views being added and views being removed.
  - It also holds an input-disable counter and a scene-loading flag with
    its pending callbacks.
  - View transitions are asynchronous. A transition out hands a completion
    *ticket* to the environment, and `FireTransitionOut` runs it later.
    Views loaded from asset bundles arrive the same way.
  - The class `ViewManager` reassigns its fields. Each method ensures that
    the new state (and the call's status: completed, ignored, pending or
    the exception it throws) equals the specification function of the same
    name.
  - `Valid()` is `Inv` of the fields. The constructor establishes it, and
    every public method and every callback the environment makes
    (`FireTransitionOut`, `ViewLoadedFromBundle`, `OnSceneLoadComplete`)
    requires and keeps it. `UpdateView`, which opening a view also calls in the
    middle of a transition, keeps it whenever it held.
  - `ViewManagerInvariant` proves that every transition keeps the
    invariant `Inv`:
    - every layer has exactly one slot and a name, and the layers are
      sorted once a canvas is linked;
    - every descriptor sits on a known layer, and every occupant is a
      registered view of that layer;
    - every pending completion belongs to a registered view, is covered by
      its guard set, and is alone of its kind for that view;
    - the canvas is interactable exactly when the disable counter is at most zero (without the editor-only check the counter can go negative).
  - `ViewManagerProperties` proves the behaviour the source promises:
    - add and remove guards;
    - deferred replacement;
    - the stale-occupant check on removal;
    - query results;
    - bulk removal;
    - input toggling;
    - scene callbacks;
    - the overlay backdrop decision.
- **Singleton guard** (`Singleton`). It stands for the static
  `_isInstantiated` flag shared by every view manager, and the one shared by
  every event manager.
- **View descriptors** (`ViewData`): `BundleInfo` and `ViewInfo`.
- **Event manager** (`EventManagerSystem`, `EventManagerSpec`,
  `EventManagerProperties`). This is a re-entrant first-in first-out
  dispatcher.
  - Each event goes to a snapshot of the observers taken when its
    processing starts.
  - An observer reacts by issuing `Register`, `Unregister` or `Dispatch`
    calls, given as a function parameter.
  - A dispatch made during processing is only queued.
  - `Register`, `Unregister` and `Dispatch` require and keep `Valid()`,
    the invariant of `EventManagerProperties` on the fields.
  - A null event is queued like any other; its processing throws in the
    log line, before any observer hears of it.
- **Priority queue** (`PriorityQueueSystem`, `PriorityQueueSpec`,
  `PriorityQueueProperties`).
  - It is an unbalanced binary search tree keyed by priority, with a
    first-in first-out bucket in each node.
  - Its contents are the in-order sequence of (priority, value) entries.
    Every operation is proved against that sequence: sorted insertion,
    removal of the front or back, and the printed text.
  - `PriorityQueueDemo` replays the sample console program and proves each
    value it prints.
- **Sound manager** (`SoundManagers`, `SoundManagerSpecs`).
  - Layers are routed by ID. `PlaySoundOnLayer` is modelled as written,
    including the exception a single-sound layer raises for an ID missing
    from the bank; the corrected composition is proved beside it (see
    Findings).
  - A single-sound layer (`SingleSoundLayers`, `SingleLayerSpecs`) has a
    one-slot queue in which the latest request wins, and cross-fades.
  - A multi-sound layer (`MultiSoundLayers`, `MultiLayerSpecs`) counts
    instances per sound ID against a maximum.
  - The audio source controller (`AudioSourceControllers`) has the
    play/pause/stop flag machine, the completion monitor and the static
    per-clip reference count.
  - The sound bank (`SoundBanks`) is an index keyed by audio ID, in which
    the first entry wins.
  - The sound object (`SoundObjects`) computes the resource name of its
    audio file path.
- **Unique IDs** (`Helpers`). A static 32-bit counter that is
  post-incremented on every read.

The model stands in for Unity and .NET in these ways:

- Controllers are handles.
- `live` is the set of handles whose `AudioSource` still exists.
- Calls a layer makes on controllers are recorded in a command list.
- `load` stands for `Resources.Load`.
- `prefabIsView` says whether an instantiated prefab carries a view
  component.
- Flags such as `withEditorChecks` and `editorBuild` say whether the
  `UNITY_EDITOR`-only checks are compiled in.

## Model

| member | source | states |
|---|---|---|
| `Helpers.Increment` | ThereBeDragons/Assets/Core/Classes/Utils/Helpers.cs:10-16 | the counter after one read: one more, except that `int.MaxValue` wraps to `int.MinValue` (unchecked C# arithmetic); the result stays a 32-bit value |
| `Helpers.ReadsAreConsecutive` | ThereBeDragons/Assets/Core/Classes/Utils/Helpers.cs:10-16 | reads starting at `start` return `start, start + 1, …` as long as no wrap-around happens |
| `Helpers.ReadsAreDistinct` | ThereBeDragons/Assets/Core/Classes/Utils/Helpers.cs:10-16 | successive reads never repeat a value before the counter wraps |
| `Helpers.UniqueIdCounter.constructor` | ThereBeDragons/Assets/Core/Classes/Utils/Helpers.cs:5 | the static counter starts at 0 |
| `Helpers.UniqueIdCounter.UniqueID` | ThereBeDragons/Assets/Core/Classes/Utils/Helpers.cs:14 | a read returns the counter's current value and then advances it (post-increment) |
| `Helpers.FirstReads` | ThereBeDragons/Assets/Core/Classes/Utils/Helpers.cs:5-14 | the first three reads are 0, 1 and 2 |
| `Helpers.WrapsAtIntMax` | ThereBeDragons/Assets/Core/Classes/Utils/Helpers.cs:14 | the read after `int.MaxValue` returns `int.MinValue` |
| `Singleton.InstanceGuard.constructor` | ThereBeDragons/Assets/Core/Modules/ViewManager/Scripts/BaseViewManager.cs:24 | the static `_isInstantiated` flag starts false |
| `Singleton.InstanceGuard.Claim` | ThereBeDragons/Assets/Core/Modules/ViewManager/Scripts/BaseViewManager.cs:30-37 | a construction succeeds exactly when no manager was constructed before, and the flag is set afterwards; the same guard models `BaseEventManager.cs:16-24` |
| `ViewData.NewBundleInfo` | ThereBeDragons/Assets/Core/Modules/ViewManager/Scripts/DataModels/BundleInfo.cs:10-20 | the path is stored unchanged and `loadFromBundle` holds exactly when the path is non-null and non-empty; a null or empty path leaves it false |
| `ViewData.NewViewInfo` | ThereBeDragons/Assets/Core/Modules/ViewManager/Scripts/DataModels/ViewInfo.cs:13-19 | view ID, layer ID and path are stored unchanged, the bundle path is passed through, and the view loads from a bundle exactly when its bundle path is non-empty |
| `ViewData.DefaultViewInfoIsLocal` | ThereBeDragons/Assets/Core/Modules/ViewManager/Scripts/DataModels/ViewInfo.cs:13-14 | with the default bundle path `""` a view is loaded locally |
| `Sorting.Insert` | ThereBeDragons/Assets/Core/Modules/ViewManager/Scripts/ViewManager.cs:453 | inserting into a sorted list keeps it sorted and adds exactly one element |
| `Sorting.Sort` | ThereBeDragons/Assets/Core/Modules/ViewManager/Scripts/ViewManager.cs:453 | `List.Sort` on integer IDs: sorted, and a permutation of its input |
| `Sorting.DistinctIffSingleCounts` | ThereBeDragons/Assets/Core/Modules/ViewManager/Scripts/ViewManager.cs:527 | a list has no repeated ID exactly when every ID occurs at most once in its multiset |
| `Sorting.SortKeepsDistinct` | ThereBeDragons/Assets/Core/Modules/ViewManager/Scripts/ViewManager.cs:527 | sorting a list of distinct layer IDs leaves them distinct |
| `Sorting.SortOfSorted` | ThereBeDragons/Assets/Core/Modules/ViewManager/Scripts/ViewManager.cs:527 | sorting an already sorted list changes nothing |
| `ViewManagerSpec.OccupiedLayers` | ThereBeDragons/Assets/Core/Modules/ViewManager/Scripts/ViewManager.cs:328-339 | a layer is listed exactly when it is in `_layers` and its slot is non-null, and no more layers than `_layers` holds |
| `ViewManagerSystem.ViewManager.Init` | ThereBeDragons/Assets/Core/Modules/ViewManager/Scripts/ViewManager.cs:58-66 | a new manager: no views or layers, no pending operation, counter 0, canvas interactable |
| `ViewManagerSystem.ViewManager.Create` | ThereBeDragons/Assets/Core/Modules/ViewManager/Scripts/BaseViewManager.cs:30-37 | a second construction of any view manager fails and constructs nothing; the first yields the initial state |
| `ViewManagerSystem.ViewManager.CreateLayers` | ThereBeDragons/Assets/Core/Modules/ViewManager/Scripts/ViewManager.cs:525-545 | the layer list is sorted before the layer objects are created |
| `ViewManagerSystem.ViewManager.AddLayer` | ThereBeDragons/Assets/Core/Modules/ViewManager/Scripts/ViewManager.cs:525-545 | a layer gets an empty slot and its default name |
| `ViewManagerSystem.ViewManager.RegisterLayer` | ThereBeDragons/Assets/Core/Modules/ViewManager/Scripts/ViewManager.cs:503-520 | a new layer gets an empty slot and the name `layerId.ToString()`; the list is re-sorted once a canvas is linked; a known layer is left alone |
| `ViewManagerSystem.ViewManager.RegisterView` | ThereBeDragons/Assets/Core/Modules/ViewManager/Scripts/ViewManager.cs:74-107 | a known view ID throws and changes nothing; a new one stores its descriptor and registers its layer |
| `ViewManagerSystem.ViewManager.CreateGreyoutImage` | ThereBeDragons/Assets/Core/Modules/ViewManager/Scripts/ViewManager.cs:550-564 | the backdrop starts hidden |
| `ViewManagerSystem.ViewManager.LinkCanvas` | ThereBeDragons/Assets/Core/Modules/ViewManager/Scripts/ViewManager.cs:406-422 | links the canvas and lays out the registered layers in sorted order |
| `ViewManagerSystem.ViewManager.NameLayer` | ThereBeDragons/Assets/Core/Modules/ViewManager/Scripts/ViewManager.cs:429-444 | an unknown layer has its name added; a known layer is renamed, which reads the canvas and so throws `NullReferenceException` while no canvas is linked |
| `ViewManagerSystem.ViewManager.DeclareOverlays` | ThereBeDragons/Assets/Core/Modules/ViewManager/Scripts/ViewManager.cs:450-454 | stores the overlay layers, sorted; a null list is stored as null and the call then throws `NullReferenceException` |
| `ViewManagerSystem.ViewManager.SetBundleLoadMethod` | ThereBeDragons/Assets/Core/Modules/ViewManager/Scripts/ViewManager.cs:397-400 | records that a bundle loader is set |
| `ViewManagerSystem.ViewManager.SetListeners` | ThereBeDragons/Assets/Core/Modules/ViewManager/Scripts/BaseViewManager.cs:39-53 | records which of `onViewOpened`/`onViewClosed` have subscribers |
| `ViewManagerSystem.ViewManager.DispatchViewOpened` | ThereBeDragons/Assets/Core/Modules/ViewManager/Scripts/BaseViewManager.cs:39-45 | an opened event reaches the subscribers once, and nothing happens without subscribers |
| `ViewManagerSystem.ViewManager.DispatchViewClosed` | ThereBeDragons/Assets/Core/Modules/ViewManager/Scripts/BaseViewManager.cs:47-53 | the same for the closed event |
| `ViewManagerSystem.ViewManager.UpdateGreyoutPosition` | ThereBeDragons/Assets/Core/Modules/ViewManager/Scripts/ViewManager.cs:676-701 | after an overlay layer changes, the backdrop is shown exactly when some overlay layer is occupied (scan from the top); an undeclared overlay slot throws |
| `ViewManagerSystem.ViewManager.PlaceView` | ThereBeDragons/Assets/Core/Modules/ViewManager/Scripts/ViewManager.cs:575-592 | the new view instance occupies its layer's slot |
| `ViewManagerSystem.ViewManager.CreateAndAddView` | ThereBeDragons/Assets/Core/Modules/ViewManager/Scripts/ViewManager.cs:570-608 | a local view is instantiated and placed at once; a bundled view is requested from the loader and placed when it arrives; a prefab without a view component only logs an error and changes nothing |
| `ViewManagerSystem.ViewManager.UpdateView` | ThereBeDragons/Assets/Core/Modules/ViewManager/Scripts/ViewManager.cs:261-287 | data reaches the view only when it is its layer's occupant |
| `ViewManagerSystem.ViewManager.OpenView` | ThereBeDragons/Assets/Core/Modules/ViewManager/Scripts/ViewManager.cs:156-167 | creates the view, then announces it: opened event, initial data, transition in |
| `ViewManagerSystem.ViewManager.AddView` | ThereBeDragons/Assets/Core/Modules/ViewManager/Scripts/ViewManager.cs:114-168 | unknown, shown or already-pending views are ignored; an empty layer gets the view at once; on an occupied layer the view is added to the pending set and the occupant's transition out is started |
| `ViewManagerSystem.ViewManager.RemoveView` | ThereBeDragons/Assets/Core/Modules/ViewManager/Scripts/ViewManager.cs:175-220 | a removal starts only for the layer's occupant that is not already being removed; otherwise the call only warns |
| `ViewManagerSystem.ViewManager.ClearSlot` | ThereBeDragons/Assets/Core/Modules/ViewManager/Scripts/ViewManager.cs:140-141 | the layer's slot is emptied and the outgoing instance destroyed |
| `ViewManagerSystem.ViewManager.CompleteAdd` | ThereBeDragons/Assets/Core/Modules/ViewManager/Scripts/ViewManager.cs:138-154 | the replacement's completion clears the slot, installs the new view, drops it from the pending set and opens it |
| `ViewManagerSystem.ViewManager.EndRemoval` | ThereBeDragons/Assets/Core/Modules/ViewManager/Scripts/ViewManager.cs:202-212 | the stale-occupant check and the callback: the slot is cleared only when its occupant still has the removed ID, then the callback, if any, runs once |
| `ViewManagerSystem.ViewManager.CompleteRemove` | ThereBeDragons/Assets/Core/Modules/ViewManager/Scripts/ViewManager.cs:192-214 | the removal's completion, including the unchecked read of the slot's occupant |
| `ViewManagerSystem.ViewManager.FireTransitionOut` | ThereBeDragons/Assets/Core/Modules/ViewManager/Scripts/ViewManager.cs:135-214 | the environment fires one pending transition-out completion, which then runs as the add or remove completion it belongs to |
| `ViewManagerSystem.ViewManager.ViewLoadedFromBundle` | ThereBeDragons/Assets/Core/Modules/ViewManager/Scripts/ViewManager.cs:639-670 | a null or non-`GameObject` answer does nothing; a `GameObject` carrying a view is instantiated into its layer's slot (without a greyout update), one without a view only logs an error; a scene request's info is not a `ViewInfo` and throws; each loader request is answered once |
| `ViewManagerSystem.ViewManager.GetViewOnLayer` | ThereBeDragons/Assets/Core/Modules/ViewManager/Scripts/ViewManager.cs:294-301 | the occupant's ID, or the "no view" default for an empty layer |
| `ViewManagerSystem.ViewManager.IsActiveView` | ThereBeDragons/Assets/Core/Modules/ViewManager/Scripts/ViewManager.cs:307-322 | a view is active exactly when it occupies its own layer |
| `ViewManagerSystem.ViewManager.GetOccupiedLayers` | ThereBeDragons/Assets/Core/Modules/ViewManager/Scripts/ViewManager.cs:328-339 | the occupied layers, in `_layers` order |
| `ViewManagerSystem.ViewManager.RemoveOccupant` | ThereBeDragons/Assets/Core/Modules/ViewManager/Scripts/ViewManager.cs:229-232 | one layer's occupant is asked to leave, synchronously or not |
| `ViewManagerSystem.ViewManager.RemoveAllViews` | ThereBeDragons/Assets/Core/Modules/ViewManager/Scripts/ViewManager.cs:225-235 | one `RemoveView` per occupied layer in the snapshot |
| `ViewManagerSystem.ViewManager.RemoveAllViewsExcept` | ThereBeDragons/Assets/Core/Modules/ViewManager/Scripts/ViewManager.cs:241-254 | the same, skipping exempt layers; a null exempt list throws once an occupied layer is reached |
| `ViewManagerSystem.ViewManager.ToggleCanvasInput` | ThereBeDragons/Assets/Core/Modules/ViewManager/Scripts/ViewManager.cs:468-497 | the disable counter moves by one; the interactable flag is written on 0 to 1 and 1 to 0; a negative counter throws in editor builds |
| `ViewManagerSystem.ViewManager.ChangeScene` | ThereBeDragons/Assets/Core/Modules/ViewManager/Scripts/ViewManager.cs:346-364 | the load starts even if one is in progress, and the callback is appended |
| `ViewManagerSystem.ViewManager.ChangeSceneBundle` | ThereBeDragons/Assets/Core/Modules/ViewManager/Scripts/ViewManager.cs:371-391 | without a bundle loader nothing happens; with one the bundle is requested and the callback appended; the loading flag is never set |
| `ViewManagerSystem.ViewManager.OnSceneLoadComplete` | ThereBeDragons/Assets/Core/Modules/ViewManager/Scripts/ViewManager.cs:614-630 | clears the loading flag, runs every callback once in order, and empties the list |
| `ViewManagerSystem.OccupiedLayersAppend` | ThereBeDragons/Assets/Core/Modules/ViewManager/Scripts/ViewManager.cs:328-339 | the loop step: adding one layer to the scan adds it to the result exactly when its slot is occupied |
| `ViewManagerInvariant.InitialInv` | ThereBeDragons/Assets/Core/Modules/ViewManager/Scripts/ViewManager.cs:58-66 | a new manager satisfies the invariant |
| `ViewManagerInvariant.RegisterLayerInv` | ThereBeDragons/Assets/Core/Modules/ViewManager/Scripts/ViewManager.cs:503-520 | `RegisterLayer` keeps the invariant |
| `ViewManagerInvariant.RegisterViewInv` | ThereBeDragons/Assets/Core/Modules/ViewManager/Scripts/ViewManager.cs:74-107 | `RegisterView` keeps the invariant |
| `ViewManagerInvariant.LinkCanvasInv` | ThereBeDragons/Assets/Core/Modules/ViewManager/Scripts/ViewManager.cs:406-422 | `LinkCanvas` keeps the invariant (layers sorted from then on) |
| `ViewManagerInvariant.NameLayerInv` | ThereBeDragons/Assets/Core/Modules/ViewManager/Scripts/ViewManager.cs:429-444 | `NameLayer` keeps the invariant |
| `ViewManagerInvariant.SettingsInv` | ThereBeDragons/Assets/Core/Modules/ViewManager/Scripts/ViewManager.cs:397-454 | `DeclareOverlays`, `SetBundleLoadMethod` and subscriptions keep the invariant |
| `ViewManagerInvariant.CreateAndAddViewInv` | ThereBeDragons/Assets/Core/Modules/ViewManager/Scripts/ViewManager.cs:570-608 | `CreateAndAddView` keeps the invariant |
| `ViewManagerInvariant.AnnounceInv` | ThereBeDragons/Assets/Core/Modules/ViewManager/Scripts/ViewManager.cs:161-166 | announcing a shown view keeps the invariant |
| `ViewManagerInvariant.DispatchOpenedInv` | ThereBeDragons/Assets/Core/Modules/ViewManager/Scripts/BaseViewManager.cs:39-45 | `DispatchViewOpened` keeps the invariant |
| `ViewManagerInvariant.UpdateViewInv` | ThereBeDragons/Assets/Core/Modules/ViewManager/Scripts/ViewManager.cs:261-287 | `UpdateView` keeps the invariant |
| `ViewManagerInvariant.OpenViewInv` | ThereBeDragons/Assets/Core/Modules/ViewManager/Scripts/ViewManager.cs:156-167 | creating and announcing a view keeps the invariant |
| `ViewManagerInvariant.AddViewInv` | ThereBeDragons/Assets/Core/Modules/ViewManager/Scripts/ViewManager.cs:114-168 | `AddView` keeps the invariant |
| `ViewManagerInvariant.RemoveViewInv` | ThereBeDragons/Assets/Core/Modules/ViewManager/Scripts/ViewManager.cs:175-220 | `RemoveView` keeps the invariant |
| `ViewManagerInvariant.CompleteAddInv` | ThereBeDragons/Assets/Core/Modules/ViewManager/Scripts/ViewManager.cs:138-154 | the add completion keeps the invariant |
| `ViewManagerInvariant.EndRemovalInv` | ThereBeDragons/Assets/Core/Modules/ViewManager/Scripts/ViewManager.cs:207-213 | ending a removal keeps the invariant |
| `ViewManagerInvariant.CompleteRemoveInv` | ThereBeDragons/Assets/Core/Modules/ViewManager/Scripts/ViewManager.cs:192-214 | the remove completion keeps the invariant |
| `ViewManagerInvariant.OnlyOneWaiting` | ThereBeDragons/Assets/Core/Modules/ViewManager/Scripts/ViewManager.cs:126-190 | the guard sets leave at most one completion of each kind waiting per view |
| `ViewManagerInvariant.FireTransitionOutInv` | ThereBeDragons/Assets/Core/Modules/ViewManager/Scripts/ViewManager.cs:135-214 | firing a completion keeps the invariant and consumes its ticket, so it cannot run twice |
| `ViewManagerInvariant.BundleLoadedInv` | ThereBeDragons/Assets/Core/Modules/ViewManager/Scripts/ViewManager.cs:639-670 | a bundle arriving keeps the invariant |
| `ViewManagerInvariant.RemoveOccupantInv` | ThereBeDragons/Assets/Core/Modules/ViewManager/Scripts/ViewManager.cs:229-232 | asking one occupant to leave keeps the invariant |
| `ViewManagerInvariant.RemoveAllViewsInv` | ThereBeDragons/Assets/Core/Modules/ViewManager/Scripts/ViewManager.cs:225-235 | `RemoveAllViews()` keeps the invariant |
| `ViewManagerInvariant.RemoveAllViewsExceptInv` | ThereBeDragons/Assets/Core/Modules/ViewManager/Scripts/ViewManager.cs:241-254 | `RemoveAllViews(exempt)` keeps the invariant |
| `ViewManagerInvariant.ToggleCanvasInputInv` | ThereBeDragons/Assets/Core/Modules/ViewManager/Scripts/ViewManager.cs:468-497 | toggling input keeps "interactable exactly when the counter is at most zero" |
| `ViewManagerInvariant.ChangeSceneInv` | ThereBeDragons/Assets/Core/Modules/ViewManager/Scripts/ViewManager.cs:346-364 | `ChangeScene` keeps the invariant |
| `ViewManagerInvariant.ChangeSceneBundleInv` | ThereBeDragons/Assets/Core/Modules/ViewManager/Scripts/ViewManager.cs:371-391 | `ChangeSceneBundle` keeps the invariant |
| `ViewManagerInvariant.OnSceneLoadCompleteInv` | ThereBeDragons/Assets/Core/Modules/ViewManager/Scripts/ViewManager.cs:614-630 | scene load completion keeps the invariant |
| `ViewManagerProperties.ScanOverlaysFindsOccupied` | ThereBeDragons/Assets/Core/Modules/ViewManager/Scripts/ViewManager.cs:676-701 | when every overlay layer has a slot, the scan answers whether any of them is occupied |
| `ViewManagerProperties.ScanOverlaysFailsOnMissingLayer` | ThereBeDragons/Assets/Core/Modules/ViewManager/Scripts/ViewManager.cs:676-701 | the scan throws only when some overlay layer has no slot |
| `ViewManagerProperties.GreyoutFollowsOverlays` | ThereBeDragons/Assets/Core/Modules/ViewManager/Scripts/ViewManager.cs:676-701 | after an overlay layer changes, the backdrop is on exactly when an overlay layer is occupied; other layers leave it alone |
| `ViewManagerProperties.RegisterKnownViewThrows` | ThereBeDragons/Assets/Core/Modules/ViewManager/Scripts/ViewManager.cs:77-101 | registering a known ID throws and changes nothing |
| `ViewManagerProperties.RegisterNewView` | ThereBeDragons/Assets/Core/Modules/ViewManager/Scripts/ViewManager.cs:74-86 | a new ID adds its descriptor; a new layer gets an empty slot and default name, a known layer is unchanged |
| `ViewManagerProperties.AddViewIgnored` | ThereBeDragons/Assets/Core/Modules/ViewManager/Scripts/ViewManager.cs:116-133 | `AddView` does nothing for an unregistered ID, a view already shown, or one already pending |
| `ViewManagerProperties.AnnounceShown` | ThereBeDragons/Assets/Core/Modules/ViewManager/Scripts/ViewManager.cs:161-166 | announcing fires the opened event once, passes the initial data and starts the transition in |
| `ViewManagerProperties.PlaceLocalView` | ThereBeDragons/Assets/Core/Modules/ViewManager/Scripts/ViewManager.cs:575-592 | a local view is created in its layer's slot with a fresh instance |
| `ViewManagerProperties.OpenLocalView` | ThereBeDragons/Assets/Core/Modules/ViewManager/Scripts/ViewManager.cs:156-167 | opening a local view shows it and fires the opened event exactly once |
| `ViewManagerProperties.AddViewOnEmptyLayer` | ThereBeDragons/Assets/Core/Modules/ViewManager/Scripts/ViewManager.cs:156-167 | on an empty layer the view is installed at once, opened once, and nothing is closed |
| `ViewManagerProperties.AddViewOnOccupiedLayer` | ThereBeDragons/Assets/Core/Modules/ViewManager/Scripts/ViewManager.cs:135-138 | on an occupied layer the ID enters the add set, a transition out of the occupant is pending, and no event fires yet |
| `ViewManagerProperties.ReplacementCompletes` | ThereBeDragons/Assets/Core/Modules/ViewManager/Scripts/ViewManager.cs:138-154 | the completion installs the new view, drops it from the add set, fires opened once and closed never |
| `ViewManagerProperties.RemoveViewStartsOnlyForOccupant` | ThereBeDragons/Assets/Core/Modules/ViewManager/Scripts/ViewManager.cs:188-219 | a removal starts exactly when the ID is its layer's occupant and not already being removed; otherwise nothing changes |
| `ViewManagerProperties.SecondRemoveIgnored` | ThereBeDragons/Assets/Core/Modules/ViewManager/Scripts/ViewManager.cs:188-190 | a second `RemoveView` while the first is in flight does nothing |
| `ViewManagerProperties.RemovalCompletes` | ThereBeDragons/Assets/Core/Modules/ViewManager/Scripts/ViewManager.cs:192-214 | the completion fires closed once, leaves the remove set, runs the callback, and clears the slot only if its occupant still has that ID |
| `ViewManagerProperties.CompletionRunsOnce` | ThereBeDragons/Assets/Core/Modules/ViewManager/Scripts/ViewManager.cs:135-214 | a completion fired a second time does nothing |
| `ViewManagerProperties.ActiveViewIsViewOnLayer` | ThereBeDragons/Assets/Core/Modules/ViewManager/Scripts/ViewManager.cs:294-322 | a registered view is active exactly when `GetViewOnLayer` of its layer returns it |
| `ViewManagerProperties.NoViewIsAmbiguous` | ThereBeDragons/Assets/Core/Modules/ViewManager/Scripts/ViewManager.cs:300 | a view whose ID is the default cannot be told from an empty layer |
| `ViewManagerProperties.OccupiedLayersKeepOrder` | ThereBeDragons/Assets/Core/Modules/ViewManager/Scripts/ViewManager.cs:328-339 | the occupied layers of a sorted, distinct list are sorted and distinct |
| `ViewManagerProperties.OccupiedLayersInOrder` | ThereBeDragons/Assets/Core/Modules/ViewManager/Scripts/ViewManager.cs:328-339 | `GetOccupiedLayers` lists exactly the occupied layers, sorted and without repeats |
| `ViewManagerProperties.RemoveOccupantDeferred` | ThereBeDragons/Assets/Core/Modules/ViewManager/Scripts/ViewManager.cs:229-232 | asking one occupant to leave starts exactly one removal for it |
| `ViewManagerProperties.RemoveEachDeferred` | ThereBeDragons/Assets/Core/Modules/ViewManager/Scripts/ViewManager.cs:229-232 | going through a list of occupied layers starts a removal for each occupant |
| `ViewManagerProperties.RemoveAllViewsAsksEveryOccupant` | ThereBeDragons/Assets/Core/Modules/ViewManager/Scripts/ViewManager.cs:225-235 | `RemoveAllViews()` starts a removal for every occupant in the snapshot |
| `ViewManagerProperties.RemoveEachExceptAllExempt` | ThereBeDragons/Assets/Core/Modules/ViewManager/Scripts/ViewManager.cs:245-253 | when every layer is exempt, nothing is removed |
| `ViewManagerProperties.RemoveAllViewsExceptNull` | ThereBeDragons/Assets/Core/Modules/ViewManager/Scripts/ViewManager.cs:248 | a null exempt list changes nothing and throws exactly when some layer is occupied |
| `ViewManagerProperties.ToggleWritesFlagOnlyAtZero` | ThereBeDragons/Assets/Core/Modules/ViewManager/Scripts/ViewManager.cs:468-497 | the interactable flag is written only when the counter goes 0 to 1 or 1 to 0 |
| `ViewManagerProperties.ToggleCounts` | ThereBeDragons/Assets/Core/Modules/ViewManager/Scripts/ViewManager.cs:468-497 | each call moves the counter by one, and the canvas is interactable exactly when the counter is at most zero |
| `ViewManagerProperties.DisableThenEnableRestores` | ThereBeDragons/Assets/Core/Modules/ViewManager/Scripts/ViewManager.cs:468-497 | a disable followed by an enable restores counter and flag |
| `ViewManagerProperties.NestedDisables` | ThereBeDragons/Assets/Core/Modules/ViewManager/Scripts/ViewManager.cs:468-497 | two disables need two enables before input returns |
| `ViewManagerProperties.ToggleWithoutCanvas` | ThereBeDragons/Assets/Core/Modules/ViewManager/Scripts/ViewManager.cs:468-497 | without a canvas, the flag write at the transition throws and the flag is unchanged |
| `ViewManagerProperties.ChangeSceneAlwaysLoads` | ThereBeDragons/Assets/Core/Modules/ViewManager/Scripts/ViewManager.cs:346-364 | `ChangeScene` always sets the loading flag and starts the load, even during another load |
| `ViewManagerProperties.SceneCallbacksRunOnceInOrder` | ThereBeDragons/Assets/Core/Modules/ViewManager/Scripts/ViewManager.cs:623-629 | load completion runs each appended callback once, in order, and empties the list |
| `ViewManagerProperties.ChangeSceneBundleLeavesFlag` | ThereBeDragons/Assets/Core/Modules/ViewManager/Scripts/ViewManager.cs:371-391 | `ChangeSceneBundle` never touches the loading flag and without a loader does nothing |
| `ViewManagerBoxedIds.UpdateReachesViewAsWritten` | ThereBeDragons/Assets/Core/Modules/ViewManager/Scripts/ViewManager.cs:269 | as written, data reaches a view only when the two IDs are the same boxed object |
| `ViewManagerBoxedIds.UpdateReachesView` | ThereBeDragons/Assets/Core/Modules/ViewManager/Scripts/ViewManager.cs:269 | as intended, data reaches a view exactly when the IDs are equal values |
| `ViewManagerBoxedIds.FreshBoxLosesUpdate` | ThereBeDragons/Assets/Core/Modules/ViewManager/Scripts/ViewManager.cs:269 | an equal ID in a fresh box is refused, so the initial data is lost |
| `EventManagerSpec.WithoutNulls` | ThereBeDragons/Assets/Core/Modules/EventManager/EventManager.cs:71-74 | removing the nulls keeps exactly the non-null observers |
| `EventManagerSpec.Apply` | ThereBeDragons/Assets/Core/Modules/EventManager/EventManager.cs:141-148 | an observer's call during an event keeps processing on, only nulls snapshot entries, and only adds to the queue |
| `EventManagerSpec.ApplyAll` | ThereBeDragons/Assets/Core/Modules/EventManager/EventManager.cs:141-148 | the same for a run of calls |
| `EventManagerSpec.NotifyFrom` | ThereBeDragons/Assets/Core/Modules/EventManager/EventManager.cs:141-148 | notifying the rest of the snapshot only adds deliveries, only nulls snapshot entries |
| `EventManagerSpec.ProcessNext` | ThereBeDragons/Assets/Core/Modules/EventManager/EventManager.cs:133-158 | processing an event consumes the head of the queue and, if nothing throws, ends with processing off and no snapshot; a null event throws in the log line before anyone is notified |
| `EventManagerSpec.Drain` | ThereBeDragons/Assets/Core/Modules/EventManager/EventManager.cs:153-157 | when draining finishes, the queue is empty and processing is off |
| `EventManagerSystem.EventManager.Init` | ThereBeDragons/Assets/Core/Modules/EventManager/EventManager.cs:55-62 | a new manager: no observers, no queued events, not processing |
| `EventManagerSystem.EventManager.Create` | ThereBeDragons/Assets/Core/Modules/EventManager/BaseEventManager.cs:16-24 | a second construction of any event manager fails; the first yields the initial state |
| `EventManagerSystem.EventManager.Register` | ThereBeDragons/Assets/Core/Modules/EventManager/EventManager.cs:68-86 | nulls are purged, then the observer is added unless it is already there |
| `EventManagerSystem.EventManager.Unregister` | ThereBeDragons/Assets/Core/Modules/EventManager/EventManager.cs:92-113 | the observer is removed from the list and nulled in the running snapshot |
| `EventManagerSystem.EventManager.Enqueue` | ThereBeDragons/Assets/Core/Modules/EventManager/EventManager.cs:122 | the event joins the back of the queue |
| `EventManagerSystem.EventManager.ApplyAction` | ThereBeDragons/Assets/Core/Modules/EventManager/EventManager.cs:146 | one call an observer makes while it is notified |
| `EventManagerSystem.EventManager.Notify` | ThereBeDragons/Assets/Core/Modules/EventManager/EventManager.cs:146 | one observer is notified and its calls are applied |
| `EventManagerSystem.EventManager.NotifyObservers` | ThereBeDragons/Assets/Core/Modules/EventManager/EventManager.cs:141-148 | the snapshot is walked in order, skipping nulled entries |
| `EventManagerSystem.EventManager.DispatchNextEvent` | ThereBeDragons/Assets/Core/Modules/EventManager/EventManager.cs:133-158 | takes the head of the queue, snapshots the observers, notifies them and processes what was queued meanwhile; a null event throws once the flag is set and the event dequeued; keeps the invariant |
| `EventManagerSystem.EventManager.Dispatch` | ThereBeDragons/Assets/Core/Modules/EventManager/EventManager.cs:120-157 | during processing the event is only queued; otherwise it is processed together with everything queued meanwhile |
| `EventManagerSystem.RemoveNullAt` | ThereBeDragons/Assets/Core/Modules/EventManager/EventManager.cs:71-74 | removing one null entry does not change the list without nulls |
| `EventManagerProperties.InitialInv` | ThereBeDragons/Assets/Core/Modules/EventManager/EventManager.cs:55-62 | a new manager satisfies the invariant (observers unique, snapshot nulled from the list) |
| `EventManagerProperties.RegisterInv` | ThereBeDragons/Assets/Core/Modules/EventManager/EventManager.cs:68-86 | `Register` keeps the invariant |
| `EventManagerProperties.UnregisterInv` | ThereBeDragons/Assets/Core/Modules/EventManager/EventManager.cs:92-113 | `Unregister` keeps the invariant |
| `EventManagerProperties.ApplyInv` | ThereBeDragons/Assets/Core/Modules/EventManager/EventManager.cs:141-148 | one observer call keeps the invariant |
| `EventManagerProperties.ApplyAllInv` | ThereBeDragons/Assets/Core/Modules/EventManager/EventManager.cs:141-148 | a run of observer calls keeps the invariant |
| `EventManagerProperties.NotifyInv` | ThereBeDragons/Assets/Core/Modules/EventManager/EventManager.cs:141-148 | notifying the snapshot keeps the invariant |
| `EventManagerProperties.ProcessNextInv` | ThereBeDragons/Assets/Core/Modules/EventManager/EventManager.cs:133-158 | processing one event keeps the invariant |
| `EventManagerProperties.DrainInv` | ThereBeDragons/Assets/Core/Modules/EventManager/EventManager.cs:153-157 | draining the queue keeps the invariant |
| `EventManagerProperties.NullEventLeavesManagerDeaf` | ThereBeDragons/Assets/Core/Modules/EventManager/EventManager.cs:133-139 | a null event dispatched at the top level throws before any observer hears of it and leaves the flag set, so no later dispatch notifies anyone |
| `EventManagerProperties.DispatchInv` | ThereBeDragons/Assets/Core/Modules/EventManager/EventManager.cs:120-128 | `Dispatch` keeps the invariant |
| `EventManagerProperties.RegisterPurgesNulls` | ThereBeDragons/Assets/Core/Modules/EventManager/EventManager.cs:71-74 | after `Register` the list holds no null |
| `EventManagerProperties.RegisterKeepsObserversUnique` | ThereBeDragons/Assets/Core/Modules/EventManager/EventManager.cs:76-85 | `Register` never lists an observer twice |
| `EventManagerProperties.RegisterTwiceKeepsOne` | ThereBeDragons/Assets/Core/Modules/EventManager/EventManager.cs:76-85 | registering the same observer twice lists it once, and the second call only warns |
| `EventManagerProperties.ListedOnce` | ThereBeDragons/Assets/Core/Modules/EventManager/EventManager.cs:76-85 | an observer in a list without repeats occupies exactly one position |
| `EventManagerProperties.UnregisterAbsentKeepsList` | ThereBeDragons/Assets/Core/Modules/EventManager/EventManager.cs:94-106 | unregistering an absent observer leaves the list unchanged |
| `EventManagerProperties.UnregisterRemovesOnlyIt` | ThereBeDragons/Assets/Core/Modules/EventManager/EventManager.cs:94-96 | unregistering removes that observer and keeps every other |
| `EventManagerProperties.DispatchDuringProcessingQueues` | ThereBeDragons/Assets/Core/Modules/EventManager/EventManager.cs:120-128 | a dispatch during processing only appends the event to the queue |
| `EventManagerProperties.TopLevelDispatchDrains` | ThereBeDragons/Assets/Core/Modules/EventManager/EventManager.cs:150-157 | when a top-level dispatch returns, the queue is empty and processing is off |
| `EventManagerProperties.DrainExtendsDispatched` | ThereBeDragons/Assets/Core/Modules/EventManager/EventManager.cs:153-157 | draining never forgets a dispatched event |
| `EventManagerProperties.ThrowLeavesManagerDeaf` | ThereBeDragons/Assets/Core/Modules/EventManager/EventManager.cs:135-151 | when an observer throws, the processing flag stays set, so later dispatches are only queued |
| `EventManagerProperties.NotifyOnlySnapshot` | ThereBeDragons/Assets/Core/Modules/EventManager/EventManager.cs:136-148 | the deliveries of one event go only to observers in the snapshot |
| `EventManagerProperties.EventReachesOnlyStartObservers` | ThereBeDragons/Assets/Core/Modules/EventManager/EventManager.cs:136-148 | an event reaches only observers registered when it started; later registrations miss it |
| `EventManagerProperties.UnregisteredMidEventSkipped` | ThereBeDragons/Assets/Core/Modules/EventManager/EventManager.cs:108-144 | an observer unregistered during an event gets no further delivery of that event |
| `EventManagerProperties.QuietKeepsSnapshot` | ThereBeDragons/Assets/Core/Modules/EventManager/EventManager.cs:141-148 | observers that neither register nor unregister leave the snapshot as it is |
| `EventManagerProperties.QuietEventReachesSnapshotInOrder` | ThereBeDragons/Assets/Core/Modules/EventManager/EventManager.cs:141-148 | with such observers, the event reaches every snapshot observer once, in list order |
| `PriorityQueueSpec.BucketEntries` | PriorityQueue/PriorityQueue/PriorityQueue/PQNode.cs:16-34 | a bucket read as (priority, value) entries in FIFO order |
| `PriorityQueueSpec.InsertEntry` | PriorityQueue/PriorityQueue/PriorityQueue/PriorityQueue.cs:41-55 | inserting one entry adds exactly one |
| `PriorityQueueSpec.NewNode` | PriorityQueue/PriorityQueue/PriorityQueue/PQNode.cs:60-68 | a new node has no children and an empty bucket |
| `PriorityQueueSpec.Count` | PriorityQueue/PriorityQueue/PriorityQueue/PQNode.cs:39-57 | `Count` is the number of values queued in the subtree |
| `PriorityQueueSpec.NodeEnqueue` | PriorityQueue/PriorityQueue/PriorityQueue/PQNode.cs:74-77 | the value goes to the back of the bucket and nothing else changes |
| `PriorityQueueSpec.GetNode` | PriorityQueue/PriorityQueue/PriorityQueue/PQNode.cs:153-179 | adds the priority if missing, keeps every element and the search order, and returns the tree unchanged when the priority is present |
| `PriorityQueueSpec.EnqueueAt` | PriorityQueue/PriorityQueue/PriorityQueue/PQNode.cs:153-179 | appending at a node keeps the priorities and the order |
| `PriorityQueueSpec.RemoveMin` | PriorityQueue/PriorityQueue/PriorityQueue/PriorityQueue.cs:61-111 | unlinking keeps the order, leaves no empty node, adds no priority |
| `PriorityQueueSpec.RemoveMax` | PriorityQueue/PriorityQueue/PriorityQueue/PriorityQueue.cs:117-167 | the same for the rightmost node |
| `PriorityQueueSpec.Shows` | PriorityQueue/PriorityQueue/PriorityQueue/PQNode.cs:185-205 | each value's text, in order |
| `PriorityQueueSpec.Values` | PriorityQueue/PriorityQueue/PriorityQueue/PriorityQueue.cs:215-253 | the values of the entries, in order |
| `PriorityQueueSystem.PriorityQueue.constructor` | PriorityQueue/PriorityQueue/PriorityQueue/PriorityQueue.cs:34 | a new queue is empty |
| `PriorityQueueSystem.PriorityQueue.Count` | PriorityQueue/PriorityQueue/PriorityQueue/PriorityQueue.cs:20-31 | the number of queued values, 0 for an empty head |
| `PriorityQueueSystem.PriorityQueue.Enqueue` | PriorityQueue/PriorityQueue/PriorityQueue/PriorityQueue.cs:41-55 | the value is inserted after every entry of lower or equal priority and before every higher one |
| `PriorityQueueSystem.PriorityQueue.DequeueMin` | PriorityQueue/PriorityQueue/PriorityQueue/PriorityQueue.cs:61-111 | an empty queue throws; otherwise the front entry (lowest priority, earliest) is returned and removed |
| `PriorityQueueSystem.PriorityQueue.DequeueMax` | PriorityQueue/PriorityQueue/PriorityQueue/PriorityQueue.cs:117-167 | an empty queue throws; otherwise the back entry (highest priority, latest) is returned and removed |
| `PriorityQueueSystem.PriorityQueue.PeekMin` | PriorityQueue/PriorityQueue/PriorityQueue/PriorityQueue.cs:173-188 | what `DequeueMin` would return, queue unchanged; empty throws |
| `PriorityQueueSystem.PriorityQueue.PeekMax` | PriorityQueue/PriorityQueue/PriorityQueue/PriorityQueue.cs:194-209 | what `DequeueMax` would return, queue unchanged; empty throws |
| `PriorityQueueSystem.PriorityQueue.ToString` | PriorityQueue/PriorityQueue/PriorityQueue/PriorityQueue.cs:215-225 | the text the recursive compile builds, with no empty part when every value's text is non-empty |
| `PriorityQueueSystem.CompileQueue` | PriorityQueue/PriorityQueue/PriorityQueue/PriorityQueue.cs:232-253 | the in-order walk appending each node's text with ", " |
| `PriorityQueueSystem.NodeToString` | PriorityQueue/PriorityQueue/PriorityQueue/PQNode.cs:185-205 | a node's values joined by ", " when none is empty |
| `PriorityQueueProperties.ElementsPriorities` | PriorityQueue/PriorityQueue/PriorityQueue/PQNode.cs:12-16 | every element's priority is a node's priority |
| `PriorityQueueProperties.OrderedElementsSorted` | PriorityQueue/PriorityQueue/PriorityQueue/PriorityQueue.cs:41-55 | an ordered tree reads back sorted by priority |
| `PriorityQueueProperties.FilledNodeNonEmpty` | PriorityQueue/PriorityQueue/PriorityQueue/PriorityQueue.cs:24-29 | with no empty node, the queue is empty exactly when the head is null |
| `PriorityQueueProperties.InsertionPoint` | PriorityQueue/PriorityQueue/PriorityQueue/PriorityQueue.cs:41-55 | where a value of that priority goes: after all lower or equal, before all higher |
| `PriorityQueueProperties.InsertEntryShape` | PriorityQueue/PriorityQueue/PriorityQueue/PriorityQueue.cs:41-55 | insertion splices the entry in at the insertion point |
| `PriorityQueueProperties.InsertEntryPlacement` | PriorityQueue/PriorityQueue/PriorityQueue/PriorityQueue.cs:41-55 | the inserted entry lands after all entries of lower or equal priority, keeping the rest |
| `PriorityQueueProperties.EnqueueAtInserts` | PriorityQueue/PriorityQueue/PriorityQueue/PQNode.cs:153-179 | appending at the node of its priority is the sorted insertion |
| `PriorityQueueProperties.EnqueueInsertsInOrder` | PriorityQueue/PriorityQueue/PriorityQueue/PriorityQueue.cs:41-55 | `Enqueue` is sorted insertion and keeps the tree valid |
| `PriorityQueueProperties.EnqueueKeepsFilled` | PriorityQueue/PriorityQueue/PriorityQueue/PriorityQueue.cs:41-55 | after `Enqueue` no node is empty |
| `PriorityQueueProperties.GetNodeFindsUniqueNode` | PriorityQueue/PriorityQueue/PriorityQueue/PQNode.cs:153-179 | after `GetNode` exactly one node has the priority |
| `PriorityQueueProperties.OrderedHasOneNodePerPriority` | PriorityQueue/PriorityQueue/PriorityQueue/PQNode.cs:153-179 | an ordered tree has one node per priority and none for others |
| `PriorityQueueProperties.LeftmostHoldsFront` | PriorityQueue/PriorityQueue/PriorityQueue/PriorityQueue.cs:68-77 | the front entry is in the leftmost node |
| `PriorityQueueProperties.RightmostHoldsBack` | PriorityQueue/PriorityQueue/PriorityQueue/PriorityQueue.cs:124-133 | the back entry is in the rightmost node |
| `PriorityQueueProperties.RemoveMinDropsFront` | PriorityQueue/PriorityQueue/PriorityQueue/PriorityQueue.cs:61-111 | `DequeueMin`'s unlinking removes exactly the front entry |
| `PriorityQueueProperties.RemoveMaxDropsBack` | PriorityQueue/PriorityQueue/PriorityQueue/PriorityQueue.cs:117-167 | `DequeueMax`'s unlinking removes exactly the back entry |
| `PriorityQueueProperties.EndsHoldExtremePriorities` | PriorityQueue/PriorityQueue/PriorityQueue/PriorityQueue.cs:61-167 | the front has the lowest priority and the back the highest |
| `PriorityQueueProperties.NodeDequeueMaxUndoesEnqueue` | PriorityQueue/PriorityQueue/PriorityQueue/PQNode.cs:74-113 | taking from the back of a bucket undoes an enqueue |
| `PriorityQueueProperties.NodeBucketIsFifo` | PriorityQueue/PriorityQueue/PriorityQueue/PQNode.cs:60-145 | a bucket gives values back first-in first-out from the front and last-in first-out from the back; an empty one throws |
| `PriorityQueueProperties.FoldCsvIsJoin` | PriorityQueue/PriorityQueue/PriorityQueue/PriorityQueue.cs:240-247 | appending parts one by one with ", " joins them when none is empty |
| `PriorityQueueProperties.CompileFoldsValues` | PriorityQueue/PriorityQueue/PriorityQueue/PriorityQueue.cs:232-253 | the recursive compile folds the texts of all values in order |
| `PriorityQueueProperties.ToStringJoinsValues` | PriorityQueue/PriorityQueue/PriorityQueue/PriorityQueue.cs:215-253 | `ToString` lists the values in queue order separated by ", " |
| `PriorityQueueProperties.EmptyLeadingValueLosesSeparator` | PriorityQueue/PriorityQueue/PriorityQueue/PriorityQueue.cs:240-247 | a value whose text is empty drops a separator |
| `PriorityQueueDemo.InsertsBetween` | PriorityQueue/PriorityQueue/Program.cs:11-19 | an entry lands between lower-or-equal and higher entries |
| `PriorityQueueDemo.DogCatPigInserted` | PriorityQueue/PriorityQueue/Program.cs:11-13 | the first three inserts give cat, pig, dog |
| `PriorityQueueDemo.CowAndMooseInserted` | PriorityQueue/PriorityQueue/Program.cs:14-15 | cow goes last, moose after cat |
| `PriorityQueueDemo.FirstFiveInserted` | PriorityQueue/PriorityQueue/Program.cs:11-15 | the first five inserts give cat, moose, pig, dog, cow |
| `PriorityQueueDemo.GiraffeAndMonkeyInserted` | PriorityQueue/PriorityQueue/Program.cs:16-17 | giraffe goes last, monkey after pig |
| `PriorityQueueDemo.TigerInserted` | PriorityQueue/PriorityQueue/Program.cs:18 | tiger goes between monkey and dog |
| `PriorityQueueDemo.DolphinInserted` | PriorityQueue/PriorityQueue/Program.cs:19 | dolphin goes after dog |
| `PriorityQueueDemo.AnimalsInQueueOrder` | PriorityQueue/PriorityQueue/Program.cs:11-19 | the demo's queue holds its nine animals in the printed order |
| `PriorityQueueDemo.PrintedAsThemselves` | PriorityQueue/PriorityQueue/Program.cs:22-25 | strings print as themselves |
| `PriorityQueueDemo.Show` | PriorityQueue/PriorityQueue/Program.cs:22-25 | printing a queue gives its names joined by ", " |
| `PriorityQueueDemo.QueueAnimals` | PriorityQueue/PriorityQueue/Program.cs:11-19 | the nine enqueues build the expected queue |
| `PriorityQueueDemo.ShowAllAnimals` | PriorityQueue/PriorityQueue/Program.cs:22-25 | the first print lists cat, moose, pig, monkey, tiger, dog, dolphin, cow, giraffe |
| `PriorityQueueDemo.AnimalNames` | PriorityQueue/PriorityQueue/Program.cs:22-25 | the names of the queue, in order, none of them empty |
| `PriorityQueueDemo.TakeTwoFromFront` | PriorityQueue/PriorityQueue/Program.cs:30-36 | two `DequeueMin` calls leave pig at the front |
| `PriorityQueueDemo.TakeFourMore` | PriorityQueue/PriorityQueue/Program.cs:41-44 | the rest of the dequeues leave monkey, tiger, dog |
| `PriorityQueueDemo.MiddleThree` | PriorityQueue/PriorityQueue/Program.cs:41-49 | the entries that remain |
| `PriorityQueueDemo.ShowThree` | PriorityQueue/PriorityQueue/Program.cs:46-49 | the second print is "monkey, tiger, dog" |
| `PriorityQueueDemo.TakeTwoFromBack` | PriorityQueue/PriorityQueue/Program.cs:54-65 | two `DequeueMax` calls leave monkey alone |
| `PriorityQueueDemo.Empty` | PriorityQueue/PriorityQueue/Program.cs:70-79 | the last dequeue empties the queue, which prints as "" |
| `PriorityQueueDemo.Demonstrate` | PriorityQueue/PriorityQueue/Program.cs:9-80 | the whole program's printed values |
| `AbstractSoundLayers.NewLayerFlags` | ThereBeDragons/Assets/Core/Modules/SoundManager/Layers/AbstractSoundLayer.cs:10-11 | a new layer is neither muted nor paused |
| `AbstractSoundLayers.WithMute` | ThereBeDragons/Assets/Core/Modules/SoundManager/Layers/AbstractSoundLayer.cs:38-41 | `MuteLayer(m)` sets the mute flag to `m` and leaves pause alone |
| `AbstractSoundLayers.WithPause` | ThereBeDragons/Assets/Core/Modules/SoundManager/Layers/AbstractSoundLayer.cs:47-50 | `PauseLayer(p)` sets the pause flag to `p` and leaves mute alone |
| `SingleLayerSpecs.UnknownSoundThrows` | ThereBeDragons/Assets/Core/Modules/SoundManager/Layers/SingleSoundLayer.cs:57-65 | as written, asking about a sound missing from the bank throws while a sound is live |
| `SingleLayerSpecs.WillAcceptSoundAgrees` | ThereBeDragons/Assets/Core/Modules/SoundManager/Layers/SingleSoundLayer.cs:57-65 | the corrected check refuses exactly when the live current sound has the same ID, and agrees with the code whenever the code does not throw |
| `SingleLayerSpecs.NullControllerIgnored` | ThereBeDragons/Assets/Core/Modules/SoundManager/Layers/SingleSoundLayer.cs:76-79 | a null controller (empty ID) is ignored |
| `SingleLayerSpecs.PlayNewClipStarts` | ThereBeDragons/Assets/Core/Modules/SoundManager/Layers/SingleSoundLayer.cs:127-141 | a queued sound starts only when no fade runs and the layer is not paused; it leaves the slot, becomes current, and earlier calls are kept |
| `SingleLayerSpecs.PlayNewClipValid` | ThereBeDragons/Assets/Core/Modules/SoundManager/Layers/SingleSoundLayer.cs:125-149 | starting a sound keeps "a fade runs only with a current sound" |
| `SingleLayerSpecs.LatestRequestWins` | ThereBeDragons/Assets/Core/Modules/SoundManager/Layers/SingleSoundLayer.cs:81-84 | while a fade runs or the layer is paused, a request only replaces the queued sound |
| `SingleLayerSpecs.EarlierRequestDropped` | ThereBeDragons/Assets/Core/Modules/SoundManager/Layers/SingleSoundLayer.cs:81-84 | of two requests during a fade, only the later stays queued |
| `SingleLayerSpecs.FadeInCompletionStartsQueued` | ThereBeDragons/Assets/Core/Modules/SoundManager/Layers/SingleSoundLayer.cs:143-147 | the fade-in's completion starts the sound queued meanwhile |
| `SingleLayerSpecs.CrossFade` | ThereBeDragons/Assets/Core/Modules/SoundManager/Layers/SingleSoundLayer.cs:136-143 | starting a sound fades the old one out and the new one in, in that order |
| `SingleLayerSpecs.UnpauseStartsQueuedOnlyWithLiveCurrent` | ThereBeDragons/Assets/Core/Modules/SoundManager/Layers/SingleSoundLayer.cs:104-120 | unpausing resumes the current sound and starts the queued one only if a live current sound exists |
| `SingleLayerSpecs.OperationsKeepValid` | ThereBeDragons/Assets/Core/Modules/SoundManager/Layers/SingleSoundLayer.cs:42-222 | every operation keeps "a fade runs only with a current sound" |
| `SingleSoundLayers.SingleSoundLayer.constructor` | ThereBeDragons/Assets/Core/Modules/SoundManager/Layers/SingleSoundLayer.cs:33-37 | no sound, no fade, the given crossfade duration |
| `SingleSoundLayers.SingleSoundLayer.Dispose` | ThereBeDragons/Assets/Core/Modules/SoundManager/Layers/SingleSoundLayer.cs:42-50 | the fade flag is cleared and the current controller disposed |
| `SingleSoundLayers.SingleSoundLayer.WillAcceptSound` | ThereBeDragons/Assets/Core/Modules/SoundManager/Layers/SingleSoundLayer.cs:57-65 | refuses exactly when the live current sound has the requested ID (null check added) |
| `SingleSoundLayers.SingleSoundLayer.PlaySound` | ThereBeDragons/Assets/Core/Modules/SoundManager/Layers/SingleSoundLayer.cs:72-85 | ignore a null controller, else queue it and try to start it |
| `SingleSoundLayers.SingleSoundLayer.MuteLayer` | ThereBeDragons/Assets/Core/Modules/SoundManager/Layers/SingleSoundLayer.cs:91-98 | sets the flag and the live current sound's mute |
| `SingleSoundLayers.SingleSoundLayer.PauseLayer` | ThereBeDragons/Assets/Core/Modules/SoundManager/Layers/SingleSoundLayer.cs:104-120 | sets the flag, then pauses, or resumes and starts the queued sound |
| `SingleSoundLayers.SingleSoundLayer.PlayNewClip` | ThereBeDragons/Assets/Core/Modules/SoundManager/Layers/SingleSoundLayer.cs:125-149 | starts the queued sound when allowed |
| `SingleSoundLayers.SingleSoundLayer.FadeInClip` | ThereBeDragons/Assets/Core/Modules/SoundManager/Layers/SingleSoundLayer.cs:158-184 | fades a live sound in; with no live sound the completion runs at once |
| `SingleSoundLayers.SingleSoundLayer.FadeOutClip` | ThereBeDragons/Assets/Core/Modules/SoundManager/Layers/SingleSoundLayer.cs:192-222 | fades a live sound out; otherwise nothing |
| `SingleSoundLayers.SingleSoundLayer.FadeInCompleted` | ThereBeDragons/Assets/Core/Modules/SoundManager/Layers/SingleSoundLayer.cs:143-147 | clears the fade flag and starts the queued sound |
| `SingleSoundLayers.SingleSoundLayer.FadeOutCompleted` | ThereBeDragons/Assets/Core/Modules/SoundManager/Layers/SingleSoundLayer.cs:205-213 | disposes the faded controller |
| `MultiLayerSpecs.Occurrences` | ThereBeDragons/Assets/Core/Modules/SoundManager/Layers/MultiSoundLayer.cs:71-77 | how many active clips carry an ID |
| `MultiLayerSpecs.RemoveFirst` | ThereBeDragons/Assets/Core/Modules/SoundManager/Layers/MultiSoundLayer.cs:145 | `List.Remove`: one clip fewer when present, the list unchanged when absent |
| `MultiLayerSpecs.MuteEach` | ThereBeDragons/Assets/Core/Modules/SoundManager/Layers/MultiSoundLayer.cs:98-109 | one mute call per active clip, in order |
| `MultiLayerSpecs.PauseEach` | ThereBeDragons/Assets/Core/Modules/SoundManager/Layers/MultiSoundLayer.cs:115-133 | one pause or resume call per active clip, in order |
| `MultiLayerSpecs.UnsubscribeEach` | ThereBeDragons/Assets/Core/Modules/SoundManager/Layers/MultiSoundLayer.cs:27-38 | one unsubscribe per active clip, in order |
| `MultiLayerSpecs.NewMultiLayerValid` | ThereBeDragons/Assets/Core/Modules/SoundManager/Layers/MultiSoundLayer.cs:17-22 | a new layer satisfies the invariant (counts match the clips, each clip subscribed once) |
| `MultiLayerSpecs.NullControllerIgnored` | ThereBeDragons/Assets/Core/Modules/SoundManager/Layers/MultiSoundLayer.cs:66-69 | a null controller (empty ID) is ignored |
| `MultiLayerSpecs.PlaySoundCountsAndApplies` | ThereBeDragons/Assets/Core/Modules/SoundManager/Layers/MultiSoundLayer.cs:71-91 | playing adds one to the ID's count, appends the clip, subscribes it, and mutes and pauses it as the layer is |
| `MultiLayerSpecs.PlaySoundValid` | ThereBeDragons/Assets/Core/Modules/SoundManager/Layers/MultiSoundLayer.cs:62-92 | playing keeps the invariant |
| `MultiLayerSpecs.AcceptedPlayRespectsLimit` | ThereBeDragons/Assets/Core/Modules/SoundManager/Layers/MultiSoundLayer.cs:45-77 | an accepted play never raises a count past the limit |
| `MultiLayerSpecs.RefusedAtLimit` | ThereBeDragons/Assets/Core/Modules/SoundManager/Layers/MultiSoundLayer.cs:45-55 | a sound is refused only when its count has reached `maxInstances` |
| `MultiLayerSpecs.CompletionKeepsHandles` | ThereBeDragons/Assets/Core/Modules/SoundManager/Layers/MultiSoundLayer.cs:139-152 | completion keeps each clip subscribed exactly once |
| `MultiLayerSpecs.CompletionKeepsIds` | ThereBeDragons/Assets/Core/Modules/SoundManager/Layers/MultiSoundLayer.cs:139-152 | completion keeps every remaining clip's ID |
| `MultiLayerSpecs.CompletionKeepsCounts` | ThereBeDragons/Assets/Core/Modules/SoundManager/Layers/MultiSoundLayer.cs:139-152 | completion keeps counts equal to occurrences |
| `MultiLayerSpecs.OnSoundCompleteValid` | ThereBeDragons/Assets/Core/Modules/SoundManager/Layers/MultiSoundLayer.cs:139-152 | completion keeps the invariant |
| `MultiLayerSpecs.SoundCompletedValid` | ThereBeDragons/Assets/Core/Modules/SoundManager/Layers/MultiSoundLayer.cs:139-152 | the completion handler keeps the invariant |
| `MultiLayerSpecs.CountedDownOnce` | ThereBeDragons/Assets/Core/Modules/SoundManager/Layers/MultiSoundLayer.cs:139-152 | a second completion of the same controller changes nothing |
| `MultiLayerSpecs.CompletionCountsDown` | ThereBeDragons/Assets/Core/Modules/SoundManager/Layers/MultiSoundLayer.cs:139-152 | completion removes one clip, subtracts one from its ID's count and unsubscribes it |
| `MultiLayerSpecs.MutePauseReachEveryClip` | ThereBeDragons/Assets/Core/Modules/SoundManager/Layers/MultiSoundLayer.cs:98-133 | mute and pause set the flag and reach every active clip, keeping the invariant |
| `MultiLayerSpecs.DisposeEmpties` | ThereBeDragons/Assets/Core/Modules/SoundManager/Layers/MultiSoundLayer.cs:27-38 | disposal unsubscribes every clip and empties the list and the counts |
| `MultiSoundLayers.MultiSoundLayer.constructor` | ThereBeDragons/Assets/Core/Modules/SoundManager/Layers/MultiSoundLayer.cs:17-22 | empty list and counts |
| `MultiSoundLayers.MultiSoundLayer.Dispose` | ThereBeDragons/Assets/Core/Modules/SoundManager/Layers/MultiSoundLayer.cs:27-38 | the loop unsubscribes every clip, then clears |
| `MultiSoundLayers.MultiSoundLayer.WillAcceptSound` | ThereBeDragons/Assets/Core/Modules/SoundManager/Layers/MultiSoundLayer.cs:45-55 | refuses only a known ID whose count reached `maxInstances` |
| `MultiSoundLayers.MultiSoundLayer.PlaySound` | ThereBeDragons/Assets/Core/Modules/SoundManager/Layers/MultiSoundLayer.cs:62-92 | counts, appends, subscribes, applies mute and pause |
| `MultiSoundLayers.MultiSoundLayer.MuteLayer` | ThereBeDragons/Assets/Core/Modules/SoundManager/Layers/MultiSoundLayer.cs:98-109 | the loop applies the flag to every clip |
| `MultiSoundLayers.MultiSoundLayer.PauseLayer` | ThereBeDragons/Assets/Core/Modules/SoundManager/Layers/MultiSoundLayer.cs:115-133 | the loop pauses or resumes every clip |
| `MultiSoundLayers.MultiSoundLayer.OnSoundComplete` | ThereBeDragons/Assets/Core/Modules/SoundManager/Layers/MultiSoundLayer.cs:139-152 | unsubscribe, remove, count down |
| `MultiSoundLayers.MultiSoundLayer.SoundCompleted` | ThereBeDragons/Assets/Core/Modules/SoundManager/Layers/MultiSoundLayer.cs:139-152 | the completion handler, ignored for a controller no longer listed |
| `AudioSourceControllers.PlayClearsFlags` | ThereBeDragons/Assets/Core/Modules/SoundManager/Controllers/AudioSourceController.cs:84-113 | `Play` clears paused; without a clip a self-disposing controller ends stopped and destroyed |
| `AudioSourceControllers.CountedPlaysCountNothing` | ThereBeDragons/Assets/Core/Modules/SoundManager/Controllers/AudioSourceController.cs:90-99 | once counted, later plays leave the static counts alone |
| `AudioSourceControllers.PlaysCountOnce` | ThereBeDragons/Assets/Core/Modules/SoundManager/Controllers/AudioSourceController.cs:90-99 | however many plays, a controller adds one to its clip's count |
| `AudioSourceControllers.SentinelHashCountsEveryPlay` | ThereBeDragons/Assets/Core/Modules/SoundManager/Controllers/AudioSourceController.cs:90-99 | a clip whose hash is the sentinel -1 is counted on every play |
| `AudioSourceControllers.FlagChangesAreIdempotent` | ThereBeDragons/Assets/Core/Modules/SoundManager/Controllers/AudioSourceController.cs:120-152 | stop, pause and resume are idempotent, and pause and resume undo each other's flag |
| `AudioSourceControllers.StoppedOrPausedNeverCompletes` | ThereBeDragons/Assets/Core/Modules/SoundManager/Controllers/AudioSourceController.cs:160-168 | a stopped or paused sound never completes |
| `AudioSourceControllers.DisposedNeverCompletes` | ThereBeDragons/Assets/Core/Modules/SoundManager/Controllers/AudioSourceController.cs:202-207 | right after `Dispose` a monitor check reports nothing, whether or not the source is playing |
| `AudioSourceControllers.CompletesOnce` | ThereBeDragons/Assets/Core/Modules/SoundManager/Controllers/AudioSourceController.cs:158-176 | completion is reported at most once |
| `AudioSourceControllers.CompletionCondition` | ThereBeDragons/Assets/Core/Modules/SoundManager/Controllers/AudioSourceController.cs:158-176 | completion is reported exactly when the monitor runs and the sound is neither playing, paused nor stopped |
| `AudioSourceControllers.UnloadsOnlyForLastUser` | ThereBeDragons/Assets/Core/Modules/SoundManager/Controllers/AudioSourceController.cs:183-194 | a clip is unloaded only by its last user, when not preloaded and loaded |
| `AudioSourceControllers.DestroyDecrements` | ThereBeDragons/Assets/Core/Modules/SoundManager/Controllers/AudioSourceController.cs:183-194 | destruction subtracts one from its clip's count and touches no other |
| `AudioSourceControllers.PlayThenDestroyBalances` | ThereBeDragons/Assets/Core/Modules/SoundManager/Controllers/AudioSourceController.cs:183-194 | a play followed by destruction restores the count |
| `AudioSourceControllers.ReferenceCounts.constructor` | ThereBeDragons/Assets/Core/Modules/SoundManager/Controllers/AudioSourceController.cs:19 | the static count dictionary starts empty |
| `AudioSourceControllers.ReferenceCounts.Release` | ThereBeDragons/Assets/Core/Modules/SoundManager/Controllers/AudioSourceController.cs:183-194 | one destruction's update of the counts and unloads |
| `AudioSourceControllers.AudioSourceController.constructor` | ThereBeDragons/Assets/Core/Modules/SoundManager/Controllers/AudioSourceController.cs:71-75 | `Awake`: a source, not paused or stopped, uncounted |
| `AudioSourceControllers.AudioSourceController.Play` | ThereBeDragons/Assets/Core/Modules/SoundManager/Controllers/AudioSourceController.cs:82-114 | flags cleared, counted once, played and monitored; no clip disposes a self-disposing controller |
| `AudioSourceControllers.AudioSourceController.CountClip` | ThereBeDragons/Assets/Core/Modules/SoundManager/Controllers/AudioSourceController.cs:90-99 | the clip's count goes up by one and the hash is remembered |
| `AudioSourceControllers.AudioSourceController.Stop` | ThereBeDragons/Assets/Core/Modules/SoundManager/Controllers/AudioSourceController.cs:120-127 | stops only if not stopped |
| `AudioSourceControllers.AudioSourceController.Pause` | ThereBeDragons/Assets/Core/Modules/SoundManager/Controllers/AudioSourceController.cs:133-140 | pauses only if not paused |
| `AudioSourceControllers.AudioSourceController.Resume` | ThereBeDragons/Assets/Core/Modules/SoundManager/Controllers/AudioSourceController.cs:145-152 | resumes only if paused |
| `AudioSourceControllers.AudioSourceController.Dispose` | ThereBeDragons/Assets/Core/Modules/SoundManager/Controllers/AudioSourceController.cs:202-207 | stops and destroys the component |
| `AudioSourceControllers.AudioSourceController.CheckStatus` | ThereBeDragons/Assets/Core/Modules/SoundManager/Controllers/AudioSourceController.cs:158-176 | one check of the monitor: completes, disposes if asked, and stops monitoring |
| `AudioSourceControllers.AudioSourceController.OnDestroy` | ThereBeDragons/Assets/Core/Modules/SoundManager/Controllers/AudioSourceController.cs:181-197 | releases the clip and drops the source |
| `SoundBanks.FirstWins` | ThereBeDragons/Assets/Core/Modules/SoundManager/ScriptableObjects/SoundBank.cs:56-67 | the dictionary holds exactly the IDs of the list |
| `SoundBanks.FirstWinsKeepsFirst` | ThereBeDragons/Assets/Core/Modules/SoundManager/ScriptableObjects/SoundBank.cs:60-66 | each ID maps to the first entry with that ID |
| `SoundBanks.SoundBank.constructor` | ThereBeDragons/Assets/Core/Modules/SoundManager/ScriptableObjects/SoundBank.cs:37-43 | the serialized list, an empty dictionary |
| `SoundBanks.SoundBank.Initialize` | ThereBeDragons/Assets/Core/Modules/SoundManager/ScriptableObjects/SoundBank.cs:56-67 | clears, then adds each entry whose ID is new, so a repeat call gives the same dictionary |
| `SoundBanks.SoundBank.GetSoundClip` | ThereBeDragons/Assets/Core/Modules/SoundManager/ScriptableObjects/SoundBank.cs:88-96 | an unknown ID gives null; otherwise the clip loaded from the entry's resource name, with the entry's cached name kept valid and the dictionary unchanged |
| `SoundBanks.FirstWith` | ThereBeDragons/Assets/Core/Modules/SoundManager/ScriptableObjects/SoundBank.cs:60-66 | the position of the first entry with an ID |
| `SoundBanks.GetSoundObjectFindsFirst` | ThereBeDragons/Assets/Core/Modules/SoundManager/ScriptableObjects/SoundBank.cs:74-81 | after `Initialize`, an ID is found exactly when the list has it, and the first such entry is returned |
| `SoundObjects.Split` | ThereBeDragons/Assets/Core/Modules/SoundManager/ScriptableObjects/SoundObject.cs:56 | `string.Split('/')`: at least one piece, none containing '/' |
| `SoundObjects.JoinSplit` | ThereBeDragons/Assets/Core/Modules/SoundManager/ScriptableObjects/SoundObject.cs:56 | joining the pieces with '/' gives the path back |
| `SoundObjects.FileName` | ThereBeDragons/Assets/Core/Modules/SoundManager/ScriptableObjects/SoundObject.cs:53 | the path after its last '/' |
| `SoundObjects.FileNameIsSuffix` | ThereBeDragons/Assets/Core/Modules/SoundManager/ScriptableObjects/SoundObject.cs:53 | the file name is the suffix of the path that follows its last '/' |
| `SoundObjects.LastDot` | ThereBeDragons/Assets/Core/Modules/SoundManager/ScriptableObjects/SoundObject.cs:53 | the position of the extension's dot, or none |
| `SoundObjects.LastResources` | ThereBeDragons/Assets/Core/Modules/SoundManager/ScriptableObjects/SoundObject.cs:61-68 | the last "Resources" directory, or none |
| `SoundObjects.ResourceNameFromDirectories` | ThereBeDragons/Assets/Core/Modules/SoundManager/ScriptableObjects/SoundObject.cs:53-69 | the name is the directories after the last "Resources", each followed by '/', then the file name without extension |
| `SoundObjects.ResourceNameWithoutSlash` | ThereBeDragons/Assets/Core/Modules/SoundManager/ScriptableObjects/SoundObject.cs:53-58 | a path without '/' gives the file name without extension |
| `SoundObjects.ResourceNameKeepsDirectories` | ThereBeDragons/Assets/Core/Modules/SoundManager/ScriptableObjects/SoundObject.cs:61-68 | with no "Resources" directory every directory is kept |
| `SoundObjects.ResourceNameBelowResources` | ThereBeDragons/Assets/Core/Modules/SoundManager/ScriptableObjects/SoundObject.cs:56-69 | everything up to "Resources/" is dropped |
| `SoundObjects.EmptyPathHasNoName` | ThereBeDragons/Assets/Core/Modules/SoundManager/ScriptableObjects/SoundObject.cs:51-53 | an empty path gives "" |
| `SoundObjects.ComputeAudioFileName` | ThereBeDragons/Assets/Core/Modules/SoundManager/ScriptableObjects/SoundObject.cs:53-69 | the computed resource name |
| `SoundObjects.PrependDirectories` | ThereBeDragons/Assets/Core/Modules/SoundManager/ScriptableObjects/SoundObject.cs:61-69 | the backward loop prepends the directories after the last "Resources" |
| `SoundObjects.SoundObject.Default` | ThereBeDragons/Assets/Core/Modules/SoundManager/ScriptableObjects/SoundObject.cs:13-25 | empty ID and path, 99 instances, no cached name |
| `SoundObjects.SoundObject.constructor` | ThereBeDragons/Assets/Core/Modules/SoundManager/ScriptableObjects/SoundObject.cs:13-25 | the given serialized fields, no cached name |
| `SoundObjects.SoundObject.GetAudioFileName` | ThereBeDragons/Assets/Core/Modules/SoundManager/ScriptableObjects/SoundObject.cs:49-73 | returns the resource name, caches it, and once cached returns the cached value |
| `SoundManagerSpecs.LayerFlagSetters` | ThereBeDragons/Assets/Core/Modules/SoundManager/SoundManager.cs:110-153 | mute and pause on a layer set that flag alone, whatever its kind |
| `SoundManagerSpecs.CreateLayerAddsOnlyNew` | ThereBeDragons/Assets/Core/Modules/SoundManager/SoundManager.cs:74-88 | a known ID changes nothing; a new one adds a multi layer or a single layer with the crossfade duration |
| `SoundManagerSpecs.CreateSoundNullExactlyWhenMissing` | ThereBeDragons/Assets/Core/Modules/SoundManager/SoundManager.cs:192-214 | the null controller is handed out exactly when the entry or its clip is missing |
| `SoundManagerSpecs.PlayUnknownOrRefusedIsNoOp` | ThereBeDragons/Assets/Core/Modules/SoundManager/SoundManager.cs:99-102 | an unknown or refusing layer plays nothing |
| `SoundManagerSpecs.MissingSoundChangesNothing` | ThereBeDragons/Assets/Core/Modules/SoundManager/SoundManager.cs:99-102 | with the corrected single-sound check, a sound missing from the bank or without a clip changes nothing |
| `SoundManagerSpecs.AsWrittenThrowsOnlyOnMissingEntry` | ThereBeDragons/Assets/Core/Modules/SoundManager/SoundManager.cs:97-103 | as written, the call throws `NullReferenceException` exactly when a single-sound layer with a live sound is asked about an ID missing from the bank, and otherwise does what the corrected composition does |
| `SoundManagerSpecs.MissingSoundChangesNothingAsWritten` | ThereBeDragons/Assets/Core/Modules/SoundManager/SoundManager.cs:97-103 | as written, a sound missing from the bank or without a clip either throws (single-sound layer with a live sound, ID not in the bank) or leaves every layer unchanged |
| `SoundManagerSpecs.MissingSoundThrowsOnLiveSingleLayer` | ThereBeDragons/Assets/Core/Modules/SoundManager/SoundManager.cs:99-102 | a single-sound layer playing "music" asked for a missing ID: the code throws where the corrected composition changes nothing |
| `SoundManagerSpecs.MutePauseOneLayer` | ThereBeDragons/Assets/Core/Modules/SoundManager/SoundManager.cs:110-141 | an unknown layer is left alone; a known one gets the flag, the others are unchanged |
| `SoundManagerSpecs.AllLayersFlagged` | ThereBeDragons/Assets/Core/Modules/SoundManager/SoundManager.cs:122-153 | every layer gets the flag and no layer is added |
| `SoundManagerSpecs.DisposeAllEmpties` | ThereBeDragons/Assets/Core/Modules/SoundManager/SoundManager.cs:38-43 | every layer is disposed |
| `SoundManagers.NewController` | ThereBeDragons/Assets/Core/Modules/SoundManager/SoundManager.cs:200-204 | a new controller for the ID and its clip, disposing itself on completion |
| `SoundManagers.SoundManager.constructor` | ThereBeDragons/Assets/Core/Modules/SoundManager/SoundManager.cs:29-34 | an empty layer dictionary |
| `SoundManagers.SoundManager.CreateLayer` | ThereBeDragons/Assets/Core/Modules/SoundManager/SoundManager.cs:72-89 | adds a new layer of the asked kind; a known ID only warns |
| `SoundManagers.SoundManager.CreateSound` | ThereBeDragons/Assets/Core/Modules/SoundManager/SoundManager.cs:192-214 | a new controller when entry and clip exist, the null controller otherwise; the entry's cached resource name stays valid, the bank is unchanged, and the next handle is taken |
| `SoundManagers.SoundManager.CreateController` | ThereBeDragons/Assets/Core/Modules/SoundManager/SoundManager.cs:198-211 | with both entry and clip a fresh controller for the ID and clip that disposes itself on completion, else the null controller; either way under the next handle |
| `SoundManagers.SoundManager.PlaySoundOnLayer` | ThereBeDragons/Assets/Core/Modules/SoundManager/SoundManager.cs:97-103 | as written: an unknown or refusing layer is left alone, an accepting layer gets the new controller, and a single-sound layer with a live sound asked about a missing ID throws `NullReferenceException` before anything changes; a handle is taken exactly when the layer accepted, and the entry's cached name stays valid |
| `SoundManagers.SoundManager.MuteLayer` | ThereBeDragons/Assets/Core/Modules/SoundManager/SoundManager.cs:110-116 | mutes a known layer |
| `SoundManagers.SoundManager.PauseLayer` | ThereBeDragons/Assets/Core/Modules/SoundManager/SoundManager.cs:135-141 | pauses a known layer |
| `SoundManagers.SoundManager.MuteAllLayers` | ThereBeDragons/Assets/Core/Modules/SoundManager/SoundManager.cs:122-128 | mutes every layer |
| `SoundManagers.SoundManager.PauseAllLayers` | ThereBeDragons/Assets/Core/Modules/SoundManager/SoundManager.cs:147-153 | pauses every layer |
| `SoundManagers.SoundManager.OnDestroy` | ThereBeDragons/Assets/Core/Modules/SoundManager/SoundManager.cs:36-45 | disposes every layer, then clears the dictionary |

## Left out

- Unity scene-graph side effects are not modelled:
  - creating canvas, layer and backdrop GameObjects;
  - sibling-index placement of the backdrop (`ViewManager.cs:688-693`);
  - hierarchy renames.
  `LinkCanvas`, `CreateLayers`, `CreateGreyoutImage` and `NameLayer` keep
  only their effect on the manager's own fields.
- The backdrop fade animation (`ViewManager.cs:739-769`) and
  `SetGreyoutAlpha` use float alpha steps and a timer. Only the backdrop's
  on/off decision is modelled.
- The scene identity check (`ViewManager.cs:616-621`) is not modelled. It
  uses `_loadedScene`, which the shown code never declares, and it is
  compiled only outside editor and `LOAD_LOCAL` builds.
- `Resources.Load`, `Instantiate`, `Destroy`, `SceneManager.LoadScene` and
  the body of the bundle loader are replaced:
  - `prefabIsView` stands for the result of instantiating a prefab;
  - the loaded object stands for what the bundle loader returns;
  - `sceneLoads` records the scene loads requested;
  - `pendingBundles` holds the bundle requests not yet answered.
- `GetViewOnLayer` returns -1 for an empty layer (`NoView`). A view
  registered under -1 therefore cannot be told apart from an empty layer.
  This is modelled as written (`NoViewIsAmbiguous`).
- View IDs are integers compared by value. C# compares the boxed
  `IComparable` references. This is faithful wherever both sides come from
  the same descriptor. `UpdateView` is the exception: see Findings.
- Callbacks handed to the manager are inert values: running one only
  appends it to `invoked`. A callback that calls back into the manager is
  not modelled:
  - a scene callback that calls `ChangeScene` adds to
    `_onSceneLoadComplete` while it runs (`ViewManager.cs:627`), and line
    628 then sets the field to null, so the new callback is lost; the
    model's `OnSceneLoadComplete` keeps it;
  - the `completeCallback` of `RemoveView` runs inside the removal's
    completion (`ViewManager.cs:209-212`), before the greyout is re-placed,
    so views it adds or removes interleave with that completion.
- `DeclareOverlays` (`ViewManager.cs:450-454`) keeps the caller's own list
  and sorts it in place, so later changes the caller makes to that list
  change the overlays. The model stores a sorted copy, and this aliasing
  is not modelled.
- `ViewManagerSystem.ViewManager.CreateAndAddView` has no case for a
  missing local prefab: `Resources.Load` then returns null and
  `Instantiate` throws (`ViewManager.cs:580-581`). `prefabIsView` only
  says whether an instantiated prefab carries a view component.
- `ViewManagerSystem.ViewManager.CreateAndAddView` assumes the bundle
  loader answers after the requesting call returns: every request becomes
  a ticket in `pendingBundles`, which `ViewLoadedFromBundle` answers later.
  The loader is a plain callback (`BaseViewManager.cs:17-18`), and one that
  answers synchronously is not modelled. In that case:
  - `AddView` would place a bundled view inside `CreateAndAddView`, before
    the opened event and `UpdateView` (`ViewManager.cs:161-166`), so the
    initial data would reach it; the model reports `UpdateView` as
    `Ignored` there;
  - the same holds for the replacement completion (`ViewManager.cs:143-153`);
  - `ChangeSceneBundle` (`ViewManager.cs:390`) would throw
    `NullReferenceException` inside the call itself, not in a later
    `ViewLoadedFromBundle`.
- The relative order of the multicast `onViewOpened`/`onViewClosed`
  subscribers is not modelled. A subscriber is a flag, and an event is
  recorded once when someone listens.
- Logging is not modelled: `PrintLog`, `PrintLogWarning`, `PrintLogError`
  and `SetDebugMethods`. A warning path is modelled as the status
  `Ignored`.
- DOTween fades, volumes (`GetVolume`, `masterVolume`, crossfade times) and
  `AudioSource.isPlaying` are floats or foreign calls:
  - a fade is a recorded command, and its completion is a separate
    operation;
  - `isPlaying` is a parameter of each monitor check;
  - the monitor coroutine is a sequence of checks (`CheckStatus`).
- `audioSource != null` is modelled by the `live` set of handles. Unity
  can destroy a source behind the layer's back, and the set is a parameter
  of each call.
- `SoundManagers.SoundManager` holds its layers as values in a map, so
  aliasing of a layer object is not modelled. The layer classes model a
  layer used on its own.
- A controller played twice on one multi-sound layer: subscriptions form a
  set, so a second `+=` of the same handler is not counted twice.
- `AudioSourceControllers.DisposedNeverCompletes` covers only the state
  right after `Dispose`. `Dispose` (`AudioSourceController.cs:202-207`)
  leaves `_soundMonitor` set, so a later `Play` would not restart the
  monitor (line 104), and Unity destroys the component at the end of the
  frame. The model's `Dispose` clears `monitoring`, so a `Play` after it
  restarts the monitor. No caller in the modelled code plays a disposed
  controller.
- A `MultiSoundLayer` used after `Dispose`, whose lists the source sets to
  null, is not modelled. After `Dispose` the model holds empty collections.
- `SoundManagerSpecs.MissingSoundChangesNothing` is stated about the
  corrected single-sound check (see Findings). For the code as written,
  `MissingSoundChangesNothingAsWritten` states the same except that a
  single-sound layer with a live sound throws `NullReferenceException`;
  `SoundManagers.SoundManager.PlaySoundOnLayer` follows the code as written
  and returns that exception.
- `MultiLayerSpecs.AcceptedPlayRespectsLimit` is weaker than "the count
  never exceeds `maxInstances`". It bounds the count by
  `max(maxInstances, 1)`, because a first play of an unknown ID is accepted
  even when `maxInstances` is 0 or negative.
- `KillAllSounds` and `MuteAllSounds` (`SoundManager.cs:158-184`) are not
  modelled. They act on every `IAudioSourceController` component that
  Unity's `GetComponents` returns, which the model does not track.
- `SoundManagers.SoundManager.OnDestroy` ends with `KillAllSounds()` for
  the same reason. The model stops after disposing and clearing the
  layers.
- The sound bank singleton (`SoundBank.instance`, `Resources.Load`) is
  replaced by the bank object passed in. `SoundManager.Initialize` is not
  modelled separately, because it only calls `SoundBank.Initialize`.
- The path functions model '/'-separated paths with ordinal comparison.
  `Path.GetFileNameWithoutExtension` also splits at '\\', and
  `string.Compare` is culture-sensitive.
- `EventManagerSystem.EventManager.Dispatch` takes a `fuel` bound on the
  number of events processed in one top-level call. The source keeps
  recursing while observers keep dispatching. Running out of fuel is the
  `OutOfFuel` outcome, which the source does not have.
- An observer's `OnNotify` is the function `react` of the observer and
  the event, so an observer whose reaction depends on its own state (what
  it heard before, a counter) is not modelled: an observer makes the same
  calls back every time it hears the same event.
- An observer that throws is modelled as a `Threw` outcome that stops
  processing. The source's exception propagates to the dispatcher's caller
  and leaves `_processingEvent` set (`ThrowLeavesManagerDeaf`).
- The priority queue tree is a datatype value held in the queue's `head`
  field. The in-place relinking of `lesser`/`greater` and node aliasing are
  therefore not modelled; the resulting tree is.
- `PQNode.Dispose` (`PQNode.cs:210-216`) is not modelled: no core
  operation calls it.
- `PriorityQueue.ToString` skips the separator when the text built so far
  is empty. This is modelled as written: a value whose text is empty loses
  its separator (`EmptyLeadingValueLosesSeparator`).
- C# `ToString` of a value is the function parameter `show`.
- `Console.WriteLine` in the sample program is not modelled. Each printed
  string is proved instead.
- The unique ID counter wraps at `int.MaxValue`, as unchecked C# does, and
  the model states this explicitly.

## Findings

| source | as written | input that shows it | evidently intended | confidence | as-written member | corrected member |
|---|---|---|---|---|---|---|
| ThereBeDragons/Assets/Core/Modules/ViewManager/Scripts/ViewManager.cs:269 | `UpdateView` compares the occupant's ID with the caller's `ID` argument by `==` on `IComparable`, which is reference equality; `AddView` passes its own argument at lines 150 and 165 | an enum or integer ID boxed afresh by the caller (`BoxedId(0, 5)` against the stored `BoxedId(1, 5)`): the initial data never reaches the new view | data reaches the view whose ID is equal in value | not executed; high (boxing semantics) | `ViewManagerBoxedIds.FreshBoxLosesUpdate` | `ViewManagerBoxedIds.UpdateReachesView` |
| ThereBeDragons/Assets/Core/Modules/SoundManager/Layers/SingleSoundLayer.cs:57-65 | `WillAcceptSound` reads `soundObject.audioID` whenever the current source is live, without a null check | a sound ID missing from the bank, while music plays: `GetSoundObject` returns null and `PlaySoundOnLayer` throws `NullReferenceException` | refuse only the sound already playing, and accept a missing one as the multi-sound layer does, which later yields the null controller | not executed; high | `SingleLayerSpecs.UnknownSoundThrows` | `SingleSoundLayers.SingleSoundLayer.WillAcceptSound` |
| ThereBeDragons/Assets/Core/Modules/SoundManager/SoundManager.cs:97-103 | `PlaySoundOnLayer` passes `GetSoundObject(soundID)`, which is null for an ID missing from the bank, to the layer's `WillAcceptSound` | layer 0 a single-sound layer playing "music", `PlaySoundOnLayer("missing", false, 0)`: the call throws `NullReferenceException` | nothing is played and nothing changes, as on a multi-sound layer | not executed; high | `SoundManagerSpecs.MissingSoundThrowsOnLiveSingleLayer` | `SoundManagerSpecs.MissingSoundChangesNothing` |
