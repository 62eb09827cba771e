/**
 * `SoundManager`: a dictionary from layer ID to sound layer, and the routing
 * of requests to it.  A layer is either kind; the dictionary's values are
 * the layers' states (see `MultiLayerSpecs` and `SingleLayerSpecs`), so a
 * call on a layer is the matching function of its kind.  Layer IDs are
 * `IComparable` enum values in the program and integers here.
 *
 * `live` is the set of controller handles whose `AudioSource` exists.  A
 * controller made by `CreateSound` gets a new handle; a real controller is
 * live from its creation, the `NullAudioSourceController` never is.
 */
module SoundManagerSpecs {
  import opened Wrappers
  import opened SoundData
  import opened SoundObjects
  import opened AbstractSoundLayers
  import SingleLayerSpecs
  import MultiLayerSpecs

  type LayerId = int

  /** An `AbstractSoundLayer`: one of the two kinds, with its state. */
  datatype Layer = Multi(multi: MultiLayerSpecs.MultiLayer) | Single(single: SingleLayerSpecs.SingleLayer)

  /** The `_mute`/`_pause` flags of the base class. */
  function FlagsOf(layer: Layer): LayerFlags
  {
    match layer
    case Multi(m) => m.flags
    case Single(s) => s.flags
  }

  /** The layer `CreateLayer` makes. */
  function NewLayer(isMultiSound: bool, crossFadeDuration: real): Layer
  {
    if isMultiSound then Multi(MultiLayerSpecs.NewMultiLayer())
    else Single(SingleLayerSpecs.NewSingleLayer(crossFadeDuration))
  }

  /** `WillAcceptSound` with the single-sound layer's `null` check added (`SingleLayerSpecs.WillAcceptSound`). */
  function LayerWillAccept(layer: Layer, soundObject: Option<SoundObject>, live: set<nat>): bool
  {
    match layer
    case Multi(m) => MultiLayerSpecs.WillAcceptSound(m, soundObject)
    case Single(s) => SingleLayerSpecs.WillAcceptSound(s, soundObject, live)
  }

  /** `WillAcceptSound` as each kind writes it: the single-sound layer's throws on a `null` entry while its sound is live. */
  function LayerWillAcceptAsWritten(layer: Layer, soundObject: Option<SoundObject>, live: set<nat>)
    : Result<bool, SingleLayerSpecs.Exception>
  {
    match layer
    case Multi(m) => Ok(MultiLayerSpecs.WillAcceptSound(m, soundObject))
    case Single(s) => SingleLayerSpecs.WillAcceptSoundAsWritten(s, soundObject, live)
  }

  /** The layer's check throws: a single-sound layer with a live sound is asked about an ID missing from the bank. */
  predicate AcceptThrows(layers: map<LayerId, Layer>, layerID: LayerId, soundObject: Option<SoundObject>, live: set<nat>)
  {
    && layerID in layers
    && layers[layerID].Single?
    && SingleLayerSpecs.IsLive(layers[layerID].single.current, live)
    && soundObject.None?
  }

  function LayerPlay(layer: Layer, sound: Sound, loop: bool, live: set<nat>): Layer
  {
    match layer
    case Multi(m) => Multi(MultiLayerSpecs.PlaySound(m, sound, loop))
    case Single(s) => Single(SingleLayerSpecs.PlaySound(s, sound, loop, live))
  }

  function LayerMute(layer: Layer, mute: bool, live: set<nat>): Layer
  {
    match layer
    case Multi(m) => Multi(MultiLayerSpecs.MuteLayer(m, mute))
    case Single(s) => Single(SingleLayerSpecs.MuteLayer(s, mute, live))
  }

  function LayerPause(layer: Layer, pause: bool, live: set<nat>): Layer
  {
    match layer
    case Multi(m) => Multi(MultiLayerSpecs.PauseLayer(m, pause))
    case Single(s) => Single(SingleLayerSpecs.PauseLayer(s, pause, live))
  }

  function LayerDispose(layer: Layer): Layer
  {
    match layer
    case Multi(m) => Multi(MultiLayerSpecs.Dispose(m))
    case Single(s) => Single(SingleLayerSpecs.Dispose(s))
  }

  /** `CreateLayer`: add a layer of the requested kind under a new ID; an existing ID only draws a warning. */
  function CreateLayer(layers: map<LayerId, Layer>, layerID: LayerId, isMultiSound: bool, crossFadeDuration: real)
    : map<LayerId, Layer>
  {
    if layerID in layers then layers else layers[layerID := NewLayer(isMultiSound, crossFadeDuration)]
  }

  /**
   * `CreateSound`: a controller for `soundID` when both the bank entry and
   * its clip were found, otherwise a `NullAudioSourceController`, whose
   * `soundID` is never set.
   */
  function CreateSound(soundID: string, soundObject: Option<SoundObject>, clip: Option<AudioClip>, handle: nat): Sound
  {
    if soundObject.Some? && clip.Some? then Sound(handle, soundID) else Sound(handle, "")
  }

  /** The handles live once `CreateSound` has made the controller for `handle`. */
  function LiveAfterCreate(live: set<nat>, soundObject: Option<SoundObject>, clip: Option<AudioClip>, handle: nat): set<nat>
  {
    if soundObject.Some? && clip.Some? then live + {handle} else live
  }

  /**
   * `PlaySoundOnLayer` with the corrected single-sound check: when the layer
   * exists and accepts the bank entry, create a controller (with handle
   * `handle`) and hand it to the layer; otherwise nothing.  `clip` is what
   * loading the entry's clip gives.
   */
  function PlaySoundOnLayer(layers: map<LayerId, Layer>, layerID: LayerId, soundID: string,
                            soundObject: Option<SoundObject>, clip: Option<AudioClip>, handle: nat,
                            loop: bool, live: set<nat>): map<LayerId, Layer>
  {
    if layerID in layers && LayerWillAccept(layers[layerID], soundObject, live) then
      layers[layerID := LayerPlay(layers[layerID], CreateSound(soundID, soundObject, clip, handle), loop,
                                  LiveAfterCreate(live, soundObject, clip, handle))]
    else
      layers
  }

  /**
   * `PlaySoundOnLayer` as written: the layer's own check runs first, and
   * when it throws the exception leaves the method before anything changed.
   */
  function PlaySoundOnLayerAsWritten(layers: map<LayerId, Layer>, layerID: LayerId, soundID: string,
                                     soundObject: Option<SoundObject>, clip: Option<AudioClip>, handle: nat,
                                     loop: bool, live: set<nat>): Result<map<LayerId, Layer>, SingleLayerSpecs.Exception>
  {
    if layerID !in layers then Ok(layers)
    else
      match LayerWillAcceptAsWritten(layers[layerID], soundObject, live)
      case Err(e) => Err(e)
      case Ok(accept) =>
        if accept then
          Ok(layers[layerID := LayerPlay(layers[layerID], CreateSound(soundID, soundObject, clip, handle), loop,
                                         LiveAfterCreate(live, soundObject, clip, handle))])
        else
          Ok(layers)
  }

  /** `MuteLayer(layerID, mute)`: only a known layer is touched. */
  function MuteLayer(layers: map<LayerId, Layer>, layerID: LayerId, mute: bool, live: set<nat>): map<LayerId, Layer>
  {
    if layerID in layers then layers[layerID := LayerMute(layers[layerID], mute, live)] else layers
  }

  /** `PauseLayer(layerID, pause)`: only a known layer is touched. */
  function PauseLayer(layers: map<LayerId, Layer>, layerID: LayerId, pause: bool, live: set<nat>): map<LayerId, Layer>
  {
    if layerID in layers then layers[layerID := LayerPause(layers[layerID], pause, live)] else layers
  }

  /** `MuteAllLayers`: every layer muted or unmuted. */
  function MuteAllLayers(layers: map<LayerId, Layer>, mute: bool, live: set<nat>): map<LayerId, Layer>
  {
    map k | k in layers :: LayerMute(layers[k], mute, live)
  }

  /** `PauseAllLayers`: every layer paused or unpaused. */
  function PauseAllLayers(layers: map<LayerId, Layer>, pause: bool, live: set<nat>): map<LayerId, Layer>
  {
    map k | k in layers :: LayerPause(layers[k], pause, live)
  }

  /** Every layer of `layers` disposed: what `OnDestroy` does before clearing the dictionary. */
  function DisposeAll(layers: map<LayerId, Layer>): map<LayerId, Layer>
  {
    map k | k in layers :: LayerDispose(layers[k])
  }

  /** The base setters: muting sets only the mute flag, pausing only the pause flag. */
  lemma LayerFlagSetters(layer: Layer, b: bool, live: set<nat>)
    ensures FlagsOf(LayerMute(layer, b, live)) == FlagsOf(layer).(mute := b)
    ensures FlagsOf(LayerPause(layer, b, live)) == FlagsOf(layer).(pause := b)
  {
    if layer.Single? && !b && SingleLayerSpecs.IsLive(layer.single.current, live) {
      SingleLayerSpecs.PlayNewClipStarts(layer.single.(flags := WithPause(layer.single.flags, b),
        commands := layer.single.commands + [ResumeSound(layer.single.current.value)]), live);
    }
  }

  /**
   * Creating a layer under a known ID changes nothing; under a new ID it adds
   * exactly that layer, multi-sound or single-sound as requested, unmuted and
   * unpaused, with the given cross-fade duration for a single-sound layer.
   */
  lemma CreateLayerAddsOnlyNew(layers: map<LayerId, Layer>, layerID: LayerId, isMultiSound: bool, crossFadeDuration: real)
    ensures layerID in layers ==> CreateLayer(layers, layerID, isMultiSound, crossFadeDuration) == layers
    ensures layerID !in layers ==>
              var r := CreateLayer(layers, layerID, isMultiSound, crossFadeDuration);
              && r.Keys == layers.Keys + {layerID}
              && (forall k :: k in layers ==> r[k] == layers[k])
              && (r[layerID].Multi? <==> isMultiSound)
              && (r[layerID].Single? ==> r[layerID].single.crossFadeDuration == crossFadeDuration)
              && FlagsOf(r[layerID]) == NewLayerFlags()
  {
  }

  /** The null controller comes back exactly when the entry or its clip is missing. */
  lemma CreateSoundNullExactlyWhenMissing(soundID: string, soundObject: Option<SoundObject>, clip: Option<AudioClip>, handle: nat)
    requires soundID != ""
    ensures CreateSound(soundID, soundObject, clip, handle).soundID == "" <==> soundObject.None? || clip.None?
    ensures CreateSound(soundID, soundObject, clip, handle).handle == handle
  {
  }

  /** Playing on an unknown layer, or a sound the layer refuses, changes nothing. */
  lemma PlayUnknownOrRefusedIsNoOp(layers: map<LayerId, Layer>, layerID: LayerId, soundID: string,
                                   soundObject: Option<SoundObject>, clip: Option<AudioClip>, handle: nat,
                                   loop: bool, live: set<nat>)
    requires layerID !in layers || !LayerWillAccept(layers[layerID], soundObject, live)
    ensures PlaySoundOnLayer(layers, layerID, soundID, soundObject, clip, handle, loop, live) == layers
  {
  }

  /**
   * With the corrected check, a sound missing from the bank, or whose clip
   * cannot be loaded, leaves every layer as it was: the layer is handed the
   * null controller and ignores it.
   */
  lemma MissingSoundChangesNothing(layers: map<LayerId, Layer>, layerID: LayerId, soundID: string,
                                   soundObject: Option<SoundObject>, clip: Option<AudioClip>, handle: nat,
                                   loop: bool, live: set<nat>)
    requires soundObject.None? || clip.None?
    ensures PlaySoundOnLayer(layers, layerID, soundID, soundObject, clip, handle, loop, live) == layers
  {
    if layerID in layers && LayerWillAccept(layers[layerID], soundObject, live) {
      var s := CreateSound(soundID, soundObject, clip, handle);
      assert s.soundID == "";
      assert LayerPlay(layers[layerID], s, loop, LiveAfterCreate(live, soundObject, clip, handle)) == layers[layerID];
    }
  }

  /**
   * The code as written throws exactly when `AcceptThrows`; otherwise it does
   * what the corrected `PlaySoundOnLayer` does.
   */
  lemma AsWrittenThrowsOnlyOnMissingEntry(layers: map<LayerId, Layer>, layerID: LayerId, soundID: string,
                                          soundObject: Option<SoundObject>, clip: Option<AudioClip>, handle: nat,
                                          loop: bool, live: set<nat>)
    ensures var r := PlaySoundOnLayerAsWritten(layers, layerID, soundID, soundObject, clip, handle, loop, live);
            && (r.Err? <==> AcceptThrows(layers, layerID, soundObject, live))
            && (r.Err? ==> r.error == SingleLayerSpecs.NullReferenceException)
            && (r.Ok? ==> r.value == PlaySoundOnLayer(layers, layerID, soundID, soundObject, clip, handle, loop, live))
  {
    if layerID in layers && layers[layerID].Single? {
      SingleLayerSpecs.WillAcceptSoundAgrees(layers[layerID].single, soundObject, live);
    }
  }

  /**
   * As written, a sound missing from the bank, or whose clip cannot be
   * loaded, leaves every layer as it was, except that asking a single-sound
   * layer with a live sound about an ID missing from the bank throws.
   */
  lemma MissingSoundChangesNothingAsWritten(layers: map<LayerId, Layer>, layerID: LayerId, soundID: string,
                                            soundObject: Option<SoundObject>, clip: Option<AudioClip>, handle: nat,
                                            loop: bool, live: set<nat>)
    requires soundObject.None? || clip.None?
    ensures var r := PlaySoundOnLayerAsWritten(layers, layerID, soundID, soundObject, clip, handle, loop, live);
            if AcceptThrows(layers, layerID, soundObject, live) then r == Err(SingleLayerSpecs.NullReferenceException)
            else r == Ok(layers)
  {
    AsWrittenThrowsOnlyOnMissingEntry(layers, layerID, soundID, soundObject, clip, handle, loop, live);
    MissingSoundChangesNothing(layers, layerID, soundID, soundObject, clip, handle, loop, live);
  }

  /** The input that shows it: a music layer playing "music", asked for an ID the bank lacks. */
  lemma MissingSoundThrowsOnLiveSingleLayer()
    ensures var layers := map[0 := Single(SingleLayerSpecs.NewSingleLayer(1.0).(current := Some(Sound(0, "music"))))];
            && PlaySoundOnLayerAsWritten(layers, 0, "missing", None, None, 1, false, {0}) == Err(SingleLayerSpecs.NullReferenceException)
            && PlaySoundOnLayer(layers, 0, "missing", None, None, 1, false, {0}) == layers
  {
    var layers := map[0 := Single(SingleLayerSpecs.NewSingleLayer(1.0).(current := Some(Sound(0, "music"))))];
    MissingSoundChangesNothing(layers, 0, "missing", None, None, 1, false, {0});
  }

  /** Muting or pausing an unknown layer changes nothing; a known one changes only that layer. */
  lemma MutePauseOneLayer(layers: map<LayerId, Layer>, layerID: LayerId, b: bool, live: set<nat>)
    ensures layerID !in layers ==> MuteLayer(layers, layerID, b, live) == layers && PauseLayer(layers, layerID, b, live) == layers
    ensures layerID in layers ==>
              && MuteLayer(layers, layerID, b, live).Keys == layers.Keys
              && PauseLayer(layers, layerID, b, live).Keys == layers.Keys
              && FlagsOf(MuteLayer(layers, layerID, b, live)[layerID]).mute == b
              && FlagsOf(PauseLayer(layers, layerID, b, live)[layerID]).pause == b
              && (forall k :: k in layers && k != layerID ==>
                    MuteLayer(layers, layerID, b, live)[k] == layers[k] && PauseLayer(layers, layerID, b, live)[k] == layers[k])
  {
    if layerID in layers {
      LayerFlagSetters(layers[layerID], b, live);
    }
  }

  /** Muting or pausing all layers sets that flag on every layer, leaves the other flag alone, and adds or drops no layer. */
  lemma AllLayersFlagged(layers: map<LayerId, Layer>, b: bool, live: set<nat>)
    ensures MuteAllLayers(layers, b, live).Keys == layers.Keys
    ensures PauseAllLayers(layers, b, live).Keys == layers.Keys
    ensures forall k :: k in layers ==> FlagsOf(MuteAllLayers(layers, b, live)[k]) == FlagsOf(layers[k]).(mute := b)
    ensures forall k :: k in layers ==> FlagsOf(PauseAllLayers(layers, b, live)[k]) == FlagsOf(layers[k]).(pause := b)
  {
    forall k | k in layers
      ensures FlagsOf(MuteAllLayers(layers, b, live)[k]) == FlagsOf(layers[k]).(mute := b)
      ensures FlagsOf(PauseAllLayers(layers, b, live)[k]) == FlagsOf(layers[k]).(pause := b)
    {
      LayerFlagSetters(layers[k], b, live);
    }
  }

  /** Disposing a layer leaves a multi-sound layer empty and a single-sound layer with no fade in progress. */
  lemma DisposeAllEmpties(layers: map<LayerId, Layer>)
    requires forall k :: k in layers && layers[k].Multi? ==> MultiLayerSpecs.Valid(layers[k].multi)
    ensures DisposeAll(layers).Keys == layers.Keys
    ensures forall k :: k in layers ==>
              match DisposeAll(layers)[k]
              case Multi(m) => m.clips == [] && m.counts == map[] && m.subscribed == {}
              case Single(s) => !s.fadeInProgress
  {
    forall k | k in layers && layers[k].Multi? {
      MultiLayerSpecs.DisposeEmpties(layers[k].multi);
    }
  }
}
