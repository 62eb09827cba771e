/**
 * The `SoundManager` class: the `_soundLayers` dictionary, reassigned by each
 * method as the function of the same name in `SoundManagerSpecs` says.  The
 * sound bank is the `SoundBank` object the manager is handed (the static
 * `SoundBank.instance`); `load` stands for `Resources.Load<AudioClip>`.
 */
module SoundManagers {
  import opened Wrappers
  import opened SoundData
  import opened SoundObjects
  import opened SoundBanks
  import opened AudioSourceControllers
  import opened SoundManagerSpecs

  /** The component `CreateSound` adds to its new game object, set up for `soundID` and `clip`. */
  method NewController(soundID: string, clip: Option<AudioClip>) returns (c: AudioSourceController)
    ensures fresh(c) && c.soundID == soundID && c.clip == clip && c.disposeOnComplete
  {
    c := new AudioSourceController();
    c.soundID := soundID;
    c.clip := clip;
    c.disposeOnComplete := true;
  }

  /** The two lookups `CreateSound` starts with: the bank entry and its clip. */
  method LookUp(soundID: string, bank: SoundBank, load: string -> Option<AudioClip>)
    returns (soundObject: Option<SoundObject>, clip: Option<AudioClip>)
    requires soundID in bank.bank ==> bank.bank[soundID].Valid()
    modifies if soundID in bank.bank then {bank.bank[soundID]} else {}
    ensures bank.bank == old(bank.bank)
    ensures soundID in bank.bank ==> bank.bank[soundID].Valid()
    ensures soundObject == bank.GetSoundObject(soundID) && clip == ClipFor(soundObject, load)
  {
    soundObject := bank.GetSoundObject(soundID);
    clip := bank.GetSoundClip(soundID, load);
  }

  class SoundManager {
    /** `_soundLayers`. */
    var soundLayers: map<LayerId, Layer>
    /** The handle the next controller `CreateSound` makes will get. */
    var nextHandle: nat

    /** `Awake`: an empty dictionary. */
    constructor ()
      ensures soundLayers == map[] && nextHandle == 0
    {
      soundLayers := map[];
      nextHandle := 0;
    }

    method CreateLayer(layerID: LayerId, isMultiSound: bool, crossFadeDuration: real)
      modifies this`soundLayers
      ensures soundLayers == SoundManagerSpecs.CreateLayer(old(soundLayers), layerID, isMultiSound, crossFadeDuration)
    {
      if layerID !in soundLayers {
        if isMultiSound {
          soundLayers := soundLayers[layerID := Multi(MultiLayerSpecs.NewMultiLayer())];
        } else {
          soundLayers := soundLayers[layerID := Single(SingleLayerSpecs.NewSingleLayer(crossFadeDuration))];
        }
      }
    }

    /**
     * `CreateSound(soundID)` with `disposeOnComplete` at its default, true: a
     * new `AudioSourceController` for the entry and its clip when both are
     * found, otherwise a `NullAudioSourceController` (no object here).
     */
    method CreateSound(soundID: string, bank: SoundBank, load: string -> Option<AudioClip>)
      returns (sound: Sound, controller: Option<AudioSourceController>)
      requires soundID in bank.bank ==> bank.bank[soundID].Valid()
      modifies this`nextHandle, if soundID in bank.bank then {bank.bank[soundID]} else {}
      ensures sound == SoundManagerSpecs.CreateSound(soundID, bank.GetSoundObject(soundID),
                                                     ClipFor(bank.GetSoundObject(soundID), load), old(nextHandle))
      ensures nextHandle == old(nextHandle) + 1
      ensures soundID in bank.bank ==> bank.bank[soundID].Valid()
      ensures bank.bank == old(bank.bank)
      ensures controller.Some? <==> bank.GetSoundObject(soundID).Some? && ClipFor(bank.GetSoundObject(soundID), load).Some?
      ensures controller.Some? ==> fresh(controller.value) && controller.value.soundID == soundID
                                   && controller.value.clip == ClipFor(bank.GetSoundObject(soundID), load)
                                   && controller.value.disposeOnComplete
    {
      var soundObject, clip := LookUp(soundID, bank, load);
      sound, controller := CreateController(soundID, soundObject, clip);
    }

    /** The part of `CreateSound` after the lookups: the controller, or the null controller, under the next handle. */
    method CreateController(soundID: string, soundObject: Option<SoundObject>, clip: Option<AudioClip>)
      returns (sound: Sound, controller: Option<AudioSourceController>)
      modifies this`nextHandle
      ensures sound == SoundManagerSpecs.CreateSound(soundID, soundObject, clip, old(nextHandle))
      ensures nextHandle == old(nextHandle) + 1
      ensures controller.Some? <==> soundObject.Some? && clip.Some?
      ensures controller.Some? ==> fresh(controller.value) && controller.value.soundID == soundID
                                   && controller.value.clip == clip && controller.value.disposeOnComplete
    {
      if soundObject.Some? && clip.Some? {
        var c := NewController(soundID, clip);
        controller := Some(c);
        sound := Sound(nextHandle, soundID);
      } else {
        controller := None;
        sound := Sound(nextHandle, "");
      }
      nextHandle := nextHandle + 1;
    }

    /**
     * `PlaySoundOnLayer`: `live` is the set of controllers whose
     * `AudioSource` exists before the call.  `thrown` is the exception the
     * layer's `WillAcceptSound` raises, if any; it leaves before anything changed.
     */
    method PlaySoundOnLayer(soundID: string, loop: bool, layerID: LayerId, bank: SoundBank,
                            load: string -> Option<AudioClip>, live: set<nat>)
      returns (thrown: Option<SingleLayerSpecs.Exception>)
      requires soundID in bank.bank ==> bank.bank[soundID].Valid()
      modifies this`soundLayers, this`nextHandle, if soundID in bank.bank then {bank.bank[soundID]} else {}
      ensures var r := PlaySoundOnLayerAsWritten(old(soundLayers), layerID, soundID,
                         bank.GetSoundObject(soundID), ClipFor(bank.GetSoundObject(soundID), load),
                         old(nextHandle), loop, live);
              && (r.Err? ==> thrown == Some(r.error) && soundLayers == old(soundLayers))
              && (r.Ok? ==> thrown == None && soundLayers == r.value)
      ensures nextHandle == if layerID in old(soundLayers)
                               && LayerWillAcceptAsWritten(old(soundLayers)[layerID], bank.GetSoundObject(soundID), live) == Ok(true)
                            then old(nextHandle) + 1 else old(nextHandle)
      ensures soundID in bank.bank ==> bank.bank[soundID].Valid()
      ensures bank.bank == old(bank.bank)
    {
      var soundObject := bank.GetSoundObject(soundID);
      ghost var r := PlaySoundOnLayerAsWritten(soundLayers, layerID, soundID, soundObject, ClipFor(soundObject, load),
                                               nextHandle, loop, live);
      if layerID in soundLayers {
        var accept := LayerWillAcceptAsWritten(soundLayers[layerID], soundObject, live);
        if accept.Err? {
          assert r == Err(accept.error);
          return Some(accept.error);
        }
        if accept.value {
          PlayNewSound(soundID, loop, layerID, bank, load, live);
          assert r == Ok(soundLayers);
        } else {
          assert r == Ok(soundLayers);
        }
      } else {
        assert r == Ok(soundLayers);
      }
      thrown := None;
    }

    /** The accepting branch of `PlaySoundOnLayer`: create the sound and hand it to the layer. */
    method PlayNewSound(soundID: string, loop: bool, layerID: LayerId, bank: SoundBank,
                        load: string -> Option<AudioClip>, live: set<nat>)
      requires layerID in soundLayers
      requires soundID in bank.bank ==> bank.bank[soundID].Valid()
      modifies this`soundLayers, this`nextHandle, if soundID in bank.bank then {bank.bank[soundID]} else {}
      ensures var entry := bank.GetSoundObject(soundID);
              var clip := ClipFor(entry, load);
              soundLayers == old(soundLayers)[layerID := LayerPlay(old(soundLayers)[layerID],
                                                                   SoundManagerSpecs.CreateSound(soundID, entry, clip, old(nextHandle)),
                                                                   loop, LiveAfterCreate(live, entry, clip, old(nextHandle)))]
      ensures nextHandle == old(nextHandle) + 1
      ensures soundID in bank.bank ==> bank.bank[soundID].Valid()
      ensures bank.bank == old(bank.bank)
    {
      ghost var entry := bank.GetSoundObject(soundID);
      ghost var clip := ClipFor(entry, load);
      var sound, controller := CreateSound(soundID, bank, load);
      assert bank.GetSoundObject(soundID) == entry;
      var liveNow := if controller.Some? then live + {sound.handle} else live;
      assert liveNow == LiveAfterCreate(live, entry, clip, old(nextHandle));
      soundLayers := soundLayers[layerID := LayerPlay(soundLayers[layerID], sound, loop, liveNow)];
    }

    method MuteLayer(layerID: LayerId, mute: bool, live: set<nat>)
      modifies this`soundLayers
      ensures soundLayers == SoundManagerSpecs.MuteLayer(old(soundLayers), layerID, mute, live)
    {
      if layerID in soundLayers {
        soundLayers := soundLayers[layerID := LayerMute(soundLayers[layerID], mute, live)];
      }
    }

    method PauseLayer(layerID: LayerId, pause: bool, live: set<nat>)
      modifies this`soundLayers
      ensures soundLayers == SoundManagerSpecs.PauseLayer(old(soundLayers), layerID, pause, live)
    {
      if layerID in soundLayers {
        soundLayers := soundLayers[layerID := LayerPause(soundLayers[layerID], pause, live)];
      }
    }

    /** `MuteAllLayers`: the `foreach` over the dictionary, one layer at a time. */
    method MuteAllLayers(mute: bool, live: set<nat>)
      modifies this`soundLayers
      ensures soundLayers == SoundManagerSpecs.MuteAllLayers(old(soundLayers), mute, live)
    {
      var todo: set<LayerId> := soundLayers.Keys;
      while todo != {}
        invariant soundLayers.Keys == old(soundLayers).Keys && todo <= soundLayers.Keys
        invariant forall k :: k in soundLayers ==>
                    soundLayers[k] == if k in todo then old(soundLayers)[k] else LayerMute(old(soundLayers)[k], mute, live)
        decreases todo
      {
        Inhabited(todo);
        var k :| k in todo;
        soundLayers := soundLayers[k := LayerMute(soundLayers[k], mute, live)];
        todo := todo - {k};
      }
      ghost var spec := SoundManagerSpecs.MuteAllLayers(old(soundLayers), mute, live);
      assert spec.Keys == soundLayers.Keys;
      assert forall k :: k in spec ==> spec[k] == soundLayers[k];
    }

    /** `PauseAllLayers`: the `foreach` over the dictionary, one layer at a time. */
    method PauseAllLayers(pause: bool, live: set<nat>)
      modifies this`soundLayers
      ensures soundLayers == SoundManagerSpecs.PauseAllLayers(old(soundLayers), pause, live)
    {
      var todo: set<LayerId> := soundLayers.Keys;
      while todo != {}
        invariant soundLayers.Keys == old(soundLayers).Keys && todo <= soundLayers.Keys
        invariant forall k :: k in soundLayers ==>
                    soundLayers[k] == if k in todo then old(soundLayers)[k] else LayerPause(old(soundLayers)[k], pause, live)
        decreases todo
      {
        Inhabited(todo);
        var k :| k in todo;
        soundLayers := soundLayers[k := LayerPause(soundLayers[k], pause, live)];
        todo := todo - {k};
      }
      ghost var spec := SoundManagerSpecs.PauseAllLayers(old(soundLayers), pause, live);
      assert spec.Keys == soundLayers.Keys;
      assert forall k :: k in spec ==> spec[k] == soundLayers[k];
    }

    /**
     * `OnDestroy`: dispose every layer, then clear the dictionary; `disposed`
     * is each layer as its `Dispose` left it.
     */
    method OnDestroy() returns (disposed: map<LayerId, Layer>)
      modifies this`soundLayers
      ensures disposed == DisposeAll(old(soundLayers))
      ensures soundLayers == map[]
    {
      disposed := map[];
      var todo: set<LayerId> := soundLayers.Keys;
      while todo != {}
        invariant todo <= soundLayers.Keys && soundLayers == old(soundLayers)
        invariant disposed.Keys == soundLayers.Keys - todo
        invariant forall k :: k in disposed ==> disposed[k] == LayerDispose(soundLayers[k])
        decreases todo
      {
        Inhabited(todo);
        var k :| k in todo;
        disposed := disposed[k := LayerDispose(soundLayers[k])];
        todo := todo - {k};
      }
      ghost var spec := DisposeAll(soundLayers);
      assert spec.Keys == disposed.Keys;
      assert forall k :: k in spec ==> spec[k] == disposed[k];
      soundLayers := map[];
    }
  }

  /** A non-empty set of layer IDs has a member: what lets each `foreach` step pick a layer. */
  lemma Inhabited(ids: set<LayerId>)
    ensures ids != {} ==> exists k :: k in ids
  {
    var none: set<LayerId> := {};
    if forall k :: k !in ids {
      assert forall k :: k in ids <==> k in none;
    }
  }
}
