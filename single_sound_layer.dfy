/**
 * The `SingleSoundLayer` class: each method changes the layer's fields as
 * the function of the same name in `SingleLayerSpecs` says.
 */
module SingleSoundLayers {
  import opened Wrappers
  import opened SoundData
  import opened SoundObjects
  import opened AbstractSoundLayers
  import opened SingleLayerSpecs

  class SingleSoundLayer {
    var mute: bool
    var pause: bool
    var crossFadeDuration: real
    var fadeInProgress: bool
    var currentAudioSource: Option<Sound>
    var nextClip: Option<Queued>
    var commands: seq<Command>

    ghost function State(): SingleLayer
      reads this
    {
      SingleLayer(LayerFlags(mute, pause), crossFadeDuration, fadeInProgress, currentAudioSource, nextClip, commands)
    }

    constructor (crossFadeDuration: real)
      ensures State() == NewSingleLayer(crossFadeDuration)
    {
      mute := false;
      pause := false;
      this.crossFadeDuration := crossFadeDuration;
      fadeInProgress := false;
      currentAudioSource := None;
      nextClip := None;
      commands := [];
    }

    method Dispose()
      modifies this
      ensures State() == SingleLayerSpecs.Dispose(old(State()))
    {
      fadeInProgress := false;
      if currentAudioSource.Some? {
        commands := commands + [DisposeSound(currentAudioSource.value)];
      }
    }

    function WillAcceptSound(soundObject: Option<SoundObject>, live: set<nat>): (accept: bool)
      reads this
      ensures !accept <==>
                IsLive(State().current, live) && soundObject.Some? && State().current.value.soundID == soundObject.value.audioID
    {
      if currentAudioSource.Some? && currentAudioSource.value.handle in live
         && soundObject.Some? && currentAudioSource.value.soundID == soundObject.value.audioID
      then false
      else true
    }

    method PlaySound(audioClip: Sound, loop: bool, live: set<nat>)
      modifies this
      ensures State() == SingleLayerSpecs.PlaySound(old(State()), audioClip, loop, live)
    {
      if audioClip.soundID == "" {
        return;
      }
      nextClip := Some(Queued(audioClip, loop));
      PlayNewClip(live);
    }

    method MuteLayer(mute: bool, live: set<nat>)
      modifies this
      ensures State() == SingleLayerSpecs.MuteLayer(old(State()), mute, live)
    {
      this.mute := mute;
      if currentAudioSource.Some? && currentAudioSource.value.handle in live {
        commands := commands + [SetMute(currentAudioSource.value, mute)];
      }
    }

    method PauseLayer(pause: bool, live: set<nat>)
      modifies this
      ensures State() == SingleLayerSpecs.PauseLayer(old(State()), pause, live)
    {
      this.pause := pause;
      if currentAudioSource.Some? && currentAudioSource.value.handle in live {
        if pause {
          commands := commands + [PauseSound(currentAudioSource.value)];
        } else {
          commands := commands + [ResumeSound(currentAudioSource.value)];
          PlayNewClip(live);
        }
      }
    }

    method PlayNewClip(live: set<nat>)
      modifies this
      ensures State() == SingleLayerSpecs.PlayNewClip(old(State()), live)
      decreases if nextClip.Some? then 1 else 0, 1
    {
      if !fadeInProgress && !pause && nextClip.Some? {
        fadeInProgress := true;
        var clip := nextClip.value;
        nextClip := None;
        FadeOutClip(currentAudioSource, live);
        currentAudioSource := Some(clip.sound);
        FadeInClip(clip.loop, live);
      }
    }

    /** `FadeInClip` on `_currentAudioSource`, the only controller it is given. */
    method FadeInClip(loop: bool, live: set<nat>)
      modifies this
      ensures State() == SingleLayerSpecs.FadeInClip(old(State()), loop, live)
      decreases if nextClip.Some? then 1 else 0, 3
    {
      if currentAudioSource.Some? && currentAudioSource.value.handle in live {
        var s := currentAudioSource.value;
        if mute {
          commands := commands + [SetMute(s, true)];
        }
        commands := commands + [FadeIn(s, crossFadeDuration), Command.PlaySound(s, loop)];
        if pause {
          commands := commands + [PauseSound(s)];
        }
      } else {
        FadeInCompleted(live);
      }
    }

    method FadeOutClip(audioClip: Option<Sound>, live: set<nat>)
      modifies this
      ensures State() == SingleLayerSpecs.FadeOutClip(old(State()), audioClip, live)
    {
      if audioClip.Some? && audioClip.value.handle in live {
        if mute {
          commands := commands + [SetMute(audioClip.value, true)];
        }
        if pause {
          commands := commands + [PauseSound(audioClip.value)];
        }
        commands := commands + [FadeOut(audioClip.value, crossFadeDuration)];
      }
    }

    /** The callback `PlayNewClip` hands to `FadeInClip`. */
    method FadeInCompleted(live: set<nat>)
      modifies this
      ensures State() == SingleLayerSpecs.FadeInCompleted(old(State()), live)
      decreases if nextClip.Some? then 1 else 0, 2
    {
      fadeInProgress := false;
      PlayNewClip(live);
    }

    /** The fade-out tween's completion. */
    method FadeOutCompleted(audioClip: Sound)
      modifies this
      ensures State() == SingleLayerSpecs.FadeOutCompleted(old(State()), audioClip)
    {
      commands := commands + [DisposeSound(audioClip)];
    }
  }
}
