/**
 * The `MultiSoundLayer` class: each method changes the layer's fields as the
 * function of the same name in `MultiLayerSpecs` says; the loops over
 * `_audioClips` are the source's `for` loops.
 */
module MultiSoundLayers {
  import opened Wrappers
  import opened SoundData
  import opened SoundObjects
  import opened AbstractSoundLayers
  import opened MultiLayerSpecs

  class MultiSoundLayer {
    var mute: bool
    var pause: bool
    /** `_audioClips`. */
    var audioClips: seq<Sound>
    /** `_instaceTracker`. */
    var instanceTracker: map<string, int>
    /** The controllers whose `onSoundComplete` has `OnSoundComplete` attached. */
    var subscribed: set<nat>
    var commands: seq<Command>

    ghost function State(): MultiLayer
      reads this
    {
      MultiLayer(LayerFlags(mute, pause), audioClips, instanceTracker, subscribed, commands)
    }

    constructor ()
      ensures State() == NewMultiLayer() && Valid(State())
    {
      mute := false;
      pause := false;
      audioClips := [];
      instanceTracker := map[];
      subscribed := {};
      commands := [];
    }

    method Dispose()
      modifies this
      ensures State() == MultiLayerSpecs.Dispose(old(State()))
    {
      for i := 0 to |audioClips|
        invariant audioClips == old(audioClips) && instanceTracker == old(instanceTracker)
        invariant commands == old(commands) + UnsubscribeEach(audioClips[..i])
        invariant subscribed == old(subscribed) - Handles(audioClips[..i])
        invariant mute == old(mute) && pause == old(pause)
      {
        HandlesStep(old(subscribed), audioClips, i);
        UnsubscribeStep(old(commands), audioClips, i);
        commands := commands + [Unsubscribe(audioClips[i])];
        subscribed := subscribed - {audioClips[i].handle};
      }
      assert audioClips[..|audioClips|] == audioClips;
      audioClips := [];
      instanceTracker := map[];
    }

    function WillAcceptSound(soundObject: Option<SoundObject>): (accept: bool)
      reads this
      ensures !accept ==> soundObject.Some? && CountOf(instanceTracker, soundObject.value.audioID) >= soundObject.value.maxInstances
      ensures accept == MultiLayerSpecs.WillAcceptSound(State(), soundObject)
    {
      if soundObject.Some? && soundObject.value.audioID in instanceTracker then
        instanceTracker[soundObject.value.audioID] < soundObject.value.maxInstances
      else
        true
    }

    method PlaySound(audioClip: Sound, loop: bool)
      modifies this
      ensures State() == MultiLayerSpecs.PlaySound(old(State()), audioClip, loop)
    {
      if audioClip.soundID == "" {
        return;
      }
      var count := if audioClip.soundID in instanceTracker then instanceTracker[audioClip.soundID] else 0;
      instanceTracker := instanceTracker[audioClip.soundID := count + 1];
      audioClips := audioClips + [audioClip];
      commands := commands + MuteIf(mute, audioClip);
      subscribed := subscribed + {audioClip.handle};
      commands := commands + [Subscribe(audioClip), Command.PlaySound(audioClip, loop)] + PauseIf(pause, audioClip);
    }

    method MuteLayer(mute: bool)
      modifies this
      ensures State() == MultiLayerSpecs.MuteLayer(old(State()), mute)
    {
      this.mute := mute;
      for i := 0 to |audioClips|
        invariant audioClips == old(audioClips) && instanceTracker == old(instanceTracker)
        invariant commands == old(commands) + MuteEach(audioClips[..i], mute)
        invariant subscribed == old(subscribed) && this.mute == mute && pause == old(pause)
      {
        MuteStep(old(commands), audioClips, i, mute);
        commands := commands + [SetMute(audioClips[i], mute)];
      }
      assert audioClips[..|audioClips|] == audioClips;
    }

    method PauseLayer(pause: bool)
      modifies this
      ensures State() == MultiLayerSpecs.PauseLayer(old(State()), pause)
    {
      this.pause := pause;
      for i := 0 to |audioClips|
        invariant audioClips == old(audioClips) && instanceTracker == old(instanceTracker)
        invariant commands == old(commands) + PauseEach(audioClips[..i], pause)
        invariant subscribed == old(subscribed) && this.pause == pause && mute == old(mute)
      {
        PauseStep(old(commands), audioClips, i, pause);
        if pause {
          commands := commands + [PauseSound(audioClips[i])];
        } else {
          commands := commands + [ResumeSound(audioClips[i])];
        }
      }
      assert audioClips[..|audioClips|] == audioClips;
    }

    /** The handler attached to each played controller's `onSoundComplete`. */
    method OnSoundComplete(controller: Sound)
      modifies this
      ensures State() == MultiLayerSpecs.OnSoundComplete(old(State()), controller)
    {
      subscribed := subscribed - {controller.handle};
      commands := commands + [Unsubscribe(controller)];
      if controller in audioClips {
        audioClips := RemoveFirst(audioClips, controller);
      }
      if controller.soundID in instanceTracker {
        instanceTracker := instanceTracker[controller.soundID := instanceTracker[controller.soundID] - 1];
      }
    }

    /** A controller raises `onSoundComplete`: the handler runs only while it is attached. */
    method SoundCompleted(controller: Sound)
      modifies this
      ensures State() == MultiLayerSpecs.SoundCompleted(old(State()), controller)
    {
      if controller.handle in subscribed {
        OnSoundComplete(controller);
      }
    }
  }

  /** One more step of the `Dispose` loop. */
  lemma UnsubscribeStep(before: seq<Command>, clips: seq<Sound>, i: nat)
    requires i < |clips|
    ensures before + UnsubscribeEach(clips[..i + 1]) == before + UnsubscribeEach(clips[..i]) + [Unsubscribe(clips[i])]
  {
    assert clips[..i + 1] == clips[..i] + [clips[i]];
  }

  /** One more step of the `Dispose` loop, for the handlers it detaches. */
  lemma HandlesStep(before: set<nat>, clips: seq<Sound>, i: nat)
    requires i < |clips|
    ensures before - Handles(clips[..i + 1]) == before - Handles(clips[..i]) - {clips[i].handle}
  {
    assert clips[..i + 1] == clips[..i] + [clips[i]];
    HandlesAppend(clips[..i], clips[i]);
  }

  /** One more step of the `MuteLayer` loop. */
  lemma MuteStep(before: seq<Command>, clips: seq<Sound>, i: nat, mute: bool)
    requires i < |clips|
    ensures before + MuteEach(clips[..i + 1], mute) == before + MuteEach(clips[..i], mute) + [SetMute(clips[i], mute)]
  {
    assert clips[..i + 1] == clips[..i] + [clips[i]];
  }

  /** One more step of the `PauseLayer` loop. */
  lemma PauseStep(before: seq<Command>, clips: seq<Sound>, i: nat, pause: bool)
    requires i < |clips|
    ensures before + PauseEach(clips[..i + 1], pause)
            == before + PauseEach(clips[..i], pause) + [if pause then PauseSound(clips[i]) else ResumeSound(clips[i])]
  {
    assert clips[..i + 1] == clips[..i] + [clips[i]];
  }
}
