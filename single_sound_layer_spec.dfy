/**
 * `SingleSoundLayer`: a layer that plays one sound at a time (background
 * music).  A new sound is queued in a single slot (a later request replaces
 * the queued one) and started once no fade is in progress and the layer is
 * not paused: the current sound fades out while the new one fades in, and
 * the end of the fade-in starts whatever was queued meanwhile.
 *
 * Controllers are `Sound` handles; `live` is the set of handles whose
 * `AudioSource` still exists (`audioSource != null`).  The calls the layer
 * makes on controllers, and the tweens it starts, are appended to
 * `commands`.  A tween runs on its own: its completion is the separate
 * operation `FadeInCompleted` (or `FadeOutCompleted`).
 */
module SingleLayerSpecs {
  import opened Wrappers
  import opened SoundData
  import opened SoundObjects
  import opened AbstractSoundLayers

  /** `AudioContainer`: a controller waiting to be faded in, and whether it loops. */
  datatype Queued = Queued(sound: Sound, loop: bool)

  /** The layer's fields: the base flags, `_crossFadeDuration`, `_fadeInProgress`, `_currentAudioSource`, `_nextClip`. */
  datatype SingleLayer = SingleLayer(
    flags: LayerFlags,
    crossFadeDuration: real,
    fadeInProgress: bool,
    current: Option<Sound>,
    next: Option<Queued>,
    commands: seq<Command>)

  /** What the layer's constructor leaves. */
  function NewSingleLayer(crossFadeDuration: real): SingleLayer
  {
    SingleLayer(NewLayerFlags(), crossFadeDuration, false, None, None, [])
  }

  /** `s != null && s.audioSource != null`. */
  predicate IsLive(s: Option<Sound>, live: set<nat>)
  {
    s.Some? && s.value.handle in live
  }

  /** A fade is in progress only while there is a current sound. */
  predicate Valid(l: SingleLayer)
  {
    l.fadeInProgress ==> l.current.Some?
  }

  /** The exception `WillAcceptSound` can throw. */
  datatype Exception = NullReferenceException

  /**
   * `WillAcceptSound` as written: it reads `soundObject.audioID` whenever the
   * current sound is live, so a `null` sound object (an ID missing from the
   * bank) throws.
   */
  function WillAcceptSoundAsWritten(l: SingleLayer, soundObject: Option<SoundObject>, live: set<nat>): Result<bool, Exception>
  {
    if IsLive(l.current, live) then
      if soundObject.None? then Err(NullReferenceException)
      else Ok(l.current.value.soundID != soundObject.value.audioID)
    else
      Ok(true)
  }

  /**
   * `WillAcceptSound` with the `null` check the multi-sound layer has: refuse
   * only the sound the live current controller is already playing.
   */
  function WillAcceptSound(l: SingleLayer, soundObject: Option<SoundObject>, live: set<nat>): bool
  {
    !(IsLive(l.current, live) && soundObject.Some? && l.current.value.soundID == soundObject.value.audioID)
  }

  /** `FadeOutClip(s, _crossFadeDuration, null)`: for a live sound, mute and pause as the layer is, then start the fade to 0. */
  function FadeOutClip(l: SingleLayer, s: Option<Sound>, live: set<nat>): SingleLayer
  {
    if IsLive(s, live) then
      l.(commands := l.commands + MuteIf(l.flags.mute, s.value) + PauseIf(l.flags.pause, s.value)
                     + [FadeOut(s.value, l.crossFadeDuration)])
    else
      l
  }

  /**
   * `PlayNewClip`: when no fade is in progress, the layer is not paused and a
   * sound is queued, take it out of the slot, fade out the live current
   * sound, make the queued one current and fade it in.
   */
  function PlayNewClip(l: SingleLayer, live: set<nat>): SingleLayer
    decreases if l.next.Some? then 1 else 0, 1
  {
    if !l.fadeInProgress && !l.flags.pause && l.next.Some? then
      var clip := l.next.value;
      var faded := FadeOutClip(l.(fadeInProgress := true, next := None), l.current, live);
      FadeInClip(faded.(current := Some(clip.sound)), clip.loop, live)
    else
      l
  }

  /**
   * `FadeInClip` on the current sound: if live, mute it as the layer is,
   * start the fade from 0, play it and pause it as the layer is; if not,
   * run the completion callback at once.
   */
  function FadeInClip(l: SingleLayer, loop: bool, live: set<nat>): SingleLayer
    decreases if l.next.Some? then 1 else 0, 3
  {
    if IsLive(l.current, live) then
      var s := l.current.value;
      l.(commands := l.commands + MuteIf(l.flags.mute, s)
                     + [FadeIn(s, l.crossFadeDuration), Command.PlaySound(s, loop)] + PauseIf(l.flags.pause, s))
    else
      FadeInCompleted(l, live)
  }

  /** The fade-in's completion callback: the fade is over, start whatever is queued. */
  function FadeInCompleted(l: SingleLayer, live: set<nat>): SingleLayer
    decreases if l.next.Some? then 1 else 0, 2
  {
    PlayNewClip(l.(fadeInProgress := false), live)
  }

  /** The fade-out's completion: the faded controller is disposed. */
  function FadeOutCompleted(l: SingleLayer, s: Sound): SingleLayer
  {
    l.(commands := l.commands + [DisposeSound(s)])
  }

  /** `PlaySound`: ignore a null controller (empty ID); otherwise queue the sound, replacing any queued one, and try to start it. */
  function PlaySound(l: SingleLayer, s: Sound, loop: bool, live: set<nat>): SingleLayer
  {
    if s.soundID == "" then l else PlayNewClip(l.(next := Some(Queued(s, loop))), live)
  }

  /** `MuteLayer`: set the flag and the live current sound's mute. */
  function MuteLayer(l: SingleLayer, mute: bool, live: set<nat>): SingleLayer
  {
    l.(flags := WithMute(l.flags, mute),
       commands := l.commands + if IsLive(l.current, live) then [SetMute(l.current.value, mute)] else [])
  }

  /** `PauseLayer`: set the flag; with a live current sound, pause it, or resume it and try to start the queued one. */
  function PauseLayer(l: SingleLayer, pause: bool, live: set<nat>): SingleLayer
  {
    var flagged := l.(flags := WithPause(l.flags, pause));
    if IsLive(l.current, live) then
      if pause then flagged.(commands := l.commands + [PauseSound(l.current.value)])
      else PlayNewClip(flagged.(commands := l.commands + [ResumeSound(l.current.value)]), live)
    else
      flagged
  }

  /** `Dispose`: no fade in progress any more, and the current controller (live or not) disposed. */
  function Dispose(l: SingleLayer): SingleLayer
  {
    l.(fadeInProgress := false,
       commands := l.commands + if l.current.Some? then [DisposeSound(l.current.value)] else [])
  }

  /** The case that throws: a live current sound and an ID the bank does not know. */
  lemma UnknownSoundThrows()
    ensures var l := NewSingleLayer(1.0).(current := Some(Sound(0, "music")));
            WillAcceptSoundAsWritten(l, None, {0}) == Err(NullReferenceException)
            && WillAcceptSound(l, None, {0})
  {
  }

  /** Apart from that case the two tests agree. */
  lemma WillAcceptSoundAgrees(l: SingleLayer, soundObject: Option<SoundObject>, live: set<nat>)
    ensures WillAcceptSoundAsWritten(l, soundObject, live).Err? <==> IsLive(l.current, live) && soundObject.None?
    ensures soundObject.Some? || !IsLive(l.current, live) ==>
              WillAcceptSoundAsWritten(l, soundObject, live) == Ok(WillAcceptSound(l, soundObject, live))
  {
  }

  /** A controller that failed to load is ignored. */
  lemma NullControllerIgnored(l: SingleLayer, s: Sound, loop: bool, live: set<nat>)
    requires s.soundID == ""
    ensures PlaySound(l, s, loop, live) == l
  {
  }

  /**
   * A new sound starts only when no fade is in progress, the layer is not
   * paused and a sound is queued.  Starting empties the slot and makes the
   * queued sound current; the fade stays in progress exactly when that
   * sound is live (a fade of a dead sound completes at once).
   */
  lemma PlayNewClipStarts(l: SingleLayer, live: set<nat>)
    ensures !(!l.fadeInProgress && !l.flags.pause && l.next.Some?) ==> PlayNewClip(l, live) == l
    ensures !l.fadeInProgress && !l.flags.pause && l.next.Some? ==>
              var r := PlayNewClip(l, live);
              r.next == None && r.current == Some(l.next.value.sound)
              && (r.fadeInProgress <==> l.next.value.sound.handle in live)
              && r.flags == l.flags
    ensures l.commands <= PlayNewClip(l, live).commands
  {
    if !l.fadeInProgress && !l.flags.pause && l.next.Some? {
      var clip := l.next.value;
      var faded := FadeOutClip(l.(fadeInProgress := true, next := None), l.current, live);
      var started := faded.(current := Some(clip.sound));
      assert l.commands <= faded.commands;
      if clip.sound.handle !in live {
        var stopped := started.(fadeInProgress := false);
        assert PlayNewClip(stopped, live) == stopped;
        assert FadeInCompleted(started, live) == stopped;
      }
    }
  }

  /** `PlayNewClip` keeps a fade tied to a current sound. */
  lemma PlayNewClipValid(l: SingleLayer, live: set<nat>)
    requires Valid(l)
    ensures Valid(PlayNewClip(l, live))
  {
    PlayNewClipStarts(l, live);
  }

  /** While a fade is in progress or the layer is paused, a request only takes the queue slot: the latest request wins. */
  lemma LatestRequestWins(l: SingleLayer, s: Sound, loop: bool, live: set<nat>)
    requires s.soundID != ""
    requires l.fadeInProgress || l.flags.pause
    ensures PlaySound(l, s, loop, live) == l.(next := Some(Queued(s, loop)))
  {
  }

  /** Two requests during a fade: the first is dropped without ever being played. */
  lemma EarlierRequestDropped(l: SingleLayer, s1: Sound, s2: Sound, loop1: bool, loop2: bool, live: set<nat>)
    requires s1.soundID != "" && s2.soundID != ""
    requires l.fadeInProgress
    ensures PlaySound(PlaySound(l, s1, loop1, live), s2, loop2, live) == l.(next := Some(Queued(s2, loop2)))
  {
    LatestRequestWins(l, s1, loop1, live);
    LatestRequestWins(l.(next := Some(Queued(s1, loop1))), s2, loop2, live);
  }

  /** When the fade-in ends on an unpaused layer, the sound queued meanwhile becomes current. */
  lemma FadeInCompletionStartsQueued(l: SingleLayer, live: set<nat>)
    requires !l.flags.pause && l.next.Some?
    ensures FadeInCompleted(l, live).current == Some(l.next.value.sound)
    ensures FadeInCompleted(l, live).next == None
  {
    PlayNewClipStarts(l.(fadeInProgress := false), live);
  }

  /**
   * Cross-fade: starting a new sound over a live current one fades the old
   * one out, and fades in and plays the new one when it is live.
   */
  lemma CrossFade(l: SingleLayer, live: set<nat>)
    requires !l.fadeInProgress && !l.flags.pause && l.next.Some?
    requires IsLive(l.current, live) && l.next.value.sound.handle in live
    ensures var q := l.next.value;
            PlayNewClip(l, live).commands
            == l.commands + MuteIf(l.flags.mute, l.current.value) + [FadeOut(l.current.value, l.crossFadeDuration)]
               + MuteIf(l.flags.mute, q.sound) + [FadeIn(q.sound, l.crossFadeDuration), Command.PlaySound(q.sound, q.loop)]
  {
  }

  /**
   * Unpausing resumes the live current sound and starts the queued one if no
   * fade is in progress; without a live current sound nothing is started and
   * the queued sound keeps waiting.
   */
  lemma UnpauseStartsQueuedOnlyWithLiveCurrent(l: SingleLayer, live: set<nat>)
    requires l.next.Some? && !l.fadeInProgress
    ensures IsLive(l.current, live) ==>
              PauseLayer(l, false, live).current == Some(l.next.value.sound)
              && l.commands + [ResumeSound(l.current.value)] <= PauseLayer(l, false, live).commands
    ensures !IsLive(l.current, live) ==>
              PauseLayer(l, false, live).next == l.next && PauseLayer(l, false, live).commands == l.commands
  {
    var flagged := l.(flags := WithPause(l.flags, false));
    if IsLive(l.current, live) {
      PlayNewClipStarts(flagged.(commands := l.commands + [ResumeSound(l.current.value)]), live);
    }
  }

  /** Every operation keeps a fade tied to a current sound. */
  lemma OperationsKeepValid(l: SingleLayer, s: Sound, b: bool, live: set<nat>)
    requires Valid(l)
    ensures Valid(PlaySound(l, s, b, live))
    ensures Valid(MuteLayer(l, b, live))
    ensures Valid(PauseLayer(l, b, live))
    ensures Valid(FadeInCompleted(l, live))
    ensures Valid(FadeOutCompleted(l, s))
    ensures Valid(Dispose(l))
  {
    PlayNewClipValid(l.(next := Some(Queued(s, b))), live);
    PlayNewClipValid(l.(flags := WithPause(l.flags, b), commands := l.commands + [ResumeSound(s)]), live);
    if IsLive(l.current, live) {
      PlayNewClipValid(l.(flags := WithPause(l.flags, b), commands := l.commands + [ResumeSound(l.current.value)]), live);
    }
    PlayNewClipValid(l.(fadeInProgress := false), live);
  }
}
