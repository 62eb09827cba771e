/**
 * Values shared by the sound modules.  Unity's audio objects stay abstract:
 * an `AudioClip` is known by its name, the hash of that name and its import
 * setting, and an `IAudioSourceController` as seen by a layer is a handle
 * with the sound ID it was created for.  What a layer asks of a controller
 * (mute it, play it, start a fade, ...) is recorded as a `Command`.
 */
module SoundData {

  /** An imported audio asset; `nameHash` is `name.GetHashCode()`, supplied by the runtime. */
  datatype AudioClip = AudioClip(name: string, nameHash: int, preloadAudioData: bool)

  /**
   * A controller as a layer sees it.  `handle` tells controllers apart (each
   * `CreateSound` makes a new one); `soundID` is empty for the
   * `NullAudioSourceController` handed out when a sound cannot be loaded,
   * whose `soundID` is never set.
   */
  datatype Sound = Sound(handle: nat, soundID: string)

  /** The calls a layer makes on a controller, in the order it makes them. */
  datatype Command =
    | SetMute(target: Sound, mute: bool)
    | PauseSound(target: Sound)
    | ResumeSound(target: Sound)
    | PlaySound(target: Sound, loop: bool)
      /** `volume = 0`, then a tween back to the old volume over `duration`. */
    | FadeIn(target: Sound, duration: real)
      /** A tween to volume 0 over `duration`, which disposes the controller when it completes. */
    | FadeOut(target: Sound, duration: real)
    | DisposeSound(target: Sound)
    | Subscribe(target: Sound)
    | Unsubscribe(target: Sound)

  /** `if (_mute) clip.mute = true;`, as both layers do for a sound they start. */
  function MuteIf(mute: bool, s: Sound): seq<Command>
  {
    if mute then [SetMute(s, true)] else []
  }

  /** `if (_pause) clip.Pause();`, as both layers do for a sound they start. */
  function PauseIf(pause: bool, s: Sound): seq<Command>
  {
    if pause then [PauseSound(s)] else []
  }
}
