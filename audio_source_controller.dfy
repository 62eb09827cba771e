/**
 * `AudioSourceController`: one playing sound.  It keeps its own paused and
 * stopped flags beside Unity's `AudioSource`, counts how many controllers
 * use each clip in a static dictionary keyed by the hash of the clip's name
 * (so the clip's audio data can be unloaded when the last one goes), and
 * watches the source from a coroutine to report completion.
 *
 * The `AudioSource` is abstract: what the controller calls on it is
 * recorded as `SourceCall`s, and whether it is still playing is a parameter
 * of each check the monitor makes.  The static dictionary is one
 * `ReferenceCounts` object that every controller is handed.
 */
module AudioSourceControllers {
  import opened Wrappers
  import opened SoundData

  /** A call made on the controlled `AudioSource`. */
  datatype SourceCall = SourcePlay(loop: bool) | SourceStop | SourcePause | SourceUnPause

  /** The count a clip hash has in the dictionary, absent counting as 0. */
  function CountOf(counts: map<int, int>, hash: int): int
  {
    if hash in counts then counts[hash] else 0
  }

  /**
   * The fields the controller's methods read and write: the source's clip,
   * `disposeOnComplete`, `_isPaused`, `_isStopped`, `_sourceHash` (-1 until
   * counted), whether the monitor coroutine runs, whether `Destroy(this)` was
   * requested, whether the `AudioSource` still exists, and the calls made on it.
   */
  datatype ControllerState = ControllerState(
    clip: Option<AudioClip>,
    disposeOnComplete: bool,
    paused: bool,
    stopped: bool,
    sourceHash: int,
    monitoring: bool,
    destroyed: bool,
    hasSource: bool,
    calls: seq<SourceCall>)

  /** Right after `Awake`: a new `AudioSource`, no monitor, nothing counted. */
  function Awakened(): ControllerState
  {
    ControllerState(None, false, false, false, -1, false, false, true, [])
  }

  /** `Stop`: acts only on a controller not yet stopped. */
  function Stopped(c: ControllerState): ControllerState
  {
    if c.stopped then c else c.(stopped := true, calls := c.calls + [SourceStop])
  }

  /** `Pause`: acts only on a controller not yet paused. */
  function Paused(c: ControllerState): ControllerState
  {
    if c.paused then c else c.(paused := true, calls := c.calls + [SourcePause])
  }

  /** `Resume`: acts only on a paused controller. */
  function Resumed(c: ControllerState): ControllerState
  {
    if c.paused then c.(paused := false, calls := c.calls + [SourceUnPause]) else c
  }

  /** `Dispose`: stop, end the monitor coroutine, and ask Unity to destroy the controller. */
  function Disposed(c: ControllerState): ControllerState
  {
    Stopped(c).(monitoring := false, destroyed := true)
  }

  /**
   * `Play(loop)` with the static counts before and after: clear both flags;
   * with a clip, count it once (while `_sourceHash` is still -1), play and
   * start the monitor; without one, dispose if `disposeOnComplete`.
   */
  function Played(c: ControllerState, loop: bool, counts: map<int, int>): (ControllerState, map<int, int>)
  {
    var cleared := c.(paused := false, stopped := false);
    if c.clip.Some? then
      var first := c.sourceHash == -1;
      var hash := if first then c.clip.value.nameHash else c.sourceHash;
      var newCounts := if first then counts[hash := CountOf(counts, hash) + 1] else counts;
      (cleared.(sourceHash := hash, monitoring := true, calls := c.calls + [SourcePlay(loop)]), newCounts)
    else if c.disposeOnComplete then
      (Disposed(cleared), counts)
    else
      (cleared, counts)
  }

  /** The condition `MonitorSoundStatus` waits on. */
  predicate StillPlaying(c: ControllerState, isPlaying: bool)
  {
    c.clip.Some? && (isPlaying || c.paused || c.stopped)
  }

  /**
   * One check of the running monitor, `isPlaying` being the source's
   * `isPlaying`: once it no longer waits, completion is reported, the
   * controller disposed if `disposeOnComplete`, and the monitor ends.
   */
  function Monitored(c: ControllerState, isPlaying: bool): (r: (ControllerState, bool))
  {
    if !c.monitoring || StillPlaying(c, isPlaying) then (c, false)
    else ((if c.disposeOnComplete then Disposed(c) else c).(monitoring := false), true)
  }

  /**
   * `OnDestroy`: the counts afterwards and whether the clip's audio data is
   * unloaded.  `loaded` is whether the clip's data is loaded.
   */
  function Destroyed(c: ControllerState, counts: map<int, int>, loaded: bool): (map<int, int>, bool)
  {
    if c.sourceHash in counts then
      var n := counts[c.sourceHash] - 1;
      if c.clip.Some? && !c.clip.value.preloadAudioData && loaded && n <= 0 then
        (counts - {c.sourceHash}, true)
      else
        (counts[c.sourceHash := n], false)
    else
      (counts, false)
  }

  /** `Play` clears both flags, except when it disposes a clip-less controller. */
  lemma PlayClearsFlags(c: ControllerState, loop: bool, counts: map<int, int>)
    ensures !Played(c, loop, counts).0.paused
    ensures Played(c, loop, counts).0.stopped <==> c.clip.None? && c.disposeOnComplete
    ensures c.clip.None? && c.disposeOnComplete ==> Played(c, loop, counts).0.destroyed
  {
  }

  /** `loops.Count` successive `Play`s. */
  function Replayed(c: ControllerState, loops: seq<bool>, counts: map<int, int>): (ControllerState, map<int, int>)
    decreases |loops|
  {
    if loops == [] then (c, counts)
    else
      var (c1, counts1) := Played(c, loops[0], counts);
      Replayed(c1, loops[1..], counts1)
  }

  /** Once counted, a controller's `Play`s leave the counts alone and keep its clip and hash. */
  lemma {:induction false} CountedPlaysCountNothing(c: ControllerState, loops: seq<bool>, counts: map<int, int>)
    requires c.clip.Some? && c.sourceHash != -1
    ensures Replayed(c, loops, counts).1 == counts
    ensures Replayed(c, loops, counts).0.sourceHash == c.sourceHash
    decreases |loops|
  {
    if loops != [] {
      CountedPlaysCountNothing(Played(c, loops[0], counts).0, loops[1..], counts);
    }
  }

  /**
   * A controller adds exactly one to its clip's count however often it is
   * played, provided the clip's name does not hash to -1, the value
   * `_sourceHash` uses for "not counted yet".
   */
  lemma PlaysCountOnce(c: ControllerState, loops: seq<bool>, counts: map<int, int>)
    requires c.clip.Some? && c.sourceHash == -1 && c.clip.value.nameHash != -1
    requires loops != []
    ensures Replayed(c, loops, counts).1 == counts[c.clip.value.nameHash := CountOf(counts, c.clip.value.nameHash) + 1]
    ensures Replayed(c, loops, counts).0.sourceHash == c.clip.value.nameHash
  {
    var (c1, counts1) := Played(c, loops[0], counts);
    CountedPlaysCountNothing(c1, loops[1..], counts1);
  }

  /** A clip whose name hashes to -1 is counted again on every `Play`. */
  lemma {:induction false} SentinelHashCountsEveryPlay(c: ControllerState, loops: seq<bool>, counts: map<int, int>)
    requires c.clip.Some? && c.sourceHash == -1 && c.clip.value.nameHash == -1
    ensures CountOf(Replayed(c, loops, counts).1, -1) == CountOf(counts, -1) + |loops|
    ensures forall h :: h != -1 ==> CountOf(Replayed(c, loops, counts).1, h) == CountOf(counts, h)
    decreases |loops|
  {
    if loops != [] {
      var (c1, counts1) := Played(c, loops[0], counts);
      SentinelHashCountsEveryPlay(c1, loops[1..], counts1);
    }
  }

  /** `Stop`, `Pause` and `Resume` change nothing when repeated. */
  lemma FlagChangesAreIdempotent(c: ControllerState)
    ensures Stopped(Stopped(c)) == Stopped(c)
    ensures Paused(Paused(c)) == Paused(c)
    ensures Resumed(Resumed(c)) == Resumed(c)
    ensures Resumed(Paused(c)).paused == false && Paused(Resumed(c)).paused
  {
  }

  /** A stopped or paused sound with a clip never completes, whatever the source reports. */
  lemma StoppedOrPausedNeverCompletes(c: ControllerState, isPlaying: bool)
    requires c.clip.Some? && (c.stopped || c.paused)
    ensures Monitored(c, isPlaying) == (c, false)
  {
  }

  /** Once disposed, the monitor is gone: the sound never reports completion. */
  lemma DisposedNeverCompletes(c: ControllerState, isPlaying: bool)
    ensures Monitored(Disposed(c), isPlaying) == (Disposed(c), false)
  {
  }

  /** Completion is reported at most once per monitor run. */
  lemma CompletesOnce(c: ControllerState, first: bool, second: bool)
    requires Monitored(c, first).1
    ensures !Monitored(Monitored(c, first).0, second).1
  {
  }

  /** The monitor reports completion exactly when it runs and the source no longer plays, pauses or stops. */
  lemma CompletionCondition(c: ControllerState, isPlaying: bool)
    ensures Monitored(c, isPlaying).1 <==> c.monitoring && (c.clip.None? || !(isPlaying || c.paused || c.stopped))
  {
  }

  /** The clip's data is unloaded only by the last counted user, for a loaded clip that is not preloaded. */
  lemma UnloadsOnlyForLastUser(c: ControllerState, counts: map<int, int>, loaded: bool)
    requires Destroyed(c, counts, loaded).1
    ensures c.clip.Some? && !c.clip.value.preloadAudioData && loaded
    ensures CountOf(counts, c.sourceHash) <= 1 && c.sourceHash !in Destroyed(c, counts, loaded).0
  {
  }

  /** Destruction takes one off the controller's count, dropping the entry only when it unloads. */
  lemma DestroyDecrements(c: ControllerState, counts: map<int, int>, loaded: bool)
    requires c.sourceHash in counts
    ensures CountOf(Destroyed(c, counts, loaded).0, c.sourceHash)
            == if Destroyed(c, counts, loaded).1 then 0 else counts[c.sourceHash] - 1
    ensures forall h :: h != c.sourceHash ==> CountOf(Destroyed(c, counts, loaded).0, h) == CountOf(counts, h)
  {
  }

  /**
   * Playing a new controller and then destroying it leaves its clip's count
   * as it was (for a non-negative count and a hash other than -1).
   */
  lemma PlayThenDestroyBalances(c: ControllerState, loop: bool, counts: map<int, int>, loaded: bool)
    requires c.clip.Some? && c.sourceHash == -1 && c.clip.value.nameHash != -1
    requires CountOf(counts, c.clip.value.nameHash) >= 0
    ensures var (p, afterPlay) := Played(c, loop, counts);
            CountOf(Destroyed(p, afterPlay, loaded).0, c.clip.value.nameHash) == CountOf(counts, c.clip.value.nameHash)
  {
    var (p, afterPlay) := Played(c, loop, counts);
    DestroyDecrements(p, afterPlay, loaded);
    if Destroyed(p, afterPlay, loaded).1 {
      UnloadsOnlyForLastUser(p, afterPlay, loaded);
    }
  }

  /** The static `_referenceCount` dictionary, and the clips whose audio data has been unloaded. */
  class ReferenceCounts {
    var counts: map<int, int>
    var unloaded: seq<AudioClip>

    constructor ()
      ensures counts == map[] && unloaded == []
    {
      counts := map[];
      unloaded := [];
    }

    /**
     * The reference-count half of `OnDestroy` for a controller in state `c`:
     * one user fewer, and the clip unloaded when the last user of a clip
     * that is not preloaded goes.
     */
    method Release(hash: int, clip: Option<AudioClip>, loaded: bool, ghost c: ControllerState)
      requires c.sourceHash == hash && c.clip == clip
      modifies this
      ensures counts == Destroyed(c, old(counts), loaded).0
      ensures unloaded == old(unloaded) + if Destroyed(c, old(counts), loaded).1 then [clip.value] else []
    {
      if hash in counts {
        counts := counts[hash := counts[hash] - 1];
        if clip.Some? && !clip.value.preloadAudioData && loaded {
          if counts[hash] <= 0 {
            RemoveAfterUpdate(old(counts), hash, counts[hash]);
            counts := counts - {hash};
            unloaded := unloaded + [clip.value];
          }
        }
      }
    }
  }

  class AudioSourceController {
    /** The `soundID` and `disposeOnComplete` auto-properties. */
    var soundID: string
    var disposeOnComplete: bool
    /** `_source.clip`, set through the `audioClip` property. */
    var clip: Option<AudioClip>
    /** `_source.loop`. */
    var looping: bool
    var isPaused: bool
    var isStopped: bool
    var sourceHash: int
    /** The monitor coroutine runs (started when `_soundMonitor` is null; `Dispose` ends it with the component). */
    var monitoring: bool
    /** `Destroy(this)` has been called. */
    var destroyed: bool
    /** `_source` still exists (it is destroyed in `OnDestroy`). */
    var hasSource: bool
    var calls: seq<SourceCall>

    ghost function State(): ControllerState
      reads this
    {
      ControllerState(clip, disposeOnComplete, isPaused, isStopped, sourceHash, monitoring, destroyed, hasSource, calls)
    }

    /** `Awake`, with the auto-properties at their defaults. */
    constructor ()
      ensures State() == Awakened() && soundID == "" && !looping
    {
      soundID := "";
      disposeOnComplete := false;
      clip := None;
      looping := false;
      isPaused := false;
      isStopped := false;
      sourceHash := -1;
      monitoring := false;
      destroyed := false;
      hasSource := true;
      calls := [];
    }

    method Play(loop: bool, refs: ReferenceCounts)
      modifies this, refs
      ensures State() == Played(old(State()), loop, old(refs.counts)).0
      ensures refs.counts == Played(old(State()), loop, old(refs.counts)).1
      ensures old(clip).Some? ==> looping == loop
      ensures old(clip).None? ==> looping == old(looping)
      ensures soundID == old(soundID) && refs.unloaded == old(refs.unloaded)
    {
      isPaused := false;
      isStopped := false;
      if clip.Some? {
        StartClip(loop, refs);
      } else if disposeOnComplete {
        Dispose();
      }
    }

    /** The branch of `Play` with a clip: count it the first time, play it and start the monitor. */
    method StartClip(loop: bool, refs: ReferenceCounts)
      requires clip.Some?
      modifies this`sourceHash, this`looping, this`calls, this`monitoring, refs`counts
      ensures sourceHash == if old(sourceHash) == -1 then clip.value.nameHash else old(sourceHash)
      ensures refs.counts == if old(sourceHash) == -1 then old(refs.counts)[sourceHash := CountOf(old(refs.counts), sourceHash) + 1]
                             else old(refs.counts)
      ensures looping == loop && monitoring && calls == old(calls) + [SourcePlay(loop)]
    {
      if sourceHash == -1 {
        CountClip(refs);
      }
      looping := loop;
      calls := calls + [SourcePlay(loop)];
      if !monitoring {
        monitoring := true;
      }
    }

    /** The first `Play` with a clip: remember the clip's hash and add one to its count. */
    method CountClip(refs: ReferenceCounts)
      requires clip.Some?
      modifies this`sourceHash, refs`counts
      ensures sourceHash == clip.value.nameHash
      ensures refs.counts == old(refs.counts)[sourceHash := CountOf(old(refs.counts), sourceHash) + 1]
    {
      sourceHash := clip.value.nameHash;
      if sourceHash !in refs.counts {
        refs.counts := refs.counts[sourceHash := 0];
      }
      refs.counts := refs.counts[sourceHash := refs.counts[sourceHash] + 1];
    }

    method Stop()
      modifies this
      ensures State() == Stopped(old(State()))
      ensures soundID == old(soundID) && looping == old(looping)
    {
      if !isStopped {
        isStopped := true;
        calls := calls + [SourceStop];
      }
    }

    method Pause()
      modifies this
      ensures State() == Paused(old(State()))
      ensures soundID == old(soundID) && looping == old(looping)
    {
      if !isPaused {
        isPaused := true;
        calls := calls + [SourcePause];
      }
    }

    method Resume()
      modifies this
      ensures State() == Resumed(old(State()))
      ensures soundID == old(soundID) && looping == old(looping)
    {
      if isPaused {
        isPaused := false;
        calls := calls + [SourceUnPause];
      }
    }

    method Dispose()
      modifies this
      ensures State() == Disposed(old(State()))
      ensures soundID == old(soundID) && looping == old(looping)
    {
      Stop();
      monitoring := false;
      destroyed := true;
    }

    /**
     * One pass of `MonitorSoundStatus` over its wait condition; `completed`
     * says whether `onSoundComplete` fired.
     */
    method CheckStatus(isPlaying: bool) returns (completed: bool)
      modifies this
      ensures State() == Monitored(old(State()), isPlaying).0
      ensures completed == Monitored(old(State()), isPlaying).1
      ensures soundID == old(soundID) && looping == old(looping)
    {
      completed := false;
      if monitoring && !(clip.Some? && (isPlaying || isPaused || isStopped)) {
        completed := true;
        if disposeOnComplete {
          Dispose();
        }
        monitoring := false;
      }
    }

    /** `OnDestroy`, run by Unity after `Destroy`; `loaded` is the clip's load state. */
    method OnDestroy(refs: ReferenceCounts, loaded: bool)
      modifies this, refs
      ensures refs.counts == Destroyed(old(State()), old(refs.counts), loaded).0
      ensures refs.unloaded
              == old(refs.unloaded) + if Destroyed(old(State()), old(refs.counts), loaded).1 then [old(clip).value] else []
      ensures State() == old(State()).(hasSource := false)
      ensures soundID == old(soundID) && looping == old(looping)
    {
      refs.Release(sourceHash, clip, loaded, State());
      hasSource := false;
    }
  }

  /** Removing a key forgets whatever was last stored under it. */
  lemma RemoveAfterUpdate(counts: map<int, int>, hash: int, n: int)
    ensures counts[hash := n] - {hash} == counts - {hash}
  {
    var updated := counts[hash := n] - {hash};
    assert updated.Keys == (counts - {hash}).Keys;
    assert forall k :: k in updated ==> updated[k] == counts[k];
  }
}
