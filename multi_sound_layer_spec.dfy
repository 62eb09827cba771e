/**
 * `MultiSoundLayer`: a layer that plays any number of sounds at once (sound
 * effects).  It keeps the controllers it started in `_audioClips`, counts
 * how many of each sound ID are playing in `_instaceTracker`, and refuses a
 * sound whose count has reached the entry's `maxInstances`.  A controller
 * reports the end of its sound through `onSoundComplete`, to which the layer
 * subscribes when it starts the sound.
 *
 * Controllers are `Sound` handles; `subscribed` holds the handles whose
 * `onSoundComplete` has the layer's handler attached.  The calls the layer
 * makes on controllers are appended to `commands`.
 */
module MultiLayerSpecs {
  import opened Wrappers
  import opened SoundData
  import opened SoundObjects
  import opened AbstractSoundLayers

  /** The layer's fields: the base flags, `_audioClips`, `_instaceTracker`, the subscriptions, and the calls made. */
  datatype MultiLayer = MultiLayer(
    flags: LayerFlags,
    clips: seq<Sound>,
    counts: map<string, int>,
    subscribed: set<nat>,
    commands: seq<Command>)

  /** What the constructor leaves: both collections empty. */
  function NewMultiLayer(): MultiLayer
  {
    MultiLayer(NewLayerFlags(), [], map[], {}, [])
  }

  /** The tracked count of `id`, absent counting as 0. */
  function CountOf(counts: map<string, int>, id: string): int
  {
    if id in counts then counts[id] else 0
  }

  /** How many controllers in `clips` play `id`. */
  function Occurrences(clips: seq<Sound>, id: string): (n: nat)
    ensures n <= |clips|
  {
    if clips == [] then 0
    else Occurrences(clips[..|clips| - 1], id) + (if clips[|clips| - 1].soundID == id then 1 else 0)
  }

  /** The handles of the controllers in `clips`. */
  function Handles(clips: seq<Sound>): set<nat>
  {
    set i | 0 <= i < |clips| :: clips[i].handle
  }

  /** `List.Remove`: drop the first occurrence of `s`, if any. */
  function RemoveFirst(clips: seq<Sound>, s: Sound): (r: seq<Sound>)
    ensures s in clips ==> |r| == |clips| - 1
    ensures s !in clips ==> r == clips
  {
    if clips == [] then []
    else if clips[0] == s then clips[1..]
    else [clips[0]] + RemoveFirst(clips[1..], s)
  }

  /** Every listed controller has a non-empty ID with a tracked count. */
  predicate IdsTracked(clips: seq<Sound>, counts: map<string, int>)
  {
    forall i :: 0 <= i < |clips| ==> clips[i].soundID != "" && clips[i].soundID in counts
  }

  /**
   * The layer's bookkeeping agrees with its list: handles are distinct (one
   * controller per `CreateSound`), exactly the listed controllers are
   * subscribed, every listed ID is tracked and every tracked count is the
   * number of listed controllers with that ID.  A listed controller has a
   * non-empty ID, since `PlaySound` ignores the others.
   */
  predicate Valid(l: MultiLayer)
  {
    && DistinctHandles(l.clips)
    && l.subscribed == Handles(l.clips)
    && IdsTracked(l.clips, l.counts)
    && (forall id :: id in l.counts ==> l.counts[id] == Occurrences(l.clips, id))
  }

  /**
   * `WillAcceptSound`: refuse a known entry whose ID is tracked with a count
   * that has reached its `maxInstances`; accept everything else, a `null`
   * entry included.
   */
  function WillAcceptSound(l: MultiLayer, soundObject: Option<SoundObject>): bool
  {
    !(soundObject.Some? && soundObject.value.audioID in l.counts
      && l.counts[soundObject.value.audioID] >= soundObject.value.maxInstances)
  }

  /**
   * `PlaySound`: ignore a null controller (empty ID); otherwise count it,
   * list it, mute it if the layer is muted, subscribe to its completion,
   * play it, and pause it if the layer is paused.
   */
  function PlaySound(l: MultiLayer, s: Sound, loop: bool): MultiLayer
  {
    if s.soundID == "" then l
    else
      l.(counts := l.counts[s.soundID := CountOf(l.counts, s.soundID) + 1],
         clips := l.clips + [s],
         subscribed := l.subscribed + {s.handle},
         commands := l.commands + MuteIf(l.flags.mute, s) + [Subscribe(s), Command.PlaySound(s, loop)]
                     + PauseIf(l.flags.pause, s))
  }

  /** `mute = m` on each listed controller, in list order. */
  function MuteEach(clips: seq<Sound>, mute: bool): (cs: seq<Command>)
    ensures |cs| == |clips|
    ensures forall i :: 0 <= i < |clips| ==> cs[i] == SetMute(clips[i], mute)
  {
    if clips == [] then [] else [SetMute(clips[0], mute)] + MuteEach(clips[1..], mute)
  }

  /** `Pause()` or `Resume()` on each listed controller, in list order. */
  function PauseEach(clips: seq<Sound>, pause: bool): (cs: seq<Command>)
    ensures |cs| == |clips|
    ensures forall i :: 0 <= i < |clips| ==> cs[i] == if pause then PauseSound(clips[i]) else ResumeSound(clips[i])
  {
    if clips == [] then []
    else [if pause then PauseSound(clips[0]) else ResumeSound(clips[0])] + PauseEach(clips[1..], pause)
  }

  /** `onSoundComplete -= OnSoundComplete` on each listed controller, in list order. */
  function UnsubscribeEach(clips: seq<Sound>): (cs: seq<Command>)
    ensures |cs| == |clips|
    ensures forall i :: 0 <= i < |clips| ==> cs[i] == Unsubscribe(clips[i])
  {
    if clips == [] then [] else [Unsubscribe(clips[0])] + UnsubscribeEach(clips[1..])
  }

  /** `MuteLayer`: set the flag and apply it to every listed controller. */
  function MuteLayer(l: MultiLayer, mute: bool): MultiLayer
  {
    l.(flags := WithMute(l.flags, mute), commands := l.commands + MuteEach(l.clips, mute))
  }

  /** `PauseLayer`: set the flag and pause or resume every listed controller. */
  function PauseLayer(l: MultiLayer, pause: bool): MultiLayer
  {
    l.(flags := WithPause(l.flags, pause), commands := l.commands + PauseEach(l.clips, pause))
  }

  /**
   * `OnSoundComplete(controller)`: unsubscribe, drop the controller from the
   * list if it is there, and take one off its ID's count if the ID is tracked.
   */
  function OnSoundComplete(l: MultiLayer, s: Sound): MultiLayer
  {
    l.(subscribed := l.subscribed - {s.handle},
       clips := RemoveFirst(l.clips, s),
       counts := if s.soundID in l.counts then l.counts[s.soundID := l.counts[s.soundID] - 1] else l.counts,
       commands := l.commands + [Unsubscribe(s)])
  }

  /** A controller's `onSoundComplete` event: it reaches the layer only while the layer is subscribed to it. */
  function SoundCompleted(l: MultiLayer, s: Sound): MultiLayer
  {
    if s.handle in l.subscribed then OnSoundComplete(l, s) else l
  }

  /** `Dispose`: unsubscribe from every listed controller, then empty the list and the counts. */
  function Dispose(l: MultiLayer): MultiLayer
  {
    l.(clips := [], counts := map[], subscribed := l.subscribed - Handles(l.clips),
       commands := l.commands + UnsubscribeEach(l.clips))
  }

  /** A new layer is consistent. */
  lemma NewMultiLayerValid()
    ensures Valid(NewMultiLayer())
  {
  }

  /** A controller that failed to load is ignored. */
  lemma NullControllerIgnored(l: MultiLayer, s: Sound, loop: bool)
    requires s.soundID == ""
    ensures PlaySound(l, s, loop) == l
  {
  }

  /**
   * Playing adds one to the sound's count and lists the controller last; the
   * new sound is muted exactly when the layer is muted and paused (after
   * being played) exactly when the layer is paused.
   */
  lemma PlaySoundCountsAndApplies(l: MultiLayer, s: Sound, loop: bool)
    requires s.soundID != ""
    ensures var r := PlaySound(l, s, loop);
            && CountOf(r.counts, s.soundID) == CountOf(l.counts, s.soundID) + 1
            && (forall id :: id != s.soundID ==> CountOf(r.counts, id) == CountOf(l.counts, id))
            && r.clips == l.clips + [s]
            && (SetMute(s, true) in r.commands[|l.commands|..] <==> l.flags.mute)
            && (PauseSound(s) in r.commands[|l.commands|..] <==> l.flags.pause)
            && r.flags == l.flags
  {
    var r := PlaySound(l, s, loop);
    assert r.commands[|l.commands|..] == MuteIf(l.flags.mute, s) + [Subscribe(s), Command.PlaySound(s, loop)]
                                          + PauseIf(l.flags.pause, s);
  }

  /** Appending a controller adds one occurrence of its ID. */
  lemma OccurrencesAppend(clips: seq<Sound>, s: Sound, id: string)
    ensures Occurrences(clips + [s], id) == Occurrences(clips, id) + (if s.soundID == id then 1 else 0)
  {
    assert (clips + [s])[..|clips|] == clips;
  }

  /** The handles after appending one controller. */
  lemma HandlesAppend(clips: seq<Sound>, s: Sound)
    ensures Handles(clips + [s]) == Handles(clips) + {s.handle}
  {
    var c := clips + [s];
    assert forall i :: 0 <= i < |clips| ==> c[i] == clips[i];
    assert c[|clips|] == s;
  }

  /** Playing a fresh controller (one the layer has not seen) keeps the layer consistent. */
  lemma PlaySoundValid(l: MultiLayer, s: Sound, loop: bool)
    requires Valid(l) && s.handle !in l.subscribed
    ensures Valid(PlaySound(l, s, loop))
  {
    if s.soundID != "" {
      var r := PlaySound(l, s, loop);
      HandlesAppend(l.clips, s);
      forall id | id in r.counts
        ensures r.counts[id] == Occurrences(r.clips, id)
      {
        OccurrencesAppend(l.clips, s, id);
        if id !in l.counts {
          OccurrencesAbsent(l.clips, id);
        }
      }
      forall i, j | 0 <= i < j < |r.clips|
        ensures r.clips[i].handle != r.clips[j].handle
      {
        if j == |l.clips| {
          assert r.clips[i] == l.clips[i];
          assert l.clips[i].handle in Handles(l.clips);
        }
      }
    }
  }

  /**
   * The instance limit holds as long as every sound is played only after the
   * layer accepted it: the count of a sound stays within its `maxInstances`,
   * except that the first instance of an untracked sound is always accepted,
   * so a limit below 1 still lets one through.
   */
  lemma AcceptedPlayRespectsLimit(l: MultiLayer, so: SoundObject, s: Sound, loop: bool)
    requires s.soundID == so.audioID
    requires CountOf(l.counts, so.audioID) <= if so.maxInstances < 1 then 1 else so.maxInstances
    requires WillAcceptSound(l, Some(so))
    ensures CountOf(PlaySound(l, s, loop).counts, so.audioID) <= if so.maxInstances < 1 then 1 else so.maxInstances
  {
  }

  /** A refused sound is one whose tracked count has reached its limit. */
  lemma RefusedAtLimit(l: MultiLayer, so: SoundObject)
    requires !WillAcceptSound(l, Some(so))
    ensures CountOf(l.counts, so.audioID) >= so.maxInstances
  {
  }

  /** Occurrences after dropping the first occurrence of a listed controller. */
  lemma {:induction false} OccurrencesRemoveFirst(clips: seq<Sound>, s: Sound, id: string)
    requires s in clips
    ensures Occurrences(RemoveFirst(clips, s), id) == Occurrences(clips, id) - (if s.soundID == id then 1 else 0)
  {
    if clips[0] == s {
      OccurrencesPrepend(clips[0], clips[1..], id);
      assert [clips[0]] + clips[1..] == clips;
    } else {
      OccurrencesRemoveFirst(clips[1..], s, id);
      OccurrencesPrepend(clips[0], RemoveFirst(clips[1..], s), id);
      OccurrencesPrepend(clips[0], clips[1..], id);
      assert [clips[0]] + clips[1..] == clips;
    }
  }

  /** Prepending a controller adds one occurrence of its ID. */
  lemma {:induction false} OccurrencesPrepend(s: Sound, clips: seq<Sound>, id: string)
    ensures Occurrences([s] + clips, id) == Occurrences(clips, id) + (if s.soundID == id then 1 else 0)
    decreases |clips|
  {
    if clips != [] {
      var init := clips[..|clips| - 1];
      assert ([s] + clips)[..|clips|] == [s] + init;
      OccurrencesPrepend(s, init, id);
    }
  }

  /** The position of the first occurrence of `s`. */
  function IndexOf(clips: seq<Sound>, s: Sound): (k: nat)
    requires s in clips
    ensures k < |clips| && clips[k] == s
  {
    if clips[0] == s then 0 else 1 + IndexOf(clips[1..], s)
  }

  /** Dropping the first occurrence keeps the others, in order. */
  lemma {:induction false} RemoveFirstAt(clips: seq<Sound>, s: Sound)
    requires s in clips
    ensures RemoveFirst(clips, s) == clips[..IndexOf(clips, s)] + clips[IndexOf(clips, s) + 1..]
  {
    if clips[0] != s {
      var k := IndexOf(clips[1..], s);
      RemoveFirstAt(clips[1..], s);
      assert [clips[0]] + (clips[1..][..k] + clips[1..][k + 1..]) == clips[..k + 1] + clips[k + 2..];
    }
  }

  /** The controller at position `i` once the one at `k` is dropped. */
  lemma RemovedAt(clips: seq<Sound>, k: nat, i: nat)
    requires k < |clips| && i < |clips| - 1
    ensures (clips[..k] + clips[k + 1..])[i] == clips[if i < k then i else i + 1]
  {
  }

  /** Distinct handles: no two listed controllers share one. */
  predicate DistinctHandles(clips: seq<Sound>)
  {
    forall i, j :: 0 <= i < j < |clips| ==> clips[i].handle != clips[j].handle
  }

  /** Removing the controller at `k` keeps handles distinct and removes exactly its handle. */
  lemma HandlesRemoveAt(clips: seq<Sound>, k: nat)
    requires k < |clips| && DistinctHandles(clips)
    ensures var r := clips[..k] + clips[k + 1..];
            DistinctHandles(r) && Handles(r) == Handles(clips) - {clips[k].handle}
  {
    var r := clips[..k] + clips[k + 1..];
    assert forall i :: 0 <= i < k ==> r[i] == clips[i];
    assert forall i :: k <= i < |r| ==> r[i] == clips[i + 1];
    forall h | h in Handles(clips) - {clips[k].handle}
      ensures h in Handles(r)
    {
      var i :| 0 <= i < |clips| && clips[i].handle == h;
      if i < k {
        assert r[i].handle == h;
      } else {
        assert r[i - 1].handle == h;
      }
    }
  }

  /** Without a controller for `id`, `id` occurs nowhere. */
  lemma {:induction false} OccurrencesAbsent(clips: seq<Sound>, id: string)
    requires forall i :: 0 <= i < |clips| ==> clips[i].soundID != id
    ensures Occurrences(clips, id) == 0
  {
    if clips != [] {
      var init := clips[..|clips| - 1];
      assert forall i :: 0 <= i < |init| ==> init[i] == clips[i];
      OccurrencesAbsent(init, id);
    }
  }

  /** Every listed controller with the handle of `s` is `s`: handles name controllers. */
  predicate NamesController(clips: seq<Sound>, s: Sound)
  {
    forall i :: 0 <= i < |clips| && clips[i].handle == s.handle ==> clips[i] == s
  }

  /** The handler keeps handles distinct and subscriptions matching the list. */
  lemma CompletionKeepsHandles(l: MultiLayer, s: Sound)
    requires Valid(l) && s in l.clips
    ensures var r := OnSoundComplete(l, s); DistinctHandles(r.clips) && r.subscribed == Handles(r.clips)
  {
    RemoveFirstAt(l.clips, s);
    HandlesRemoveAt(l.clips, IndexOf(l.clips, s));
  }

  /** The handler keeps every listed ID non-empty and tracked. */
  lemma CompletionKeepsIds(l: MultiLayer, s: Sound)
    requires IdsTracked(l.clips, l.counts) && s in l.clips
    ensures var r := OnSoundComplete(l, s); IdsTracked(r.clips, r.counts)
  {
    var r := OnSoundComplete(l, s);
    var k := IndexOf(l.clips, s);
    RemoveFirstAt(l.clips, s);
    forall i | 0 <= i < |r.clips|
      ensures r.clips[i].soundID != "" && r.clips[i].soundID in r.counts
    {
      RemovedAt(l.clips, k, i);
    }
  }

  /** The handler keeps every tracked count equal to the number of listed controllers. */
  lemma CompletionKeepsCounts(l: MultiLayer, s: Sound)
    requires Valid(l) && s in l.clips
    ensures var r := OnSoundComplete(l, s);
            forall id :: id in r.counts ==> r.counts[id] == Occurrences(r.clips, id)
  {
    var r := OnSoundComplete(l, s);
    forall id | id in r.counts
      ensures r.counts[id] == Occurrences(r.clips, id)
    {
      OccurrencesRemoveFirst(l.clips, s, id);
    }
  }

  /** The handler run on a listed controller keeps the layer consistent. */
  lemma OnSoundCompleteValid(l: MultiLayer, s: Sound)
    requires Valid(l) && s in l.clips
    ensures Valid(OnSoundComplete(l, s))
  {
    CompletionKeepsHandles(l, s);
    CompletionKeepsIds(l, s);
    CompletionKeepsCounts(l, s);
  }

  /**
   * A completion keeps the layer consistent; `s` is the controller firing
   * the event, so a listed controller with its handle is `s` itself.
   */
  lemma SoundCompletedValid(l: MultiLayer, s: Sound)
    requires Valid(l) && NamesController(l.clips, s)
    ensures Valid(SoundCompleted(l, s))
  {
    if s.handle in l.subscribed {
      var k :| 0 <= k < |l.clips| && l.clips[k].handle == s.handle;
      assert l.clips[k] == s;
      OnSoundCompleteValid(l, s);
    }
  }

  /**
   * Each controller is counted down at most once: the first completion
   * unsubscribes the layer, so a second one changes nothing.
   */
  lemma CountedDownOnce(l: MultiLayer, s: Sound)
    ensures SoundCompleted(SoundCompleted(l, s), s) == SoundCompleted(l, s)
  {
  }

  /** A completion of a listed controller takes one off its ID's count and drops it from the list. */
  lemma CompletionCountsDown(l: MultiLayer, s: Sound)
    requires Valid(l) && s in l.clips
    ensures CountOf(SoundCompleted(l, s).counts, s.soundID) == CountOf(l.counts, s.soundID) - 1
    ensures |SoundCompleted(l, s).clips| == |l.clips| - 1
    ensures SoundCompleted(l, s).subscribed == l.subscribed - {s.handle}
  {
    var i :| 0 <= i < |l.clips| && l.clips[i] == s;
    assert s.handle in Handles(l.clips);
  }

  /** Muting and pausing reach every listed controller and keep the layer consistent. */
  lemma MutePauseReachEveryClip(l: MultiLayer, b: bool)
    ensures var m := MuteLayer(l, b);
            m.flags.mute == b && m.clips == l.clips
            && forall i :: 0 <= i < |l.clips| ==> m.commands[|l.commands| + i] == SetMute(l.clips[i], b)
    ensures var p := PauseLayer(l, b);
            p.flags.pause == b && p.clips == l.clips
            && forall i :: 0 <= i < |l.clips| ==>
                 p.commands[|l.commands| + i] == if b then PauseSound(l.clips[i]) else ResumeSound(l.clips[i])
    ensures Valid(l) ==> Valid(MuteLayer(l, b)) && Valid(PauseLayer(l, b))
  {
    var m, p := MuteLayer(l, b), PauseLayer(l, b);
    var mutes, pauses := MuteEach(l.clips, b), PauseEach(l.clips, b);
    assert m.commands == l.commands + mutes && p.commands == l.commands + pauses;
    assert forall i :: 0 <= i < |l.clips| ==> m.commands[|l.commands| + i] == mutes[i];
    assert forall i :: 0 <= i < |l.clips| ==> p.commands[|l.commands| + i] == pauses[i];
    assert m.clips == p.clips == l.clips && m.counts == p.counts == l.counts && m.subscribed == p.subscribed == l.subscribed;
  }

  /** On a consistent layer, disposing unsubscribes every listed controller and leaves nothing tracked. */
  lemma DisposeEmpties(l: MultiLayer)
    requires Valid(l)
    ensures var d := Dispose(l);
            d.clips == [] && d.counts == map[] && d.subscribed == {} && Valid(d)
            && forall i :: 0 <= i < |l.clips| ==> d.commands[|l.commands| + i] == Unsubscribe(l.clips[i])
  {
  }
}
