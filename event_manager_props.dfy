/**
 * What the event manager promises: registration purges nulls and keeps
 * each observer at most once, unregistering an absent observer changes
 * nothing, events run in the order they were dispatched, a dispatch made
 * during processing is only queued, each event reaches only the snapshot
 * taken when it started, a mid-event unregister silences the observer for
 * the rest of that event, and a top-level dispatch returns with the queue
 * empty and the flag clear.
 */
module EventManagerProperties {
  import opened Wrappers
  import opened EventManagerSpec

  // ---------------------------------------------------------------- list lemmas

  lemma UniqueNulled(t: seq<Option<Observer>>, s: seq<Option<Observer>>)
    requires Unique(s) && NulledFrom(t, s)
    ensures Unique(t)
  {
  }

  /** Dropping null entries keeps the observers unique. */
  lemma {:induction false} UniqueWithoutNulls(s: seq<Option<Observer>>)
    requires Unique(s)
    ensures Unique(WithoutNulls(s))
    decreases |s|
  {
    if s != [] {
      var tail := s[1..];
      assert Unique(tail) by {
        forall i, j | 0 <= i < j < |tail| && tail[i].Some?
          ensures tail[i] != tail[j]
        {
          assert tail[i] == s[i + 1] && tail[j] == s[j + 1];
        }
      }
      UniqueWithoutNulls(tail);
      var rest := WithoutNulls(tail);
      if s[0].Some? {
        assert s[0] !in tail;
        var r := [s[0]] + rest;
        forall i, j | 0 <= i < j < |r| && r[i].Some?
          ensures r[i] != r[j]
        {
          if i == 0 {
            assert r[j] == rest[j - 1] && r[j] in rest;
          } else {
            assert r[i] == rest[i - 1] && r[j] == rest[j - 1];
          }
        }
      } else {
        assert WithoutNulls(s) == rest;
      }
    }
  }

  /** Membership after `List.Remove` of an observer on a list where it occurs at most once. */
  lemma RemoveFirstMembers(s: seq<Option<Observer>>, who: Option<Observer>, x: Option<Observer>)
    requires Unique(s) && who.Some?
    ensures x in RemoveFirst(s, who) <==> x in s && x != who
    ensures Unique(RemoveFirst(s, who))
  {
    if who in s {
      var k := IndexOf(s, who);
      var r := s[..k] + s[k + 1..];
      assert forall i :: 0 <= i < |r| ==> r[i] == s[if i < k then i else i + 1];
      if x in s && x != who {
        var j :| 0 <= j < |s| && s[j] == x;
        assert r[if j < k then j else j - 1] == x;
      }
    }
  }

  /** Nulling the first occurrence of an observer that occurs at most once removes it. */
  lemma NullFirstSilences(s: seq<Option<Observer>>, who: Option<Observer>)
    requires Unique(s) && who.Some?
    ensures who !in NullFirst(s, who) && NulledFrom(NullFirst(s, who), s)
  {
  }

  // ---------------------------------------------------------------- the invariant

  /**
   * Observers are unique in the list and in the snapshot, every dispatched
   * event is either processed or still queued in dispatch order, and outside
   * processing there is no snapshot.
   */
  ghost predicate Inv(b: Bus) {
    Unique(b.observers) && Unique(b.active)
    && b.dispatched == b.processed + b.queue
    && (!b.processing ==> b.active == [])
  }

  lemma InitialInv()
    ensures Inv(Initial())
  {
  }

  lemma RegisterInv(b: Bus, who: Option<Observer>)
    requires Inv(b)
    ensures Inv(RegisterOn(b, who).bus)
  {
    RegisterKeepsObserversUnique(b, who);
  }

  lemma UnregisterInv(b: Bus, who: Option<Observer>, editorBuild: bool)
    requires Inv(b)
    ensures Inv(UnregisterOn(b, who, editorBuild).bus)
  {
    var r := UnregisterOn(b, who, editorBuild).bus;
    if who.Some? {
      RemoveFirstMembers(b.observers, who, who);
      if b.processing {
        NullFirstSilences(b.active, who);
        UniqueNulled(r.active, b.active);
      }
    } else if who in b.observers {
      var k := IndexOf(b.observers, who);
      var s := b.observers;
      var t := s[..k] + s[k + 1..];
      assert forall i :: 0 <= i < |t| ==> t[i] == s[if i < k then i else i + 1];
    }
  }

  /** A call back from an observer keeps the invariant, processing or not yet finished. */
  lemma ApplyInv(b: Bus, a: Action, editorBuild: bool)
    requires Inv(b) && b.processing
    ensures Inv(Apply(b, a, editorBuild).bus)
  {
    match a
    case Register(who) => RegisterInv(b, who);
    case Unregister(who) => UnregisterInv(b, who, editorBuild);
    case Dispatch(event) =>
  }

  lemma {:induction false} ApplyAllInv(b: Bus, acts: seq<Action>, editorBuild: bool)
    requires Inv(b) && b.processing
    ensures Inv(ApplyAll(b, acts, editorBuild).bus)
    decreases |acts|
  {
    if acts != [] {
      ApplyInv(b, acts[0], editorBuild);
      var r1 := Apply(b, acts[0], editorBuild);
      if r1.outcome != Threw {
        ApplyAllInv(r1.bus, acts[1..], editorBuild);
      }
    }
  }

  lemma {:induction false} NotifyInv(b: Bus, event: GameEvent, i: nat, react: (Observer, GameEvent) -> seq<Action>, editorBuild: bool)
    requires Inv(b) && b.processing && i <= |b.active|
    ensures Inv(NotifyFrom(b, event, i, react, editorBuild).bus)
    decreases |b.active| - i
  {
    if i < |b.active| {
      if b.active[i].None? {
        NotifyInv(b, event, i + 1, react, editorBuild);
      } else {
        var who := b.active[i].value;
        var b1 := b.(delivered := b.delivered + [Delivery(who, event)]);
        ApplyAllInv(b1, react(who, event), editorBuild);
        var r1 := ApplyAll(b1, react(who, event), editorBuild);
        if r1.outcome != Threw {
          NotifyInv(r1.bus, event, i + 1, react, editorBuild);
        }
      }
    }
  }

  lemma ProcessNextInv(b: Bus, react: (Observer, GameEvent) -> seq<Action>, editorBuild: bool)
    requires Inv(b) && b.queue != []
    ensures Inv(ProcessNext(b, react, editorBuild).bus)
  {
    var b1 := BeginEvent(b);
    assert b1.dispatched == b1.processed + b1.queue by {
      assert b.queue == [b.queue[0]] + b.queue[1..];
    }
    NotifyInv(b1, b.queue[0], 0, react, editorBuild);
  }

  lemma {:induction false} DrainInv(b: Bus, react: (Observer, GameEvent) -> seq<Action>, editorBuild: bool, fuel: nat)
    requires Inv(b) && !b.processing
    ensures Inv(Drain(b, react, editorBuild, fuel).bus)
    decreases fuel
  {
    if b.queue != [] && fuel > 0 {
      ProcessNextInv(b, react, editorBuild);
      var r1 := ProcessNext(b, react, editorBuild);
      if r1.outcome != Threw {
        DrainInv(r1.bus, react, editorBuild, fuel - 1);
      }
    }
  }

  lemma DispatchInv(b: Bus, event: GameEvent, react: (Observer, GameEvent) -> seq<Action>, editorBuild: bool, fuel: nat)
    requires Inv(b)
    ensures Inv(DispatchOn(b, event, react, editorBuild, fuel).bus)
  {
    if !b.processing {
      DrainInv(Enqueue(b, event), react, editorBuild, fuel);
    }
  }

  // ---------------------------------------------------------------- registration

  /**
   * `Register` leaves exactly the registered non-null observers plus the new
   * one, drops every null entry unless the new observer is itself null (which
   * then throws), and touches nothing but the list.
   */
  lemma RegisterPurgesNulls(b: Bus, who: Option<Observer>)
    ensures var r := RegisterOn(b, who);
      && (forall x :: x in r.bus.observers <==> (x in b.observers && x.Some?) || x == who)
      && (None in r.bus.observers <==> who.None?)
      && (r.outcome == Threw <==> who.None?)
      && r.bus == b.(observers := r.bus.observers)
  {
  }

  /** An observer is never listed twice, however often it registers. */
  lemma RegisterKeepsObserversUnique(b: Bus, who: Option<Observer>)
    requires Unique(b.observers)
    ensures Unique(RegisterOn(b, who).bus.observers)
  {
    UniqueWithoutNulls(b.observers);
    var purged := WithoutNulls(b.observers);
    if who !in purged {
      var r := purged + [who];
      forall i, j | 0 <= i < j < |r| && r[i].Some?
        ensures r[i] != r[j]
      {
        if j == |purged| {
          assert r[i] == purged[i];
        }
      }
    }
  }

  /** Registering an observer twice only warns: the list keeps its one entry. */
  lemma RegisterTwiceKeepsOne(b: Bus, o: Observer)
    requires Unique(b.observers)
    ensures var r := RegisterOn(RegisterOn(b, Some(o)).bus, Some(o));
      && r.outcome == Done
      && r.bus.observers == RegisterOn(b, Some(o)).bus.observers
      && |set i | 0 <= i < |r.bus.observers| && r.bus.observers[i] == Some(o)| == 1
  {
    var r1 := RegisterOn(b, Some(o)).bus;
    RegisterKeepsObserversUnique(b, Some(o));
    assert Some(o) in r1.observers;
    var s := r1.observers;
    assert WithoutNulls(s) == s by {
      WithoutNullsOfNonNull(s);
    }
    ListedOnce(s, o);
  }

  /** In a list without duplicates, a listed observer sits at exactly one index. */
  lemma ListedOnce(s: seq<Option<Observer>>, o: Observer)
    requires Unique(s) && Some(o) in s
    ensures |set i | 0 <= i < |s| && s[i] == Some(o)| == 1
  {
    var k :| 0 <= k < |s| && s[k] == Some(o);
    var at := set i | 0 <= i < |s| && s[i] == Some(o);
    assert forall i :: i in at <==> i in {k};
    assert at == {k};
  }

  lemma {:induction false} WithoutNullsOfNonNull(s: seq<Option<Observer>>)
    requires None !in s
    ensures WithoutNulls(s) == s
    decreases |s|
  {
    if s != [] {
      assert s == [s[0]] + s[1..];
      WithoutNullsOfNonNull(s[1..]);
    }
  }

  /** Unregistering an observer that is not registered leaves the list as it was. */
  lemma UnregisterAbsentKeepsList(b: Bus, who: Option<Observer>, editorBuild: bool)
    requires who !in b.observers
    ensures var r := UnregisterOn(b, who, editorBuild);
      && r.bus.observers == b.observers
      && (r.outcome == Threw <==> editorBuild && who.None?)
      && (!b.processing ==> r.bus == b)
  {
  }

  /** Unregistering a registered observer removes it and no other. */
  lemma UnregisterRemovesOnlyIt(b: Bus, o: Observer, x: Option<Observer>, editorBuild: bool)
    requires Unique(b.observers)
    ensures var r := UnregisterOn(b, Some(o), editorBuild);
      && r.outcome == Done
      && (x in r.bus.observers <==> x in b.observers && x != Some(o))
  {
    RemoveFirstMembers(b.observers, Some(o), x);
  }

  // ---------------------------------------------------------------- dispatching

  /** A `Dispatch` made while an event is processed only queues: nobody is notified and nothing is processed. */
  lemma DispatchDuringProcessingQueues(b: Bus, event: GameEvent, react: (Observer, GameEvent) -> seq<Action>, editorBuild: bool, fuel: nat)
    requires b.processing
    ensures var r := DispatchOn(b, event, react, editorBuild, fuel);
      && r.outcome == Done && r.bus.processing
      && r.bus.queue == b.queue + [event]
      && r.bus.delivered == b.delivered && r.bus.processed == b.processed
      && r.bus.observers == b.observers && r.bus.active == b.active
  {
  }

  /**
   * FIFO: a top-level `Dispatch` that completes processes, in order, every
   * event that was waiting, then this one, then whatever the observers
   * dispatched meanwhile in the order they dispatched it; it returns with
   * the queue empty and the flag clear.
   */
  lemma TopLevelDispatchDrains(b: Bus, event: GameEvent, react: (Observer, GameEvent) -> seq<Action>, editorBuild: bool, fuel: nat)
    requires Inv(b) && !b.processing
    requires DispatchOn(b, event, react, editorBuild, fuel).outcome == Done
    ensures var r := DispatchOn(b, event, react, editorBuild, fuel).bus;
      && r.queue == [] && !r.processing && r.active == []
      && r.processed == r.dispatched
      && b.processed + b.queue + [event] <= r.processed
  {
    DispatchInv(b, event, react, editorBuild, fuel);
    DrainExtendsDispatched(Enqueue(b, event), react, editorBuild, fuel);
  }

  lemma {:induction false} DrainExtendsDispatched(b: Bus, react: (Observer, GameEvent) -> seq<Action>, editorBuild: bool, fuel: nat)
    requires !b.processing
    ensures b.dispatched <= Drain(b, react, editorBuild, fuel).bus.dispatched
    decreases fuel
  {
    if b.queue != [] && fuel > 0 {
      var r1 := ProcessNext(b, react, editorBuild);
      if r1.outcome != Threw {
        DrainExtendsDispatched(r1.bus, react, editorBuild, fuel - 1);
      }
    }
  }

  /**
   * An exception escaping an observer leaves the flag set, so every later
   * `Dispatch` only queues and no observer hears of it again.
   */
  lemma ThrowLeavesManagerDeaf(b: Bus, react: (Observer, GameEvent) -> seq<Action>, editorBuild: bool, event: GameEvent, fuel: nat)
    requires b.queue != []
    requires ProcessNext(b, react, editorBuild).outcome == Threw
    ensures var b1 := ProcessNext(b, react, editorBuild).bus;
      && b1.processing
      && DispatchOn(b1, event, react, editorBuild, fuel).bus.delivered == b1.delivered
  {
  }

  /**
   * A null event dispatched at the top level throws in the log line of its
   * own processing: nobody hears of it, and the flag stays set with the
   * snapshot taken, so the manager is deaf from then on.
   */
  lemma NullEventLeavesManagerDeaf(b: Bus, data: int, react: (Observer, GameEvent) -> seq<Action>, editorBuild: bool,
                                   later: GameEvent, fuel: nat, laterFuel: nat)
    requires !b.processing && b.queue == [] && fuel > 0
    ensures var r := DispatchOn(b, GameEvent(None, data), react, editorBuild, fuel);
      && r.outcome == Threw && r.bus.processing && r.bus.queue == []
      && r.bus.delivered == b.delivered && r.bus.active == b.observers
      && DispatchOn(r.bus, later, react, editorBuild, laterFuel).bus.delivered == b.delivered
  {
    var b1 := Enqueue(b, GameEvent(None, data));
    assert b1.queue == [GameEvent(None, data)];
    ThrowLeavesManagerDeaf(b1, react, editorBuild, later, laterFuel);
  }

  // ---------------------------------------------------------------- the snapshot

  lemma NulledMembers(t: seq<Option<Observer>>, s: seq<Option<Observer>>, i: nat, o: Observer)
    requires NulledFrom(t, s) && i <= |t| && Some(o) in t[i..]
    ensures Some(o) in s[i..]
  {
    var j :| 0 <= j < |t[i..]| && t[i..][j] == Some(o);
    assert s[i..][j] == Some(o);
  }

  /** The notifications appended after `before` all carry `event` and go to observers listed in `snapshot`. */
  ghost predicate SentOnlyTo(before: seq<Delivery>, after: seq<Delivery>, event: GameEvent, snapshot: seq<Option<Observer>>) {
    forall k :: |before| <= k < |after| ==> after[k].event == event && Some(after[k].observer) in snapshot
  }

  /** One delivery to the observer at `i`, then deliveries only to the (possibly nulled) rest of the snapshot. */
  lemma SentOnlyToExtend(before: seq<Delivery>, who: Observer, event: GameEvent, after: seq<Delivery>,
                         t: seq<Option<Observer>>, s: seq<Option<Observer>>, i: nat)
    requires i < |s| && s[i] == Some(who) && NulledFrom(t, s)
    requires before + [Delivery(who, event)] <= after
    requires SentOnlyTo(before + [Delivery(who, event)], after, event, t[i + 1..])
    ensures SentOnlyTo(before, after, event, s[i..])
  {
    forall k | |before| <= k < |after|
      ensures after[k].event == event && Some(after[k].observer) in s[i..]
    {
      if k > |before| {
        NulledMembers(t, s, i + 1, after[k].observer);
        assert s[i + 1..] == s[i..][1..];
      } else {
        assert after[k] == (before + [Delivery(who, event)])[k];
        assert s[i..][0] == Some(who);
      }
    }
  }

  /** Every notification sent from snapshot position `i` on carries this event and goes to an observer still in the snapshot there. */
  lemma {:induction false} NotifyOnlySnapshot(b: Bus, event: GameEvent, i: nat, react: (Observer, GameEvent) -> seq<Action>, editorBuild: bool)
    requires b.processing && i <= |b.active|
    ensures SentOnlyTo(b.delivered, NotifyFrom(b, event, i, react, editorBuild).bus.delivered, event, b.active[i..])
    decreases |b.active| - i
  {
    var r := NotifyFrom(b, event, i, react, editorBuild).bus;
    if i < |b.active| {
      if b.active[i].None? {
        NotifyOnlySnapshot(b, event, i + 1, react, editorBuild);
        SentOnlyToWiden(b.delivered, r.delivered, event, b.active, i);
      } else {
        var who := b.active[i].value;
        var b1 := b.(delivered := b.delivered + [Delivery(who, event)]);
        var r1 := ApplyAll(b1, react(who, event), editorBuild);
        if r1.outcome != Threw {
          NotifyOnlySnapshot(r1.bus, event, i + 1, react, editorBuild);
          assert r == NotifyFrom(r1.bus, event, i + 1, react, editorBuild).bus;
        }
        SentOnlyToExtend(b.delivered, who, event, r.delivered, r1.bus.active, b.active, i);
      }
    }
  }

  /** What goes only to the snapshot from `i + 1` on goes only to the snapshot from `i` on. */
  lemma SentOnlyToWiden(before: seq<Delivery>, after: seq<Delivery>, event: GameEvent, s: seq<Option<Observer>>, i: nat)
    requires i < |s| && SentOnlyTo(before, after, event, s[i + 1..])
    ensures SentOnlyTo(before, after, event, s[i..])
  {
    assert s[i + 1..] == s[i..][1..];
  }

  /**
   * Each event reaches only observers that were registered when its
   * processing started: one registered during processing hears of it not.
   */
  lemma EventReachesOnlyStartObservers(b: Bus, react: (Observer, GameEvent) -> seq<Action>, editorBuild: bool)
    requires b.queue != []
    ensures SentOnlyTo(b.delivered, ProcessNext(b, react, editorBuild).bus.delivered, b.queue[0], b.observers)
  {
    var b1 := BeginEvent(b);
    NotifyOnlySnapshot(b1, b.queue[0], 0, react, editorBuild);
    assert b1.active[0..] == b.observers;
  }

  /** An observer unregistered mid-event is not notified for the rest of that event. */
  lemma UnregisteredMidEventSkipped(b: Bus, o: Observer, event: GameEvent, i: nat, react: (Observer, GameEvent) -> seq<Action>, editorBuild: bool)
    requires b.processing && Unique(b.active) && i <= |b.active|
    ensures var b1 := UnregisterOn(b, Some(o), editorBuild).bus;
      var r := NotifyFrom(b1, event, i, react, editorBuild).bus;
      forall k :: |b1.delivered| <= k < |r.delivered| ==> r.delivered[k].observer != o
  {
    var b1 := UnregisterOn(b, Some(o), editorBuild).bus;
    NullFirstSilences(b.active, Some(o));
    assert b1.active == NullFirst(b.active, Some(o));
    NotifyOnlySnapshot(b1, event, i, react, editorBuild);
    var r := NotifyFrom(b1, event, i, react, editorBuild).bus;
    forall k | |b1.delivered| <= k < |r.delivered|
      ensures r.delivered[k].observer != o
    {
      assert Some(r.delivered[k].observer) in b1.active[i..];
      assert Some(o) !in b1.active[i..];
    }
  }

  /** Observer calls back that neither unregister nor register null. */
  ghost predicate Quiet(acts: seq<Action>) {
    forall a :: a in acts ==> a.Dispatch? || (a.Register? && a.who.Some?)
  }

  lemma {:induction false} QuietKeepsSnapshot(b: Bus, acts: seq<Action>, editorBuild: bool)
    requires b.processing && Quiet(acts)
    ensures var r := ApplyAll(b, acts, editorBuild);
      r.outcome == Done && r.bus.active == b.active
    decreases |acts|
  {
    if acts != [] {
      assert acts[0] in acts;
      var r1 := Apply(b, acts[0], editorBuild);
      assert Quiet(acts[1..]) by {
        forall a | a in acts[1..]
          ensures a in acts
        {
        }
      }
      QuietKeepsSnapshot(r1.bus, acts[1..], editorBuild);
    }
  }

  /**
   * When no observer unregisters anything or registers null, the event
   * reaches every non-null snapshot entry from position `i` on, once each,
   * in list order.
   */
  lemma {:induction false} QuietEventReachesSnapshotInOrder(b: Bus, event: GameEvent, i: nat, react: (Observer, GameEvent) -> seq<Action>, editorBuild: bool)
    requires b.processing && i <= |b.active|
    requires forall o: Observer, e: GameEvent :: Quiet(react(o, e))
    ensures var r := NotifyFrom(b, event, i, react, editorBuild);
      r.outcome == Done && r.bus.delivered == b.delivered + Deliveries(b.active[i..], event)
    decreases |b.active| - i
  {
    var s := b.active[i..];
    if i == |b.active| {
      assert s == [];
    } else {
      assert s[1..] == b.active[i + 1..];
      if b.active[i].None? {
        QuietEventReachesSnapshotInOrder(b, event, i + 1, react, editorBuild);
      } else {
        var who := b.active[i].value;
        var b1 := b.(delivered := b.delivered + [Delivery(who, event)]);
        QuietKeepsSnapshot(b1, react(who, event), editorBuild);
        var r1 := ApplyAll(b1, react(who, event), editorBuild);
        QuietEventReachesSnapshotInOrder(r1.bus, event, i + 1, react, editorBuild);
        assert Deliveries(s, event) == [Delivery(who, event)] + Deliveries(b.active[i + 1..], event);
      }
    }
  }
}
