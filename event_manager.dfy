/**
 * `BaseEventManager` and `EventManager` as a class whose fields are the
 * observer list, the per-event snapshot, the event queue and the processing
 * flag.  Each method is proved equal to its transition in EventManagerSpec,
 * so the invariant and the delivery properties of EventManagerProperties
 * hold of the object.  The histories (dispatched, processed, delivered) are
 * ghost fields: they record what happened and are never read by the code.
 */
module EventManagerSystem {
  import opened Wrappers
  import opened Singleton
  import opened EventManagerSpec
  import EventManagerProperties

  class EventManager {
    /** `_observers`; a `None` entry is an observer destroyed without unregistering, or a registered null. */
    var observers: seq<Option<Observer>>
    /** `_activeObservers`: the snapshot for the current event; empty outside processing. */
    var active: seq<Option<Observer>>
    /** `_gameEvents`, front first. */
    var queue: seq<GameEvent>
    /** `_processingEvent`. */
    var processing: bool
    ghost var dispatched: seq<GameEvent>
    ghost var processed: seq<GameEvent>
    ghost var delivered: seq<Delivery>
    /** The observers' `OnNotify` bodies: which manager calls each makes for an event. */
    const react: (Observer, GameEvent) -> seq<Action>
    /** Whether this is an editor build (`UNITY_EDITOR`), which warns on a failed unregister. */
    const editorBuild: bool

    ghost function State(): Bus
      reads this
    {
      Bus(observers, active, queue, processing, dispatched, processed, delivered)
    }

    ghost predicate Valid()
      reads this
    {
      EventManagerProperties.Inv(State())
    }

    /** The field initialisers; the static guard is claimed by `Create`. */
    constructor Init(react: (Observer, GameEvent) -> seq<Action>, editorBuild: bool)
      ensures State() == Initial() && Valid()
      ensures this.react == react && this.editorBuild == editorBuild
    {
      observers, active, queue, processing := [], [], [], false;
      dispatched, processed, delivered := [], [], [];
      this.react, this.editorBuild := react, editorBuild;
      new;
      EventManagerProperties.InitialInv();
    }

    /**
     * `new EventManager()`: the base constructor throws (here: answers null)
     * once an event manager of any kind has been built, the flag being static.
     */
    static method Create(guard: InstanceGuard, react: (Observer, GameEvent) -> seq<Action>, editorBuild: bool)
      returns (em: EventManager?)
      modifies guard
      ensures em != null <==> !old(guard.isInstantiated)
      ensures guard.isInstantiated
      ensures em != null ==> fresh(em) && em.State() == Initial() && em.Valid() && em.react == react
    {
      var ok := guard.Claim();
      if !ok {
        return null;
      }
      em := new EventManager.Init(react, editorBuild);
    }

    /** `Register`: the null-purging `while` loop, then the duplicate test. */
    method Register(who: Option<Observer>) returns (outcome: Outcome)
      requires Valid()
      modifies this
      ensures Run(State(), outcome) == RegisterOn(old(State()), who)
      ensures Valid()
    {
      EventManagerProperties.RegisterInv(State(), who);
      while None in observers
        invariant WithoutNulls(observers) == WithoutNulls(old(observers))
        invariant State() == old(State()).(observers := observers)
        decreases |observers|
      {
        var k := IndexOf(observers, None);
        RemoveNullAt(observers, k);
        observers := observers[..k] + observers[k + 1..];
      }
      EventManagerProperties.WithoutNullsOfNonNull(observers);
      if who !in observers {
        observers := observers + [who];
        outcome := if who.None? then Threw else Done;
      } else {
        outcome := Done;
      }
    }

    /** `Unregister`: remove from the list, then null out the snapshot entry while processing. */
    method Unregister(who: Option<Observer>) returns (outcome: Outcome)
      requires Valid()
      modifies this
      ensures Run(State(), outcome) == UnregisterOn(old(State()), who, editorBuild)
      ensures Valid()
    {
      EventManagerProperties.UnregisterInv(State(), who, editorBuild);
      if who in observers {
        var k := IndexOf(observers, who);
        observers := observers[..k] + observers[k + 1..];
        if who.None? {
          return Threw;
        }
      } else if editorBuild && who.None? {
        return Threw;
      }
      if processing && who in active {
        var k := IndexOf(active, who);
        active := active[k := None];
      }
      outcome := Done;
    }

    /** `_gameEvents.Enqueue`: all a `Dispatch` does while an event is being processed. */
    method Enqueue(event: GameEvent)
      requires Valid()
      modifies this
      ensures State() == EventManagerSpec.Enqueue(old(State()), event)
      ensures Valid()
    {
      queue := queue + [event];
      dispatched := dispatched + [event];
    }

    /** One call an observer makes back into the manager from `OnNotify`. */
    method ApplyAction(a: Action) returns (outcome: Outcome)
      requires processing && Valid()
      modifies this
      ensures Run(State(), outcome) == Apply(old(State()), a, editorBuild)
      ensures Valid()
    {
      match a
      case Register(who) => outcome := Register(who);
      case Unregister(who) => outcome := Unregister(who);
      case Dispatch(event) =>
        Enqueue(event);
        outcome := Done;
    }

    /** `_activeObservers[i].OnNotify(...)`: the notification and the calls back it makes. */
    method Notify(who: Observer, event: GameEvent) returns (outcome: Outcome)
      requires processing && Valid()
      modifies this
      ensures Run(State(), outcome)
           == ApplyAll(old(State()).(delivered := old(delivered) + [Delivery(who, event)]), react(who, event), editorBuild)
      ensures Valid()
    {
      delivered := delivered + [Delivery(who, event)];
      var acts := react(who, event);
      ghost var st := State();
      var j := 0;
      while j < |acts|
        invariant 0 <= j <= |acts| && processing && Valid()
        invariant ApplyAll(st, acts, editorBuild) == ApplyAll(State(), acts[j..], editorBuild)
      {
        assert acts[j..][1..] == acts[j + 1..];
        outcome := ApplyAction(acts[j]);
        if outcome == Threw {
          return;
        }
        j := j + 1;
      }
      outcome := Done;
    }

    /** The `for` loop of `DispatchNextEvent`, skipping snapshot entries nulled by `Unregister`. */
    method NotifyObservers(event: GameEvent) returns (outcome: Outcome)
      requires processing && Valid()
      modifies this
      ensures Run(State(), outcome) == NotifyFrom(old(State()), event, 0, react, editorBuild)
      ensures Valid()
    {
      ghost var st := State();
      var i := 0;
      while i < |active|
        invariant 0 <= i <= |active| && processing && Valid()
        invariant NotifyFrom(st, event, 0, react, editorBuild) == NotifyFrom(State(), event, i, react, editorBuild)
        decreases |active| - i
      {
        if active[i].Some? {
          outcome := Notify(active[i].value, event);
          if outcome == Threw {
            return;
          }
        }
        i := i + 1;
      }
      outcome := Done;
    }

    /** One `DispatchNextEvent`: snapshot, dequeue, log (which throws on a null event), notify, clear. */
    method DispatchNextEvent() returns (outcome: Outcome)
      requires queue != [] && Valid()
      modifies this
      ensures Run(State(), outcome) == ProcessNext(old(State()), react, editorBuild)
      ensures Valid()
    {
      var event := queue[0];
      assert queue == [event] + queue[1..];
      processing := true;
      active := observers;
      queue := queue[1..];
      processed := processed + [event];
      if event.id.None? {
        return Threw;
      }
      outcome := NotifyObservers(event);
      if outcome == Threw {
        return;
      }
      active := [];
      processing := false;
    }

    /**
     * `Dispatch`: queue the event and, unless one is being processed, run
     * `DispatchNextEvent` until the queue is empty (its tail call becomes the
     * loop); at most `fuel` events are processed.
     */
    method Dispatch(event: GameEvent, fuel: nat) returns (outcome: Outcome)
      requires Valid()
      modifies this
      ensures Run(State(), outcome) == DispatchOn(old(State()), event, react, editorBuild, fuel)
      ensures Valid()
    {
      Enqueue(event);
      if processing {
        return Done;
      }
      ghost var st := State();
      var f := fuel;
      while true
        invariant !processing && Valid()
        invariant Drain(st, react, editorBuild, fuel) == Drain(State(), react, editorBuild, f)
        decreases f
      {
        if queue == [] {
          return Done;
        }
        if f == 0 {
          return OutOfFuel;
        }
        outcome := DispatchNextEvent();
        if outcome == Threw {
          return;
        }
        f := f - 1;
      }
    }
  }

  /** Removing one null entry does not change the purged list. */
  lemma {:induction false} RemoveNullAt(s: seq<Option<Observer>>, k: nat)
    requires k < |s| && s[k].None?
    ensures WithoutNulls(s[..k] + s[k + 1..]) == WithoutNulls(s)
    decreases k
  {
    var t := s[..k] + s[k + 1..];
    if k == 0 {
      assert t == s[1..];
    } else {
      RemoveNullAt(s[1..], k - 1);
      assert t[1..] == s[1..][..k - 1] + s[1..][k..];
      assert t[0] == s[0];
    }
  }
}
