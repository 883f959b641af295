/** Per-source operation counters, kept by guards that count every operation's end exactly once. */
module Metrics {
  datatype Operation = Search | Fetch | Follow

  datatype Key = Key(source: string, operation: Operation)

  datatype Counters = Counters(requests: nat, successes: nat, failures: nat, rateLimits: nat, cancelled: nat)

  datatype Ending = Success | Failure(rateLimited: bool) | Cancelled

  const ZERO := Counters(0, 0, 0, 0, 0)

  function Ended(c: Counters, e: Ending): Counters {
    match e
    case Success => c.(successes := c.successes + 1)
    case Cancelled => c.(cancelled := c.cancelled + 1)
    case Failure(limited) => c.(failures := c.failures + 1, rateLimits := c.rateLimits + (if limited then 1 else 0))
  }

  /** One counter more for the way an operation ended, and nothing else. */
  ghost predicate CountsEnding(was: Counters, c: Counters, e: Ending) {
    && c.requests == was.requests
    && c.successes == was.successes + (if e == Success then 1 else 0)
    && c.cancelled == was.cancelled + (if e == Cancelled then 1 else 0)
    && c.failures == was.failures + (if e == Failure(true) || e == Failure(false) then 1 else 0)
    && c.rateLimits == was.rateLimits + (if e == Failure(true) then 1 else 0)
  }

  /** Only the counters of one key move, and only if the key is known. */
  ghost predicate MovesOnly(before: map<Key, Counters>, after: map<Key, Counters>, key: Key) {
    after.Keys == before.Keys && forall k | k in before && k != key :: after[k] == before[k]
  }

  /** Metrics are kept for the sources they were created with; others are ignored. */
  function Counted(counters: map<Key, Counters>, key: Key, ending: Ending): map<Key, Counters> {
    if key in counters then counters[key := Ended(counters[key], ending)] else counters
  }

  function Requested(counters: map<Key, Counters>, key: Key): map<Key, Counters> {
    if key in counters then counters[key := counters[key].(requests := counters[key].requests + 1)] else counters
  }

  class OperationGuard {
    const key: Key
    var completed: bool

    constructor (key: Key)
      ensures this.key == key && !completed
    {
      this.key := key;
      completed := false;
    }
  }

  ghost function HeldFor(open: set<OperationGuard>, key: Key): set<OperationGuard> {
    set g | g in open && g.key == key
  }

  lemma HeldAfterStart(open: set<OperationGuard>, guard: OperationGuard)
    requires guard !in open
    ensures |HeldFor(open + {guard}, guard.key)| == |HeldFor(open, guard.key)| + 1
    ensures forall k :: k != guard.key ==> HeldFor(open + {guard}, k) == HeldFor(open, k)
  {
    assert HeldFor(open + {guard}, guard.key) == HeldFor(open, guard.key) + {guard};
  }

  lemma HeldAfterDrop(open: set<OperationGuard>, guard: OperationGuard)
    requires guard in open
    ensures |HeldFor(open - {guard}, guard.key)| == |HeldFor(open, guard.key)| - 1
    ensures forall k :: k != guard.key ==> HeldFor(open - {guard}, k) == HeldFor(open, k)
  {
    assert guard in HeldFor(open, guard.key);
    assert HeldFor(open - {guard}, guard.key) == HeldFor(open, guard.key) - {guard};
  }

  class EngineMetrics {
    var counters: map<Key, Counters>
    /** Guards handed out and not dropped yet. */
    ghost var open: set<OperationGuard>

    /** Every request of a registered source has ended in one way, or its guard is still held. */
    ghost predicate Valid()
      reads this, open
    {
      && (forall g :: g in open ==> !g.completed)
      && (forall key :: key in counters ==>
            var c := counters[key];
            && c.requests == c.successes + c.failures + c.cancelled + |HeldFor(open, key)|
            && c.rateLimits <= c.failures)
    }

    constructor (sources: seq<string>)
      ensures Valid() && open == {}
      ensures forall s, o :: s in sources <==> Key(s, o) in counters
      ensures forall key :: key in counters ==> counters[key] == ZERO
    {
      counters := map s, o | s in sources && o in {Search, Fetch, Follow} :: Key(s, o) := ZERO;
      open := {};
      new;
      forall s, o
        ensures s in sources <==> Key(s, o) in counters
      {
        match o
        case Search =>
        case Fetch =>
        case Follow =>
      }
      assert forall key :: key in counters ==> HeldFor(open, key) == {};
    }

    method Start(key: Key) returns (guard: OperationGuard)
      requires Valid()
      modifies this
      ensures Valid() && fresh(guard) && guard.key == key && open == old(open) + {guard}
      ensures counters == Requested(old(counters), key)
      ensures MovesOnly(old(counters), counters, key)
      ensures key in old(counters) ==>
                counters[key] == old(counters)[key].(requests := old(counters)[key].requests + 1)
    {
      hide HeldFor;
      if key in counters {
        counters := counters[key := counters[key].(requests := counters[key].requests + 1)];
      }
      guard := new OperationGuard(key);
      open := open + {guard};
      HeldAfterStart(old(open), guard);
    }

    method Terminal(key: Key, ending: Ending)
      modifies this`counters
      ensures counters == Counted(old(counters), key, ending)
    {
      if key in counters {
        counters := counters[key := Ended(counters[key], ending)];
      }
    }

    /** Dropping a guard counts a cancellation unless the guard was completed before. */
    method Drop(guard: OperationGuard)
      requires guard in open
      modifies this
      ensures open == old(open) - {guard}
      ensures counters == if guard.completed then old(counters) else Counted(old(counters), guard.key, Cancelled)
    {
      if !guard.completed {
        Terminal(guard.key, Cancelled);
      }
      open := open - {guard};
    }

    /** Ends an operation: marks the guard, counts the ending, and drops the guard. */
    method End(guard: OperationGuard, ending: Ending)
      requires Valid() && guard in open
      modifies this, guard
      ensures Valid() && open == old(open) - {guard}
      ensures counters == Counted(old(counters), guard.key, ending)
      ensures MovesOnly(old(counters), counters, guard.key)
      ensures guard.key in old(counters) ==> CountsEnding(old(counters)[guard.key], counters[guard.key], ending)
    {
      hide HeldFor;
      guard.completed := true;
      Terminal(guard.key, ending);
      Drop(guard);
      HeldAfterDrop(old(open), guard);
    }

    /** A guard that goes out of scope, as when its task is cancelled. */
    method Abandon(guard: OperationGuard)
      requires Valid() && guard in open
      modifies this
      ensures Valid() && open == old(open) - {guard}
      ensures counters == Counted(old(counters), guard.key, Cancelled)
      ensures MovesOnly(old(counters), counters, guard.key)
      ensures guard.key in old(counters) ==> CountsEnding(old(counters)[guard.key], counters[guard.key], Cancelled)
    {
      hide HeldFor;
      Drop(guard);
      HeldAfterDrop(old(open), guard);
    }
  }
}
