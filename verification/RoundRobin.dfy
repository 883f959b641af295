/**
 * The reference merge: a bounded number of running sources served round-robin from a cursor,
 * each source given by the list of events it has left. No queues, no workers, no schedule.
 */
module RoundRobin {
  import opened Wrappers
  import opened Records
  import opened Dedupe

  datatype Diagnostic = Diagnostic(source: string, kind: string, message: string, retryAfter: Option<nat>)

  datatype WorkerEvent = Found(source: string, record: Record) | Failed(diagnostic: Diagnostic)

  datatype EngineEvent = Emitted(record: Record) | SourceFailed(diagnostic: Diagnostic)

  /** A source and the events it has not handed over yet. */
  datatype Task = Task(id: string, events: seq<WorkerEvent>)

  datatype Round = Round(pending: seq<Task>, running: seq<Task>, cursor: nat)

  predicate RoundOk(r: Round) { r.cursor == 0 || r.cursor < |r.running| }

  predicate Done(r: Round) { r.pending == [] && r.running == [] }

  function Size(tasks: seq<Task>): nat {
    if tasks == [] then 0 else 1 + |tasks[0].events| + Size(tasks[1..])
  }

  function RoundSize(r: Round): nat { Size(r.pending) + Size(r.running) }

  lemma {:induction false} SizeConcat(a: seq<Task>, b: seq<Task>)
    ensures Size(a + b) == Size(a) + Size(b)
  {
    if a == [] {
      assert a + b == b;
    } else {
      assert (a + b)[1..] == a[1..] + b;
      SizeConcat(a[1..], b);
    }
  }

  lemma SizeAround(tasks: seq<Task>, c: nat)
    requires c < |tasks|
    ensures Size(tasks) == Size(tasks[..c]) + 1 + |tasks[c].events| + Size(tasks[c + 1..])
  {
    assert tasks == tasks[..c] + ([tasks[c]] + tasks[c + 1..]);
    SizeConcat(tasks[..c], [tasks[c]] + tasks[c + 1..]);
    SizeConcat([tasks[c]], tasks[c + 1..]);
  }

  function Room(r: Round, maxActive: nat): nat {
    var free := if |r.running| < maxActive then maxActive - |r.running| else 0;
    if free < |r.pending| then free else |r.pending|
  }

  /** Starts pending sources while there is room. */
  function Refill(r: Round, maxActive: nat): (u: Round)
    requires RoundOk(r)
    ensures RoundOk(u) && RoundSize(u) == RoundSize(r)
    ensures maxActive > 0 && !Done(r) ==> u.running != []
    ensures u.pending == [] || |u.running| >= maxActive
  {
    var k := Room(r, maxActive);
    assert r.pending == r.pending[..k] + r.pending[k..];
    SizeConcat(r.pending[..k], r.pending[k..]);
    SizeConcat(r.running, r.pending[..k]);
    Round(r.pending[k..], r.running + r.pending[..k], r.cursor)
  }

  /** Serves the source at the cursor of a nonempty round: hands over one event, or removes the source. */
  function Serve(r: Round): (s: (Option<WorkerEvent>, Round))
    requires RoundOk(r) && r.running != []
    ensures RoundOk(s.1) && RoundSize(s.1) < RoundSize(r)
  {
    var c := r.cursor;
    var n := |r.running|;
    SizeAround(r.running, c);
    if r.running[c].events == [] then
      var rest := r.running[..c] + r.running[c + 1..];
      SizeConcat(r.running[..c], r.running[c + 1..]);
      (None, Round(r.pending, rest, if c >= |rest| then 0 else c))
    else
      var task := Task(r.running[c].id, r.running[c].events[1..]);
      var next := r.running[c := task];
      SizeAround(next, c);
      assert next[..c] == r.running[..c] && next[c + 1..] == r.running[c + 1..];
      (Some(r.running[c].events[0]), Round(r.pending, next, if c + 1 == n then 0 else c + 1))
  }

  /** One turn: refill, then serve. */
  function Turn(r: Round, maxActive: nat): (s: (Option<WorkerEvent>, Round))
    requires RoundOk(r) && !Done(r) && maxActive > 0
    ensures RoundOk(s.1) && RoundSize(s.1) < RoundSize(r)
  {
    Serve(Refill(r, maxActive))
  }

  function Listed(e: Option<WorkerEvent>): seq<WorkerEvent> {
    if e.Some? then [e.value] else []
  }

  /** The order in which events are taken. */
  function Order(r: Round, maxActive: nat): seq<WorkerEvent>
    requires RoundOk(r) && maxActive > 0
    decreases RoundSize(r)
  {
    if Done(r) then [] else
    var s := Turn(r, maxActive);
    Listed(s.0) + Order(s.1, maxActive)
  }

  lemma RefillTwice(r: Round, maxActive: nat)
    requires RoundOk(r)
    ensures Refill(Refill(r, maxActive), maxActive) == Refill(r, maxActive)
  {
    var u := Refill(r, maxActive);
    assert Room(u, maxActive) == 0;
    assert u.pending[0..] == u.pending && u.pending[..0] == [];
    assert u.running + [] == u.running;
  }

  /** Starting sources early changes nothing. */
  lemma RefillKeepsOrder(r: Round, maxActive: nat)
    requires RoundOk(r) && maxActive > 0
    ensures Order(Refill(r, maxActive), maxActive) == Order(r, maxActive)
  {
    RefillTwice(r, maxActive);
    if Done(r) {
      assert Refill(r, maxActive) == r;
    }
  }

  // ------------------------------------------------------------- emission

  /** Drops duplicates; in strict mode stops right after the first failure. */
  function Emit(seen: set<string>, strict: bool, events: seq<WorkerEvent>): seq<EngineEvent>
    decreases |events|
  {
    if events == [] then []
    else match events[0]
      case Found(_, record) =>
        if KeySet(record) !! seen then [Emitted(record)] + Emit(seen + KeySet(record), strict, events[1..])
        else Emit(seen, strict, events[1..])
      case Failed(d) =>
        [SourceFailed(d)] + (if strict then [] else Emit(seen, strict, events[1..]))
  }

  function CutAfterFailure(events: seq<EngineEvent>): seq<EngineEvent>
    decreases |events|
  {
    if events == [] then []
    else if events[0].SourceFailed? then [events[0]]
    else [events[0]] + CutAfterFailure(events[1..])
  }

  /** Strict output is the lenient output cut right after its first failure. */
  lemma {:induction false} StrictCutsLenient(seen: set<string>, events: seq<WorkerEvent>)
    ensures Emit(seen, true, events) == CutAfterFailure(Emit(seen, false, events))
    decreases |events|
  {
    if events != [] {
      match events[0]
      case Found(_, record) =>
        StrictCutsLenient(seen + KeySet(record), events[1..]);
        StrictCutsLenient(seen, events[1..]);
        if KeySet(record) !! seen {
          var rest := Emit(seen + KeySet(record), false, events[1..]);
          assert ([Emitted(record)] + rest)[1..] == rest;
        }
      case Failed(d) =>
    }
  }

  function RecordsOf(events: seq<WorkerEvent>): seq<Record> {
    if events == [] then []
    else (if events[0].Found? then [events[0].record] else []) + RecordsOf(events[1..])
  }

  function EmittedRecords(events: seq<EngineEvent>): seq<Record> {
    if events == [] then []
    else (if events[0].Emitted? then [events[0].record] else []) + EmittedRecords(events[1..])
  }

  /** The records a lenient search emits are the greedy deduplication of all records in merge order. */
  lemma {:induction false} EmissionIsGreedy(seen: set<string>, events: seq<WorkerEvent>)
    ensures EmittedRecords(Emit(seen, false, events)) == Kept(seen, RecordsOf(events))
    decreases |events|
  {
    if events != [] {
      var rest := events[1..];
      match events[0]
      case Found(_, record) =>
        assert RecordsOf(events) == [record] + RecordsOf(rest);
        if KeySet(record) !! seen {
          EmissionIsGreedy(seen + KeySet(record), rest);
          assert ([Emitted(record)] + Emit(seen + KeySet(record), false, rest))[1..] == Emit(seen + KeySet(record), false, rest);
        } else {
          EmissionIsGreedy(seen, rest);
        }
      case Failed(d) =>
        EmissionIsGreedy(seen, rest);
        assert RecordsOf(events) == RecordsOf(rest);
        assert ([SourceFailed(d)] + Emit(seen, false, rest))[1..] == Emit(seen, false, rest);
    }
  }

  // ------------------------------------------------------------- fairness

  /** The round after `n` turns, stopping when nothing is left. */
  function After(r: Round, maxActive: nat, n: nat): (u: Round)
    requires RoundOk(r) && maxActive > 0
    ensures RoundOk(u)
    decreases n
  {
    if n == 0 || Done(r) then r else After(Turn(r, maxActive).1, maxActive, n - 1)
  }

  /** The source that hands over an event in the first turn. */
  function ServedFrom(r: Round, maxActive: nat): Option<string>
    requires RoundOk(r) && maxActive > 0
  {
    if Done(r) then None else
    var u := Refill(r, maxActive);
    if u.running[u.cursor].events == [] then None else Some(u.running[u.cursor].id)
  }

  function TakenFrom(r: Round, maxActive: nat, n: nat, id: string): nat
    requires RoundOk(r) && maxActive > 0
    decreases n
  {
    if n == 0 || Done(r) then 0
    else (if ServedFrom(r, maxActive) == Some(id) then 1 else 0) + TakenFrom(Turn(r, maxActive).1, maxActive, n - 1, id)
  }

  ghost predicate DistinctIds(r: Round) {
    var all := r.running + r.pending;
    forall i, j :: 0 <= i < j < |all| ==> all[i].id != all[j].id
  }

  predicate RunsAt(r: Round, id: string, p: nat) { p < |r.running| && r.running[p].id == id }

  predicate Runs(r: Round, id: string) { exists p | 0 <= p < |r.running| :: RunsAt(r, id, p) }

  /** Both sources run whenever one of the next `n` turns serves. */
  predicate BothRun(r: Round, maxActive: nat, n: nat, a: string, b: string)
    requires RoundOk(r) && maxActive > 0
    decreases n
  {
    n == 0 || Done(r) || (
      && Runs(Refill(r, maxActive), a) && Runs(Refill(r, maxActive), b)
      && BothRun(Turn(r, maxActive).1, maxActive, n - 1, a, b))
  }

  /** Whether the cursor has passed the source at `p` but not yet the one at `q`. */
  function Lead(r: Round, p: nat, q: nat): int {
    if p < r.cursor <= q then 1 else 0
  }

  /** Where a source that keeps running stands after a turn. */
  function Moved(u: Round, p: nat): nat
    requires RoundOk(u) && u.running != []
  {
    if u.running[u.cursor].events == [] && u.cursor < p then p - 1 else p
  }

  lemma RefillPrefix(r: Round, maxActive: nat)
    requires RoundOk(r)
    ensures var u := Refill(r, maxActive);
            u.cursor == r.cursor && r.running <= u.running && u.running + u.pending == r.running + r.pending
  {
    var k := Room(r, maxActive);
    assert r.pending == r.pending[..k] + r.pending[k..];
  }

  /** The sources of a round after a service: all, or all but the one removed. */
  lemma ServeLeft(u: Round)
    requires RoundOk(u) && u.running != []
    ensures var v := Serve(u).1;
            var before := u.running + u.pending;
            var after := v.running + v.pending;
            && v.pending == u.pending
            && (if u.running[u.cursor].events == [] then
                  && |v.running| == |u.running| - 1
                  && forall i :: 0 <= i < |after| ==> after[i] == before[if i < u.cursor then i else i + 1]
                else
                  && |v.running| == |u.running|
                  && forall i :: 0 <= i < |after| ==> after[i].id == before[i].id)
  {
    hide Size, RoundSize;
  }

  lemma TurnKeepsDistinct(r: Round, maxActive: nat)
    requires RoundOk(r) && !Done(r) && maxActive > 0 && DistinctIds(r)
    ensures DistinctIds(Turn(r, maxActive).1)
  {
    hide Size, RoundSize, Refill, Serve;
    var u := Refill(r, maxActive);
    var v := Serve(u).1;
    RefillPrefix(r, maxActive);
    ServeLeft(u);
    var all := u.running + u.pending;
    var left := v.running + v.pending;
    assert forall i, j :: 0 <= i < j < |all| ==> all[i].id != all[j].id;
    assert |left| <= |all|;
  }

  /** A source that runs in two consecutive services stood still or moved up, and was not removed. */
  lemma StaysAt(r: Round, maxActive: nat, id: string, p: nat)
    requires RoundOk(r) && !Done(r) && maxActive > 0 && DistinctIds(r)
    requires var u := Refill(r, maxActive); RunsAt(u, id, p) && Runs(Refill(Serve(u).1, maxActive), id)
    ensures var u := Refill(r, maxActive);
            && !(u.running[u.cursor].events == [] && u.cursor == p)
            && RunsAt(Refill(Serve(u).1, maxActive), id, Moved(u, p))
  {
    hide Size, RoundSize, Refill, Serve;
    var u := Refill(r, maxActive);
    var v := Serve(u).1;
    var w := Refill(v, maxActive);
    RefillPrefix(r, maxActive);
    RefillPrefix(v, maxActive);
    ServeLeft(u);
    var before := u.running + u.pending;
    var after := v.running + v.pending;
    assert forall i, j :: 0 <= i < j < |before| ==> before[i].id != before[j].id;
    var q :| 0 <= q < |w.running| && RunsAt(w, id, q);
    assert after[q] == (w.running + w.pending)[q];
    assert before[p].id == id;
    var c := u.cursor;
    if u.running[c].events == [] {
      var x := if q < c then q else q + 1;
      assert before[x].id == id;
      assert x == p;
    }
    var m := Moved(u, p);
    assert m < |v.running| && w.running[m] == v.running[m] == after[m];
  }

  lemma CursorMoves(u: Round)
    requires RoundOk(u) && u.running != []
    ensures var c := Serve(u).1.cursor;
            if u.running[u.cursor].events == [] then c == u.cursor || (c == 0 && u.cursor == |u.running| - 1)
            else c == if u.cursor + 1 == |u.running| then 0 else u.cursor + 1
  {
  }

  lemma ServedAt(r: Round, maxActive: nat, id: string, p: nat)
    requires RoundOk(r) && !Done(r) && maxActive > 0 && DistinctIds(r)
    requires RunsAt(Refill(r, maxActive), id, p)
    ensures var u := Refill(r, maxActive);
            ServedFrom(r, maxActive) == Some(id) <==> u.cursor == p && u.running[u.cursor].events != []
  {
    hide Size, RoundSize;
    var u := Refill(r, maxActive);
    RefillPrefix(r, maxActive);
    var all := u.running + u.pending;
    assert forall i, j :: 0 <= i < j < |all| ==> all[i].id != all[j].id;
    assert all[p] == u.running[p] && all[u.cursor] == u.running[u.cursor];
  }

  function One(b: bool): int { if b then 1 else 0 }

  /** One turn changes the difference of two counts by exactly the change of the lead. */
  lemma TurnIsFair(r: Round, maxActive: nat, a: string, b: string, p: nat, q: nat)
    requires RoundOk(r) && !Done(r) && maxActive > 0 && DistinctIds(r)
    requires p < q && RunsAt(Refill(r, maxActive), a, p) && RunsAt(Refill(r, maxActive), b, q)
    requires var w := Refill(Turn(r, maxActive).1, maxActive); Runs(w, a) && Runs(w, b)
    ensures var u := Refill(r, maxActive);
            var w := Refill(Serve(u).1, maxActive);
            && Moved(u, p) < Moved(u, q) && RunsAt(w, a, Moved(u, p)) && RunsAt(w, b, Moved(u, q))
            && One(ServedFrom(r, maxActive) == Some(a)) - One(ServedFrom(r, maxActive) == Some(b))
               == Lead(w, Moved(u, p), Moved(u, q)) - Lead(u, p, q)
  {
    hide Size, RoundSize, Refill, Serve, ServedFrom, DistinctIds;
    var u := Refill(r, maxActive);
    StaysAt(r, maxActive, a, p);
    StaysAt(r, maxActive, b, q);
    ServedAt(r, maxActive, a, p);
    ServedAt(r, maxActive, b, q);
    CursorMoves(u);
    RefillPrefix(Serve(u).1, maxActive);
  }

  lemma {:induction false} BothRunSwaps(r: Round, maxActive: nat, n: nat, a: string, b: string)
    requires RoundOk(r) && maxActive > 0 && BothRun(r, maxActive, n, a, b)
    ensures BothRun(r, maxActive, n, b, a)
    decreases n
  {
    if n > 0 && !Done(r) {
      BothRunSwaps(Turn(r, maxActive).1, maxActive, n - 1, a, b);
    }
  }

  lemma {:induction false} LeadAccounts(r: Round, maxActive: nat, n: nat, a: string, b: string, p: nat, q: nat)
    requires RoundOk(r) && maxActive > 0 && DistinctIds(r) && n > 0 && !Done(r)
    requires p < q && RunsAt(Refill(r, maxActive), a, p) && RunsAt(Refill(r, maxActive), b, q)
    requires BothRun(r, maxActive, n, a, b)
    ensures 0 <= TakenFrom(r, maxActive, n, a) - TakenFrom(r, maxActive, n, b) + Lead(Refill(r, maxActive), p, q) <= 1
    decreases n
  {
    hide Size, RoundSize, Refill, Serve, ServedFrom, DistinctIds, Runs;
    var u := Refill(r, maxActive);
    var v := Turn(r, maxActive).1;
    ServedAt(r, maxActive, a, p);
    ServedAt(r, maxActive, b, q);
    if n > 1 && !Done(v) {
      TurnIsFair(r, maxActive, a, b, p, q);
      TurnKeepsDistinct(r, maxActive);
      LeadAccounts(v, maxActive, n - 1, a, b, Moved(u, p), Moved(u, q));
    } else {
      assert TakenFrom(v, maxActive, n - 1, a) == 0 && TakenFrom(v, maxActive, n - 1, b) == 0;
    }
  }

  /** Over any stretch in which two sources both run, the events taken from them differ in number by at most one. */
  lemma RoundRobinIsFair(r: Round, maxActive: nat, n: nat, a: string, b: string)
    requires RoundOk(r) && maxActive > 0 && DistinctIds(r)
    requires a != b && BothRun(r, maxActive, n, a, b)
    ensures -1 <= TakenFrom(r, maxActive, n, a) - TakenFrom(r, maxActive, n, b) <= 1
  {
    if n > 0 && !Done(r) {
      var u := Refill(r, maxActive);
      var p :| 0 <= p < |u.running| && RunsAt(u, a, p);
      var q :| 0 <= q < |u.running| && RunsAt(u, b, q);
      if p < q {
        LeadAccounts(r, maxActive, n, a, b, p, q);
      } else {
        BothRunSwaps(r, maxActive, n, a, b);
        LeadAccounts(r, maxActive, n, b, a, q, p);
      }
    }
  }

  // ------------------------------------------------------------------ logs

  function Ids(tasks: seq<Task>): (ids: seq<string>)
    ensures |ids| == |tasks|
  {
    seq(|tasks|, i requires 0 <= i < |tasks| => tasks[i].id)
  }

  /**
   * What one turn did: the place it served, the source and the event it took, if there was one, and
   * the sources running as it served.
   */
  datatype Service = Service(at: nat, taken: Option<string>, event: Option<WorkerEvent>, running: seq<string>)

  function ServiceOf(r: Round, maxActive: nat): Service
    requires RoundOk(r) && !Done(r) && maxActive > 0
  {
    var u := Refill(r, maxActive);
    Service(u.cursor, ServedFrom(r, maxActive), Serve(u).0, Ids(u.running))
  }

  /** The log of the first `n` turns, shorter if nothing is left before. */
  function Services(r: Round, maxActive: nat, n: nat): (log: seq<Service>)
    requires RoundOk(r) && maxActive > 0
    ensures |log| <= n
    decreases n
  {
    if n == 0 || Done(r) then [] else [ServiceOf(r, maxActive)] + Services(Turn(r, maxActive).1, maxActive, n - 1)
  }

  function Count(log: seq<Service>, id: string): nat {
    if log == [] then 0 else (if log[0].taken == Some(id) then 1 else 0) + Count(log[1..], id)
  }

  lemma {:induction false} CountIsTaken(r: Round, maxActive: nat, n: nat, id: string)
    requires RoundOk(r) && maxActive > 0
    ensures Count(Services(r, maxActive, n), id) == TakenFrom(r, maxActive, n, id)
    decreases n
  {
    if n > 0 && !Done(r) {
      hide Refill, Serve, Turn;
      var v := Turn(r, maxActive).1;
      CountIsTaken(v, maxActive, n - 1, id);
      assert Services(r, maxActive, n)[1..] == Services(v, maxActive, n - 1);
    }
  }

  lemma {:induction false} ServicesSlice(r: Round, maxActive: nat, n: nat, i: nat, j: nat)
    requires RoundOk(r) && maxActive > 0 && i <= j <= |Services(r, maxActive, n)|
    ensures Services(r, maxActive, n)[i..j] == Services(After(r, maxActive, i), maxActive, j - i)
    decreases n
  {
    hide Refill, Serve, Turn, ServiceOf;
    if n > 0 && !Done(r) && j > 0 {
      var v := Turn(r, maxActive).1;
      var rest := Services(v, maxActive, n - 1);
      assert Services(r, maxActive, n) == [ServiceOf(r, maxActive)] + rest;
      if i > 0 {
        ServicesSlice(v, maxActive, n - 1, i - 1, j - 1);
        assert Services(r, maxActive, n)[i..j] == rest[i - 1..j - 1];
      } else {
        ServicesSlice(v, maxActive, n - 1, 0, j - 1);
        assert Services(r, maxActive, n)[0..j] == [ServiceOf(r, maxActive)] + rest[0..j - 1];
      }
    }
  }

  /** One more turn appends one more service. */
  lemma {:induction false} ServicesSnoc(r: Round, maxActive: nat, n: nat)
    requires RoundOk(r) && maxActive > 0 && |Services(r, maxActive, n)| == n && !Done(After(r, maxActive, n))
    ensures Services(r, maxActive, n + 1) == Services(r, maxActive, n) + [ServiceOf(After(r, maxActive, n), maxActive)]
    ensures After(r, maxActive, n + 1) == Turn(After(r, maxActive, n), maxActive).1
    decreases n
  {
    hide Refill, Serve, Turn, ServiceOf;
    if n > 0 {
      ServicesSnoc(Turn(r, maxActive).1, maxActive, n - 1);
    } else {
      assert Services(Turn(r, maxActive).1, maxActive, 0) == [];
    }
  }

  lemma {:induction false} LoggedBothRun(r: Round, maxActive: nat, n: nat, a: string, b: string)
    requires RoundOk(r) && maxActive > 0
    requires forall s | s in Services(r, maxActive, n) :: a in s.running && b in s.running
    ensures BothRun(r, maxActive, n, a, b)
    decreases n
  {
    hide Refill, Serve, Turn, ServedFrom, Runs, Size, RoundSize;
    if n > 0 && !Done(r) {
      var rest := Services(Turn(r, maxActive).1, maxActive, n - 1);
      var first := ServiceOf(r, maxActive);
      assert first in Services(r, maxActive, n) && forall s | s in rest :: s in Services(r, maxActive, n);
      LoggedBothRun(Turn(r, maxActive).1, maxActive, n - 1, a, b);
      RunsIfListed(Refill(r, maxActive), a);
      RunsIfListed(Refill(r, maxActive), b);
    }
  }

  lemma RunsIfListed(u: Round, id: string)
    requires id in Ids(u.running)
    ensures Runs(u, id)
  {
    var p :| 0 <= p < |u.running| && Ids(u.running)[p] == id;
    assert RunsAt(u, id, p);
  }

  predicate BothListed(log: seq<Service>, a: string, b: string) {
    forall s | s in log :: a in s.running && b in s.running
  }

  /** Over any stretch of the log in which two sources both run, the events taken from them differ in number by at most one. */
  ghost predicate Fair(log: seq<Service>) {
    forall i, j, a, b | 0 <= i <= j <= |log| && a != b && BothListed(log[i..j], a, b) ::
      -1 <= Count(log[i..j], a) - Count(log[i..j], b) <= 1
  }

  lemma {:induction false} AfterKeepsDistinct(r: Round, maxActive: nat, n: nat)
    requires RoundOk(r) && maxActive > 0 && DistinctIds(r)
    ensures DistinctIds(After(r, maxActive, n))
    decreases n
  {
    hide Refill, Serve, Turn, DistinctIds;
    if n > 0 && !Done(r) {
      TurnKeepsDistinct(r, maxActive);
      AfterKeepsDistinct(Turn(r, maxActive).1, maxActive, n - 1);
    }
  }

  lemma ServicesAreFair(r: Round, maxActive: nat, n: nat)
    requires RoundOk(r) && maxActive > 0 && DistinctIds(r)
    ensures Fair(Services(r, maxActive, n))
  {
    hide Refill, Serve, Turn, DistinctIds, Services, After;
    var log := Services(r, maxActive, n);
    forall i, j, a, b | 0 <= i <= j <= |log| && a != b && BothListed(log[i..j], a, b)
      ensures -1 <= Count(log[i..j], a) - Count(log[i..j], b) <= 1
    {
      var v := After(r, maxActive, i);
      ServicesSlice(r, maxActive, n, i, j);
      LoggedBothRun(v, maxActive, j - i, a, b);
      AfterKeepsDistinct(r, maxActive, i);
      RoundRobinIsFair(v, maxActive, j - i, a, b);
      CountIsTaken(v, maxActive, j - i, a);
      CountIsTaken(v, maxActive, j - i, b);
    }
  }

  lemma TurnIsBounded(r: Round, maxActive: nat)
    requires RoundOk(r) && maxActive > 0 && !Done(r) && |r.running| <= maxActive
    ensures |Refill(r, maxActive).running| <= maxActive && |Turn(r, maxActive).1.running| <= maxActive
  {
    hide Size, RoundSize, Serve;
    ServeLeft(Refill(r, maxActive));
  }

  lemma {:induction false} ServicesAreBounded(r: Round, maxActive: nat, n: nat)
    requires RoundOk(r) && maxActive > 0 && |r.running| <= maxActive
    ensures forall s :: s in Services(r, maxActive, n) ==> |s.running| <= maxActive
    decreases n
  {
    if n > 0 && !Done(r) {
      hide Refill, Serve, Turn, ServedFrom;
      TurnIsBounded(r, maxActive);
      ServicesAreBounded(Turn(r, maxActive).1, maxActive, n - 1);
    }
  }

  /** No more than `maxActive` sources ever run. */
  lemma {:induction false} ActiveIsBounded(r: Round, maxActive: nat, n: nat)
    requires RoundOk(r) && maxActive > 0 && |r.running| <= maxActive
    ensures |After(r, maxActive, n).running| <= maxActive
    decreases n
  {
    if n > 0 && !Done(r) {
      hide Refill, Serve, Turn;
      TurnIsBounded(r, maxActive);
      ActiveIsBounded(Turn(r, maxActive).1, maxActive, n - 1);
    }
  }
}
