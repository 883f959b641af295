/**
 * The merge told by its log alone. At each service the running sources are the first planned ones,
 * in the order of their ids, that have not ended; the place served moves on by one after an event and
 * stays after a removal; and the event is the next one of the source at that place.
 */
module MergeLog {
  import opened Wrappers
  import opened Ordering
  import opened RoundRobin

  /** How many services found their source at its end. */
  function Ends(log: seq<Service>): nat {
    if log == [] then 0 else Ends(log[..|log| - 1]) + (if log[|log| - 1].taken.None? then 1 else 0)
  }

  /** This source was served and had nothing left. */
  ghost predicate HasEnded(log: seq<Service>, id: string) {
    exists j | 0 <= j < |log| :: EndsAt(log, j, id)
  }

  ghost predicate EndsAt(log: seq<Service>, j: nat, id: string) {
    j < |log| && log[j].taken.None? && log[j].at < |log[j].running| && log[j].running[log[j].at] == id
  }

  /** Each end makes room for one more source. */
  function Begun(ids: seq<string>, maxActive: nat, log: seq<Service>): (n: nat)
    ensures n <= |ids|
  {
    if maxActive + Ends(log) < |ids| then maxActive + Ends(log) else |ids|
  }

  /** The place to serve next. */
  function NextPlace(log: seq<Service>): nat {
    if log == [] then 0 else
    var s := log[|log| - 1];
    if s.taken.Some? then (if s.at + 1 == |s.running| then 0 else s.at + 1)
    else (if s.at + 1 < |s.running| then s.at else 0)
  }

  ghost predicate ServiceLaw(
    ids: seq<string>, eventsOf: string -> seq<WorkerEvent>, maxActive: nat, before: seq<Service>, s: Service)
  {
    && Ascending(s.running)
    && (forall x :: x in s.running <==> x in ids[..Begun(ids, maxActive, before)] && !HasEnded(before, x))
    && s.at == NextPlace(before) && s.at < |s.running|
    && (var id := s.running[s.at];
        var k := Count(before, id);
        if k < |eventsOf(id)| then s.taken == Some(id) && s.event == Some(eventsOf(id)[k])
        else s.taken == None && s.event == None)
  }

  ghost predicate Lawful(ids: seq<string>, eventsOf: string -> seq<WorkerEvent>, maxActive: nat, log: seq<Service>) {
    forall k | 0 <= k < |log| :: ServiceLaw(ids, eventsOf, maxActive, log[..k], log[k])
  }

  lemma LawfulSnoc(ids: seq<string>, eventsOf: string -> seq<WorkerEvent>, maxActive: nat, log: seq<Service>, s: Service)
    requires Lawful(ids, eventsOf, maxActive, log) && ServiceLaw(ids, eventsOf, maxActive, log, s)
    ensures Lawful(ids, eventsOf, maxActive, log + [s])
  {
    hide ServiceLaw;
    var all := log + [s];
    forall k | 0 <= k < |all|
      ensures ServiceLaw(ids, eventsOf, maxActive, all[..k], all[k])
    {
      if k < |log| {
        assert all[..k] == log[..k] && all[k] == log[k];
      } else {
        assert all[..k] == log;
      }
    }
  }

  // ------------------------------------------------- the reference obeys the law

  ghost predicate Planned(tasks: seq<Task>, ids: seq<string>, eventsOf: string -> seq<WorkerEvent>) {
    |tasks| == |ids| && forall i | 0 <= i < |ids| :: tasks[i] == Task(ids[i], eventsOf(ids[i]))
  }

  /** Where the log leaves each running source. */
  ghost predicate Positioned(tasks: seq<Task>, eventsOf: string -> seq<WorkerEvent>, log: seq<Service>) {
    forall p | 0 <= p < |tasks| ::
      && Count(log, tasks[p].id) <= |eventsOf(tasks[p].id)|
      && tasks[p].events == eventsOf(tasks[p].id)[Count(log, tasks[p].id)..]
  }

  /** The refilled round that a log leads to. */
  ghost predicate Stands(
    ids: seq<string>, eventsOf: string -> seq<WorkerEvent>, maxActive: nat, log: seq<Service>, u: Round)
  {
    var n := Begun(ids, maxActive, log);
    && RoundOk(u) && |u.running| <= maxActive && (u.pending == [] || |u.running| == maxActive)
    && Planned(u.pending, ids[n..], eventsOf)
    && Ascending(Ids(u.running)) && (forall x :: x in Ids(u.running) <==> x in ids[..n] && !HasEnded(log, x))
    && Positioned(u.running, eventsOf, log)
    && (forall x :: HasEnded(log, x) ==> x in ids[..n])
    && (forall x :: x in ids[n..] ==> Count(log, x) == 0)
    && u.cursor == NextPlace(log)
  }

  lemma CountSnoc(log: seq<Service>, s: Service, id: string)
    ensures Count(log + [s], id) == Count(log, id) + (if s.taken == Some(id) then 1 else 0)
    decreases |log|
  {
    var all := log + [s];
    if log == [] {
      assert all[1..] == [];
    } else {
      assert all[0] == log[0] && all[1..] == log[1..] + [s];
      CountSnoc(log[1..], s, id);
    }
  }

  lemma EndsSnoc(log: seq<Service>, s: Service, id: string)
    ensures Ends(log + [s]) == Ends(log) + (if s.taken.None? then 1 else 0)
    ensures HasEnded(log + [s], id) <==>
            HasEnded(log, id) || (s.taken.None? && s.at < |s.running| && s.running[s.at] == id)
    ensures NextPlace(log + [s]) == if s.taken.Some? then (if s.at + 1 == |s.running| then 0 else s.at + 1)
                                    else (if s.at + 1 < |s.running| then s.at else 0)
  {
    var all := log + [s];
    assert all[..|all| - 1] == log;
    forall j: nat
      ensures EndsAt(all, j, id) <==> EndsAt(log, j, id) || (j == |log| && s.taken.None? && s.at < |s.running| && s.running[s.at] == id)
    {
    }
    assert EndsAt(all, |log|, id) <==> s.taken.None? && s.at < |s.running| && s.running[s.at] == id;
  }

  lemma FirstStand(ids: seq<string>, eventsOf: string -> seq<WorkerEvent>, maxActive: nat, tasks: seq<Task>)
    requires maxActive > 0 && Ascending(ids) && Planned(tasks, ids, eventsOf)
    ensures Stands(ids, eventsOf, maxActive, [], Refill(Round(tasks, [], 0), maxActive))
  {
    hide Size, RoundSize, Ascending, Positioned, Planned, Ids;
    var u := Refill(Round(tasks, [], 0), maxActive);
    var n := Begun(ids, maxActive, []);
    PlanSplits(ids, eventsOf, tasks, n);
    assert u.running == tasks[..n] && u.pending == tasks[n..];
    PrefixAscends(ids, n);
  }

  lemma PlanSplits(ids: seq<string>, eventsOf: string -> seq<WorkerEvent>, tasks: seq<Task>, n: nat)
    requires Planned(tasks, ids, eventsOf) && n <= |ids|
    ensures |tasks| == |ids| && Planned(tasks[n..], ids[n..], eventsOf) && Ids(tasks[..n]) == ids[..n]
    ensures Positioned(tasks[..n], eventsOf, [])
  {
    assert forall i | 0 <= i < n :: tasks[..n][i] == Task(ids[i], eventsOf(ids[i]));
    assert forall i | 0 <= i < |ids| - n :: tasks[n..][i] == tasks[n + i] && ids[n..][i] == ids[n + i];
  }

  lemma PrefixAscends(ids: seq<string>, n: nat)
    requires Ascending(ids) && n <= |ids|
    ensures Ascending(ids[..n])
  {
  }

  lemma StandingServes(ids: seq<string>, eventsOf: string -> seq<WorkerEvent>, maxActive: nat, log: seq<Service>, u: Round, s: Service)
    requires Stands(ids, eventsOf, maxActive, log, u) && u.running != []
    requires s == Service(u.cursor, if u.running[u.cursor].events == [] then None else Some(u.running[u.cursor].id),
                          Serve(u).0, Ids(u.running))
    ensures ServiceLaw(ids, eventsOf, maxActive, log, s)
  {
    hide Size, RoundSize, Ends, Count, HasEnded, NextPlace;
    assert s.running[s.at] == u.running[u.cursor].id;
  }

  /** Ascending lists name each id once. */
  lemma OncePlaced(tasks: seq<Task>, p: nat, q: nat)
    requires Ascending(Ids(tasks)) && p < |tasks| && q < |tasks| && tasks[p].id == tasks[q].id
    ensures p == q
  {
    var ids := Ids(tasks);
    assert ids[p] == tasks[p].id && ids[q] == tasks[q].id;
    LessTrichotomy(tasks[p].id, tasks[p].id);
  }

  lemma PlannedApart(ids: seq<string>, n: nat, a: string, b: string)
    requires Ascending(ids) && n <= |ids| && a in ids[..n] && b in ids[n..]
    ensures Less(a, b) && a != b
  {
    var i :| 0 <= i < n && ids[..n][i] == a;
    var j :| 0 <= j < |ids[n..]| && ids[n..][j] == b;
    assert ids[i] == a && ids[n + j] == b;
    LessTrichotomy(a, b);
  }

  lemma WithoutOne(xs: seq<string>, c: nat)
    requires Ascending(xs) && c < |xs|
    ensures var rest := xs[..c] + xs[c + 1..];
            Ascending(rest) && forall x :: x in rest <==> x in xs && x != xs[c]
  {
    var rest := xs[..c] + xs[c + 1..];
    assert forall i | 0 <= i < |rest| :: rest[i] == xs[if i < c then i else i + 1];
    forall i | 0 <= i < |xs| && i != c
      ensures xs[i] in rest && xs[i] != xs[c]
    {
      assert rest[if i < c then i else i - 1] == xs[i];
      LessTrichotomy(xs[i], xs[c]);
      assert i < c ==> Less(xs[i], xs[c]);
      assert i > c ==> Less(xs[c], xs[i]);
    }
  }

  lemma OneMore(xs: seq<string>, y: string)
    requires Ascending(xs) && forall x :: x in xs ==> Less(x, y)
    ensures Ascending(xs + [y])
  {
  }

  /** After an event the same sources run, one of them an event further. */
  lemma TakingStands(ids: seq<string>, eventsOf: string -> seq<WorkerEvent>, maxActive: nat, log: seq<Service>, u: Round, s: Service)
    requires maxActive > 0 && Ascending(ids)
    requires Stands(ids, eventsOf, maxActive, log, u) && u.running != [] && u.running[u.cursor].events != []
    requires s == Service(u.cursor, Some(u.running[u.cursor].id), Serve(u).0, Ids(u.running))
    ensures Stands(ids, eventsOf, maxActive, log + [s], Refill(Serve(u).1, maxActive))
  {
    hide Size, RoundSize, Ends, Count, HasEnded, NextPlace, Ascending, Positioned;
    var v := Serve(u).1;
    var more := log + [s];
    var id := u.running[u.cursor].id;
    EndsSnoc(log, s, id);
    assert Room(v, maxActive) == 0 && v.pending[0..] == v.pending && v.running + v.pending[..0] == v.running;
    assert Refill(v, maxActive) == v;
    assert Ids(v.running) == Ids(u.running);
    TakingPositions(eventsOf, log, u, s);
    forall x
      ensures HasEnded(more, x) <==> HasEnded(log, x)
    {
      EndsSnoc(log, s, x);
    }
    var n := Begun(ids, maxActive, log);
    assert Ids(u.running)[u.cursor] == id && id in Ids(u.running);
    forall x | x in ids[n..]
      ensures Count(more, x) == 0
    {
      CountSnoc(log, s, x);
      PlannedApart(ids, n, id, x);
    }
  }

  lemma TakingPositions(eventsOf: string -> seq<WorkerEvent>, log: seq<Service>, u: Round, s: Service)
    requires RoundOk(u) && u.running != [] && u.running[u.cursor].events != [] && Ascending(Ids(u.running))
    requires Positioned(u.running, eventsOf, log) && s.taken == Some(u.running[u.cursor].id)
    ensures Positioned(Serve(u).1.running, eventsOf, log + [s])
  {
    hide Size, RoundSize, Count, Ascending;
    var v := Serve(u).1;
    forall p | 0 <= p < |v.running|
      ensures var k := Count(log + [s], v.running[p].id);
              k <= |eventsOf(v.running[p].id)| && v.running[p].events == eventsOf(v.running[p].id)[k..]
    {
      CountSnoc(log, s, v.running[p].id);
      if v.running[p].id == u.running[u.cursor].id {
        OncePlaced(u.running, p, u.cursor);
      }
    }
  }

  /** After a removal the next planned source, if one is left, takes the last place. */
  lemma RemovingStands(ids: seq<string>, eventsOf: string -> seq<WorkerEvent>, maxActive: nat, log: seq<Service>, u: Round, s: Service)
    requires maxActive > 0 && Ascending(ids)
    requires Stands(ids, eventsOf, maxActive, log, u) && u.running != [] && u.running[u.cursor].events == []
    requires s == Service(u.cursor, None, None, Ids(u.running))
    ensures Stands(ids, eventsOf, maxActive, log + [s], Refill(Serve(u).1, maxActive))
  {
    hide Size, RoundSize, Ends, Count, HasEnded, NextPlace, Ascending, Positioned;
    var v := Serve(u).1;
    var c := u.cursor;
    var id := u.running[c].id;
    var more := log + [s];
    var n := Begun(ids, maxActive, log);
    EndsSnoc(log, s, id);
    assert Ids(u.running)[c] == id;
    assert Ids(v.running) == Ids(u.running)[..c] + Ids(u.running)[c + 1..];
    WithoutOne(Ids(u.running), c);
    forall x
      ensures HasEnded(more, x) <==> HasEnded(log, x) || x == id
      ensures Count(more, x) == Count(log, x)
    {
      EndsSnoc(log, s, x);
      CountSnoc(log, s, x);
    }
    LeftPositions(eventsOf, log, u, s);
    assert id in Ids(u.running);
    forall x | x in ids[n..]
      ensures !HasEnded(more, x)
    {
      if x in ids[..n] {
        PlannedApart(ids, n, x, x);
      }
    }
    assert u.pending != [] ==> ids[n..][0] == ids[n];
    RefillStands(ids, eventsOf, maxActive, more, v, n);
  }

  lemma LeftPositions(eventsOf: string -> seq<WorkerEvent>, log: seq<Service>, u: Round, s: Service)
    requires RoundOk(u) && u.running != [] && u.running[u.cursor].events == []
    requires Positioned(u.running, eventsOf, log) && s.taken.None?
    ensures Positioned(Serve(u).1.running, eventsOf, log + [s])
  {
    hide Size, RoundSize, Count;
    var v := Serve(u).1;
    forall p | 0 <= p < |v.running|
      ensures var k := Count(log + [s], v.running[p].id);
              k <= |eventsOf(v.running[p].id)| && v.running[p].events == eventsOf(v.running[p].id)[k..]
    {
      CountSnoc(log, s, v.running[p].id);
    }
  }

  /** A round with one place free at most, `n` sources begun, is refilled from the plan. */
  lemma RefillStands(ids: seq<string>, eventsOf: string -> seq<WorkerEvent>, maxActive: nat, log: seq<Service>, v: Round, n: nat)
    requires maxActive > 0 && Ascending(ids) && n <= |ids| && RoundOk(v)
    requires Planned(v.pending, ids[n..], eventsOf)
    requires |v.running| < maxActive && (v.pending == [] || |v.running| == maxActive - 1)
    requires Begun(ids, maxActive, log) == if v.pending == [] then n else n + 1
    requires Ascending(Ids(v.running)) && forall x :: x in Ids(v.running) <==> x in ids[..n] && !HasEnded(log, x)
    requires forall x :: HasEnded(log, x) ==> x in ids[..n]
    requires Positioned(v.running, eventsOf, log)
    requires forall x :: x in ids[n..] ==> Count(log, x) == 0
    requires v.cursor == NextPlace(log)
    ensures Stands(ids, eventsOf, maxActive, log, Refill(v, maxActive))
  {
    hide Size, RoundSize, Ends, Count, HasEnded, NextPlace, Ascending;
    var w := Refill(v, maxActive);
    if v.pending == [] {
      assert v.pending[0..] == [] && v.pending[..0] == [] && v.running + [] == v.running;
      assert w == v;
    } else {
      var next := ids[n];
      assert ids[n..][0] == next && v.pending[0] == Task(next, eventsOf(next));
      assert v.pending[..1] == [v.pending[0]];
      assert w.running == v.running + [v.pending[0]] && w.pending == v.pending[1..];
      assert Ids(w.running) == Ids(v.running) + [next];
      assert ids[..n + 1] == ids[..n] + [next] && ids[n..][1..] == ids[n + 1..];
      forall x | x in Ids(v.running)
        ensures Less(x, next)
      {
        PlannedApart(ids, n, x, next);
      }
      OneMore(Ids(v.running), next);
      if HasEnded(log, next) {
        PlannedApart(ids, n, next, next);
      }
    }
  }

  // ----------------------------------------------------- whole logs

  lemma TurnStands(ids: seq<string>, eventsOf: string -> seq<WorkerEvent>, maxActive: nat, log: seq<Service>, r: Round)
    requires maxActive > 0 && Ascending(ids) && RoundOk(r) && !Done(r)
    requires Stands(ids, eventsOf, maxActive, log, Refill(r, maxActive))
    ensures ServiceLaw(ids, eventsOf, maxActive, log, ServiceOf(r, maxActive))
    ensures Stands(ids, eventsOf, maxActive, log + [ServiceOf(r, maxActive)], Refill(Turn(r, maxActive).1, maxActive))
  {
    hide Stands, ServiceLaw, Ids, Size, RoundSize;
    var u := Refill(r, maxActive);
    var s := ServiceOf(r, maxActive);
    StandingServes(ids, eventsOf, maxActive, log, u, s);
    if u.running[u.cursor].events == [] {
      RemovingStands(ids, eventsOf, maxActive, log, u, s);
    } else {
      TakingStands(ids, eventsOf, maxActive, log, u, s);
    }
  }

  /** The turns that follow a lawful log extend it lawfully, and take the events in the reference's order. */
  lemma {:induction false} ServicesAreLawful(
    ids: seq<string>, eventsOf: string -> seq<WorkerEvent>, maxActive: nat, log: seq<Service>, r: Round, n: nat)
    requires maxActive > 0 && Ascending(ids) && RoundOk(r)
    requires Lawful(ids, eventsOf, maxActive, log) && Stands(ids, eventsOf, maxActive, log, Refill(r, maxActive))
    ensures Lawful(ids, eventsOf, maxActive, log + Services(r, maxActive, n))
    ensures Stands(ids, eventsOf, maxActive, log + Services(r, maxActive, n), Refill(After(r, maxActive, n), maxActive))
    decreases n
  {
    hide Lawful, Stands, ServiceLaw, Refill, Serve, Turn, ServiceOf;
    if n == 0 || Done(r) {
      assert log + [] == log;
    } else {
      var s := ServiceOf(r, maxActive);
      TurnStands(ids, eventsOf, maxActive, log, r);
      LawfulSnoc(ids, eventsOf, maxActive, log, s);
      ServicesAreLawful(ids, eventsOf, maxActive, log + [s], Turn(r, maxActive).1, n - 1);
      var rest := Services(Turn(r, maxActive).1, maxActive, n - 1);
      assert log + ([s] + rest) == (log + [s]) + rest;
    }
  }

  /** The log of a search from its plan is lawful. */
  lemma PlanIsFollowed(ids: seq<string>, eventsOf: string -> seq<WorkerEvent>, maxActive: nat, tasks: seq<Task>, n: nat)
    requires maxActive > 0 && Ascending(ids) && Planned(tasks, ids, eventsOf)
    ensures var r := Round(tasks, [], 0);
            && Lawful(ids, eventsOf, maxActive, Services(r, maxActive, n))
            && Stands(ids, eventsOf, maxActive, Services(r, maxActive, n), Refill(After(r, maxActive, n), maxActive))
  {
    hide Stands, ServiceLaw, Refill, Services, After;
    FirstStand(ids, eventsOf, maxActive, tasks);
    ServicesAreLawful(ids, eventsOf, maxActive, [], Round(tasks, [], 0), n);
    var log := Services(Round(tasks, [], 0), maxActive, n);
    assert [] + log == log;
  }

  /** The events of a log, in the order they were taken. */
  function Taken(log: seq<Service>): seq<WorkerEvent> {
    if log == [] then [] else Listed(log[0].event) + Taken(log[1..])
  }

  /** The reference order is what the turns take, and then what is left. */
  lemma {:induction false} OrderIsLogged(r: Round, maxActive: nat, n: nat)
    requires RoundOk(r) && maxActive > 0
    ensures Order(r, maxActive) == Taken(Services(r, maxActive, n)) + Order(After(r, maxActive, n), maxActive)
    decreases n
  {
    hide Refill, Serve;
    if n > 0 && !Done(r) {
      var v := Turn(r, maxActive).1;
      OrderIsLogged(v, maxActive, n - 1);
      var rest := Services(v, maxActive, n - 1);
      var log := Services(r, maxActive, n);
      assert log[0] == ServiceOf(r, maxActive) && log[1..] == rest;
    }
  }

  lemma {:induction false} EnoughTurns(r: Round, maxActive: nat, n: nat)
    requires RoundOk(r) && maxActive > 0 && n >= RoundSize(r)
    ensures Done(After(r, maxActive, n))
    decreases n
  {
    hide Refill, Serve, Turn;
    if n > 0 && !Done(r) {
      EnoughTurns(Turn(r, maxActive).1, maxActive, n - 1);
    } else if n == 0 {
      NoSize(r);
    }
  }

  lemma NoSize(r: Round)
    requires RoundSize(r) == 0
    ensures Done(r)
  {
  }

  /** Once nothing is left every planned source has ended, and was heard to its end. */
  lemma NothingLeft(ids: seq<string>, eventsOf: string -> seq<WorkerEvent>, maxActive: nat, log: seq<Service>, r: Round)
    requires maxActive > 0 && RoundOk(r) && Done(r) && Stands(ids, eventsOf, maxActive, log, Refill(r, maxActive))
    ensures forall id | id in ids :: HasEnded(log, id)
  {
    hide Size, RoundSize, HasEnded, Ends, Count, NextPlace, Stands;
    var u := Refill(r, maxActive);
    assert u.running == [] && u.pending == [];
    EmptyStand(ids, eventsOf, maxActive, log, u);
  }

  lemma EmptyStand(ids: seq<string>, eventsOf: string -> seq<WorkerEvent>, maxActive: nat, log: seq<Service>, u: Round)
    requires Stands(ids, eventsOf, maxActive, log, u) && u.running == [] && u.pending == []
    ensures forall id | id in ids :: HasEnded(log, id)
  {
    hide HasEnded, Ends, Count, NextPlace, Ascending, Positioned;
    var n := Begun(ids, maxActive, log);
    assert |ids[n..]| == 0;
    assert ids[..n] == ids;
    assert Ids(u.running) == [];
  }

  // ------------------------------------------------------------ consequences

  /** A source that is served for the last time handed over all it had. */
  lemma EndedIsHeardOut(ids: seq<string>, eventsOf: string -> seq<WorkerEvent>, maxActive: nat, log: seq<Service>, j: nat)
    requires Lawful(ids, eventsOf, maxActive, log) && j < |log| && log[j].taken.None?
    ensures log[j].at < |log[j].running|
    ensures Count(log[..j], log[j].running[log[j].at]) >= |eventsOf(log[j].running[log[j].at])|
  {
    assert ServiceLaw(ids, eventsOf, maxActive, log[..j], log[j]);
  }

  /** What runs is in the plan, and a source that starts comes after all that ran before. */
  lemma StartsAscend(ids: seq<string>, eventsOf: string -> seq<WorkerEvent>, maxActive: nat, log: seq<Service>, i: nat, j: nat, id: string, other: string)
    requires Lawful(ids, eventsOf, maxActive, log) && Ascending(ids) && i < j < |log|
    requires other in log[i].running && id in log[j].running && forall k | 0 <= k < j :: id !in log[k].running
    ensures id in ids && Less(other, id)
  {
    hide ServiceLaw, HasEnded;
    assert ServiceLaw(ids, eventsOf, maxActive, log[..i], log[i]);
    assert ServiceLaw(ids, eventsOf, maxActive, log[..j], log[j]);
    assert id !in log[i].running;
    EndedEarlier(log, i, j, id);
    StartsAfter(ids, eventsOf, maxActive, log[..i], log[i], log[..j], log[j], id, other);
  }

  lemma StartsAfter(
    ids: seq<string>, eventsOf: string -> seq<WorkerEvent>, maxActive: nat,
    before: seq<Service>, s: Service, after: seq<Service>, t: Service, id: string, other: string)
    requires Ascending(ids) && ServiceLaw(ids, eventsOf, maxActive, before, s) && ServiceLaw(ids, eventsOf, maxActive, after, t)
    requires HasEnded(before, id) ==> HasEnded(after, id)
    requires other in s.running && id in t.running && id !in s.running
    ensures id in ids && Less(other, id)
  {
    hide Count, NextPlace, HasEnded, Begun, Ascending;
    var n := Begun(ids, maxActive, before);
    assert id in ids by { assert ids[..Begun(ids, maxActive, after)] <= ids; }
    assert ids == ids[..n] + ids[n..];
    PlannedApart(ids, n, other, id);
  }

  lemma EndedEarlier(log: seq<Service>, i: nat, j: nat, id: string)
    requires i <= j <= |log|
    ensures HasEnded(log[..i], id) ==> HasEnded(log[..j], id)
  {
    if HasEnded(log[..i], id) {
      var k :| 0 <= k < i && EndsAt(log[..i], k, id);
      assert EndsAt(log[..j], k, id);
    }
  }

  lemma NoneEnded(log: seq<Service>, id: string)
    requires forall k | 0 <= k < |log| :: log[k].taken.Some?
    ensures !HasEnded(log, id) && Ends(log) == 0
    decreases |log|
  {
    if log != [] {
      NoneEnded(log[..|log| - 1], id);
    }
  }

  /** The service that takes the first event of the source at `k` of the plan. */
  function FirstTaking(ids: seq<string>, eventsOf: string -> seq<WorkerEvent>, k: nat): Service
    requires k < |ids| && eventsOf(ids[k]) != []
  {
    Service(k, Some(ids[k]), Some(eventsOf(ids[k])[0]), ids)
  }

  /**
   * If every planned source has an event and all may run at once, the first services take one event
   * from each of them in the order of their ids.
   */
  lemma {:induction false} FirstRoundInOrder(
    ids: seq<string>, eventsOf: string -> seq<WorkerEvent>, maxActive: nat, log: seq<Service>, n: nat)
    requires Lawful(ids, eventsOf, maxActive, log) && Ascending(ids)
    requires |ids| <= maxActive && forall k | 0 <= k < |ids| :: eventsOf(ids[k]) != []
    requires n <= |log| && n <= |ids|
    ensures forall k | 0 <= k < n :: log[k] == FirstTaking(ids, eventsOf, k)
    decreases n
  {
    hide ServiceLaw, Ascending;
    if n > 0 {
      FirstRoundInOrder(ids, eventsOf, maxActive, log, n - 1);
      assert ServiceLaw(ids, eventsOf, maxActive, log[..n - 1], log[n - 1]);
      NextInFirstRound(ids, eventsOf, maxActive, log[..n - 1], log[n - 1]);
    }
  }

  lemma NextInFirstRound(
    ids: seq<string>, eventsOf: string -> seq<WorkerEvent>, maxActive: nat, before: seq<Service>, s: Service)
    requires Ascending(ids) && |before| < |ids| <= maxActive && forall k | 0 <= k < |ids| :: eventsOf(ids[k]) != []
    requires forall k | 0 <= k < |before| :: before[k] == FirstTaking(ids, eventsOf, k)
    requires ServiceLaw(ids, eventsOf, maxActive, before, s)
    ensures s == FirstTaking(ids, eventsOf, |before|)
  {
    hide Count, Ascending;
    forall x
      ensures !HasEnded(before, x) && Ends(before) == 0
    {
      NoneEnded(before, x);
    }
    assert ids[..|ids|] == ids;
    AscendingUnique(s.running, ids);
    NotYetTaken(ids, before, |before|);
  }

  lemma NotYetTaken(ids: seq<string>, before: seq<Service>, n: nat)
    requires Ascending(ids) && n < |ids| && |before| == n && forall k | 0 <= k < n :: before[k].taken == Some(ids[k])
    ensures Count(before, ids[n]) == 0
  {
    forall k | 0 <= k < n
      ensures before[k].taken != Some(ids[n])
    {
      assert Less(ids[k], ids[n]);
      LessTrichotomy(ids[k], ids[n]);
    }
    NeverCounted(before, ids[n]);
  }

  lemma NeverCounted(log: seq<Service>, id: string)
    requires forall k | 0 <= k < |log| :: log[k].taken != Some(id)
    ensures Count(log, id) == 0
    decreases |log|
  {
    if log != [] {
      NeverCounted(log[1..], id);
    }
  }
}
