/**
 * Health verdicts: the transaction per probe result, the event log beside it and the sweep
 * that numbers probes (`HealthProber.sweep`, `emit` in src/control/health.ts).
 */
module Health {
  import opened Wrappers

  type Key = nat

  datatype State = Unknown | Healthy | Unhealthy

  /** One finished probe: its start number, whether it succeeded, and the thresholds of its pool. */
  datatype Probe = Probe(key: Key, start: nat, ok: bool, rise: nat, fall: nat)

  datatype Row = Row(state: State, start: nat, streak: nat, lastOk: bool)

  datatype Event = Event(number: nat, key: Key, state: State)

  /** The two tables and the cursor row. */
  datatype Db = Db(rows: map<Key, Row>, cursor: nat, events: seq<Event>)

  const EMPTY: Db := Db(map[], 1, [])

  // ------------------------------------------------------------------ one transaction

  function Find(db: Db, k: Key): Option<Row> { if k in db.rows then Some(db.rows[k]) else None }

  function StartOf(row: Option<Row>): nat { if row.Some? then row.value.start else 0 }

  function StateOf(row: Option<Row>): State { if row.Some? then row.value.state else Unknown }

  function Judged(row: Option<Row>, p: Probe): Row {
    var before := StateOf(row);
    var streak := if row.Some? && row.value.lastOk == p.ok then row.value.streak + 1 else 1;
    var next :=
      if p.ok && before != Healthy && streak >= p.rise then Healthy
      else if !p.ok && before != Unhealthy && streak >= p.fall then Unhealthy
      else before;
    Row(next, p.start, streak, p.ok)
  }

  /** `emit`: the number comes from the cursor row, in the same transaction. */
  function Emitted(db: Db, k: Key, state: State): Db {
    Db(db.rows, db.cursor + 1, db.events + [Event(db.cursor, k, state)])
  }

  function Taken(db: Db, p: Probe): Db {
    var row := Find(db, p.key);
    if p.start <= StartOf(row) then db
    else
      var next := Judged(row, p);
      var written := db.(rows := db.rows[p.key := next]);
      if next.state == StateOf(row) then written else Emitted(written, p.key, next.state)
  }

  /** After any arrivals, in any order. */
  function After(arrivals: seq<Probe>): Db {
    if arrivals == [] then EMPTY else Taken(After(arrivals[..|arrivals| - 1]), arrivals[|arrivals| - 1])
  }

  // ------------------------------------------------------------------ what it should be

  function Max(a: nat, b: nat): nat { if a < b then b else a }

  /** The latest start among everything that arrived for this backend, taken or not. */
  function Latest(arrivals: seq<Probe>, k: Key): nat {
    if arrivals == [] then 0
    else
      var p := arrivals[|arrivals| - 1];
      var before := Latest(arrivals[..|arrivals| - 1], k);
      if p.key == k then Max(before, p.start) else before
  }

  /** The probes that started later than everything that arrived before them. */
  function Fresh(arrivals: seq<Probe>, k: Key): seq<Probe> {
    if arrivals == [] then []
    else
      var front, p := arrivals[..|arrivals| - 1], arrivals[|arrivals| - 1];
      Fresh(front, k) + if p.key == k && p.start > Latest(front, k) then [p] else []
  }

  /** The length of the run of equal outcomes at the end. */
  function RunLength(ps: seq<Probe>): nat {
    if ps == [] then 0
    else if |ps| > 1 && ps[|ps| - 2].ok == ps[|ps| - 1].ok then RunLength(ps[..|ps| - 1]) + 1
    else 1
  }

  /** Did the run that ends at `i` reach the threshold for its outcome? */
  predicate Reaches(ps: seq<Probe>, i: nat)
    requires i < |ps|
  {
    RunLength(ps[..i + 1]) >= if ps[i].ok then ps[i].rise else ps[i].fall
  }

  function Verdict(ok: bool): State { if ok then Healthy else Unhealthy }

  /** The outcome of the latest run that reached its threshold. */
  function Decided(ps: seq<Probe>): State {
    if ps == [] then Unknown
    else
      var n := |ps| - 1;
      if Reaches(ps, n) then Verdict(ps[n].ok) else Decided(ps[..n])
  }

  // ------------------------------------------------------------------ what the specification means

  /** The run at the end: that many equal outcomes, and before them a different one. */
  lemma {:induction false} RunLengthIs(ps: seq<Probe>)
    requires ps != []
    ensures var n := RunLength(ps);
      && 1 <= n <= |ps|
      && (forall i :: |ps| - n <= i < |ps| ==> ps[i].ok == ps[|ps| - 1].ok)
      && (n < |ps| ==> ps[|ps| - n - 1].ok != ps[|ps| - 1].ok)
    decreases |ps|
  {
    if |ps| > 1 && ps[|ps| - 2].ok == ps[|ps| - 1].ok { RunLengthIs(ps[..|ps| - 1]); }
  }

  lemma ReachesInFront(ps: seq<Probe>, i: nat)
    requires i + 1 < |ps|
    ensures Reaches(ps[..|ps| - 1], i) <==> Reaches(ps, i)
  {
    assert ps[..|ps| - 1][..i + 1] == ps[..i + 1];
  }

  /** `i` ends the latest run that reached its threshold. */
  predicate LatestReach(ps: seq<Probe>, i: nat) {
    i < |ps| && Reaches(ps, i) && forall k: nat :: i < k < |ps| ==> !Reaches(ps, k)
  }

  /** Unknown until some run reaches its threshold; from then on the latest such run decides. */
  lemma {:induction false} DecidedIs(ps: seq<Probe>)
    ensures Decided(ps) == Unknown ==> forall i: nat :: i < |ps| ==> !Reaches(ps, i)
    ensures Decided(ps) != Unknown ==> exists i: nat :: LatestReach(ps, i) && Decided(ps) == Verdict(ps[i].ok)
    decreases |ps|
  {
    hide Reaches;
    if ps != [] {
      var n := |ps| - 1;
      DecidedIs(ps[..n]);
      forall i: nat | i < n ensures Reaches(ps[..n], i) <==> Reaches(ps, i) { ReachesInFront(ps, i); }
      if Reaches(ps, n) {
        assert LatestReach(ps, n);
      } else if Decided(ps[..n]) != Unknown {
        var i: nat :| LatestReach(ps[..n], i) && Decided(ps[..n]) == Verdict(ps[..n][i].ok);
        assert LatestReach(ps, i);
      }
    }
  }

  // ------------------------------------------------------------------ the stored row is the fold

  /** The row the fresh probes call for. */
  function RowFor(taken: seq<Probe>): Option<Row> {
    if taken == [] then None
    else Some(Row(Decided(taken), taken[|taken| - 1].start, RunLength(taken), taken[|taken| - 1].ok))
  }

  lemma {:induction false} LatestIsLastFresh(arrivals: seq<Probe>, k: Key)
    ensures var taken := Fresh(arrivals, k); Latest(arrivals, k) == if taken == [] then 0 else taken[|taken| - 1].start
    decreases |arrivals|
  {
    if arrivals != [] { LatestIsLastFresh(arrivals[..|arrivals| - 1], k); }
  }

  lemma JudgedIsFold(taken: seq<Probe>, p: Probe)
    ensures Judged(RowFor(taken), p) == RowFor(taken + [p]).value
  {
    var more := taken + [p];
    assert more[..|more| - 1] == taken;
    assert more[..|more|] == more;
    assert RunLength(more) == if taken != [] && taken[|taken| - 1].ok == p.ok then RunLength(taken) + 1 else 1;
    assert Decided(more) == if Reaches(more, |taken|) then Verdict(p.ok) else Decided(taken);
  }

  /** For any arrivals in any order the stored row is the fold over the fresh ones alone. */
  lemma {:induction false} RowIsTheFold(arrivals: seq<Probe>, k: Key)
    ensures Find(After(arrivals), k) == RowFor(Fresh(arrivals, k))
    decreases |arrivals|
  {
    hide Judged, Decided, RunLength;
    if arrivals != [] {
      var front, p := arrivals[..|arrivals| - 1], arrivals[|arrivals| - 1];
      RowIsTheFold(front, k);
      LatestIsLastFresh(front, k);
      assert Fresh(front, k) + [] == Fresh(front, k);
      if p.key == k { JudgedIsFold(Fresh(front, k), p); }
    }
  }

  /** The verdict, the streak and the start number, in plain words. */
  lemma RowMeans(arrivals: seq<Probe>, k: Key)
    requires k in After(arrivals).rows
    ensures var row, taken := After(arrivals).rows[k], Fresh(arrivals, k);
      && taken != [] && row.start == Latest(arrivals, k)
      && row.streak == RunLength(taken) && row.lastOk == taken[|taken| - 1].ok
      && row.state == Decided(taken)
  {
    RowIsTheFold(arrivals, k);
    LatestIsLastFresh(arrivals, k);
  }

  // ------------------------------------------------------------------ the event log

  /** The state the log shows for a backend. */
  function Replayed(events: seq<Event>, k: Key): State {
    if events == [] then Unknown
    else if events[|events| - 1].key == k then events[|events| - 1].state
    else Replayed(events[..|events| - 1], k)
  }

  /** Numbered without gaps, and every event is a change. */
  predicate LogOk(db: Db) {
    && db.cursor == |db.events| + 1
    && (forall i :: 0 <= i < |db.events| ==> db.events[i].number == i + 1)
    && (forall i :: 0 <= i < |db.events| ==> db.events[i].state != Replayed(db.events[..i], db.events[i].key))
  }

  lemma TakenKeepsLog(db: Db, p: Probe)
    requires LogOk(db) && forall k :: Replayed(db.events, k) == StateOf(Find(db, k))
    ensures LogOk(Taken(db, p)) && forall k :: Replayed(Taken(db, p).events, k) == StateOf(Find(Taken(db, p), k))
  {
    var n := Taken(db, p);
    if n.events != db.events {
      assert n.events[..|n.events| - 1] == db.events;
      forall i | 0 <= i < |n.events| ensures n.events[i].state != Replayed(n.events[..i], n.events[i].key) {
        assert n.events[..i] == db.events[..i];
        if i == |db.events| { assert db.events[..i] == db.events; }
      }
    }
  }

  /** Replaying the gap-free log reproduces every verdict. */
  lemma {:induction false} ReplayReproducesVerdicts(arrivals: seq<Probe>)
    ensures LogOk(After(arrivals))
    ensures forall k :: Replayed(After(arrivals).events, k) == StateOf(Find(After(arrivals), k))
    decreases |arrivals|
  {
    if arrivals != [] {
      ReplayReproducesVerdicts(arrivals[..|arrivals| - 1]);
      TakenKeepsLog(After(arrivals[..|arrivals| - 1]), arrivals[|arrivals| - 1]);
    }
  }

  /** Log, row and probes say the same. */
  lemma LogShowsTheDecision(arrivals: seq<Probe>, k: Key)
    ensures Replayed(After(arrivals).events, k) == Decided(Fresh(arrivals, k))
  {
    ReplayReproducesVerdicts(arrivals);
    RowIsTheFold(arrivals, k);
  }

  // ------------------------------------------------------------------ numbering

  /** No stored start is above `high`. */
  predicate Bounded(db: Db, high: nat) { forall k | k in db.rows :: db.rows[k].start <= high }

  /** A prober that numbers on from the stored maximum is never taken for a late one. */
  lemma NewNumbersAreFresh(db: Db, high: nat, p: Probe)
    requires Bounded(db, high) && p.start > high
    ensures p.key in Taken(db, p).rows && Taken(db, p).rows[p.key].start == p.start && Bounded(Taken(db, p), p.start)
  {
  }

  // ------------------------------------------------------------------ the prober as it runs

  /** A backend that is due, with the thresholds of its pool. */
  datatype Target = Target(key: Key, rise: nat, fall: nat)

  datatype Flip = Flip(key: Key, state: State)

  class HealthProber {
    var db: Db
    /** the next start number; 0 before the first sweep */
    var next: nat

    constructor (db: Db)
      ensures this.db == db && next == 0
    {
      this.db := db;
      next := 0;
    }

    /** The largest stored start. */
    method MaxStart() returns (high: nat)
      ensures Bounded(db, high)
      ensures high > 0 ==> exists k :: k in db.rows && db.rows[k].start == high
    {
      high := 0;
      var rest := db.rows.Keys;
      while rest != {}
        invariant rest <= db.rows.Keys
        invariant forall k | k in db.rows && k !in rest :: db.rows[k].start <= high
        invariant high > 0 ==> exists k :: k in db.rows && db.rows[k].start == high
        decreases rest
      {
        var k :| k in rest;
        rest := rest - {k};
        if db.rows[k].start > high { high := db.rows[k].start; }
      }
    }

    /** Start numbers are given out before any probe runs. */
    method Number(targets: seq<Target>) returns (starts: seq<nat>)
      modifies this`next
      ensures |starts| == |targets| && next == old(next) + |targets|
      ensures forall i :: 0 <= i < |starts| ==> starts[i] == old(next) + i
    {
      starts := [];
      while |starts| < |targets|
        invariant |starts| <= |targets| && next == old(next) + |starts|
        invariant forall i :: 0 <= i < |starts| ==> starts[i] == old(next) + i
      {
        starts := starts + [next];
        next := next + 1;
      }
    }

    /** The transactions, one per result, in the order the results are handed over. */
    method Record(results: seq<Probe>) returns (flipped: seq<Flip>)
      modifies this`db
      ensures db == Folded(old(db), results)
      ensures |flipped| == |db.events| - |old(db).events| && old(db).events <= db.events
      ensures forall i :: 0 <= i < |flipped| ==>
        var e := db.events[|old(db).events| + i]; flipped[i] == Flip(e.key, e.state)
    {
      var i := 0;
      flipped := [];
      ghost var before := db;
      while i < |results|
        invariant 0 <= i <= |results| && db == Folded(before, results[..i])
        invariant before.events <= db.events && |flipped| == |db.events| - |before.events|
        invariant forall k :: 0 <= k < |flipped| ==>
          var e := db.events[|before.events| + k]; flipped[k] == Flip(e.key, e.state)
      {
        assert results[..i + 1][..i] == results[..i];
        var was := |db.events|;
        db := Taken(db, results[i]);
        if |db.events| > was {
          var e := db.events[was];
          flipped := flipped + [Flip(e.key, e.state)];
        }
        i := i + 1;
      }
      assert results[..i] == results;
    }

    /** `sweep`: number the due backends, probe them (`outcomes` is what came back), record every result. */
    method Sweep(targets: seq<Target>, outcomes: seq<bool>) returns (flipped: seq<Flip>, ghost results: seq<Probe>)
      requires |outcomes| == |targets|
      requires next > 0 ==> Bounded(db, next - 1)
      modifies this
      ensures db == Folded(old(db), results)
      ensures |results| == |targets| && next > 0 && Bounded(db, next - 1)
      ensures forall i :: 0 <= i < |results| ==> results[i].key == targets[i].key && results[i].ok == outcomes[i]
      // every number is new, even to a process that just started
      ensures forall i, k :: 0 <= i < |results| && k in old(db).rows ==> results[i].start > old(db).rows[k].start
    {
      if next == 0 {
        var high := MaxStart();
        next := high + 1;
      }
      ghost var first := next;
      var starts := Number(targets);
      var all := seq(|targets|, i requires 0 <= i < |targets| && |starts| == |targets| == |outcomes| =>
        Probe(targets[i].key, starts[i], outcomes[i], targets[i].rise, targets[i].fall));
      results := all;
      ghost var before := db;
      flipped := Record(all);
      StaysBounded(before, all, next - 1);
    }
  }

  /** Recording probes below a bound keeps the bound. */
  lemma {:induction false} StaysBounded(db: Db, results: seq<Probe>, high: nat)
    requires Bounded(db, high) && forall i :: 0 <= i < |results| ==> results[i].start <= high
    ensures Bounded(Folded(db, results), high)
    decreases |results|
  {
    if results != [] { StaysBounded(db, results[..|results| - 1], high); }
  }

  function Folded(db: Db, results: seq<Probe>): Db {
    if results == [] then db else Taken(Folded(db, results[..|results| - 1]), results[|results| - 1])
  }

  /** What a prober records continues whatever arrived before. */
  lemma {:induction false} FoldedContinues(arrivals: seq<Probe>, results: seq<Probe>)
    ensures Folded(After(arrivals), results) == After(arrivals + results)
    decreases |results|
  {
    if results == [] {
      assert arrivals + results == arrivals;
    } else {
      var n := |results| - 1;
      FoldedContinues(arrivals, results[..n]);
      assert (arrivals + results)[..|arrivals + results| - 1] == arrivals + results[..n];
    }
  }
}
