/**
 * The in-flight counters `in:<peer>`: counted up by the balancer block, counted down by the
 * log phase, shared by all workers (src/conf/render.ts).
 *
 * Every step is one operation on the shared dict, so other requests, expiries and evictions
 * may fall between any two of them.
 */
module InFlight {
  import opened Wrappers

  type Peer = nat

  /** What the dict holds; an absent key reads as 0. */
  type Counters = map<Peer, int>

  function Reading(c: Counters, p: Peer): int { if p in c then c[p] else 0 }

  /** The log phase walks over the chosen peers; after each count-down it may owe a reset to 0. */
  datatype Phase = Choosing | Logging(at: nat) | Resetting(at: nat)

  datatype Request = Request(chosen: seq<Peer>, phase: Phase)

  /** Pick number `at` of request `id`, not yet counted down. */
  datatype Token = Token(id: nat, at: nat, peer: Peer)

  /**
   * `armed` are the keys that carry an expiry: only the reset to 0 sets one, and counting an
   * existing key up or down leaves it as it is.
   */
  datatype State = State(counters: Counters, armed: set<Peer>, requests: map<nat, Request>, open: set<Token>)

  const START: State := State(map[], {}, map[], {})

  datatype Step =
    | Begin(id: nat)
    /** the balancer chose `peer`; `counted` is whether the dict had room for the increment */
    | Pick(id: nat, peer: Peer, counted: bool)
    /** the next count-down of the log phase */
    | CountDown(id: nat)
    /** the reset it owes */
    | Reset(id: nat)
    /** the key's time is up; a key without one never expires */
    | Expire(peer: Peer)
    /** the dict is full and drops the key */
    | Evict(peer: Peer)

  // ------------------------------------------------------------------ the dict operations

  /** `d:incr(key, 1, 0)` */
  function Up(c: Counters, p: Peer): Counters { c[p := Reading(c, p) + 1] }

  /** `d:incr(key, -1)`: an absent key stays absent. */
  function Down(c: Counters, p: Peer): Counters { if p in c then c[p := c[p] - 1] else c }

  /** `not n or n <= 0` */
  predicate OwesReset(c: Counters, p: Peer) { p !in c || c[p] <= 0 }

  function Zero(c: Counters, p: Peer): Counters { c[p := 0] }

  // ------------------------------------------------------------------ steps

  /** The request stands in front of a count-down. */
  predicate CanCountDown(r: Request) {
    var at := if r.phase.Choosing? then 0 else r.phase.at;
    !r.phase.Resetting? && at < |r.chosen|
  }

  function NextAt(r: Request): nat { if r.phase.Choosing? then 0 else r.phase.at }

  function Happens(s: State, step: Step): State {
    match step
    case Begin(id) => if id in s.requests then s else s.(requests := s.requests[id := Request([], Choosing)])
    case Pick(id, p, counted) =>
      if id in s.requests && s.requests[id].phase.Choosing? then
        var r := s.requests[id];
        State(if counted then Up(s.counters, p) else s.counters,
              s.armed,
              s.requests[id := r.(chosen := r.chosen + [p])],
              s.open + {Token(id, |r.chosen|, p)})
      else s
    case CountDown(id) =>
      if id in s.requests && CanCountDown(s.requests[id]) then
        var r := s.requests[id];
        var at := NextAt(r);
        var p := r.chosen[at];
        var c := Down(s.counters, p);
        State(c,
              s.armed,
              s.requests[id := r.(phase := if OwesReset(c, p) then Resetting(at) else Logging(at + 1))],
              s.open - {Token(id, at, p)})
      else s
    case Reset(id) =>
      if id in s.requests && s.requests[id].phase.Resetting? && s.requests[id].phase.at < |s.requests[id].chosen| then
        var r := s.requests[id];
        s.(counters := Zero(s.counters, r.chosen[r.phase.at]), armed := s.armed + {r.chosen[r.phase.at]},
           requests := s.requests[id := r.(phase := Logging(r.phase.at + 1))])
      else s
    case Expire(p) => if p in s.armed then Without(s, p) else s
    case Evict(p) => Without(s, p)
  }

  /** The key and its expiry are gone; the next count makes a key without one. */
  function Without(s: State, p: Peer): State { s.(counters := s.counters - {p}, armed := s.armed - {p}) }

  function RunOf(run: seq<Step>): State {
    if run == [] then START else Happens(RunOf(run[..|run| - 1]), run[|run| - 1])
  }

  /** The picks of `p` that are not yet counted down. */
  function OpenOf(open: set<Token>, p: Peer): set<Token> { set t | t in open && t.peer == p }

  function Outstanding(s: State, p: Peer): nat { |OpenOf(s.open, p)| }

  // ------------------------------------------------------------------ tokens and requests agree

  ghost predicate IsOpen(requests: map<nat, Request>, t: Token) {
    && t.id in requests
    && (var r := requests[t.id];
        && t.at < |r.chosen| && r.chosen[t.at] == t.peer
        && (r.phase.Logging? ==> r.phase.at <= t.at) && (r.phase.Resetting? ==> r.phase.at < t.at))
  }

  ghost predicate Agree(s: State) { forall t :: t in s.open <==> IsOpen(s.requests, t) }

  lemma StepAgrees(s: State, step: Step)
    requires Agree(s)
    ensures Agree(Happens(s, step))
  {
    var n := Happens(s, step);
    forall t ensures t in n.open <==> IsOpen(n.requests, t) {
      assert t in s.open <==> IsOpen(s.requests, t);
    }
  }

  lemma Opens(open: set<Token>, t: Token, p: Peer)
    requires t !in open
    ensures |OpenOf(open + {t}, p)| == |OpenOf(open, p)| + if t.peer == p then 1 else 0
  {
    if t.peer == p { assert OpenOf(open + {t}, p) == OpenOf(open, p) + {t}; }
    else { assert OpenOf(open + {t}, p) == OpenOf(open, p); }
  }

  lemma Closes(open: set<Token>, t: Token, p: Peer)
    requires t in open
    ensures |OpenOf(open - {t}, p)| == |OpenOf(open, p)| - if t.peer == p then 1 else 0
  {
    assert open == (open - {t}) + {t};
    Opens(open - {t}, t, p);
  }

  /** How one step changes the number of open picks. */
  lemma OutstandingChanges(s: State, step: Step, p: Peer)
    requires Agree(s)
    ensures var n := Happens(s, step);
      Outstanding(n, p) == Outstanding(s, p)
        + (if step.Pick? && n != s && step.peer == p then 1 else 0)
        - (if step.CountDown? && n != s && s.requests[step.id].chosen[NextAt(s.requests[step.id])] == p then 1 else 0)
  {
    match step
    case Pick(id, q, counted) =>
      if id in s.requests && s.requests[id].phase.Choosing? {
        var t := Token(id, |s.requests[id].chosen|, q);
        assert !IsOpen(s.requests, t);
        Opens(s.open, t, p);
      }
    case CountDown(id) =>
      if id in s.requests && CanCountDown(s.requests[id]) {
        var r := s.requests[id];
        var t := Token(id, NextAt(r), r.chosen[NextAt(r)]);
        assert IsOpen(s.requests, t);
        Closes(s.open, t, p);
      }
    case _ =>
  }

  // ------------------------------------------------------------------ the counter never overstates

  ghost predicate NeverAbove(s: State) { forall p :: Reading(s.counters, p) <= Outstanding(s, p) }

  lemma StepNeverAbove(s: State, step: Step)
    requires Agree(s) && NeverAbove(s)
    ensures NeverAbove(Happens(s, step))
  {
    var n := Happens(s, step);
    forall p ensures Reading(n.counters, p) <= Outstanding(n, p) {
      assert Reading(s.counters, p) <= Outstanding(s, p);
      OutstandingChanges(s, step, p);
    }
  }

  /** In every run, whatever expires and however the phases interleave, a counter is at most the open picks. */
  lemma {:induction false} CounterNeverExceeds(run: seq<Step>)
    ensures Agree(RunOf(run)) && NeverAbove(RunOf(run))
    decreases |run|
  {
    if run == [] {
    } else {
      CounterNeverExceeds(run[..|run| - 1]);
      StepAgrees(RunOf(run[..|run| - 1]), run[|run| - 1]);
      StepNeverAbove(RunOf(run[..|run| - 1]), run[|run| - 1]);
    }
  }

  // ------------------------------------------------------------------ when it is exact

  ghost predicate Exact(s: State) { forall p :: Reading(s.counters, p) == Outstanding(s, p) }

  /** A step that loses counts: a pick without room, a reset over a fresh count, a count that expires or is dropped. */
  predicate Loses(s: State, step: Step) {
    match step
    case Begin(_) => false
    case Pick(id, _, counted) => !counted && id in s.requests && s.requests[id].phase.Choosing?
    case CountDown(_) => false
    case Reset(id) =>
      && id in s.requests && s.requests[id].phase.Resetting? && s.requests[id].phase.at < |s.requests[id].chosen|
      && Reading(s.counters, s.requests[id].chosen[s.requests[id].phase.at]) != 0
    case Expire(p) => p in s.armed && Reading(s.counters, p) != 0
    case Evict(p) => Reading(s.counters, p) != 0
  }

  /** From an exact state the next one is exact if and only if the step loses nothing. */
  lemma ExactStep(s: State, step: Step)
    requires Agree(s) && Exact(s)
    ensures Exact(Happens(s, step)) <==> !Loses(s, step)
  {
    var n := Happens(s, step);
    forall p ensures !Loses(s, step) ==> Reading(n.counters, p) == Outstanding(n, p) {
      assert Reading(s.counters, p) == Outstanding(s, p);
      OutstandingChanges(s, step, p);
    }
    if Loses(s, step) {
      var p := match step case Pick(_, p, _) => p case Reset(id) => s.requests[id].chosen[s.requests[id].phase.at] case Expire(p) => p case Evict(p) => p case _ => 0;
      assert Reading(s.counters, p) == Outstanding(s, p);
      OutstandingChanges(s, step, p);
      assert Reading(n.counters, p) != Outstanding(n, p);
    }
  }

  // ------------------------------------------------------------------ atomic phases

  /** A pick with its increment, or a count-down with the reset it owes, with nothing in between. */
  datatype Atom = Started(id: nat) | Picked(id: nat, peer: Peer) | CountedDown(id: nat)

  function Atomic(s: State, a: Atom): State {
    match a
    case Started(id) => Happens(s, Begin(id))
    case Picked(id, p) => Happens(s, Pick(id, p, true))
    case CountedDown(id) => Happens(Happens(s, CountDown(id)), Reset(id))
  }

  function AtomicRun(run: seq<Atom>): State {
    if run == [] then START else Atomic(AtomicRun(run[..|run| - 1]), run[|run| - 1])
  }

  lemma AtomicStep(s: State, a: Atom)
    requires Agree(s) && Exact(s) && NobodyOwes(s)
    ensures Agree(Atomic(s, a)) && Exact(Atomic(s, a)) && NobodyOwes(Atomic(s, a))
  {
    match a
    case Started(id) => StepAgrees(s, Begin(id)); ExactStep(s, Begin(id));
    case Picked(id, p) => StepAgrees(s, Pick(id, p, true)); ExactStep(s, Pick(id, p, true));
    case CountedDown(id) =>
      var n := Happens(s, CountDown(id));
      StepAgrees(s, CountDown(id));
      ExactStep(s, CountDown(id));
      StepAgrees(n, Reset(id));
      ResetAfterCountDown(s, id);
      ExactStep(n, Reset(id));
  }

  ghost predicate NobodyOwes(s: State) { forall id | id in s.requests :: !s.requests[id].phase.Resetting? }

  lemma ResetAfterCountDown(s: State, id: nat)
    requires Agree(s) && Exact(s) && NobodyOwes(s)
    ensures !Loses(Happens(s, CountDown(id)), Reset(id))
  {
    if id in s.requests && CanCountDown(s.requests[id]) {
      var p := s.requests[id].chosen[NextAt(s.requests[id])];
      var n := Happens(s, CountDown(id));
      StepAgrees(s, CountDown(id));
      ExactStep(s, CountDown(id));
      assert Reading(n.counters, p) == Outstanding(n, p);
    }
  }

  /** With atomic phases and nothing forgotten every counter is the number of open picks: 0 means drained. */
  lemma {:induction false} AtomicCountersAreExact(run: seq<Atom>)
    ensures Agree(AtomicRun(run)) && Exact(AtomicRun(run)) && NobodyOwes(AtomicRun(run))
    ensures forall p :: Reading(AtomicRun(run).counters, p) == 0 <==> OpenOf(AtomicRun(run).open, p) == {}
    decreases |run|
  {
    if run != [] {
      AtomicCountersAreExact(run[..|run| - 1]);
      AtomicStep(AtomicRun(run[..|run| - 1]), run[|run| - 1]);
    }
    forall p ensures Reading(AtomicRun(run).counters, p) == 0 <==> OpenOf(AtomicRun(run).open, p) == {} {
      assert Reading(AtomicRun(run).counters, p) == Outstanding(AtomicRun(run), p);
    }
  }

  /** Only a key that was reset to 0 before can expire. */
  lemma {:induction false} OnlyResetKeysExpire(run: seq<Step>, p: Peer)
    requires p in RunOf(run).armed
    ensures exists i :: 0 <= i < |run| && ResetsTo(RunOf(run[..i]), run[i], p)
    decreases |run|
  {
    if run != [] {
      var front := run[..|run| - 1];
      if p in RunOf(front).armed {
        OnlyResetKeysExpire(front, p);
        var i :| 0 <= i < |front| && ResetsTo(RunOf(front[..i]), front[i], p);
        assert front[..i] == run[..i] && front[i] == run[i];
      } else {
        assert ResetsTo(RunOf(run[..|run| - 1]), run[|run| - 1], p);
      }
    }
  }

  predicate ResetsTo(s: State, step: Step, p: Peer) {
    && step.Reset? && step.id in s.requests && s.requests[step.id].phase.Resetting?
    && s.requests[step.id].phase.at < |s.requests[step.id].chosen|
    && s.requests[step.id].chosen[s.requests[step.id].phase.at] == p
  }

  /** One request runs to its end, which arms the key; the second one is in flight when it expires. */
  function ExpiringRun(p: Peer): seq<Step> { FirstRun(p) + [Begin(2)] + [Pick(2, p, true)] + [Expire(p)] }

  function FirstRun(p: Peer): seq<Step> { [Begin(1)] + [Pick(1, p, true)] + [CountDown(1)] + [Reset(1)] }

  lemma RunSteps(run: seq<Step>, step: Step)
    ensures RunOf(run + [step]) == Happens(RunOf(run), step)
  {
    assert (run + [step])[..|run|] == run;
  }

  /** Otherwise 0 does not mean drained: a key that was armed before expires under a running request. */
  lemma ExpiredWhileInFlight(p: Peer)
    ensures var s := RunOf(ExpiringRun(p)); Reading(s.counters, p) == 0 && Outstanding(s, p) == 1
  {
    FirstRequest(p);
    RunSteps(FirstRun(p), Begin(2));
    RunSteps(FirstRun(p) + [Begin(2)], Pick(2, p, true));
    RunSteps(FirstRun(p) + [Begin(2)] + [Pick(2, p, true)], Expire(p));
    hide RunOf, FirstRun;
    assert RunOf(ExpiringRun(p)).open == {Token(2, 0, p)};
    assert OpenOf({Token(2, 0, p)}, p) == {Token(2, 0, p)};
  }

  function Chose(p: Peer): State { State(map[p := 1], {}, map[1 := Request([p], Choosing)], {Token(1, 0, p)}) }
  function Counted(p: Peer): State { State(map[p := 0], {}, map[1 := Request([p], Resetting(0))], {}) }
  function Armed(p: Peer): State { State(map[p := 0], {p}, map[1 := Request([p], Logging(1))], {}) }

  lemma Chooses(p: Peer)
    ensures Happens(Happens(START, Begin(1)), Pick(1, p, true)) == Chose(p)
  {
    assert [] + [p] == [p];
  }

  lemma CountsDown(p: Peer)
    ensures Happens(Chose(p), CountDown(1)) == Counted(p)
  {
    var c: Counters := map[p := 1];
    assert Down(c, p) == map[p := 0];
    assert {Token(1, 0, p)} - {Token(1, 0, p)} == {};
  }

  lemma Arms(p: Peer)
    ensures Happens(Counted(p), Reset(1)) == Armed(p)
  {
    var c: Counters := map[p := 0];
    assert Zero(c, p) == c;
    assert {} + {p} == {p};
  }

  lemma FirstRequest(p: Peer)
    ensures RunOf(FirstRun(p)) == Armed(p)
  {
    Chooses(p);
    CountsDown(p);
    Arms(p);
    hide Happens, Chose, Counted, Armed;
    StartOnly(Begin(1));
    hide RunOf;
    RunSteps([Begin(1)], Pick(1, p, true));
    RunSteps([Begin(1)] + [Pick(1, p, true)], CountDown(1));
    RunSteps([Begin(1)] + [Pick(1, p, true)] + [CountDown(1)], Reset(1));
  }

  lemma StartOnly(step: Step)
    ensures RunOf([step]) == Happens(START, step)
  {
    hide Happens;
    assert [step][..0] == [];
  }

  // ------------------------------------------------------------------ the log phase as it runs

  /** One turn of the loop when nothing falls in between. */
  function Logged(c: Counters, p: Peer): Counters {
    var d := Down(c, p);
    if OwesReset(d, p) then Zero(d, p) else d
  }

  function LoggedAll(c: Counters, chosen: seq<Peer>): Counters {
    if chosen == [] then c else Logged(LoggedAll(c, chosen[..|chosen| - 1]), chosen[|chosen| - 1])
  }

  /** The log phase lowers each counter by the picks of its peer, and never below 0. */
  lemma {:induction false} LogPhaseLowers(c: Counters, chosen: seq<Peer>, p: Peer)
    requires Reading(c, p) >= 0
    ensures var k := multiset(chosen)[p];
      Reading(LoggedAll(c, chosen), p) == if k <= Reading(c, p) then Reading(c, p) - k else 0
    ensures p in chosen ==> p in LoggedAll(c, chosen)
    decreases |chosen|
  {
    if chosen != [] {
      var n := |chosen| - 1;
      assert chosen == chosen[..n] + [chosen[n]];
      LogPhaseLowers(c, chosen[..n], p);
    }
  }

  /** The shared dict, with the log phase of one request running to its end. */
  class SharedCounters {
    var counters: Counters

    method LogPhase(chosen: seq<Peer>)
      modifies this
      ensures counters == LoggedAll(old(counters), chosen)
    {
      var i := 0;
      while i < |chosen|
        invariant 0 <= i <= |chosen| && counters == LoggedAll(old(counters), chosen[..i])
      {
        assert chosen[..i + 1][..i] == chosen[..i];
        var peer := chosen[i];
        counters := Down(counters, peer);
        if OwesReset(counters, peer) { counters := Zero(counters, peer); }
        i := i + 1;
      }
      assert chosen[..i] == chosen;
    }
  }
}
