/**
 * Recovery after a crash anywhere: a runner that starts on what a run left continues that run,
 * and the one family of states in which a second recovery still finds something to do is reached.
 */
module ApplyRecovery {
  import opened Wrappers
  import opened Operation
  import opened Agent
  import opened AgentGuard
  import opened AgentStore
  import opened ApplyMachine
  import opened ApplyInvariant
  import opened ApplySafety
  import opened ApplyTheorems
  import opened ApplyEngine
  import opened ApplyAnswers
  import opened ApplyTidy
  import opened ApplyBooks
  import opened ApplyProgress
  import opened ApplyCrash
  import opened ApplyRunner
  import opened ApplyQuiet

  // ------------------------------------------------------------------ one more actor

  lemma FreshActor(actors: map<nat, Pc>) returns (who: nat)
    ensures who !in actors
  {
    who := Above(actors.Keys);
  }

  lemma Above(keys: set<nat>) returns (who: nat)
    ensures forall k | k in keys :: k < who
    decreases |keys|
  {
    if keys == {} {
      who := 0;
    } else {
      var k :| k in keys;
      var rest := Above(keys - {k});
      assert forall q | q in keys :: q == k || q in keys - {k};
      who := if k < rest then rest else k + 1;
    }
  }

  /** A name that no record, verdict or journal knows. */
  lemma NewName(s: State) returns (name: nat)
    ensures forall k | k in s.done :: k.id.operation < name
    ensures forall k | k in s.ended :: k.id.operation < name
    ensures s.journal.Some? ==> s.journal.value.op.id.operation < name
  {
    var owner := if s.journal.Some? then {s.journal.value.op.id.operation} else {};
    var used := (set q <- s.done :: q.id.operation) + (set q <- s.ended :: q.id.operation) + owner;
    name := Above(used);
    forall k | k in s.done ensures k.id.operation < name { assert k.id.operation in used; }
    forall k | k in s.ended ensures k.id.operation < name { assert k.id.operation in used; }
  }

  /** What a newcomer does alone continues the run. */
  lemma NewcomerContinues(published: PublishedState, run: seq<Happening>, polls: nat, a: Scene, b: Scene)
    requires IsEntry(a.pc) && a.w == RunOf(published, run).w && Reaches(polls, a, b)
    ensures exists more :: RunOf(published, run + more).w == b.w
  {
    hide Act, Reaches, RunOf, Happened;
    var sys := RunOf(published, run);
    var who := FreshActor(sys.actors);
    var h := Start(who, a.pc);
    Begins(published, run, who, a.pc);
    PathOf(polls, a, b, published, run + [h], who);
    var rest :| RunOf(published, run + [h] + rest) == System(b.w, sys.actors[who := a.pc][who := b.pc]);
    assert run + [h] + rest == run + ([h] + rest);
    assert RunOf(published, run + ([h] + rest)).w == b.w;
  }

  lemma Begins(published: PublishedState, run: seq<Happening>, who: nat, pc: Pc)
    requires IsEntry(pc) && who !in RunOf(published, run).actors
    ensures RunOf(published, run + [Start(who, pc)]) == System(RunOf(published, run).w, RunOf(published, run).actors[who := pc])
  {
    hide RunOf, IsEntry;
    OneMoreHappens(published, run, Start(who, pc));
  }

  lemma PathOf(polls: nat, a: Scene, b: Scene, published: PublishedState, run: seq<Happening>, who: nat)
    requires Reaches(polls, a, b) && who in RunOf(published, run).actors
    requires a.w == RunOf(published, run).w && a.pc == RunOf(published, run).actors[who]
    ensures exists rest :: RunOf(published, run + rest) == System(b.w, RunOf(published, run).actors[who := b.pc])
  {
    hide Act, Steps, Heeds, RunOf;
    var path :| Steps(a, path) == b && Heeds(polls, a, path);
    AloneIsARun(published, run, who, a.heard, path);
  }

  lemma ReachedIsSound(published: PublishedState, run: seq<Happening>)
    ensures Sound(RunOf(published, run).w.agent)
  {
    hide RunOf, HistoryOk, WinsOk, Sound;
    GoodWorld(published, run);
    KeptIsSound(RunOf(published, run).w.agent, RunOf(published, run).w.log);
  }

  /**
   * A process starts on the store that a run left, crashed anywhere, and recovers: what it does
   * continues that run, a result leaves the journal closed and the right given back, and nothing
   * is left to do but for the candidate of a closed orphan.
   */
  method RecoverAfter(agent: DpAgent, effects: Engine, polls: nat, ghost published: PublishedState, ghost run: seq<Happening>)
    returns (runner: Runner, flow: Flow, ghost more: seq<Happening>)
    requires agent.Valid() && agent.contenders == 0
    requires agent.state == RunOf(published, run).w.agent && effects.published == RunOf(published, run).w.published
    modifies agent, effects
    ensures fresh(runner) && runner.agent == agent && runner.effects == effects
    ensures runner.W() == RunOf(published, run + more).w
    ensures flow.Returned? ==> Settled(agent.state) && flow.seen == agent.state.journal
    ensures Answered(RunOf(published, run).w.log, old(effects.heard), RunOf(published, run + more).w.log, effects.heard)
    ensures flow.Returned? && agent.state.journal.Some? ==> (LeavesWork(agent.state) <==> LeavesCandidate(old(agent.state)))
    ensures polls > 0 && 5 * old(effects.foreign) + 2 * old(effects.flips) + 23 <= HARD_LIMIT ==> flow != Threw(TooManyTurns)
  {
    hide Sound, Tidy, Neat, Booked, Reaches, RunOf, LeavesWork, LeavesCandidate, Settled, Answered;
    EveryRunIsTidy(published, run);
    ReachedIsSound(published, run);
    runner := new Runner(agent, effects, polls, RunOf(published, run).w.log);
    ghost var a := runner.Here(Recovering);
    flow := runner.Recover();
    ghost var b := runner.Here(if flow == Threw(TooManyTurns) then Head(a.w.agent.journal.value.op) else Done);
    NewcomerContinues(published, run, polls, a, b);
    more :| RunOf(published, run + more).w == b.w;
  }

  /**
   * At such an orphan the first recovery closes the journal and gives the slots back, and the
   * second one still has the candidate to judge.
   */
  lemma OrphanNeedsTwo(s: State)
    requires Sound(s) && Tidy(s) && LeavesCandidate(s)
    ensures var j := s.journal.value;
      var closed := s.(journal := Some(Stepped(j, Superseded)));
      var between := ReleaseStaleSlots(closed, j.op);
      && Durable(s, CloseCall(j.op, Superseded)) == Saved(closed)
      && Durable(closed, ReleaseStaleCall(j.op)) == Saved(between)
      && Durable(between, FinishCall(j.op, Stuck(between.journal.value))) == Saved(SecondLook(between))
      && between.pending.Some? && SecondLook(between).pending.None?
  {
    hide GuardHolds, Sound, WithoutOwned, FinishOperation;
    var j := s.journal.value;
    var closed := s.(journal := Some(Stepped(j, Superseded)));
    SavesIt(s, CloseCall(j.op, Superseded));
    SavesIt(closed, ReleaseStaleCall(j.op));
    var between := ReleaseStaleSlots(closed, j.op);
    SavesIt(between, FinishCall(j.op, Stuck(between.journal.value)));
    FinishClears(between, j.op, Stuck(between.journal.value));
  }

  lemma FinishClears(s: State, op: Op, release: set<Plane>)
    requires Judges(s, op.id)
    ensures FinishOperation(s, op, release).pending.None?
  {
    hide JudgedBaseline;
  }

  // ------------------------------------------------------------------ an orphan with a candidate

  /** Left alone, an actor of a run continues it. */
  lemma {:induction false} DrivenIsARun(published: PublishedState, run: seq<Happening>, who: nat, v: View, n: nat)
    requires who in RunOf(published, run).actors
    ensures var sys := RunOf(published, run); var m := Driven(Moment(sys.w, sys.actors[who]), v, n);
      exists more :: RunOf(published, run + more) == System(m.w, sys.actors[who := m.pc])
    decreases n
  {
    hide Act;
    var sys := RunOf(published, run);
    var a := Moment(sys.w, sys.actors[who]);
    if n == 0 {
      assert run + [] == run;
      assert sys.actors[who := a.pc] == sys.actors;
    } else {
      var h := Turned(who, Helpful(a.pc, v));
      assert (run + [h])[..|run|] == run;
      DrivenIsARun(published, run + [h], who, v, n - 1);
      var m := Driven(a, v, n);
      var more :| RunOf(published, run + [h] + more) == System(m.w, RunOf(published, run + [h]).actors[who := m.pc]);
      assert run + [h] + more == run + ([h] + more);
    }
  }

  lemma GoesIsARun(published: PublishedState, run: seq<Happening>, who: nat, v: View, b: Moment) returns (more: seq<Happening>)
    requires who in RunOf(published, run).actors
    requires Goes(v, Moment(RunOf(published, run).w, RunOf(published, run).actors[who]), b)
    ensures RunOf(published, run + more) == System(b.w, RunOf(published, run).actors[who := b.pc])
  {
    hide RunOf, Driven;
    var n: nat :| Driven(Moment(RunOf(published, run).w, RunOf(published, run).actors[who]), v, n) == b;
    DrivenIsARun(published, run, who, v, n);
    more :| RunOf(published, run + more) == System(b.w, RunOf(published, run).actors[who := b.pc]);
  }

  lemma OneMoreHappens(published: PublishedState, run: seq<Happening>, h: Happening)
    ensures RunOf(published, run + [h]) == Happened(RunOf(published, run), h)
  {
    hide Happened;
    assert (run + [h])[..|run|] == run;
  }

  /** The operation moved its first plane and holds the right; the second plane is still to move. */
  ghost predicate HalfCommitted(s: State, op: Op) {
    && Holding(s, op) && !IsTerminal(s.journal.value.phase) && s.pending == Some(RecordOf(op))
    && EndedHow(s, op.id, Http) == Some(EndActivated) && EndedHow(s, op.id, Stream) == None
    && MovedByMe(s, op, Http) && !MovedByMe(s, op, Stream)
  }

  lemma AbortSteps(w: World, op: Op, e: Envelope, todo: seq<Plane>)
    requires e.carried == {Http, Stream}
    ensures todo != [] ==>
      var c := AbortCall(TupleFor(op, todo[0]));
      Act(w, Aborting(op, e, todo), Yes) ==
        if Durable(w.agent, c).Tripped? then Moment(w, Done) else Moment(After(w, c), Aborting(op, e, todo[1..]))
    ensures Act(w, Aborting(op, e, []), Yes) == Moment(w, AbortReleasing(op, e))
    ensures Act(w, AbortReleasing(op, e), Yes) == Must(w, ReleaseHolderCall(op), AbortFinishing(op, e))
    ensures Act(w, AbortFinishing(op, e), Yes) == Must(w, FinishCall(op, Declared(e)), AbortJudging(op, e))
  {
    hide Act, Durable, After, Must, ActAbortClose, ReachedPhase;
    Delegates(w, Aborting(op, e, todo), Yes);
    Delegates(w, Aborting(op, e, []), Yes);
    Delegates(w, AbortReleasing(op, e), Yes);
    Delegates(w, AbortFinishing(op, e), Yes);
    if todo != [] { assert todo[0] == Http || todo[0] == Stream; }
    assert Declared(e) <= e.carried by { forall p | p in Declared(e) ensures p in e.carried { assert p == Http || p == Stream; } }
  }

  /** `abortConfig` on it: the first plane is over, the second is aborted, the right is let go. */
  lemma AbortsHalf(w: World, op: Op) returns (x: World, y: World)
    requires HalfCommitted(w.agent, op)
    ensures Act(w, Aborting(op, WHOLE, PLANES), Yes) == Moment(w, Aborting(op, WHOLE, [Stream]))
    ensures Act(w, Aborting(op, WHOLE, [Stream]), Yes) == Moment(x, Aborting(op, WHOLE, []))
    ensures Act(x, Aborting(op, WHOLE, []), Yes) == Moment(x, AbortReleasing(op, WHOLE))
    ensures Act(x, AbortReleasing(op, WHOLE), Yes) == Moment(y, AbortFinishing(op, WHOLE))
    ensures Sound(y.agent) && y.agent.holder.None? && y.agent.maxToken == op.id.token
    ensures y.agent.journal == w.agent.journal && y.agent.pending == w.agent.pending
  {
    assert PLANES[0] == Http && PLANES[1..] == [Stream] && [Stream][1..] == [];
    AbortRefused(w, op);
    x := AbortSaved(w, op);
    y := Releases(x, op);
    assert w.agent.maxToken == op.id.token;
    hide HalfCommitted, Sound, Durable, After, Act;
    AbortSteps(w, op, WHOLE, PLANES);
    AbortSteps(w, op, WHOLE, [Stream]);
    AbortSteps(x, op, WHOLE, []);
  }

  lemma Releases(x: World, op: Op) returns (y: World)
    requires Sound(x.agent) && x.agent.holder == Some(HolderOf(op))
    ensures var c := ReleaseHolderCall(op); Durable(x.agent, c).Saved? && y == After(x, c)
    ensures Sound(y.agent) && y.agent == x.agent.(slots := y.agent.slots, holder := None)
  {
    hide GuardHolds, Sound, WithoutOwned;
    SavesIt(x.agent, ReleaseHolderCall(op));
    y := After(x, ReleaseHolderCall(op));
  }

  lemma AbortRefused(w: World, op: Op)
    requires HalfCommitted(w.agent, op)
    ensures Durable(w.agent, AbortCall(TupleFor(op, Http))).Refusal?
    ensures After(w, AbortCall(TupleFor(op, Http))) == w
  {
    hide GuardHolds, Sound;
  }

  lemma AbortSaved(w: World, op: Op) returns (x: World)
    requires HalfCommitted(w.agent, op)
    ensures var c := AbortCall(TupleFor(op, Stream)); Durable(w.agent, c).Saved? && x == After(w, c)
    ensures Sound(x.agent) && x.agent.holder == w.agent.holder && x.agent.maxToken == w.agent.maxToken
    ensures x.agent.journal == w.agent.journal && x.agent.pending == w.agent.pending
  {
    hide GuardHolds, Sound;
    var c := AbortCall(TupleFor(op, Stream));
    SavesIt(w.agent, c);
    x := After(w, c);
  }

  /** A fence while nobody holds the right only raises the token. */
  lemma FencesIdle(s: State, token: nat)
    requires Sound(s) && s.holder.None? && s.maxToken <= token
    ensures Durable(s, FenceCall(token)) == Saved(s.(maxToken := token))
  {
    hide GuardHolds, Sound;
    SavesIt(s, FenceCall(token));
  }

  const FIRST: Op := Op(Identity(1, 1, 0), Both(Target(Coordinate(0, 0), Coordinate(1, 0), 1)), 1, 1)
  const SEEN: Evidence := Evidence(Some(1), None, None, None, None)

  /** An operation runs until its first plane moved. */
  lemma RunsHalf(published: PublishedState) returns (run: seq<Happening>, w: World, pc: Pc)
    ensures RunOf(published, run) == System(w, map[1 := pc]) && HalfCommitted(w.agent, FIRST)
  {
    hide RunOf, Goes, HalfCommitted;
    var v := View(Read(Some(SEEN)), Some(SEEN));
    var w0 := Initial(published).w;
    FirstIsReady(published);
    assert RunOf(published, []) == Initial(published) by { StartsInitial(published); }
    OneMoreHappens(published, [], Start(1, Reserving(FIRST)));
    var r0 := [] + [Start(1, Reserving(FIRST))];
    assert RunOf(published, r0) == System(w0, map[1 := Reserving(FIRST)]);
    var n := Observes(v, w0, FIRST);
    var z, turn, saw := CommitsOne(v, n, FIRST);
    pc := Committing(turn, SEEN, saw, Put(turn.j.progress, Http, PlaneCommitted), [Stream]);
    Then(v, Moment(w0, Reserving(FIRST)), Moment(n, Head(FIRST)), Moment(z, pc));
    var more := GoesIsARun(published, r0, 1, v, Moment(z, pc));
    run, w := r0 + more, z;
    assert map[1 := Reserving(FIRST)][1 := pc] == map[1 := pc];
    HalfIs(z, FIRST, turn);
  }

  lemma StartsInitial(published: PublishedState)
    ensures RunOf(published, []) == Initial(published)
  {
  }

  lemma FirstIsReady(published: PublishedState)
    ensures Ready(Initial(published).w.agent, FIRST) && ProvesActivation(Some(SEEN), FIRST.generation)
  {
  }

  lemma HalfIs(z: World, op: Op, turn: Turn)
    requires Holding(z.agent, op) && z.agent.journal == Some(turn.j) && turn.j.phase == ReloadObserved && z.agent.pending == Some(RecordOf(op))
    requires PlaneArrivedAs(z.agent, TupleFor(op, Http)) && PlaneHeld(z.agent, TupleFor(op, Stream))
    ensures HalfCommitted(z.agent, op)
  {
  }

  /**
   * The state in which a second recovery is not idle is reached: one plane committed, an abort
   * that crashed after letting go of the right, everything stopped, a new leader fenced in.
   */
  lemma OrphanWithCandidate(published: PublishedState) returns (run: seq<Happening>)
    ensures LeavesCandidate(RunOf(published, run).w.agent)
    ensures forall a | a in RunOf(published, run).actors :: RunOf(published, run).actors[a].Done?
  {
    hide RunOf, Act, HalfCommitted, Sound, Durable, LeavesCandidate;
    var r, w, pc := RunsHalf(published);
    var x, y := AbortsHalf(w, FIRST);
    run := AbortCrashes(published, r, w, x, y, pc);
    OrphanIs(w.agent, y.agent);
    FencesIdle(y.agent, 1);
    OneMoreHappens(published, run, FencedBy(1));
    run := run + [FencedBy(1)];
  }

  /** The abort runs up to letting go of the right, then everything stops. */
  lemma AbortCrashes(published: PublishedState, r: seq<Happening>, w: World, x: World, y: World, pc: Pc) returns (run: seq<Happening>)
    requires RunOf(published, r) == System(w, map[1 := pc])
    requires Act(w, Aborting(FIRST, WHOLE, PLANES), Yes) == Moment(w, Aborting(FIRST, WHOLE, [Stream]))
    requires Act(w, Aborting(FIRST, WHOLE, [Stream]), Yes) == Moment(x, Aborting(FIRST, WHOLE, []))
    requires Act(x, Aborting(FIRST, WHOLE, []), Yes) == Moment(x, AbortReleasing(FIRST, WHOLE))
    requires Act(x, AbortReleasing(FIRST, WHOLE), Yes) == Moment(y, AbortFinishing(FIRST, WHOLE))
    ensures RunOf(published, run) == System(y, map[1 := Done, 2 := Done])
  {
    hide RunOf, Act, Durable;
    OneMoreHappens(published, r, Start(2, Aborting(FIRST, WHOLE, PLANES)));
    run := r + [Start(2, Aborting(FIRST, WHOLE, PLANES))];
    assert RunOf(published, run) == System(w, Two(pc, Aborting(FIRST, WHOLE, PLANES)));
    run := SecondTurns(published, run, w, pc, Aborting(FIRST, WHOLE, PLANES), Yes, Moment(w, Aborting(FIRST, WHOLE, [Stream])));
    run := SecondTurns(published, run, w, pc, Aborting(FIRST, WHOLE, [Stream]), Yes, Moment(x, Aborting(FIRST, WHOLE, [])));
    run := SecondTurns(published, run, x, pc, Aborting(FIRST, WHOLE, []), Yes, Moment(x, AbortReleasing(FIRST, WHOLE)));
    run := SecondTurns(published, run, x, pc, AbortReleasing(FIRST, WHOLE), Yes, Moment(y, AbortFinishing(FIRST, WHOLE)));
    OneMoreHappens(published, run, Crash(1));
    run := run + [Crash(1)];
    assert RunOf(published, run) == System(y, Two(Done, AbortFinishing(FIRST, WHOLE)));
    OneMoreHappens(published, run, Crash(2));
    run := run + [Crash(2)];
    assert RunOf(published, run) == System(y, Two(Done, Done));
  }

  function Two(first: Pc, second: Pc): map<nat, Pc> { map[1 := first, 2 := second] }

  lemma SecondTurns(published: PublishedState, r: seq<Happening>, w: World, first: Pc, second: Pc, answer: Answer, m: Moment)
    returns (run: seq<Happening>)
    requires RunOf(published, r) == System(w, Two(first, second)) && Act(w, second, answer) == m
    ensures RunOf(published, run) == System(m.w, Two(first, m.pc))
  {
    hide RunOf, Act;
    OneMoreHappens(published, r, Turned(2, answer));
    run := r + [Turned(2, answer)];
    assert Two(first, second)[2 := m.pc] == Two(first, m.pc);
  }

  lemma OrphanIs(s: State, n: State)
    requires HalfCommitted(s, FIRST) && n.journal == s.journal && n.pending == s.pending
    ensures LeavesCandidate(n.(maxToken := 1))
  {
  }
}
