/**
 * The run in which an abort of one plane closes the journal as `activated` over the other plane
 * (src/dp/driver.ts), and what it rests on: a driver judges the planes of its own operation only.
 */
module ApplyNarrowRun {
  import opened Wrappers
  import opened Operation
  import opened Agent
  import opened AgentGuard
  import opened ApplyMachine
  import opened ApplyInvariant
  import opened ApplySafety
  import opened ApplyTheorems
  import opened ApplyCrash
  import opened ApplyQuiet
  import opened ApplyRecovery
  import opened ApplyReopening
  import opened ApplyNarrowAborts

  // ------------------------------------------------------------------ a driver judges its own planes only

  predicate NextFor(next: Next, id: Identity) {
    match next
    case Stop => true
    case Again(bound) => bound.id == id
    case ThenFinish(op, _, again) => op.id == id && (again.Some? ==> again.value.id == id)
  }

  /** The actor runs or drives this very operation. */
  predicate DrivesFor(pc: Pc, id: Identity) {
    if HasTurn(pc) then pc.turn.bound.id == id && pc.turn.j.op.id == id
    else match pc
      case Done => true
      case Reserving(op) => op.id == id
      case Head(bound) => bound.id == id
      case Finishing(op, _, next) => op.id == id && NextFor(next, id)
      case Writing(_, next) => NextFor(next, id)
      case Failing(j, _, _, again) => j.op.id == id && (again.Some? ==> again.value.id == id)
      case FailingPlane(j, _, _, again) => j.op.id == id && (again.Some? ==> again.value.id == id)
      case Judging(j, _, again) => j.op.id == id && (again.Some? ==> again.value.id == id)
      case _ => false
  }

  /** It goes on for the same operation, and never reserves again. */
  predicate GoesOnFor(pc: Pc, id: Identity) { DrivesFor(pc, id) && !pc.Reserving? }

  lemma ActDrivesFor(w: World, pc: Pc, answer: Answer, id: Identity)
    requires DrivesFor(pc, id)
    ensures GoesOnFor(Act(w, pc, answer).pc, id)
  {
    hide Act, ActStage, ActReload, ActCommit, ActAbort, ActFail, DrivesFor;
    Delegates(w, pc, answer);
    if pc.Staging? || pc.Loading? { StageDrivesFor(w, pc, answer, id); }
    else if pc.ReadingWorld? || pc.Winning? || pc.Signalling? || pc.Awaiting? { ReloadDrivesFor(w, pc, answer, id); }
    else if pc.Confirming? || pc.Proving? || pc.Committing? { CommitDrivesFor(w, pc, answer, id); }
    else if FailPc(pc) { FailDrivesFor(w, pc, id); }
    else { PlainDrivesFor(w, pc, answer, id); }
  }

  lemma StageDrivesFor(w: World, pc: Pc, answer: Answer, id: Identity)
    requires (pc.Staging? || pc.Loading?) && DrivesFor(pc, id)
    ensures GoesOnFor(ActStage(w, pc, answer).pc, id)
  {
    hide Durable;
  }

  lemma ReloadDrivesFor(w: World, pc: Pc, answer: Answer, id: Identity)
    requires (pc.ReadingWorld? || pc.Winning? || pc.Signalling? || pc.Awaiting?) && DrivesFor(pc, id)
    ensures GoesOnFor(ActReload(w, pc, answer).pc, id)
  {
    hide Durable, ProvesActivation;
  }

  lemma CommitDrivesFor(w: World, pc: Pc, answer: Answer, id: Identity)
    requires (pc.Confirming? || pc.Proving? || pc.Committing?) && DrivesFor(pc, id)
    ensures GoesOnFor(ActCommit(w, pc, answer).pc, id)
  {
    hide Durable, ProvesActivation, CommitMoves, PublishedByMe;
  }

  lemma FailDrivesFor(w: World, pc: Pc, id: Identity)
    requires FailPc(pc) && DrivesFor(pc, id)
    ensures GoesOnFor(ActFail(w, pc).pc, id)
  {
    hide Durable, MovedByMe, ReachedPhase;
  }

  lemma PlainDrivesFor(w: World, pc: Pc, answer: Answer, id: Identity)
    requires DrivesFor(pc, id)
    requires !(pc.Staging? || pc.Loading? || pc.ReadingWorld? || pc.Winning? || pc.Signalling? || pc.Awaiting?)
    requires !(pc.Confirming? || pc.Proving? || pc.Committing?) && !FailPc(pc)
    ensures GoesOnFor(Act(w, pc, answer).pc, id)
  {
    hide ActStage, ActReload, ActCommit, ActAbort, ActFail, Durable, After, AssertOwnership, PublishedByMe,
         ReachedPhase, ClosedTransition;
  }

  /** Whom a section may judge: the steps of an operation judge that operation. */
  predicate JudgesFor(c: Call, id: Identity) {
    match c
    case ReserveAllCall(op) => op.id == id
    case StageCall(t) => t.id == id
    case CommitCall(t, _) => t.id == id
    case FailCall(t) => t.id == id
    case AbortCall(t) => t.id == id
    case HealthCall(t) => t.id == id
    case ReclaimCall(op) => op.id == id
    case IntentCall(r) => r.id == id
    case FenceCall(_) => false
    case _ => true
  }

  lemma CallsFor(pc: Pc, id: Identity)
    requires DrivesFor(pc, id) && CallOf(pc).Some?
    ensures JudgesFor(CallOf(pc).value, id) && (CallOf(pc).value.ReserveAllCall? ==> pc.Reserving?)
  {
  }

  /** The verdicts on all other operations stay, and no token beyond the operation's own comes in. */
  ghost predicate OthersApart(s: State, n: State, id: Identity) {
    && n.maxToken <= Max(s.maxToken, id.token)
    && (forall k: EndKey | k.id != id :: EndedHow(n, k.id, k.plane) == EndedHow(s, k.id, k.plane))
  }

  predicate JournalClosed(s: State) { s.journal.None? || IsTerminal(s.journal.value.phase) }

  lemma SectionApart(s: State, c: Call, id: Identity)
    requires JudgesFor(c, id) && (c.ReserveAllCall? ==> JournalClosed(s)) && Durable(s, c).Saved?
    ensures OthersApart(s, Durable(s, c).state, id)
  {
    hide GuardHolds, ReserveAll, StageSlot, CommitPlane, EndPlane, ApplyHealth, WithoutOwned;
    match c
    case ReserveAllCall(op) => ReserveApart(s, op);
    case StageCall(t) => StageApart(s, t);
    case CommitCall(t, e) => CommitApart(s, t, e);
    case FailCall(t) => EndApart(s, t, EndFailed);
    case AbortCall(t) => EndApart(s, t, EndAborted);
    case HealthCall(t) => HealthApart(s, t);
    case _ =>
  }

  lemma ReserveApart(s: State, op: Op)
    requires JournalClosed(s) && ReserveAll(s, op).Accepted?
    ensures OthersApart(s, ReserveAll(s, op).state, op.id)
  {
    hide ReserveOne, SweepOrphan;
    assert SweepOrphan(s, op) == s by { ClosedIsNotSwept(s, op); }
    OneApart(s, TupleFor(op, Http));
    OneApart(ReserveOne(s, TupleFor(op, Http)).state, TupleFor(op, Stream));
  }

  lemma ClosedIsNotSwept(s: State, op: Op)
    requires JournalClosed(s)
    ensures SweepOrphan(s, op) == s
  {
  }

  lemma OneApart(s: State, t: Tuple)
    requires ReserveOne(s, t).Accepted?
    ensures OthersApart(s, ReserveOne(s, t).state, t.id) && ReserveOne(s, t).state.ended == s.ended
  {
  }

  lemma StageApart(s: State, t: Tuple)
    requires StageSlot(s, t).Accepted?
    ensures OthersApart(s, StageSlot(s, t).state, t.id)
  {
  }

  lemma CommitApart(s: State, t: Tuple, e: Evidence)
    requires CommitPlane(s, t, e).Accepted?
    ensures OthersApart(s, CommitPlane(s, t, e).state, t.id)
  {
    hide MoveRefusal, AlreadyThere;
  }

  lemma EndApart(s: State, t: Tuple, how: Ended)
    requires EndPlane(s, t, how).Accepted?
    ensures OthersApart(s, EndPlane(s, t, how).state, t.id)
  {
  }

  lemma HealthApart(s: State, t: Tuple)
    requires ApplyHealth(s, t).Accepted?
    ensures OthersApart(s, ApplyHealth(s, t).state, t.id)
  {
  }

  lemma StepApart(w: World, pc: Pc, answer: Answer, id: Identity)
    requires DrivesFor(pc, id) && (pc.Reserving? ==> JournalClosed(w.agent))
    ensures OthersApart(w.agent, Act(w, pc, answer).w.agent, id)
  {
    hide Act, Durable, DrivesFor, JudgesFor;
    ActSaves(w, pc, answer);
    if Act(w, pc, answer).w.agent != w.agent {
      CallsFor(pc, id);
      SectionApart(w.agent, CallOf(pc).value, id);
    }
  }

  /** Left alone, a call of `run` that finds the journal closed leaves every other verdict as it was. */
  lemma {:induction false} DriverJudgesOwn(m: Moment, v: View, n: nat, id: Identity)
    requires DrivesFor(m.pc, id) && (m.pc.Reserving? ==> JournalClosed(m.w.agent))
    ensures OthersApart(m.w.agent, Driven(m, v, n).w.agent, id)
    decreases n
  {
    hide Act, DrivesFor;
    if n > 0 {
      var next := Act(m.w, m.pc, Helpful(m.pc, v));
      StepApart(m.w, m.pc, Helpful(m.pc, v), id);
      ActDrivesFor(m.w, m.pc, Helpful(m.pc, v), id);
      DriverJudgesOwn(next, v, n - 1, id);
    }
  }

  // ------------------------------------------------------------------ a transition that fits the planes

  /** Some new operation of the leader of the day fits the planes as they are. */
  lemma FitsPlanes(s: State) returns (op: Op)
    requires Sound(s) && s.holder.None? && JournalClosed(s)
    ensures Ready(s, op) && op.id.token == s.maxToken && op.generation == 1
  {
    hide Sound;
    var name := NewName(s);
    var epoch := NewEpoch(s);
    var to := Coordinate(epoch, 0);
    op := Op(Identity(name, name, s.maxToken), PerPlane(Target(s.planes.http.at, to, 2), Target(s.planes.stream.at, to, 2)), 1, 2);
  }

  lemma NewEpoch(s: State) returns (epoch: nat)
    ensures forall k | k in s.slots :: k.epoch < epoch
    ensures s.planes.http.at.epoch < epoch && s.planes.stream.at.epoch < epoch
  {
    var used := (set q <- s.slots :: q.epoch) + {s.planes.http.at.epoch, s.planes.stream.at.epoch};
    epoch := Above(used);
    forall k | k in s.slots ensures k.epoch < epoch { assert k.epoch in used; }
  }

  // ------------------------------------------------------------------ the run

  /** The envelope of an abort that names the first plane only. */
  const NARROW: Envelope := Envelope([Http], {Http})

  /** The first operation reserved both planes, moved the first, and has no verdict on the second. */
  ghost predicate HalfDone(s: State, op: Op) {
    && ReservedOp(s.done, op)
    && EndedHow(s, op.id, Http) == Some(EndActivated) && EndedHow(s, op.id, Stream) == None
  }

  lemma NarrowSteps(w: World, op: Op, how: Phase)
    ensures var c := AbortCall(TupleFor(op, Http));
      Durable(w.agent, c).Refusal? ==> Act(w, Aborting(op, NARROW, [Http]), Yes) == Moment(w, Aborting(op, NARROW, []))
    ensures Act(w, Aborting(op, NARROW, []), Yes) == Moment(w, AbortReleasing(op, NARROW))
    ensures Act(w, AbortReleasing(op, NARROW), Yes) == Must(w, ReleaseHolderCall(op), AbortFinishing(op, NARROW))
    ensures Act(w, AbortFinishing(op, NARROW), Yes) == Must(w, FinishCall(op, {Http}), AbortJudging(op, NARROW))
    ensures w.agent.journal.Some? ==>
      Act(w, AbortJudging(op, NARROW), Yes) == Moment(w, AbortClosing(op, NARROW, ReachedPhase(w.agent, w.agent.journal.value.op)))
    ensures Act(w, AbortClosing(op, NARROW, how), Yes) == ActAbortClose(w, op, NARROW, how)
  {
    hide Act, Durable, Must, ActAbortClose, ReachedPhase;
    Delegates(w, Aborting(op, NARROW, [Http]), Yes);
    Delegates(w, Aborting(op, NARROW, []), Yes);
    Delegates(w, AbortReleasing(op, NARROW), Yes);
    Delegates(w, AbortFinishing(op, NARROW), Yes);
    Delegates(w, AbortJudging(op, NARROW), Yes);
    Delegates(w, AbortClosing(op, NARROW, how), Yes);
    assert [Http][1..] == [] && Declared(NARROW) == {Http};
  }

  /** The abort of the first plane is refused, for it is over. */
  lemma OverIsRefused(w: World, op: Op)
    requires EndedHow(w.agent, op.id, Http) == Some(EndActivated)
    ensures Durable(w.agent, AbortCall(TupleFor(op, Http))).Refusal?
  {
    hide GuardHolds;
  }

  /** Letting go and finishing leave journal, planes, records and verdicts as they are. */
  ghost predicate SameLedger(s: State, n: State) {
    && n.journal == s.journal && n.planes == s.planes && n.done == s.done && n.ended == s.ended && n.maxToken == s.maxToken
  }

  /** The abort up to judging, on a state in which the right is its own or nobody's. */
  lemma NarrowUpToJudging(w: World, op: Op) returns (y: World, u: World)
    requires Sound(w.agent) && (w.agent.holder == Some(HolderOf(op)) || w.agent.holder.None?)
    requires EndedHow(w.agent, op.id, Http) == Some(EndActivated)
    ensures Act(w, Aborting(op, NARROW, [Http]), Yes) == Moment(w, Aborting(op, NARROW, []))
    ensures Act(w, Aborting(op, NARROW, []), Yes) == Moment(w, AbortReleasing(op, NARROW))
    ensures Act(w, AbortReleasing(op, NARROW), Yes) == Moment(y, AbortFinishing(op, NARROW))
    ensures Act(y, AbortFinishing(op, NARROW), Yes) == Moment(u, AbortJudging(op, NARROW))
    ensures Sound(u.agent) && u.agent.holder.None? && SameLedger(w.agent, u.agent)
  {
    hide Sound, Durable, After, Act, ReachedPhase;
    OverIsRefused(w, op);
    NarrowSteps(w, op, Failed);
    if w.agent.holder.Some? { y := Releases(w, op); } else { y := ReleasesNothing(w, op); }
    NarrowSteps(y, op, Failed);
    u := FinishesIdle(y, op, {Http});
  }

  lemma ReleasesNothing(w: World, op: Op) returns (y: World)
    requires Sound(w.agent) && w.agent.holder.None?
    ensures var c := ReleaseHolderCall(op); Durable(w.agent, c).Saved? && y == After(w, c) && y.agent == w.agent
  {
    hide GuardHolds, Sound;
    SavesIt(w.agent, ReleaseHolderCall(op));
    y := After(w, ReleaseHolderCall(op));
  }

  /** Half of the first operation is moved; a narrow abort closes it as far as it got. */
  lemma ClosesHalf(published: PublishedState) returns (run: seq<Happening>, w: World)
    ensures RunOf(published, run) == System(w, Two(Done, Done))
    ensures Sound(w.agent) && w.agent.holder.None? && HalfDone(w.agent, FIRST) && w.agent.maxToken == FIRST.id.token
    ensures w.agent.journal.Some? && w.agent.journal.value.op == FIRST && w.agent.journal.value.phase == PartialExhausted
  {
    hide RunOf, Act, Sound, Durable, After, HalfDone;
    var r, s, pc := RunsHalf(published);
    HalfIsReserved(published, r);
    OneMoreHappens(published, r, Crash(1));
    run := r + [Crash(1)];
    assert RunOf(published, run) == System(s, map[1 := Done]);
    var y, u := NarrowUpToJudging(s, FIRST);
    run := NarrowTurns(published, run, s, y, u);
    assert ReachedPhase(u.agent, FIRST) == PartialExhausted;
    NarrowSteps(u, FIRST, PartialExhausted);
    run := SecondTurns(published, run, u, Done, AbortJudging(FIRST, NARROW), Yes, Moment(u, AbortClosing(FIRST, NARROW, PartialExhausted)));
    w := ClosesPartly(u, FIRST);
    run := SecondTurns(published, run, u, Done, AbortClosing(FIRST, NARROW, PartialExhausted), Yes, Moment(w, Done));
    SameHalf(s, w, FIRST);
  }

  lemma HalfIsReserved(published: PublishedState, r: seq<Happening>)
    requires HalfCommitted(RunOf(published, r).w.agent, FIRST)
    ensures HalfDone(RunOf(published, r).w.agent, FIRST)
  {
    var w := RunOf(published, r).w;
    GoodWorld(published, r);
    hide RunOf, Sound, DoneOk, SlotsOk, PlaneOk, EndedOk, MarksOk, CandidateOk, BaselineOk, HistoryOk, WinsOk;
  }

  lemma SameHalf(s: World, w: World, op: Op)
    requires HalfDone(s.agent, op) && w.agent.done == s.agent.done && w.agent.ended == s.agent.ended
    ensures HalfDone(w.agent, op)
  {
  }

  lemma ClosesPartly(u: World, op: Op) returns (w: World)
    requires Sound(u.agent) && u.agent.journal.Some? && u.agent.journal.value.op == op && !IsTerminal(u.agent.journal.value.phase)
    ensures ActAbortClose(u, op, NARROW, PartialExhausted) == Moment(w, Done)
    ensures Sound(w.agent) && w.agent == u.agent.(journal := Some(Stepped(u.agent.journal.value, PartialExhausted)))
  {
    hide GuardHolds, Sound;
    SavesIt(u.agent, CloseCall(op, PartialExhausted));
    w := After(u, CloseCall(op, PartialExhausted));
  }

  /** The second actor aborts the first plane, up to judging. */
  lemma NarrowTurns(published: PublishedState, r: seq<Happening>, s: World, y: World, u: World) returns (run: seq<Happening>)
    requires RunOf(published, r) == System(s, map[1 := Done])
    requires Act(s, Aborting(FIRST, NARROW, [Http]), Yes) == Moment(s, Aborting(FIRST, NARROW, []))
    requires Act(s, Aborting(FIRST, NARROW, []), Yes) == Moment(s, AbortReleasing(FIRST, NARROW))
    requires Act(s, AbortReleasing(FIRST, NARROW), Yes) == Moment(y, AbortFinishing(FIRST, NARROW))
    requires Act(y, AbortFinishing(FIRST, NARROW), Yes) == Moment(u, AbortJudging(FIRST, NARROW))
    ensures RunOf(published, run) == System(u, Two(Done, AbortJudging(FIRST, NARROW)))
  {
    hide RunOf, Act;
    Begins(published, r, 2, Aborting(FIRST, NARROW, [Http]));
    run := r + [Start(2, Aborting(FIRST, NARROW, [Http]))];
    assert RunOf(published, run) == System(s, Two(Done, Aborting(FIRST, NARROW, [Http])));
    run := SecondTurns(published, run, s, Done, Aborting(FIRST, NARROW, [Http]), Yes, Moment(s, Aborting(FIRST, NARROW, [])));
    run := SecondTurns(published, run, s, Done, Aborting(FIRST, NARROW, []), Yes, Moment(s, AbortReleasing(FIRST, NARROW)));
    run := SecondTurns(published, run, s, Done, AbortReleasing(FIRST, NARROW), Yes, Moment(y, AbortFinishing(FIRST, NARROW)));
    run := SecondTurns(published, run, y, Done, AbortFinishing(FIRST, NARROW), Yes, Moment(u, AbortJudging(FIRST, NARROW)));
  }

  /** Another operation of the same leader activates both planes; the half-done one stays as it is. */
  lemma OtherActivates(published: PublishedState, r: seq<Happening>, w: World) returns (run: seq<Happening>, n: World, op: Op)
    requires RunOf(published, r) == System(w, Two(Done, Done)) && HalfDone(w.agent, FIRST) && w.agent.maxToken == FIRST.id.token
    requires Sound(w.agent) && w.agent.holder.None? && w.agent.journal.Some? && IsTerminal(w.agent.journal.value.phase)
    requires w.agent.journal.value.op == FIRST
    ensures RunOf(published, run) == System(n, Three(Done, Done, Done))
    ensures Sound(n.agent) && HalfDone(n.agent, FIRST) && n.agent.maxToken == FIRST.id.token
    ensures Finished(n.agent, op) && op.id != FIRST.id
  {
    hide RunOf, Goes, Ready, Sound, HalfDone, Finished, OthersApart;
    var v := View(Blind, Some(SEEN));
    op := FitsPlanes(w.agent);
    assert op.id != FIRST.id by { NotTheSame(w.agent, op); }
    Begins(published, r, 3, Reserving(op));
    var r0 := r + [Start(3, Reserving(op))];
    assert RunOf(published, r0) == System(w, Three(Done, Done, Reserving(op)));
    n := QuietRunActivates(v, w, op);
    GoesApart(v, Moment(w, Reserving(op)), Moment(n, Done), op.id);
    var more := GoesIsARun(published, r0, 3, v, Moment(n, Done));
    run := r0 + more;
    assert Three(Done, Done, Reserving(op))[3 := Done] == Three(Done, Done, Done);
    ReachedIsSound(published, run);
    assert r0 + more == r + ([Start(3, Reserving(op))] + more);
    NothingGoesBack(published, r, [Start(3, Reserving(op))] + more);
    HalfStays(w.agent, n.agent, op.id);
  }

  lemma NotTheSame(s: State, op: Op)
    requires Ready(s, op) && s.journal.Some? && s.journal.value.op == FIRST
    ensures op.id != FIRST.id
  {
  }

  lemma GoesApart(v: View, a: Moment, b: Moment, id: Identity)
    requires Goes(v, a, b) && DrivesFor(a.pc, id) && (a.pc.Reserving? ==> JournalClosed(a.w.agent))
    ensures OthersApart(a.w.agent, b.w.agent, id)
  {
    hide Driven, DrivesFor;
    var n: nat :| Driven(a, v, n) == b;
    DriverJudgesOwn(a, v, n, id);
  }

  lemma HalfStays(s: State, n: State, id: Identity)
    requires HalfDone(s, FIRST) && OthersApart(s, n, id) && NeverBack(s, n) && id != FIRST.id
    requires s.maxToken == FIRST.id.token && id.token == s.maxToken
    ensures HalfDone(n, FIRST) && n.maxToken == FIRST.id.token
  {
    assert EndKey(FIRST.id, Http).id != id && EndKey(FIRST.id, Stream).id != id;
    assert EndedHow(n, EndKey(FIRST.id, Http).id, EndKey(FIRST.id, Http).plane) == EndedHow(s, FIRST.id, Http);
    assert EndedHow(n, EndKey(FIRST.id, Stream).id, EndKey(FIRST.id, Stream).plane) == EndedHow(s, FIRST.id, Stream);
  }

  /** Running the half-done operation again replays both reservations and opens its journal. */
  lemma ReservesAgain(u: World, op: Op) returns (x: World)
    requires Sound(u.agent) && u.agent.holder.None? && HalfDone(u.agent, op) && u.agent.maxToken == op.id.token
    requires u.agent.journal.Some? && IsTerminal(u.agent.journal.value.phase) && u.agent.journal.value.op.id != op.id
    ensures Act(u, Reserving(op), Yes) == Moment(x, Head(op))
    ensures HalfDone(x.agent, op) && x.agent.journal == Some(OpeningEntry(op, JournalSeq(u.agent) + 1))
  {
    hide GuardHolds, Sound, ReserveOne;
    var s := u.agent;
    ReplaysOne(s, TupleFor(op, Http));
    ReplaysOne(s, TupleFor(op, Stream));
    SavesIt(s, ReserveAllCall(op));
    x := After(u, ReserveAllCall(op));
  }

  lemma ReplaysOne(s: State, t: Tuple)
    requires Reserved(s.done, t) && t.id.token == s.maxToken
    requires EndedHow(s, t.id, t.plane) == None || EndedHow(s, t.id, t.plane) == Some(EndActivated)
    ensures ReserveOne(s, t) == Accepted(s)
  {
    assert s.(maxToken := Max(s.maxToken, t.id.token)) == s;
  }

  function Five(fourth: Pc, fifth: Pc): map<nat, Pc> { map[1 := Done, 2 := Done, 3 := Done, 4 := fourth, 5 := fifth] }

  /**
   * It happens: an abort over the first plane only, of an operation whose second plane never moved
   * and has no verdict, reads `activated` from the journal of another operation; meanwhile its own
   * operation is run again, and the abort closes that journal as `activated`.
   */
  lemma NarrowAbortActivates(published: PublishedState) returns (run: seq<Happening>)
    ensures var w := RunOf(published, run).w;
      && w.agent.journal.Some? && w.agent.journal.value.op == FIRST && w.agent.journal.value.phase == Activated
      && EndedHow(w.agent, FIRST.id, Stream).None? && !MovedAfterProof(w.log, TupleFor(FIRST, Stream))
      && Occurred(w.log, ClosedOver(FIRST.id, w.agent.journal.value.opening, {Http}))
  {
    hide RunOf, Act, Sound, HalfDone, Finished, Durable, After, ReachedPhase, MovedAfterProof;
    var r, w := ClosesHalf(published);
    var r1, n, op := OtherActivates(published, r, w);
    var u, r2 := JudgesAnother(published, r1, n, op);
    var closing := AbortClosing(FIRST, NARROW, Activated);
    Begins(published, r2, 5, Reserving(FIRST));
    run := r2 + [Start(5, Reserving(FIRST))];
    assert RunOf(published, run) == System(u, Five(closing, Reserving(FIRST)));
    var x := ReservesAgain(u, FIRST);
    run := Turns(published, run, System(u, Five(closing, Reserving(FIRST))), 5, Moment(x, Head(FIRST)));
    assert RunOf(published, run) == System(x, Five(closing, Head(FIRST)));
    run := ClosesOverStream(published, run, x);
  }

  /** The fourth actor aborts the first plane of the half-done operation, and judges by what is there. */
  lemma JudgesAnother(published: PublishedState, r: seq<Happening>, n: World, op: Op) returns (u: World, run: seq<Happening>)
    requires RunOf(published, r) == System(n, Three(Done, Done, Done)) && Sound(n.agent) && Finished(n.agent, op)
    requires HalfDone(n.agent, FIRST) && n.agent.maxToken == FIRST.id.token && op.id != FIRST.id
    ensures RunOf(published, run).w == u && RunOf(published, run).actors == map[1 := Done, 2 := Done, 3 := Done, 4 := AbortClosing(FIRST, NARROW, Activated)]
    ensures Sound(u.agent) && u.agent.holder.None? && HalfDone(u.agent, FIRST) && u.agent.maxToken == FIRST.id.token
    ensures u.agent.journal.Some? && IsTerminal(u.agent.journal.value.phase) && u.agent.journal.value.op.id != FIRST.id
  {
    hide RunOf, Act, Sound, ReachedPhase;
    FinishedParts(n.agent, op);
    hide Finished;
    var y, j := NarrowUpToJudging(n, FIRST);
    u := j;
    SamePlanesReach(n.agent, u.agent, op);
    NarrowSteps(u, FIRST, Failed);
    var four := map[1 := Done, 2 := Done, 3 := Done, 4 := Aborting(FIRST, NARROW, [Http])];
    Begins(published, r, 4, Aborting(FIRST, NARROW, [Http]));
    run := r + [Start(4, Aborting(FIRST, NARROW, [Http]))];
    assert RunOf(published, run) == System(n, four);
    run := Turns(published, run, System(n, four), 4, Moment(n, Aborting(FIRST, NARROW, [])));
    run := Turns(published, run, System(n, four[4 := Aborting(FIRST, NARROW, [])]), 4, Moment(n, AbortReleasing(FIRST, NARROW)));
    assert four[4 := Aborting(FIRST, NARROW, [])][4 := AbortReleasing(FIRST, NARROW)] == four[4 := AbortReleasing(FIRST, NARROW)];
    run := Turns(published, run, System(n, four[4 := AbortReleasing(FIRST, NARROW)]), 4, Moment(y, AbortFinishing(FIRST, NARROW)));
    assert four[4 := AbortReleasing(FIRST, NARROW)][4 := AbortFinishing(FIRST, NARROW)] == four[4 := AbortFinishing(FIRST, NARROW)];
    run := Turns(published, run, System(y, four[4 := AbortFinishing(FIRST, NARROW)]), 4, Moment(u, AbortJudging(FIRST, NARROW)));
    assert four[4 := AbortFinishing(FIRST, NARROW)][4 := AbortJudging(FIRST, NARROW)] == four[4 := AbortJudging(FIRST, NARROW)];
    run := Turns(published, run, System(u, four[4 := AbortJudging(FIRST, NARROW)]), 4, Moment(u, AbortClosing(FIRST, NARROW, Activated)));
  }

  lemma FinishedParts(s: State, op: Op)
    requires Finished(s, op)
    ensures s.holder.None? && s.journal.Some? && s.journal.value.op == op && IsTerminal(s.journal.value.phase)
    ensures ReachedPhase(s, op) == Activated
  {
  }

  /** The close: exactly what `ClosesTrulyExactly` says of a plane that is left out and has no verdict. */
  lemma ClosesOverStream(published: PublishedState, r: seq<Happening>, x: World) returns (run: seq<Happening>)
    requires RunOf(published, r) == System(x, Five(AbortClosing(FIRST, NARROW, Activated), Head(FIRST)))
    requires HalfDone(x.agent, FIRST) && x.agent.journal.Some? && x.agent.journal.value.op == FIRST && !IsTerminal(x.agent.journal.value.phase)
    ensures var w := RunOf(published, run).w;
      && w.agent.journal.Some? && w.agent.journal.value.op == FIRST && w.agent.journal.value.phase == Activated
      && EndedHow(w.agent, FIRST.id, Stream).None? && !MovedAfterProof(w.log, TupleFor(FIRST, Stream))
      && Occurred(w.log, ClosedOver(FIRST.id, w.agent.journal.value.opening, {Http}))
  {
    hide RunOf, Act, MovedAfterProof;
    var pc := AbortClosing(FIRST, NARROW, Activated);
    var m := Act(x, pc, Yes);
    GoodWorld(published, r);
    CloseActivates(x, pc, Yes);
    run := Turns(published, r, RunOf(published, r), 4, m);
    assert Declared(NARROW) == {Http};
    assert m.w.log[|x.log|] == ClosedOver(FIRST.id, x.agent.journal.value.opening, {Http});
    GoodWorld(published, run);
    StillNoVerdict(x, pc, m.w);
    NoVerdictNoMove(m.w, FIRST);
  }

  lemma StillNoVerdict(x: World, pc: Pc, w: World)
    requires pc == AbortClosing(FIRST, NARROW, Activated) && w == Act(x, pc, Yes).w && HalfDone(x.agent, FIRST)
    ensures EndedHow(w.agent, FIRST.id, Stream).None?
  {
    hide GuardHolds, Act;
    NarrowSteps(x, FIRST, Activated);
  }

  lemma NoVerdictNoMove(w: World, op: Op)
    requires Good(w) && EndedHow(w.agent, op.id, Stream).None?
    ensures !MovedAfterProof(w.log, TupleFor(op, Stream))
  {
    hide MovedAfterProof;
    if MovedAfterProof(w.log, TupleFor(op, Stream)) { MovedIsActivated(w, TupleFor(op, Stream)); }
  }

  lemma MovedIsActivated(w: World, t: Tuple)
    requires Good(w) && MovedAfterProof(w.log, t)
    ensures IsActivated(w.agent.ended, EndKeyOf(t))
  {
    var f, saw, c :| 0 <= f < saw < c < |w.log| && MoveStory(w.log[f], w.log[saw], w.log[c], t);
    assert IsActivated(w.agent.ended, EndKeyOf(w.log[c].tuple));
  }
}
