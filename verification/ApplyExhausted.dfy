/**
 * Can an operation be closed as partially exhausted although both its planes moved (src/dp/apply.ts,
 * `partially_activated`)?  Not while the driver loops take turns: then, in every run, crashed,
 * recovered and aborted anywhere, an open partial activation has exactly one activated plane.
 */
module ApplyExhausted {
  import opened Wrappers
  import opened Operation
  import opened Agent
  import opened AgentGuard
  import opened ApplyMachine
  import opened ApplyInvariant
  import opened ApplySafety
  import opened ApplySteps
  import opened ApplyTheorems
  import opened ApplyTidy
  import opened ApplyBooks
  import opened ApplyCrash
  import opened ApplyRecovery

  // ------------------------------------------------------------------ loops that take turns

  /** In the middle of an iteration, or about to write what one came to. */
  predicate Drives(pc: Pc) { (HasTurn(pc) && !pc.Closing?) || pc.Writing? }

  ghost predicate OneDrives(sys: System) {
    forall a, b | a in sys.actors && b in sys.actors && a != b :: !(Drives(sys.actors[a]) && Drives(sys.actors[b]))
  }

  /** At no moment of the run two actors are inside an iteration. */
  ghost predicate TakesTurns(published: PublishedState, run: seq<Happening>) {
    forall k: nat | k <= |run| :: OneDrives(RunOf(published, run[..k]))
  }

  // ------------------------------------------------------------------ what the ledger says of a half

  predicate Over(s: State, id: Identity, p: Plane) { IsActivated(s.ended, EndKey(id, p)) }

  predicate Half(s: State, id: Identity) { Over(s, id, Http) != Over(s, id, Stream) }

  predicate OutOfDate(s: State, id: Identity) { id.token < s.maxToken }

  predicate SaysPartly(s: State) { s.journal.Some? && s.journal.value.phase == PartiallyActivated }

  /** An open partial activation has exactly one activated plane. */
  predicate HalfIsOpen(s: State) { SaysPartly(s) ==> Half(s, s.journal.value.op.id) }

  /** The round counted this plane as what it is; a leader out of date may have been refused for that alone. */
  predicate Counted(s: State, id: Identity, progress: PerPlane<Progress>, p: Plane) {
    if progress.At(p) == PlaneCommitted then Over(s, id, p) else !Over(s, id, p) || OutOfDate(s, id)
  }

  predicate Honest(pc: Pc, s: State) {
    if pc.Writing? then pc.entry.phase == PartiallyActivated ==> Half(s, pc.entry.op.id) || OutOfDate(s, pc.entry.op.id)
    else Drives(pc) ==>
      && pc.turn.j.phase != PartiallyActivated && !SaysPartly(s)
      && (pc.Committing? ==> forall p: Plane | p !in pc.todo :: Counted(s, pc.turn.j.op.id, pc.progress, p))
  }

  // ------------------------------------------------------------------ sections that neither commit nor write

  ghost predicate SameOver(s: State, n: State) { forall id: Identity, p: Plane :: Over(n, id, p) == Over(s, id, p) }

  /** No activation comes or goes, no token is taken back, and no partial activation is opened. */
  ghost predicate Quietly(s: State, n: State) {
    && SameOver(s, n) && s.maxToken <= n.maxToken && (SaysPartly(n) ==> n.journal == s.journal)
  }

  lemma QuietKeeps(s: State, n: State, pc: Pc)
    requires Quietly(s, n)
    ensures HalfIsOpen(s) ==> HalfIsOpen(n)
    ensures Honest(pc, s) ==> Honest(pc, n)
  {
    hide Over, IsActivated;
    if pc.Writing? {
      assert Over(n, pc.entry.op.id, Http) == Over(s, pc.entry.op.id, Http) && Over(n, pc.entry.op.id, Stream) == Over(s, pc.entry.op.id, Stream);
    } else if Drives(pc) && Honest(pc, s) && pc.Committing? {
      forall p: Plane | p !in pc.todo ensures Counted(n, pc.turn.j.op.id, pc.progress, p) {
        assert Over(n, pc.turn.j.op.id, p) == Over(s, pc.turn.j.op.id, p);
      }
    }
    if SaysPartly(n) {
      assert Over(n, n.journal.value.op.id, Http) == Over(s, n.journal.value.op.id, Http);
      assert Over(n, n.journal.value.op.id, Stream) == Over(s, n.journal.value.op.id, Stream);
    }
  }

  lemma VerdictsSame(s: State, n: State)
    requires VerdictsStay(s, n)
    ensures SameOver(s, n)
  {
  }

  /** Whatever a section does but commit and write. */
  lemma QuietSection(s: State, c: Call)
    requires !c.CommitCall? && !c.WriteCall? && (c.CloseCall? ==> c.how != PartiallyActivated) && Durable(s, c).Saved?
    ensures Quietly(s, Durable(s, c).state)
  {
    hide GuardHolds, SameOver, ReserveAll, StageSlot, EndPlane, ApplyHealth, FinishOperation, WithoutOwned, Fence;
    var n := Durable(s, c).state;
    match c
    case ReserveAllCall(op) => ReserveQuietly(s, op);
    case StageCall(t) => TupleTokens(s, c); StageQuietly(s, t);
    case FailCall(t) => TupleTokens(s, c); EndQuietly(s, t, EndFailed);
    case AbortCall(t) => TupleTokens(s, c); EndQuietly(s, t, EndAborted);
    case HealthCall(t) => TupleTokens(s, c); HealthQuietly(s, t);
    case FenceCall(token) => FenceQuietly(s, token);
    case _ => ControlLeaves(s, c); ControlTokens(s, c); VerdictsSame(s, n); ControlQuietly(s, c);
  }

  lemma ControlQuietly(s: State, c: Call)
    requires Mutate(s, c).Accepted? && (c.CloseCall? ==> c.how != PartiallyActivated)
    requires c.ReclaimCall? || c.FinishCall? || c.CloseCall? || c.ReleaseStaleCall? || c.ReleaseIdleCall? || c.ReleaseHolderCall? || c.IntentCall?
    ensures var n := Mutate(s, c).state; SaysPartly(n) ==> n.journal == s.journal
  {
    hide WithoutOwned, FinishOperation;
    if c.FinishCall? { FinishLeaves(s, c.op, c.release); }
  }

  lemma ReserveQuietly(s: State, op: Op)
    requires ReserveAll(s, op).Accepted?
    ensures Quietly(s, ReserveAll(s, op).state)
  {
    hide ReserveOne, SameOver, SweepOrphan;
    var s0 := SweepOrphan(s, op);
    var s1 := ReserveOne(s0, TupleFor(op, Http)).state;
    var s2 := ReserveOne(s1, TupleFor(op, Stream)).state;
    SweepStays(s, op);
    VerdictsSame(s, s0);
    SweepToken(s, op);
    SweepQuietly(s, op);
    ReserveToken(s0, TupleFor(op, Http));
    ReserveToken(s1, TupleFor(op, Stream));
    ReserveOneStays(s0, TupleFor(op, Http));
    ReserveOneStays(s1, TupleFor(op, Stream));
    assert ReserveAll(s, op).state.ended == s0.ended;
    SameVerdicts(s, s0, ReserveAll(s, op).state);
  }

  lemma SameVerdicts(s: State, a: State, n: State)
    requires SameOver(s, a) && n.ended == a.ended
    ensures SameOver(s, n)
  {
    forall id: Identity, p: Plane ensures Over(n, id, p) == Over(s, id, p) { assert Over(a, id, p) == Over(s, id, p); }
  }

  lemma SweepQuietly(s: State, op: Op)
    ensures SaysPartly(SweepOrphan(s, op)) ==> SweepOrphan(s, op).journal == s.journal
  {
    hide FinalizeCandidate, WithoutOwned;
  }

  lemma StageQuietly(s: State, t: Tuple)
    requires StageSlot(s, t).Accepted?
    ensures SameOver(s, StageSlot(s, t).state)
  {
  }

  lemma EndQuietly(s: State, t: Tuple, how: Ended)
    requires EndPlane(s, t, how).Accepted? && how != EndActivated
    ensures SameOver(s, EndPlane(s, t, how).state)
  {
  }

  lemma HealthQuietly(s: State, t: Tuple)
    requires ApplyHealth(s, t).Accepted?
    ensures SameOver(s, ApplyHealth(s, t).state)
  {
  }

  lemma FenceQuietly(s: State, token: nat)
    requires Fence(s, token).Accepted?
    ensures Quietly(s, Fence(s, token).state)
  {
    hide FinalizeCandidate, WithoutOwned;
    if s.holder.Some? { FinalizeLeaves(s.(maxToken := token), s.holder.value.id); }
  }

  // ------------------------------------------------------------------ the two other sections

  /** A write is refused to a leader out of date, and otherwise leaves its entry. */
  lemma WriteLeaves(s: State, entry: Journal)
    requires Durable(s, WriteCall(entry)).Saved?
    ensures Durable(s, WriteCall(entry)).state == s.(journal := Some(entry)) && !OutOfDate(s, entry.op.id)
  {
    hide GuardHolds;
  }

  /** A commit decides its own plane. */
  lemma CommitCounts(s: State, t: Tuple, e: Evidence)
    requires Booked(s) && Neat(s) && Reserved(s.done, t) && t.id.token <= s.maxToken
    ensures var d := Durable(s, CommitCall(t, e));
      && (d.Refusal? ==> !Over(s, t.id, t.plane) || OutOfDate(s, t.id))
      && (d.Saved? ==> Over(d.state, t.id, t.plane) && d.state.journal == s.journal && s.maxToken <= d.state.maxToken)
      && (d.Saved? ==> forall id: Identity, p: Plane | id != t.id || p != t.plane :: Over(d.state, id, p) == Over(s, id, p))
  {
    hide GuardHolds, MoveRefusal, AlreadyThere, Booked, NeatSlots;
    var c := CommitCall(t, e);
    if t.id.token == s.maxToken { CommitAnswers(s, t, e); }
    if Durable(s, c).Saved? { TupleTokens(s, c); }
  }

  // ------------------------------------------------------------------ one step

  predicate CountsPlane(pc: Pc) { pc.Committing? && pc.todo != [] }

  /** Where an actor stands next is honest of the state it read. */
  lemma NextIsHonest(w: World, pc: Pc, answer: Answer)
    requires Honest(pc, w.agent) && !pc.Writing? && !CountsPlane(pc)
    ensures Honest(Act(w, pc, answer).pc, w.agent)
  {
    hide Act, ActStage, ActReload, ActCommit, ActAbort, ActFail, Honest;
    Delegates(w, pc, answer);
    if pc.Staging? || pc.Loading? { StageNext(w, pc, answer); }
    else if pc.ReadingWorld? || pc.Winning? || pc.Signalling? || pc.Awaiting? { ReloadNext(w, pc, answer); }
    else if pc.Confirming? || pc.Proving? || pc.Committing? { CommitNext(w, pc, answer); }
    else if AbortPc(pc) || FailPc(pc) { EndingNext(w, pc); }
    else { PlainNext(w, pc, answer); }
  }

  lemma StageNext(w: World, pc: Pc, answer: Answer)
    requires Honest(pc, w.agent) && (pc.Staging? || pc.Loading?)
    ensures Honest(ActStage(w, pc, answer).pc, w.agent)
  {
    hide Durable, OwnsJournal, After;
  }

  lemma ReloadNext(w: World, pc: Pc, answer: Answer)
    requires Honest(pc, w.agent) && (pc.ReadingWorld? || pc.Winning? || pc.Signalling? || pc.Awaiting?)
    ensures Honest(ActReload(w, pc, answer).pc, w.agent)
  {
    hide Durable, ProvesActivation, After, Half, Counted;
  }

  lemma CommitNext(w: World, pc: Pc, answer: Answer)
    requires Honest(pc, w.agent) && (pc.Confirming? || pc.Proving? || pc.Committing?) && !CountsPlane(pc)
    ensures Honest(ActCommit(w, pc, answer).pc, w.agent)
  {
    hide Durable, ProvesActivation, PublishedByMe, After, Over, IsActivated;
    if pc.Committing? {
      assert Counted(w.agent, pc.turn.j.op.id, pc.progress, Http) && Counted(w.agent, pc.turn.j.op.id, pc.progress, Stream);
    } else if pc.Proving? {
      forall p: Plane ensures p in PLANES { assert p == Http || p == Stream; assert PLANES == [Http, Stream]; }
    }
  }

  lemma EndingNext(w: World, pc: Pc)
    requires Honest(pc, w.agent) && (AbortPc(pc) || FailPc(pc))
    ensures Honest((if AbortPc(pc) then ActAbort(w, pc) else ActFail(w, pc)).pc, w.agent)
  {
    hide Durable, MovedByMe, After, Half, Counted;
  }

  lemma PlainNext(w: World, pc: Pc, answer: Answer)
    requires Honest(pc, w.agent)
    requires ControlPc(pc) || pc.Done? || pc.Recovering? || pc.Head? || pc.Preflighting? || pc.LookingUp? || pc.Publishing?
    requires !pc.Writing?
    ensures Honest(Act(w, pc, answer).pc, w.agent)
  {
    hide ActStage, ActReload, ActCommit, ActAbort, ActFail, Durable, AssertOwnership, PublishedByMe, ClosedTransition,
         ReachedPhase, After, Half, Counted;
  }

  /** The write of an honest entry. */
  lemma WriteKeeps(w: World, pc: Pc, answer: Answer)
    requires pc.Writing? && Honest(pc, w.agent) && HalfIsOpen(w.agent)
    ensures var m := Act(w, pc, answer); Honest(m.pc, m.w.agent) && HalfIsOpen(m.w.agent)
  {
    hide Durable, Half, After, Act;
    ActSaves(w, pc, answer);
    WriteGoesOn(w, pc, answer);
    if Durable(w.agent, WriteCall(pc.entry)).Saved? { WriteLeaves(w.agent, pc.entry); SameHalves(w.agent, pc.entry); }
  }

  lemma WriteGoesOn(w: World, pc: Pc, answer: Answer)
    requires pc.Writing?
    ensures !Drives(Act(w, pc, answer).pc)
  {
    hide Durable, After;
  }

  lemma SameHalves(s: State, entry: Journal)
    ensures Half(s.(journal := Some(entry)), entry.op.id) == Half(s, entry.op.id)
  {
  }

  /** The write that counts an attempt keeps the phase. */
  lemma WinKeeps(w: World, pc: Pc, answer: Answer)
    requires pc.Winning? && Honest(pc, w.agent) && HalfIsOpen(w.agent)
    ensures var m := Act(w, pc, answer); Honest(m.pc, m.w.agent) && HalfIsOpen(m.w.agent)
  {
    hide Durable, Half, Counted, GuardHolds;
    var entry := Stepped(pc.turn.j, pc.turn.j.phase).(attempts := pc.turn.j.attempts + 1);
    if Durable(w.agent, WriteCall(entry)).Saved? { WriteLeaves(w.agent, entry); }
  }

  /** A commit step counts its plane as what it is. */
  lemma CommitKeeps(w: World, pc: Pc, answer: Answer)
    requires CountsPlane(pc) && Honest(pc, w.agent) && HalfIsOpen(w.agent)
    requires Booked(w.agent) && Neat(w.agent) && ReservedOp(w.agent.done, pc.turn.j.op) && pc.turn.j.op.id.token <= w.agent.maxToken
    ensures var m := Act(w, pc, answer); Honest(m.pc, m.w.agent) && HalfIsOpen(m.w.agent)
  {
    hide Durable, Booked, Neat, Over, CommitMoves, After, Act;
    var t := TupleFor(pc.turn.j.op, pc.todo[0]);
    CommitCounts(w.agent, t, pc.proof);
    CommitGoesOn(w, pc, answer);
    var m := Act(w, pc, answer);
    if m.pc.Committing? {
      forall p: Plane | p !in m.pc.todo ensures Counted(m.w.agent, m.pc.turn.j.op.id, m.pc.progress, p) {
        if p != t.plane { assert p !in pc.todo; assert Counted(w.agent, t.id, pc.progress, p); }
      }
    }
  }

  /** What the step makes of world and plane. */
  lemma CommitGoesOn(w: World, pc: Pc, answer: Answer)
    requires CountsPlane(pc)
    ensures var d := Durable(w.agent, CommitCall(TupleFor(pc.turn.j.op, pc.todo[0]), pc.proof)); var m := Act(w, pc, answer);
      && m.w.agent == (if d.Saved? then d.state else w.agent)
      && m.pc == (if d.Tripped? then Done
                  else Committing(pc.turn, pc.proof, pc.saw, Put(pc.progress, pc.todo[0], if d.Saved? then PlaneCommitted else PlaneFailed), pc.todo[1..]))
  {
    hide Durable, CommitMoves;
  }

  /** Any other step saves at most a section that neither commits nor writes. */
  lemma OtherKeeps(w: World, pc: Pc, answer: Answer)
    requires !pc.Writing? && !pc.Winning? && !CountsPlane(pc) && PcOk(pc, w.agent, w.log)
    ensures Quietly(w.agent, Act(w, pc, answer).w.agent)
  {
    hide Act, Durable, Unmarked, Occurred, Proven, EntryTrue, ProgressOk, Quietly;
    ActSaves(w, pc, answer);
    if Act(w, pc, answer).w.agent != w.agent {
      QuietSection(w.agent, CallOf(pc).value);
    } else {
      NothingHappens(w.agent);
    }
  }

  lemma NothingHappens(s: State)
    ensures Quietly(s, s)
  {
  }

  lemma OwnStep(w: World, pc: Pc, answer: Answer)
    requires Honest(pc, w.agent) && HalfIsOpen(w.agent) && PcOk(pc, w.agent, w.log)
    requires Booked(w.agent) && Neat(w.agent) && DoneBelow(w.agent)
    ensures var m := Act(w, pc, answer); Honest(m.pc, m.w.agent) && HalfIsOpen(m.w.agent)
  {
    hide Act, Honest, HalfIsOpen, PcOk, Booked, Neat, DoneBelow, Quietly;
    if pc.Writing? { WriteKeeps(w, pc, answer); }
    else if pc.Winning? { WinKeeps(w, pc, answer); }
    else if CountsPlane(pc) { TurnIsReserved(w, pc); CommitKeeps(w, pc, answer); }
    else {
      NextIsHonest(w, pc, answer);
      OtherKeeps(w, pc, answer);
      QuietKeeps(w.agent, Act(w, pc, answer).w.agent, Act(w, pc, answer).pc);
    }
  }

  lemma TurnIsReserved(w: World, pc: Pc)
    requires CountsPlane(pc) && PcOk(pc, w.agent, w.log) && DoneBelow(w.agent)
    ensures ReservedOp(w.agent.done, pc.turn.j.op) && pc.turn.j.op.id.token <= w.agent.maxToken
  {
    hide Unmarked, Occurred, Proven, ProgressOk;
    BackedToken(w.agent, pc.turn.j.op);
  }

  // ------------------------------------------------------------------ every run

  predicate Fair(sys: System) {
    HalfIsOpen(sys.w.agent) && forall a | a in sys.actors :: Honest(sys.actors[a], sys.w.agent)
  }

  lemma IdleIsHonest(pc: Pc, s: State)
    requires !Drives(pc)
    ensures Honest(pc, s)
  {
  }

  lemma TurnIsFair(sys: System, who: nat, answer: Answer)
    requires Fair(sys) && OneDrives(sys) && SystemOk(sys) && TidySystem(sys) && who in sys.actors
    ensures Fair(Happened(sys, Turned(who, answer)))
  {
    hide Act, Honest, HalfIsOpen, PcOk, Booked, Neat, Tidy, DoneBelow, Quietly, Drives, Good;
    var w, pc := sys.w, sys.actors[who];
    var m := Act(w, pc, answer);
    OwnStep(w, pc, answer);
    forall b | b in sys.actors && b != who ensures Honest(sys.actors[b], m.w.agent) {
      if Drives(pc) {
        IdleIsHonest(sys.actors[b], m.w.agent);
      } else {
        IdleSavesQuietly(w, pc, answer);
        QuietKeeps(w.agent, m.w.agent, sys.actors[b]);
      }
    }
  }

  lemma IdleSavesQuietly(w: World, pc: Pc, answer: Answer)
    requires !Drives(pc) && PcOk(pc, w.agent, w.log)
    ensures Quietly(w.agent, Act(w, pc, answer).w.agent)
  {
    hide Act, PcOk, Quietly;
    OtherKeeps(w, pc, answer);
  }

  lemma HappensFairly(sys: System, h: Happening)
    requires Fair(sys) && OneDrives(sys) && SystemOk(sys) && TidySystem(sys)
    ensures Fair(Happened(sys, h))
  {
    hide Act, Honest, HalfIsOpen, Durable, Quietly, OneDrives, SystemOk, TidySystem;
    match h
    case Turned(who, answer) => if who in sys.actors { TurnIsFair(sys, who, answer); }
    case FencedBy(token) => OutsideIsQuiet(sys, FenceCall(token));
    case HealthMoved(t) => OutsideIsQuiet(sys, HealthCall(t));
    case Start(who, pc) => if IsEntry(pc) { IdleIsHonest(pc, sys.w.agent); }
    case Crash(who) => IdleIsHonest(Done, sys.w.agent);
    case Drift(_) =>
  }

  lemma OutsideIsQuiet(sys: System, c: Call)
    requires Fair(sys) && (c.FenceCall? || c.HealthCall?)
    ensures Fair(sys.(w := After(sys.w, c)))
  {
    hide Honest, HalfIsOpen, Durable, Quietly;
    if Durable(sys.w.agent, c).Saved? {
      QuietSection(sys.w.agent, c);
      var n := After(sys.w, c).agent;
      forall a | a in sys.actors ensures Honest(sys.actors[a], n) && HalfIsOpen(n) { QuietKeeps(sys.w.agent, n, sys.actors[a]); }
      QuietKeeps(sys.w.agent, n, Done);
    }
  }

  lemma {:induction false} EveryTurnIsFair(published: PublishedState, run: seq<Happening>)
    requires TakesTurns(published, run)
    ensures Fair(RunOf(published, run))
    decreases |run|
  {
    hide Fair, Happened, OneDrives, TidySystem, SystemOk;
    if run == [] {
      StartIsFair(published);
    } else {
      var front := run[..|run| - 1];
      forall k: nat | k <= |front| ensures OneDrives(RunOf(published, front[..k])) { assert front[..k] == run[..k]; }
      EveryTurnIsFair(published, front);
      EveryRunIsGood(published, front);
      EveryRunStaysTidy(published, front);
      assert front[..|front|] == front;
      HappensFairly(RunOf(published, front), run[|run| - 1]);
    }
  }

  lemma StartIsFair(published: PublishedState)
    ensures Fair(RunOf(published, []))
  {
  }

  // ------------------------------------------------------------------ the answer for loops that take turns

  predicate BothMoved(s: State, op: Op) { MovedByMe(s, op, Http) && MovedByMe(s, op, Stream) }

  lemma HalfIsNotBoth(s: State, op: Op)
    requires Booked(s) && Half(s, op.id)
    ensures !BothMoved(s, op)
  {
    hide MovedByMe, Booked;
    if MovedByMe(s, op, Http) { MovedIsLedgered(s, op, Http); }
    if MovedByMe(s, op, Stream) { MovedIsLedgered(s, op, Stream); }
  }

  lemma CommitLeavesJournal(s: State, c: Call)
    requires c.CommitCall? && Durable(s, c).Saved?
    ensures Durable(s, c).state.journal == s.journal
  {
    hide GuardHolds, Mutate;
    TupleTokens(s, c);
  }

  /** The step that closes an open partial activation leaves the ledger alone. */
  lemma ClosingIsQuiet(w: World, pc: Pc, answer: Answer)
    requires PcOk(pc, w.agent, w.log) && Act(w, pc, answer).w.agent.journal != w.agent.journal
    ensures SameOver(w.agent, Act(w, pc, answer).w.agent)
  {
    hide Act, Durable, PcOk, Over, IsActivated;
    ActSaves(w, pc, answer);
    if pc.Writing? || pc.Winning? {
      WriteLeaves(w.agent, CallOf(pc).value.entry);
      SameVerdicts(w.agent, w.agent, Act(w, pc, answer).w.agent);
    }
    else if CountsPlane(pc) { CommitLeavesJournal(w.agent, CallOf(pc).value); }
    else { OtherKeeps(w, pc, answer); }
  }

  /**
   * Loops taking turns, in every run: an open partial activation has exactly one activated plane,
   * and when the next thing that happens closes it as partially exhausted, by whatever hand, that
   * is still so, and the operation has not moved both planes.
   */
  lemma ExhaustedIsHalf(published: PublishedState, run: seq<Happening>, h: Happening)
    requires TakesTurns(published, run) && SaysPartly(RunOf(published, run).w.agent)
    ensures var s, n := RunOf(published, run).w.agent, RunOf(published, run + [h]).w.agent;
      var op := s.journal.value.op;
      && Half(s, op.id) && !BothMoved(s, op)
      && (n.journal.Some? && n.journal.value.phase == PartialExhausted ==> Half(n, op.id) && !BothMoved(n, op))
  {
    hide RunOf, Act, PcOk, Booked, Tidy, Neat, Honest, MovedByMe, Over, TakesTurns, OneDrives, Durable, Good;
    var sys := RunOf(published, run);
    EveryTurnIsFair(published, run);
    EveryRunIsTidy(published, run);
    EveryRunIsTidy(published, run + [h]);
    EveryRunIsGood(published, run);
    OneMoreHappens(published, run, h);
    var s, n := sys.w.agent, RunOf(published, run + [h]).w.agent;
    HalfIsNotBoth(s, s.journal.value.op);
    if n.journal.Some? && n.journal.value.phase == PartialExhausted {
      match h {
        case Turned(who, answer) => ClosingIsQuiet(sys.w, sys.actors[who], answer);
        case FencedBy(token) => QuietSection(s, FenceCall(token));
        case HealthMoved(t) => QuietSection(s, HealthCall(t));
        case _ =>
      }
      assert Over(n, s.journal.value.op.id, Http) == Over(s, s.journal.value.op.id, Http);
      assert Over(n, s.journal.value.op.id, Stream) == Over(s, s.journal.value.op.id, Stream);
      HalfIsNotBoth(n, s.journal.value.op);
    }
  }
}
