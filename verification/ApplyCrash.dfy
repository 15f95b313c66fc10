/**
 * What every run leaves behind, crashed anywhere: the durable state is tidy and neat, so a
 * runner that starts on it finds what it relies on.
 */
module ApplyCrash {
  import opened Wrappers
  import opened Operation
  import opened Agent
  import opened AgentGuard
  import opened ApplyMachine
  import opened ApplyInvariant
  import opened ApplySafety
  import opened ApplySteps
  import opened ApplyTheorems
  import opened ApplyTidy
  import opened ApplyBooks

  // ------------------------------------------------------------------ one step saves one section

  /** The section an actor is about to save, if any. */
  function CallOf(pc: Pc): Option<Call> {
    match pc
    case Reserving(op) => Some(ReserveAllCall(op))
    case ReleasingIdle => Some(ReleaseIdleCall)
    case ClosingStale(op) => Some(CloseCall(op, Superseded))
    case ReleasingStale(op) => Some(ReleaseStaleCall(op))
    case Reclaiming(op) => Some(ReclaimCall(op))
    case Finishing(op, release, _) => Some(FinishCall(op, release))
    case Closing(turn, how) => Some(CloseCall(turn.j.op, how))
    case Writing(entry, _) => Some(WriteCall(entry))
    case Intending(turn) => Some(IntentCall(RecordOf(turn.j.op)))
    case Staging(turn, _, todo, _) => if todo == [] then None else Some(StageCall(TupleFor(turn.j.op, todo[0])))
    case Winning(turn, _) => Some(WriteCall(Stepped(turn.j, turn.j.phase).(attempts := turn.j.attempts + 1)))
    case Committing(turn, proof, _, _, todo) => if todo == [] then None else Some(CommitCall(TupleFor(turn.j.op, todo[0]), proof))
    case FailingPlane(j, _, todo, _) => if todo == [] then None else Some(FailCall(TupleFor(j.op, todo[0])))
    case Aborting(op, _, todo) => if todo == [] then None else Some(AbortCall(TupleFor(op, todo[0])))
    case AbortReleasing(op, _) => Some(ReleaseHolderCall(op))
    case AbortFinishing(op, e) => Some(FinishCall(op, Declared(e)))
    case AbortClosing(op, _, how) => Some(CloseCall(op, how))
    case _ => None
  }

  ghost predicate SavesAtMost(s: State, n: State, c: Option<Call>) {
    n == s || (c.Some? && Durable(s, c.value).Saved? && n == Durable(s, c.value).state)
  }

  /** Only a recovery comes to reclaim, and an abort stays one of the same envelope. */
  ghost predicate ComesFrom(w: World, pc: Pc, next: Pc) {
    && (next.Reclaiming? ==> pc.Recovering? && next == AtRecover(w.agent))
    && (AbortPc(next) ==> AbortPc(pc) && next.op == pc.op && next.envelope == pc.envelope)
  }

  /** One step saves its section or leaves the durable state alone. */
  lemma ActSaves(w: World, pc: Pc, answer: Answer)
    ensures var m := Act(w, pc, answer);
      SavesAtMost(w.agent, m.w.agent, CallOf(pc)) && ComesFrom(w, pc, m.pc)
  {
    hide Act, ActStage, ActReload, ActCommit, ActAbort, ActFail, Durable, AtHead, AtRecover, SavesAtMost, CallOf;
    Delegates(w, pc, answer);
    if pc.Staging? || pc.Loading? { StageSaves(w, pc, answer); }
    else if pc.ReadingWorld? || pc.Winning? || pc.Signalling? || pc.Awaiting? { ReloadSaves(w, pc, answer); }
    else if pc.Confirming? || pc.Proving? || pc.Committing? { CommitSaves(w, pc, answer); }
    else if AbortPc(pc) || FailPc(pc) { EndingSaves(w, pc); }
    else { PlainSaves(w, pc, answer); }
  }

  lemma Delegates(w: World, pc: Pc, answer: Answer)
    ensures pc.Staging? || pc.Loading? ==> Act(w, pc, answer) == ActStage(w, pc, answer)
    ensures pc.ReadingWorld? || pc.Winning? || pc.Signalling? || pc.Awaiting? ==> Act(w, pc, answer) == ActReload(w, pc, answer)
    ensures pc.Confirming? || pc.Proving? || pc.Committing? ==> Act(w, pc, answer) == ActCommit(w, pc, answer)
    ensures FailPc(pc) ==> Act(w, pc, answer) == ActFail(w, pc)
    ensures AbortPc(pc) ==> Act(w, pc, answer) == ActAbort(w, pc)
  {
    hide ActStage, ActReload, ActCommit, ActAbort, ActFail, Durable, AtHead, AtRecover, FailingPc, TimedOut,
         AssertOwnership, PublishedByMe, Must;
  }

  lemma PlainSaves(w: World, pc: Pc, answer: Answer)
    requires ControlPc(pc) || pc.Done? || pc.Recovering? || pc.Head? || pc.Writing? || pc.Preflighting? || pc.LookingUp? || pc.Publishing?
    ensures var m := Act(w, pc, answer);
      SavesAtMost(w.agent, m.w.agent, CallOf(pc)) && ComesFrom(w, pc, m.pc)
  {
    hide ActStage, ActReload, ActCommit, ActAbort, ActFail, Durable, AtHead, AtRecover, FailingPc, TimedOut,
         AssertOwnership, PublishedByMe;
    HeadComesFrom(w, pc);
  }

  lemma HeadComesFrom(w: World, pc: Pc)
    ensures pc.Head? ==> ComesFrom(w, pc, AtHead(w.agent, pc.bound, |w.log|))
    ensures !AbortPc(AtRecover(w.agent))
    ensures forall turn: Turn :: ComesFrom(w, pc, FailingPc(turn))
    ensures forall bound: Op :: ComesFrom(w, pc, TimedOut(w.agent, bound))
  {
    hide ClosedTransition, AssertOwnership, ReachedPhase;
  }

  lemma StageSaves(w: World, pc: Pc, answer: Answer)
    requires pc.Staging? || pc.Loading?
    ensures var m := ActStage(w, pc, answer); SavesAtMost(w.agent, m.w.agent, CallOf(pc)) && ComesFrom(w, pc, m.pc)
  {
    hide Durable, OwnsJournal;
  }

  lemma ReloadSaves(w: World, pc: Pc, answer: Answer)
    requires pc.ReadingWorld? || pc.Winning? || pc.Signalling? || pc.Awaiting?
    ensures var m := ActReload(w, pc, answer); SavesAtMost(w.agent, m.w.agent, CallOf(pc)) && ComesFrom(w, pc, m.pc)
  {
    hide Durable, OwnsJournal, ProvesActivation;
  }

  lemma CommitSaves(w: World, pc: Pc, answer: Answer)
    requires pc.Confirming? || pc.Proving? || pc.Committing?
    ensures var m := ActCommit(w, pc, answer); SavesAtMost(w.agent, m.w.agent, CallOf(pc)) && ComesFrom(w, pc, m.pc)
  {
    hide Durable, OwnsJournal, ProvesActivation, CommitMoves, PublishedByMe;
  }

  lemma EndingSaves(w: World, pc: Pc)
    requires AbortPc(pc) || FailPc(pc)
    ensures var m := if AbortPc(pc) then ActAbort(w, pc) else ActFail(w, pc);
      SavesAtMost(w.agent, m.w.agent, CallOf(pc)) && ComesFrom(w, pc, m.pc)
  {
    hide Durable, ReachedPhase, MovedByMe;
  }

  // ------------------------------------------------------------------ tokens

  /** Nothing was recorded for a leader not yet seen. */
  ghost predicate DoneBelow(s: State) { forall k | k in s.done :: s.done[k].id.token <= s.maxToken }

  function JournalToken(s: State): nat { if s.journal.Some? then s.journal.value.op.id.token else 0 }

  /** The right is taken back only for a journal that was there. */
  predicate Reclaims(s: State, c: Call) { c.ReclaimCall? ==> s.journal.Some? && c.op.id.token <= JournalToken(s) }

  /** What any saved section in its place does to tokens, right and journal. */
  lemma TidySection(s: State, c: Call)
    requires Tidy(s) && DoneBelow(s) && Backed(s, c) && Reclaims(s, c) && Durable(s, c).Saved?
    ensures var n := Durable(s, c).state;
      Tidy(n) && JournalToken(s) <= JournalToken(n) && (s.journal.Some? ==> n.journal.Some?)
  {
    hide NothingUndone, ReserveAll, StageSlot, CommitPlane, EndPlane, ApplyHealth, FinishOperation, WithoutOwned, Fence;
    match c
    case ReserveAllCall(op) => TidyReserve(s, op); ReserveAboveAll(s, op);
    case FinishCall(op, release) => FinishLeaves(s, op, release);
    case StageCall(t) => TupleTokens(s, c);
    case CommitCall(t, e) => TupleTokens(s, c);
    case FailCall(t) => TupleTokens(s, c);
    case AbortCall(t) => TupleTokens(s, c);
    case HealthCall(t) => TupleTokens(s, c);
    case FenceCall(token) => FenceLeaves(s, token);
    case WriteCall(entry) => BackedToken(s, entry.op);
    case _ =>
  }

  lemma BackedToken(s: State, op: Op)
    requires DoneBelow(s) && ReservedOp(s.done, op)
    ensures op.id.token <= s.maxToken
  {
    assert StepKey(op.id, Http, Reserve) in s.done;
  }

  lemma ReserveAboveAll(s: State, op: Op)
    requires ReserveAll(s, op).Accepted?
    ensures s.maxToken <= op.id.token
  {
    hide ReserveOne, SweepOrphan;
  }

  lemma TupleTokens(s: State, c: Call)
    requires Mutate(s, c).Accepted? && (c.StageCall? || c.CommitCall? || c.FailCall? || c.AbortCall? || c.HealthCall?)
    ensures var n := Mutate(s, c).state; n.holder == s.holder && n.journal == s.journal && s.maxToken <= n.maxToken
  {
  }

  lemma FenceLeaves(s: State, token: nat)
    requires Fence(s, token).Accepted?
    ensures var n := Fence(s, token).state;
      && n.maxToken == token && s.maxToken <= token
      && n.holder == (if s.holder.Some? && s.holder.value.id.token < token then None else s.holder)
      && (n.journal == s.journal || (s.journal.Some? && n.journal.Some? && n.journal.value.op == s.journal.value.op))
  {
    hide FinalizeCandidate, WithoutOwned;
    if s.holder.Some? { FinalizeLeaves(s.(maxToken := token), s.holder.value.id); }
  }

  lemma DoneBelowKept(s: State, c: Call)
    requires DoneBelow(s) && Mutate(s, c).Accepted?
    ensures DoneBelow(Mutate(s, c).state)
  {
    hide Neat;
    match c
    case ReserveAllCall(op) => DoneBelowReserve(s, op);
    case StageCall(t) => DoneBelowTuple(s, c);
    case CommitCall(t, e) => DoneBelowTuple(s, c);
    case FailCall(t) => DoneBelowTuple(s, c);
    case AbortCall(t) => DoneBelowTuple(s, c);
    case HealthCall(t) => DoneBelowTuple(s, c);
    case _ => ControlLeaves(s, c); ControlTokens(s, c);
  }

  lemma ControlTokens(s: State, c: Call)
    requires Mutate(s, c).Accepted?
    requires !(c.ReserveAllCall? || c.StageCall? || c.CommitCall? || c.FailCall? || c.AbortCall? || c.HealthCall?)
    ensures s.maxToken <= Mutate(s, c).state.maxToken
  {
    hide FinalizeCandidate, WithoutOwned;
    if c.FenceCall? { FenceLeaves(s, c.token); }
    if c.FinishCall? { FinishLeaves(s, c.op, c.release); }
  }

  lemma DoneBelowTuple(s: State, c: Call)
    requires DoneBelow(s) && Mutate(s, c).Accepted? && (c.StageCall? || c.CommitCall? || c.FailCall? || c.AbortCall? || c.HealthCall?)
    ensures DoneBelow(Mutate(s, c).state)
  {
    hide DoneBelow, StageSlot, CommitPlane, EndPlane, ApplyHealth;
    var t, n := c.tuple, Mutate(s, c).state;
    if c.StageCall? { StageRecords(s, t); BelowOneMore(s, n, t, Stage); }
    else if c.CommitCall? { CommitRecords(s, t, c.proof); BelowOneMore(s, n, t, Commit); }
    else if c.HealthCall? { HealthRecords(s, t); BelowOneMore(s, n, t, Health); }
    else { EndRecords(s, t, if c.FailCall? then EndFailed else EndAborted); BelowOneMore(s, n, t, Commit); }
  }

  /** At most one record was added, and no token taken back. */
  predicate OneMore(s: State, n: State, t: Tuple, step: Step) {
    && s.maxToken <= n.maxToken && t.id.token <= n.maxToken
    && (n.done == s.done || n.done == s.done[StepKey(t.id, t.plane, step) := t])
  }

  lemma BelowOneMore(s: State, n: State, t: Tuple, step: Step)
    requires DoneBelow(s) && OneMore(s, n, t, step)
    ensures DoneBelow(n)
  {
  }

  lemma StageRecords(s: State, t: Tuple)
    requires StageSlot(s, t).Accepted?
    ensures OneMore(s, StageSlot(s, t).state, t, Stage)
  {
  }

  lemma CommitRecords(s: State, t: Tuple, e: Evidence)
    requires CommitPlane(s, t, e).Accepted?
    ensures OneMore(s, CommitPlane(s, t, e).state, t, Commit)
  {
    hide MoveRefusal, AlreadyThere;
  }

  lemma HealthRecords(s: State, t: Tuple)
    requires ApplyHealth(s, t).Accepted?
    ensures OneMore(s, ApplyHealth(s, t).state, t, Health)
  {
  }

  lemma EndRecords(s: State, t: Tuple, how: Ended)
    requires EndPlane(s, t, how).Accepted?
    ensures OneMore(s, EndPlane(s, t, how).state, t, Commit)
  {
  }

  lemma DoneBelowOne(s: State, t: Tuple)
    requires DoneBelow(s) && ReserveOne(s, t).Accepted?
    ensures DoneBelow(ReserveOne(s, t).state)
  {
  }

  lemma DoneBelowReserve(s: State, op: Op)
    requires DoneBelow(s) && ReserveAll(s, op).Accepted?
    ensures DoneBelow(ReserveAll(s, op).state)
  {
    hide SweepOrphan, ReserveOne;
    var s0 := SweepOrphan(s, op);
    SweepLeaves(s, op);
    SweepToken(s, op);
    DoneBelowOne(s0, TupleFor(op, Http));
    DoneBelowOne(ReserveOne(s0, TupleFor(op, Http)).state, TupleFor(op, Stream));
  }

  lemma SweepToken(s: State, op: Op)
    ensures SweepOrphan(s, op).maxToken == s.maxToken
  {
    hide FinalizeCandidate, WithoutOwned;
    if s.journal.Some? {
      var s2 := StampAborted(StampAborted(s, TupleFor(s.journal.value.op, Http)), TupleFor(s.journal.value.op, Stream));
      FinalizeLeaves(s2, HolderOf(s.journal.value.op).id);
    }
  }

  // ------------------------------------------------------------------ every run

  predicate ReclaimsOk(pc: Pc, s: State) { pc.Reclaiming? ==> s.journal.Some? && pc.op.id.token <= JournalToken(s) }

  ghost predicate TidySystem(sys: System) {
    && Tidy(sys.w.agent) && Neat(sys.w.agent) && Booked(sys.w.agent) && DoneBelow(sys.w.agent)
    && (forall a | a in sys.actors :: ReclaimsOk(sys.actors[a], sys.w.agent))
  }

  /** An actor's section is for what was reserved, and takes the right back only for what it read. */
  lemma CallIsBacked(w: World, pc: Pc)
    requires PcOk(pc, w.agent, w.log) && ReclaimsOk(pc, w.agent) && CallOf(pc).Some? && Durable(w.agent, CallOf(pc).value).Saved?
    ensures Backed(w.agent, CallOf(pc).value) && Reclaims(w.agent, CallOf(pc).value)
  {
    hide Unmarked, Occurred, Proven, Durable;
    if pc.Writing? { WrittenContinues(w.agent, pc.entry); }
  }

  lemma WrittenContinues(s: State, entry: Journal)
    requires Durable(s, WriteCall(entry)).Saved?
    ensures entry.number == JournalSeq(s) + 1
  {
    hide GuardHolds;
  }

  lemma SavedStaysTidy(s: State, c: Call)
    requires Tidy(s) && Neat(s) && Booked(s) && DoneBelow(s) && Backed(s, c) && Reclaims(s, c) && Durable(s, c).Saved?
    ensures var n := Durable(s, c).state;
      Tidy(n) && Neat(n) && Booked(n) && DoneBelow(n) && JournalToken(s) <= JournalToken(n) && (s.journal.Some? ==> n.journal.Some?)
  {
    TidySection(s, c);
    assert NeatSlots(s);
    hide Tidy, Neat, NeatSlots, Booked, DoneBelow, Backed, Reclaims, GuardHolds, Mutate;
    NeatSection(s, c);
    BookedSection(s, c);
    DoneBelowKept(s, c);
  }

  lemma TurnStaysTidy(sys: System, who: nat, answer: Answer)
    requires TidySystem(sys) && SystemOk(sys) && who in sys.actors
    ensures TidySystem(Happened(sys, Turned(who, answer)))
  {
    hide Act, Tidy, Neat, Booked, DoneBelow, Backed, Reclaims, Durable, PcOk, Good;
    var w, pc := sys.w, sys.actors[who];
    var m := Act(w, pc, answer);
    ActSaves(w, pc, answer);
    if m.w.agent != w.agent {
      CallIsBacked(w, pc);
      SavedStaysTidy(w.agent, CallOf(pc).value);
    }
    if m.pc.Reclaiming? { AtRecoverReads(w.agent); }
  }

  lemma AtRecoverReads(s: State)
    ensures AtRecover(s).Reclaiming? ==> ReclaimsOk(AtRecover(s), s)
  {
  }

  lemma HappenedStaysTidy(sys: System, h: Happening)
    requires TidySystem(sys) && SystemOk(sys)
    ensures TidySystem(Happened(sys, h))
  {
    hide Act, Tidy, Neat, Booked, DoneBelow, Durable, SystemOk;
    match h
    case Turned(who, answer) => if who in sys.actors { TurnStaysTidy(sys, who, answer); }
    case FencedBy(token) =>
      if Durable(sys.w.agent, FenceCall(token)).Saved? { SavedStaysTidy(sys.w.agent, FenceCall(token)); }
    case HealthMoved(t) =>
      if Durable(sys.w.agent, HealthCall(t)).Saved? { SavedStaysTidy(sys.w.agent, HealthCall(t)); }
    case _ =>
  }

  lemma {:induction false} EveryRunStaysTidy(published: PublishedState, run: seq<Happening>)
    ensures TidySystem(RunOf(published, run))
    decreases |run|
  {
    hide TidySystem, Happened;
    if run == [] {
      StartIsTidy(published);
    } else {
      var front := run[..|run| - 1];
      EveryRunStaysTidy(published, front);
      EveryRunIsGood(published, front);
      HappenedStaysTidy(RunOf(published, front), run[|run| - 1]);
    }
  }

  lemma StartIsTidy(published: PublishedState)
    ensures TidySystem(Initial(published))
  {
  }

  /** In every reachable state, whoever crashed wherever, the right, the slots and the books are in order. */
  lemma EveryRunIsTidy(published: PublishedState, run: seq<Happening>)
    ensures var s := RunOf(published, run).w.agent; Tidy(s) && Neat(s) && Booked(s)
  {
    hide RunOf, Tidy, Neat, Booked;
    EveryRunStaysTidy(published, run);
  }
}
