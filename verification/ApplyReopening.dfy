/**
 * When a closed journal is opened again.  A runner that waits behind its signal notes what it
 * sees in the journal it finds then (src/dp/apply.ts); if another runner of the same operation
 * has closed it meanwhile and not yet given the right back, the note opens it again.  It takes no
 * second process: only the driver loop takes turns (src/dp/apply.ts:378), an abort does not.
 */
module ApplyReopening {
  import opened Wrappers
  import opened Operation
  import opened Agent
  import opened AgentGuard
  import opened ApplyMachine
  import opened ApplyInvariant
  import opened ApplySafety
  import opened ApplySteps
  import opened ApplyTheorems
  import opened ApplyTidy
  import opened ApplyCrash
  import opened ApplyQuiet
  import opened ApplyRecovery

  predicate IsClosed(s: State) { s.journal.Some? && IsTerminal(s.journal.value.phase) }

  /** The entry was terminal and is not any more, for the same operation. */
  predicate Reopens(s: State, n: State) {
    && IsClosed(s) && n.journal.Some?
    && n.journal.value.op.id == s.journal.value.op.id && !IsTerminal(n.journal.value.phase)
  }

  // ------------------------------------------------------------------ one save

  predicate Continues(s: State, entry: Journal) {
    s.journal.Some? && entry.op.id == s.journal.value.op.id && entry.number == s.journal.value.number + 1
  }

  /** What a saved section makes of a closed journal. */
  lemma ClosedStays(s: State, c: Call)
    requires IsClosed(s) && Durable(s, c).Saved?
    ensures var n := Durable(s, c).state;
      || n.journal == s.journal
      || (c.WriteCall? && n.journal == Some(c.entry) && c.entry.number == s.journal.value.number + 1 && AssertOwnership(s, c.entry.op).Mine?)
      || (c.ReserveAllCall? && n.journal.Some? && n.journal.value.op.id == c.op.id && c.op.id != s.journal.value.op.id)
  {
    hide GuardHolds, StageSlot, CommitPlane, EndPlane, ApplyHealth, ReserveAll, FinishOperation, Fence, WithoutOwned;
    match c
    case ReserveAllCall(op) => ReserveLeavesClosed(s, op);
    case StageCall(t) => TupleTokens(s, c);
    case CommitCall(t, e) => TupleTokens(s, c);
    case FailCall(t) => TupleTokens(s, c);
    case AbortCall(t) => TupleTokens(s, c);
    case HealthCall(t) => TupleTokens(s, c);
    case FenceCall(token) => FenceLeavesClosed(s, token);
    case FinishCall(op, release) => FinishLeaves(s, op, release);
    case _ =>
  }

  lemma ReserveLeavesClosed(s: State, op: Op)
    requires IsClosed(s) && ReserveAll(s, op).Accepted?
    ensures var n := ReserveAll(s, op).state;
      if OwnsJournal(s.journal, op) then n.journal == s.journal else n.journal.Some? && n.journal.value.op == op
  {
    hide ReserveOne;
    var s0 := SweepOrphan(s, op);
    ReserveToken(s0, TupleFor(op, Http));
    ReserveToken(ReserveOne(s0, TupleFor(op, Http)).state, TupleFor(op, Stream));
  }

  lemma FenceLeavesClosed(s: State, token: nat)
    requires IsClosed(s) && Fence(s, token).Accepted?
    ensures Fence(s, token).state.journal == s.journal
  {
    hide FinalizeCandidate, WithoutOwned;
  }

  /** A note on a closed journal that is about to be written, with the right still held. */
  predicate LateNote(pc: Pc, s: State) {
    pc.Writing? && Continues(s, pc.entry) && !IsTerminal(pc.entry.phase) && AssertOwnership(s, pc.entry.op).Mine?
  }

  lemma NoteIsSaved(s: State, entry: Journal)
    requires Sound(s) && Continues(s, entry) && AssertOwnership(s, entry.op).Mine?
    ensures Durable(s, WriteCall(entry)) == Saved(s.(journal := Some(entry)))
  {
    hide GuardHolds, Sound;
    SavesIt(s, WriteCall(entry));
  }

  lemma WritingTurn(w: World, pc: Pc, answer: Answer)
    requires pc.Writing? && Durable(w.agent, WriteCall(pc.entry)).Saved?
    ensures Act(w, pc, answer).w.agent == Durable(w.agent, WriteCall(pc.entry)).state
  {
    hide Durable;
  }

  /** A turn that reopens is the turn of a late note. */
  lemma TurnReopens(w: World, pc: Pc, answer: Answer)
    requires Good(w) && PcOk(pc, w.agent, w.log) && IsClosed(w.agent)
    ensures Reopens(w.agent, Act(w, pc, answer).w.agent) <==> LateNote(pc, w.agent)
  {
    hide Act, Durable, Good, PcOk;
    ActSaves(w, pc, answer);
    GoodIsSound(w);
    if LateNote(pc, w.agent) {
      NoteIsSaved(w.agent, pc.entry);
      WritingTurn(w, pc, answer);
    } else if CallOf(pc).Some? && Durable(w.agent, CallOf(pc).value).Saved? {
      ClosedStays(w.agent, CallOf(pc).value);
      if pc.Winning? { WinningIsOpen(w, pc); }
    }
  }

  lemma GoodIsSound(w: World)
    requires Good(w)
    ensures Sound(w.agent)
  {
    hide HistoryOk, WinsOk;
    KeptIsSound(w.agent, w.log);
  }

  lemma WinningIsOpen(w: World, pc: Pc)
    requires pc.Winning? && PcOk(pc, w.agent, w.log) && IsClosed(w.agent)
    ensures pc.turn.j.number != JournalSeq(w.agent)
  {
    hide EntryTrue, Unmarked;
  }

  /**
   * In every run: the next thing that happens opens a closed journal again if and only if it is
   * the turn of an actor that is about to write a note on it while the right is still held.
   */
  lemma ReopenedOnlyByNote(published: PublishedState, run: seq<Happening>, h: Happening)
    requires IsClosed(RunOf(published, run).w.agent)
    ensures var sys := RunOf(published, run);
      Reopens(sys.w.agent, Happened(sys, h).w.agent) <==>
        h.Turned? && h.who in sys.actors && LateNote(sys.actors[h.who], sys.w.agent)
  {
    hide RunOf, Act, Durable, Good, PcOk, LateNote;
    var sys := RunOf(published, run);
    EveryRunIsGood(published, run);
    match h
    case Turned(who, answer) => if who in sys.actors { TurnReopens(sys.w, sys.actors[who], answer); }
    case FencedBy(token) => if Durable(sys.w.agent, FenceCall(token)).Saved? { ClosedStays(sys.w.agent, FenceCall(token)); }
    case HealthMoved(t) => if Durable(sys.w.agent, HealthCall(t)).Saved? { ClosedStays(sys.w.agent, HealthCall(t)); }
    case _ =>
  }

  // ------------------------------------------------------------------ where the note comes from

  /** The actor waits behind its signal, for the operation of the closed journal. */
  predicate WaitsFor(pc: Pc, s: State) {
    s.journal.Some? && pc.Awaiting? && pc.turn.j.op.id == s.journal.value.op.id
  }

  predicate Notes(pc: Pc, s: State) { pc.Writing? && Continues(s, pc.entry) && !IsTerminal(pc.entry.phase) }

  /** Only the wait ends in a note on a closed journal. */
  lemma NoteComesFromWait(w: World, pc: Pc, answer: Answer)
    requires PcOk(pc, w.agent, w.log) && IsClosed(w.agent)
    requires Act(w, pc, answer).w.agent.journal == w.agent.journal && Notes(Act(w, pc, answer).pc, w.agent)
    ensures WaitsFor(pc, w.agent) && Act(w, pc, answer).w.agent == w.agent && Act(w, pc, answer).pc.entry.op == w.agent.journal.value.op
  {
    hide Act, ActStage, ActReload, ActCommit, ActAbort, ActFail, PcOk;
    Delegates(w, pc, answer);
    if pc.Staging? || pc.Loading? { StageNotes(w, pc, answer); }
    else if pc.ReadingWorld? || pc.Winning? || pc.Signalling? || pc.Awaiting? { ReloadNotes(w, pc, answer); }
    else if pc.Confirming? || pc.Proving? || pc.Committing? { CommitNotes(w, pc, answer); }
    else if AbortPc(pc) || FailPc(pc) { EndingNotes(w, pc); }
    else { PlainNotes(w, pc, answer); }
  }

  lemma TurnIsOpen(s: State, log: seq<Event>, turn: Turn)
    requires TurnOk(s, log, turn) && IsClosed(s)
    ensures turn.j.number != JournalSeq(s)
  {
    hide EntryTrue, Unmarked;
  }

  lemma StageNotes(w: World, pc: Pc, answer: Answer)
    requires (pc.Staging? || pc.Loading?) && PcOk(pc, w.agent, w.log) && IsClosed(w.agent)
    ensures !Notes(ActStage(w, pc, answer).pc, w.agent)
  {
    hide Durable, OwnsJournal, ProgressOk, CasOk, Unmarked;
    TurnIsOpen(w.agent, w.log, pc.turn);
  }

  lemma ReloadNotes(w: World, pc: Pc, answer: Answer)
    requires (pc.ReadingWorld? || pc.Winning? || pc.Signalling? || pc.Awaiting?) && PcOk(pc, w.agent, w.log) && IsClosed(w.agent)
    requires Notes(ActReload(w, pc, answer).pc, w.agent)
    ensures WaitsFor(pc, w.agent) && ActReload(w, pc, answer).w.agent == w.agent
    ensures ActReload(w, pc, answer).pc.entry.op == w.agent.journal.value.op
  {
    hide Durable, ProvesActivation, CasOk, Unmarked;
    TurnIsOpen(w.agent, w.log, pc.turn);
  }

  lemma CommitNotes(w: World, pc: Pc, answer: Answer)
    requires (pc.Confirming? || pc.Proving? || pc.Committing?) && PcOk(pc, w.agent, w.log) && IsClosed(w.agent)
    ensures !Notes(ActCommit(w, pc, answer).pc, w.agent)
  {
    hide Durable, OwnsJournal, ProvesActivation, ProgressOk, CasOk, Unmarked, CommitMoves;
    TurnIsOpen(w.agent, w.log, pc.turn);
  }

  lemma EndingNotes(w: World, pc: Pc)
    requires AbortPc(pc) || FailPc(pc)
    ensures !Notes((if AbortPc(pc) then ActAbort(w, pc) else ActFail(w, pc)).pc, w.agent)
  {
    hide Durable, MovedByMe;
  }

  lemma PlainNotes(w: World, pc: Pc, answer: Answer)
    requires ControlPc(pc) || pc.Done? || pc.Recovering? || pc.Head? || pc.Writing? || pc.Preflighting? || pc.LookingUp? || pc.Publishing?
    requires PcOk(pc, w.agent, w.log) && IsClosed(w.agent)
    ensures Act(w, pc, answer).w.agent.journal == w.agent.journal ==> !Notes(Act(w, pc, answer).pc, w.agent)
  {
    hide ActStage, ActReload, ActCommit, ActAbort, ActFail, Durable, After, AssertOwnership, PublishedByMe,
         ReachedPhase, ClosedTransition, CasOk, Unmarked, EntryOk;
    if pc.Preflighting? || pc.LookingUp? || pc.Publishing? { TurnIsOpen(w.agent, w.log, pc.turn); }
  }

  /** Two turns in a row of one actor: the first leaves the closed journal as it is, the second opens it. */
  ghost predicate ReopensInTwo(sys: System, who: nat, a: Answer, b: Answer) {
    var mid := Happened(sys, Turned(who, a));
    mid.w.agent.journal == sys.w.agent.journal && Reopens(mid.w.agent, Happened(mid, Turned(who, b)).w.agent)
  }

  /** The wait can be answered with evidence of the target. */
  lemma WaitNotes(w: World, pc: Pc) returns (answer: Answer)
    requires WaitsFor(pc, w.agent)
    ensures var m := Act(w, pc, answer); m.w == w && Notes(m.pc, w.agent) && m.pc.entry.op == w.agent.journal.value.op
  {
    hide Durable;
    answer := Saw(Read(Some(Evidence(Some(pc.turn.j.op.generation), None, None, None, None))));
  }

  /**
   * In every run, a closed journal is opened again by two turns of an actor, whatever they are
   * answered, if and only if that actor waits behind its signal for the same operation and the
   * right has not been given back.
   */
  lemma ReopensExactly(published: PublishedState, run: seq<Happening>, who: nat)
    requires IsClosed(RunOf(published, run).w.agent) && who in RunOf(published, run).actors
    ensures var sys := RunOf(published, run);
      (exists a: Answer, b: Answer :: ReopensInTwo(sys, who, a, b)) <==>
        WaitsFor(sys.actors[who], sys.w.agent) && AssertOwnership(sys.w.agent, sys.w.agent.journal.value.op).Mine?
  {
    hide RunOf, Act, Durable, Good, PcOk, AssertOwnership, Reopens, Notes, WaitsFor;
    var sys := RunOf(published, run);
    var pc := sys.actors[who];
    EveryRunIsGood(published, run);
    if a: Answer, b: Answer :| ReopensInTwo(sys, who, a, b) {
      var mid := Happened(sys, Turned(who, a));
      SystemStep(sys, Turned(who, a));
      TurnReopens(mid.w, mid.actors[who], b);
      NoteIs(mid.actors[who], mid.w.agent, sys.w.agent);
      NoteComesFromWait(sys.w, pc, a);
    }
    if WaitsFor(pc, sys.w.agent) && AssertOwnership(sys.w.agent, sys.w.agent.journal.value.op).Mine? {
      var a := WaitNotes(sys.w, pc);
      var mid := Happened(sys, Turned(who, a));
      SystemStep(sys, Turned(who, a));
      IsLate(mid.actors[who], mid.w.agent);
      TurnReopens(mid.w, mid.actors[who], Yes);
      assert ReopensInTwo(sys, who, a, Yes);
    }
  }

  lemma NoteIs(pc: Pc, s: State, t: State)
    requires LateNote(pc, s) && s.journal == t.journal
    ensures Notes(pc, t) && AssertOwnership(s, pc.entry.op).Mine?
  {
  }

  lemma IsLate(pc: Pc, s: State)
    requires Notes(pc, s) && s.journal.Some? && pc.entry.op == s.journal.value.op && AssertOwnership(s, s.journal.value.op).Mine?
    ensures LateNote(pc, s)
  {
  }

  // ------------------------------------------------------------------ a run in which it happens

  /** The operation waits behind its signal. */
  lemma RunsToWait(published: PublishedState) returns (run: seq<Happening>, w: World, turn: Turn)
    ensures RunOf(published, run) == System(w, map[1 := Awaiting(turn)]) && turn.j.op == FIRST
    ensures Working(w.agent, FIRST, ReloadIntent) && Attempts(w.agent) == 1
  {
    hide RunOf, Goes, Working;
    var v, w0 := View(Blind, Some(SEEN)), Initial(published).w;
    FirstIsReady(published);
    StartsInitial(published);
    OneMoreHappens(published, [], Start(1, Reserving(FIRST)));
    var r0 := [] + [Start(1, Reserving(FIRST))];
    assert RunOf(published, r0) == System(w0, map[1 := Reserving(FIRST)]);
    var n := Prepares(v, w0, FIRST);
    var x, t := Waits(v, n, FIRST);
    Then(v, Moment(w0, Reserving(FIRST)), Moment(n, Head(FIRST)), Moment(x, Awaiting(t)));
    var more := GoesIsARun(published, r0, 1, v, Moment(x, Awaiting(t)));
    run, w, turn := r0 + more, x, t;
    assert map[1 := Reserving(FIRST)][1 := Awaiting(t)] == map[1 := Awaiting(t)];
  }

  /** A second process recovers, cannot read the engine and fails the operation. */
  lemma FindsItBlind(w: World, op: Op, head: nat)
    requires Working(w.agent, op, ReloadIntent) && Attempts(w.agent) == 1
    ensures var j := w.agent.journal.value; var turn := Turn(op, j, |w.log|);
      && Act(w, Recovering, Yes) == Moment(w, Reclaiming(op))
      && Act(w, Reclaiming(op), Yes) == Moment(w, Head(op))
      && Act(w, Head(op), Yes) == Moment(w, ReadingWorld(turn))
      && Act(w, ReadingWorld(turn), Saw(Blind)) == Moment(w, Failing(j, j.progress, PLANES, Some(op)))
  {
    hide GuardHolds, Sound, PlaneHeld;
    ReclaimsHeld(w, op);
    Heads(w, op, ReloadIntent);
    hide Durable, After;
  }

  lemma ReclaimsHeld(w: World, op: Op)
    requires Holding(w.agent, op)
    ensures Durable(w.agent, ReclaimCall(op)).Saved? && After(w, ReclaimCall(op)) == w
  {
    hide GuardHolds, Sound;
    SavesIt(w.agent, ReclaimCall(op));
    assert w.log + [] == w.log;
  }

  lemma FailSteps(w: World, j: Journal, progress: PerPlane<Progress>, todo: seq<Plane>, again: Option<Op>)
    requires todo != []
    ensures !MovedByMe(w.agent, j.op, todo[0]) ==>
      Act(w, Failing(j, progress, todo, again), Yes) == Moment(w, FailingPlane(j, progress, todo, again))
    ensures var c := FailCall(TupleFor(j.op, todo[0]));
      Durable(w.agent, c).Saved? ==>
        Act(w, FailingPlane(j, progress, todo, again), Yes) == Moment(After(w, c), Failing(j, Put(progress, todo[0], PlaneFailed), todo[1..], again))
  {
    hide Durable, After, MovedByMe, ReachedPhase;
  }

  /** One plane that did not move is failed. */
  lemma FailsPlane(w: World, op: Op, p: Plane, j: Journal, progress: PerPlane<Progress>, todo: seq<Plane>, again: Option<Op>) returns (x: World)
    requires Holding(w.agent, op) && PlaneHeld(w.agent, TupleFor(op, p)) && j.op == op && todo != [] && todo[0] == p
    ensures Act(w, Failing(j, progress, todo, again), Yes) == Moment(w, FailingPlane(j, progress, todo, again))
    ensures Act(w, FailingPlane(j, progress, todo, again), Yes) == Moment(x, Failing(j, Put(progress, p, PlaneFailed), todo[1..], again))
    ensures Holding(x.agent, op) && x.agent.journal == w.agent.journal && x.agent.planes == w.agent.planes
    ensures forall t: Tuple :: t.plane != p ==> PlaneHeld(x.agent, t) == PlaneHeld(w.agent, t)
  {
    var c := FailCall(TupleFor(op, p));
    x := EndSaved(w, op, p, c);
    assert !MovedByMe(w.agent, op, p);
    hide Durable, After, PlaneHeld, Holding, Act, MovedByMe;
    FailSteps(w, j, progress, todo, again);
  }

  /** Ending one plane that did not move, by failing or aborting it. */
  lemma EndSaved(w: World, op: Op, p: Plane, c: Call) returns (x: World)
    requires Holding(w.agent, op) && PlaneHeld(w.agent, TupleFor(op, p))
    requires c == FailCall(TupleFor(op, p)) || c == AbortCall(TupleFor(op, p))
    ensures Durable(w.agent, c).Saved? && x == After(w, c)
    ensures Holding(x.agent, op) && x.agent.journal == w.agent.journal && x.agent.planes == w.agent.planes
    ensures forall t: Tuple :: t.plane != p ==> PlaneHeld(x.agent, t) == PlaneHeld(w.agent, t)
  {
    hide GuardHolds, Sound;
    SavesIt(w.agent, c);
    x := After(w, c);
    forall t: Tuple | t.plane != p ensures PlaneHeld(x.agent, t) == PlaneHeld(w.agent, t) {
      assert KeyOf(t) != KeyOf(TupleFor(op, p)) && EndKeyOf(t) != EndKeyOf(TupleFor(op, p));
    }
  }

  lemma NotMoved(s: State, op: Op)
    requires s.planes.http.at == op.targets.http.expected && op.targets.http.expected.epoch < op.targets.http.target.epoch
    requires s.planes.stream.at == op.targets.stream.expected && op.targets.stream.expected.epoch < op.targets.stream.target.epoch
    ensures ReachedPhase(s, op) == Failed
  {
  }

  /** Both planes failed: the verdict is written, the right not yet given back. */
  lemma WritesVerdict(w: World, op: Op, j: Journal, progress: PerPlane<Progress>, again: Option<Op>)
    requires Holding(w.agent, op) && w.agent.journal == Some(j) && ReachedPhase(w.agent, op) == Failed
    ensures var entry := Stepped(j, Failed).(progress := progress); var next := ThenFinish(op, {}, again);
      && Act(w, Failing(j, progress, [], again), Yes) == Moment(w, Judging(j, progress, again))
      && Act(w, Judging(j, progress, again), Yes) == Moment(w, Writing(entry, next))
      && Act(w, Writing(entry, next), Yes) == Moment(Noting(w, entry), Finishing(op, {}, if again.Some? then Again(again.value) else Stop))
      && IsClosed(Noting(w, entry).agent) && AssertOwnership(Noting(w, entry).agent, op).Mine?
  {
    hide Sound, Durable, After, ReachedPhase;
    var entry := Stepped(j, Failed).(progress := progress);
    Writes(w, op, entry, ThenFinish(op, {}, again), Yes);
  }

  lemma HeldParts(s: State, op: Op)
    requires Working(s, op, ReloadIntent)
    ensures Holding(s, op) && PlaneHeld(s, TupleFor(op, Http)) && PlaneHeld(s, TupleFor(op, Stream)) && ReachedPhase(s, op) == Failed
  {
    hide Sound;
    NotMoved(s, op);
  }

  /** It happens: one process waits, another one fails the operation, and the wait opens the journal again. */
  lemma LateReopening(published: PublishedState) returns (run: seq<Happening>)
    ensures var sys := RunOf(published, run);
      && IsClosed(sys.w.agent) && sys.w.agent.journal.value.phase == Failed && 1 in sys.actors
      && exists a: Answer, b: Answer :: ReopensInTwo(sys, 1, a, b)
  {
    hide RunOf, Act, Working, Holding, PlaneHeld, ReachedPhase, AssertOwnership, Durable;
    var r, w, turn := RunsToWait(published);
    var first := Awaiting(turn);
    var j := JournalOfWork(w.agent, FIRST);
    OneMoreHappens(published, r, Start(2, Recovering));
    run := r + [Start(2, Recovering)];
    assert RunOf(published, run) == System(w, Two(first, Recovering));
    FindsItBlind(w, FIRST, 0);
    HeldParts(w.agent, FIRST);
    var here := Turn(FIRST, j, |w.log|);
    run := SecondTurns(published, run, w, first, Recovering, Yes, Moment(w, Reclaiming(FIRST)));
    run := SecondTurns(published, run, w, first, Reclaiming(FIRST), Yes, Moment(w, Head(FIRST)));
    run := SecondTurns(published, run, w, first, Head(FIRST), Yes, Moment(w, ReadingWorld(here)));
    run := SecondTurns(published, run, w, first, ReadingWorld(here), Saw(Blind), Moment(w, Failing(j, j.progress, PLANES, Some(FIRST))));
    run := FailsAll(published, run, w, first, j);
    ReopensExactly(published, run, 1);
  }

  lemma JournalOfWork(s: State, op: Op) returns (j: Journal)
    requires Working(s, op, ReloadIntent)
    ensures s.journal == Some(j) && j.op == op
  {
    hide Sound;
    j := s.journal.value;
  }

  /** The turns of `failAll` up to the verdict. */
  lemma FailsAll(published: PublishedState, r: seq<Happening>, w: World, first: Pc, j: Journal) returns (run: seq<Happening>)
    requires RunOf(published, r) == System(w, Two(first, Failing(j, j.progress, PLANES, Some(FIRST))))
    requires Holding(w.agent, FIRST) && w.agent.journal == Some(j) && j.op == FIRST && ReachedPhase(w.agent, FIRST) == Failed
    requires PlaneHeld(w.agent, TupleFor(FIRST, Http)) && PlaneHeld(w.agent, TupleFor(FIRST, Stream))
    ensures var sys := RunOf(published, run);
      && sys.actors == Two(first, Finishing(FIRST, {}, Again(FIRST))) && IsClosed(sys.w.agent)
      && sys.w.agent.journal.value.phase == Failed && sys.w.agent.journal.value.op == FIRST && AssertOwnership(sys.w.agent, FIRST).Mine?
  {
    hide RunOf, Act, Holding, PlaneHeld, ReachedPhase, AssertOwnership, Durable;
    var again := Some(FIRST);
    assert PLANES[0] == Http && PLANES[1..] == [Stream] && [Stream][1..] == [];
    var x := FailsPlane(w, FIRST, Http, j, j.progress, PLANES, again);
    var p1 := Put(j.progress, Http, PlaneFailed);
    run := SecondTurns(published, r, w, first, Failing(j, j.progress, PLANES, again), Yes, Moment(w, FailingPlane(j, j.progress, PLANES, again)));
    run := SecondTurns(published, run, w, first, FailingPlane(j, j.progress, PLANES, again), Yes, Moment(x, Failing(j, p1, [Stream], again)));
    var y := FailsPlane(x, FIRST, Stream, j, p1, [Stream], again);
    var p2 := Put(p1, Stream, PlaneFailed);
    run := SecondTurns(published, run, x, first, Failing(j, p1, [Stream], again), Yes, Moment(x, FailingPlane(j, p1, [Stream], again)));
    run := SecondTurns(published, run, x, first, FailingPlane(j, p1, [Stream], again), Yes, Moment(y, Failing(j, p2, [], again)));
    SamePlanesReach(w.agent, y.agent, FIRST);
    WritesVerdict(y, FIRST, j, p2, again);
    var entry := Stepped(j, Failed).(progress := p2);
    var next := ThenFinish(FIRST, {}, again);
    run := SecondTurns(published, run, y, first, Failing(j, p2, [], again), Yes, Moment(y, Judging(j, p2, again)));
    run := SecondTurns(published, run, y, first, Judging(j, p2, again), Yes, Moment(y, Writing(entry, next)));
    run := SecondTurns(published, run, y, first, Writing(entry, next), Yes, Moment(Noting(y, entry), Finishing(FIRST, {}, Again(FIRST))));
  }

  lemma SamePlanesReach(s: State, n: State, op: Op)
    requires s.planes == n.planes
    ensures ReachedPhase(n, op) == ReachedPhase(s, op)
  {
  }

  // ------------------------------------------------------------------ one process is enough

  function Three(first: Pc, second: Pc, third: Pc): map<nat, Pc> { map[1 := first, 2 := second, 3 := third] }

  lemma Turns(published: PublishedState, r: seq<Happening>, sys: System, who: nat, m: Moment) returns (run: seq<Happening>)
    requires RunOf(published, r) == sys && who in sys.actors && Act(sys.w, sys.actors[who], Yes) == m
    ensures RunOf(published, run) == System(m.w, sys.actors[who := m.pc])
  {
    hide RunOf, Act;
    OneMoreHappens(published, r, Turned(who, Yes));
    run := r + [Turned(who, Yes)];
  }

  /** An abort gives up both planes of a working operation and lets go of the right. */
  lemma AbortsHeld(w: World, op: Op) returns (x: World, y: World, z: World, u: World)
    requires Working(w.agent, op, ReloadIntent)
    ensures Act(w, Aborting(op, WHOLE, PLANES), Yes) == Moment(x, Aborting(op, WHOLE, [Stream]))
    ensures Act(x, Aborting(op, WHOLE, [Stream]), Yes) == Moment(y, Aborting(op, WHOLE, []))
    ensures Act(y, Aborting(op, WHOLE, []), Yes) == Moment(y, AbortReleasing(op, WHOLE))
    ensures Act(y, AbortReleasing(op, WHOLE), Yes) == Moment(z, AbortFinishing(op, WHOLE))
    ensures Act(z, AbortFinishing(op, WHOLE), Yes) == Moment(u, AbortJudging(op, WHOLE))
    ensures LetGoOpen(u.agent, op) && u.agent.journal == w.agent.journal && ReachedPhase(u.agent, op) == Failed
  {
    hide Sound, PlaneHeld, Durable, After, Act, ReachedPhase;
    assert PLANES[0] == Http && PLANES[1..] == [Stream] && [Stream][1..] == [];
    HeldParts(w.agent, op);
    x := EndSaved(w, op, Http, AbortCall(TupleFor(op, Http)));
    y := EndSaved(x, op, Stream, AbortCall(TupleFor(op, Stream)));
    z := Releases(y, op);
    u := FinishesIdle(z, op, Declared(WHOLE));
    SamePlanesReach(w.agent, u.agent, op);
    AbortSteps(w, op, WHOLE, PLANES);
    AbortSteps(x, op, WHOLE, [Stream]);
    AbortSteps(y, op, WHOLE, []);
    AbortSteps(z, op, WHOLE, []);
  }

  /** The journal is still open and of the latest leader, and nobody holds the right. */
  ghost predicate LetGoOpen(s: State, op: Op) {
    && Sound(s) && s.holder.None? && op.id.token == s.maxToken
    && s.journal.Some? && s.journal.value.op == op && !IsTerminal(s.journal.value.phase)
  }

  lemma FinishesIdle(z: World, op: Op, release: set<Plane>) returns (u: World)
    requires Sound(z.agent) && z.agent.holder.None?
    ensures var c := FinishCall(op, release); Durable(z.agent, c).Saved? && u == After(z, c)
    ensures Sound(u.agent)
    ensures u.agent == z.agent.(slots := u.agent.slots, baseline := u.agent.baseline, pending := u.agent.pending, pendingEpochs := u.agent.pendingEpochs)
  {
    hide GuardHolds, Sound, JudgedBaseline;
    SavesIt(z.agent, FinishCall(op, release));
    u := After(z, FinishCall(op, release));
  }

  /** A recovery finds the journal open and takes the right back. */
  lemma TakesBack(u: World, op: Op) returns (v: World)
    requires LetGoOpen(u.agent, op)
    ensures Act(u, Recovering, Yes) == Moment(u, Reclaiming(op))
    ensures Act(u, Reclaiming(op), Yes) == Moment(v, Head(op))
    ensures v.agent == u.agent.(holder := Some(HolderOf(op))) && Sound(v.agent)
  {
    hide GuardHolds, Sound;
    SavesIt(u.agent, ReclaimCall(op));
    v := After(u, ReclaimCall(op));
    hide Durable, After;
  }

  /** The rest of the abort: what it reads there is that nothing moved. */
  lemma ClosesFailed(v: World, op: Op) returns (t: World)
    requires Sound(v.agent) && v.agent.journal.Some? && v.agent.journal.value.op == op && !IsTerminal(v.agent.journal.value.phase)
    requires ReachedPhase(v.agent, op) == Failed
    ensures Act(v, AbortJudging(op, WHOLE), Yes) == Moment(v, AbortClosing(op, WHOLE, Failed))
    ensures Act(v, AbortClosing(op, WHOLE, Failed), Yes) == Moment(t, Done)
    ensures t.agent == v.agent.(journal := Some(Stepped(v.agent.journal.value, Failed)))
  {
    hide GuardHolds, Sound, ReachedPhase, Act;
    Delegates(v, AbortJudging(op, WHOLE), Yes);
    Delegates(v, AbortClosing(op, WHOLE, Failed), Yes);
    SavesIt(v.agent, CloseCall(op, Failed));
    t := After(v, CloseCall(op, Failed));
  }

  /**
   * One process is enough: while its runner waits behind the signal, its abort gives up both planes
   * and the right, its recovery takes the right back (and queues behind the runner), and the abort
   * closes the journal as `failed`; the wait opens it again.
   */
  lemma ReopeningInOneProcess(published: PublishedState) returns (run: seq<Happening>, turn: Turn)
    ensures var sys := RunOf(published, run);
      && sys.actors == Three(Awaiting(turn), Done, Head(FIRST))
      && IsClosed(sys.w.agent) && sys.w.agent.journal.value.phase == Failed
      && exists a: Answer, b: Answer :: ReopensInTwo(sys, 1, a, b)
  {
    hide RunOf, Act, Working, Sound, ReachedPhase, Durable;
    var r, w, t := RunsToWait(published);
    turn := t;
    var u, queued := AbortsBesides(published, r, w, turn);
    var v := TakesBack(u, FIRST);
    var first, judging := Awaiting(turn), AbortJudging(FIRST, WHOLE);
    Begins(published, queued, 3, Recovering);
    run := queued + [Start(3, Recovering)];
    assert RunOf(published, run) == System(u, Three(first, judging, Recovering));
    run := Turns(published, run, System(u, Three(first, judging, Recovering)), 3, Moment(u, Reclaiming(FIRST)));
    assert RunOf(published, run) == System(u, Three(first, judging, Reclaiming(FIRST)));
    run := Turns(published, run, System(u, Three(first, judging, Reclaiming(FIRST))), 3, Moment(v, Head(FIRST)));
    assert RunOf(published, run) == System(v, Three(first, judging, Head(FIRST)));
    SamePlanesReach(u.agent, v.agent, FIRST);
    var x := ClosesFailed(v, FIRST);
    var closing := AbortClosing(FIRST, WHOLE, Failed);
    run := Turns(published, run, System(v, Three(first, judging, Head(FIRST))), 2, Moment(v, closing));
    assert RunOf(published, run) == System(v, Three(first, closing, Head(FIRST)));
    run := Turns(published, run, System(v, Three(first, closing, Head(FIRST))), 2, Moment(x, Done));
    assert RunOf(published, run) == System(x, Three(first, Done, Head(FIRST)));
    ReopensExactly(published, run, 1);
  }

  lemma AbortsBesides(published: PublishedState, r: seq<Happening>, w: World, turn: Turn) returns (u: World, run: seq<Happening>)
    requires RunOf(published, r) == System(w, map[1 := Awaiting(turn)]) && Working(w.agent, FIRST, ReloadIntent)
    ensures RunOf(published, run) == System(u, Two(Awaiting(turn), AbortJudging(FIRST, WHOLE)))
    ensures LetGoOpen(u.agent, FIRST) && ReachedPhase(u.agent, FIRST) == Failed && u.agent.journal == w.agent.journal
  {
    hide RunOf, Act, Working, Sound, ReachedPhase, Durable;
    var first := Awaiting(turn);
    var x, y, z, n := AbortsHeld(w, FIRST);
    u := n;
    Begins(published, r, 2, Aborting(FIRST, WHOLE, PLANES));
    run := r + [Start(2, Aborting(FIRST, WHOLE, PLANES))];
    assert RunOf(published, run) == System(w, Two(first, Aborting(FIRST, WHOLE, PLANES)));
    run := SecondTurns(published, run, w, first, Aborting(FIRST, WHOLE, PLANES), Yes, Moment(x, Aborting(FIRST, WHOLE, [Stream])));
    run := SecondTurns(published, run, x, first, Aborting(FIRST, WHOLE, [Stream]), Yes, Moment(y, Aborting(FIRST, WHOLE, [])));
    run := SecondTurns(published, run, y, first, Aborting(FIRST, WHOLE, []), Yes, Moment(y, AbortReleasing(FIRST, WHOLE)));
    run := SecondTurns(published, run, y, first, AbortReleasing(FIRST, WHOLE), Yes, Moment(z, AbortFinishing(FIRST, WHOLE)));
    run := SecondTurns(published, run, z, first, AbortFinishing(FIRST, WHOLE), Yes, Moment(u, AbortJudging(FIRST, WHOLE)));
  }
}
