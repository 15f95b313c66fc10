/**
 * One step of one actor keeps the world good, only lets it grow, and leaves the actor with
 * everything its next step relies on.
 */
module ApplySteps {
  import opened Wrappers
  import opened Operation
  import opened Agent
  import opened AgentGuard
  import opened ApplyMachine
  import opened ApplyInvariant
  import opened ApplySafety

  /** No signal has spent this counted attempt yet. */
  ghost predicate Unspent(won: nat, log: seq<Event>) {
    forall k :: 0 <= k < |log| && log[k].DidSignal? ==> log[k].won != won
  }

  /** New signals spend the actor's own attempt; an attempt newly held is newer than the history. */
  ghost predicate SpendsOwn(w: World, pc: Pc, m: Moment) {
    && (forall k :: |w.log| <= k < |m.w.log| && m.w.log[k].DidSignal? ==> pc.Signalling? && m.w.log[k].won == pc.won)
    && (m.pc.Signalling? ==> |w.log| <= m.pc.won && Unspent(m.pc.won, m.w.log))
  }

  /** A close noted as claiming too much is this actor's own, over what it declares. */
  ghost predicate ClosesOwn(w: World, pc: Pc, m: Moment) {
    forall k :: |w.log| <= k < |m.w.log| && m.w.log[k].ClosedOver? ==> pc.AbortClosing? && m.w.log[k].scope == Declared(pc.envelope)
  }

  ghost predicate Advances(w: World, v: World) {
    Good(v) && Grows(w.agent, v.agent) && w.log <= v.log
  }

  ghost predicate StepOk(w: World, pc: Pc, m: Moment) {
    Advances(w, m.w) && PcOk(m.pc, m.w.agent, m.w.log) && SpendsOwn(w, pc, m) && ClosesOwn(w, pc, m)
  }

  /** What an actor may rely on when its turn comes. */
  ghost predicate Ready(w: World, pc: Pc) {
    && Good(w) && PcOk(pc, w.agent, w.log)
    && (pc.Signalling? ==> Unspent(pc.won, w.log))
  }

  // ------------------------------------------------------------------ one more event

  /** What must hold of an event for the history to stay well formed. */
  ghost predicate EventOk(log: seq<Event>, e: Event) {
    && (e.MovedPlane? ==> MoveOk(log + [e], |log|))
    && (e.SawMine? ==> e.seen == OwnedBy(RecordOf(e.op)) && Occurred(log, PassedPreflight(e.op)))
    && (IsEffect(e) ==> e.head <= |log| && Unmarked(log, e.head, e.op.id) && Occurred(log, PassedPreflight(e.op)))
    && (e.DidSignal? ==> SignalOk(log + [e], |log|) && Unspent(e.won, log))
    && (e.ClosedOver? ==> !NamesBoth(e.scope))
  }

  lemma MovesStay(log: seq<Event>, e: Event)
    requires MovesOk(log) && EventOk(log, e)
    ensures MovesOk(log + [e])
  {
    var log' := log + [e];
    forall c | 0 <= c < |log'| && log'[c].MovedPlane? ensures MoveOk(log', c) {
      if c < |log| { assert MoveOk(log, c); }
    }
    forall c | 0 <= c < |log'| && log'[c].SawMine? ensures LookOk(log', c) {
      if c < |log| {
        assert LookOk(log, c);
        var f :| 0 <= f < c && log[f] == PassedPreflight(log[c].op);
        assert log'[f] == PassedPreflight(log'[c].op);
      } else {
        var f :| 0 <= f < |log| && log[f] == PassedPreflight(e.op);
        assert log'[f] == PassedPreflight(log'[c].op);
      }
    }
  }

  lemma EffectStays(log: seq<Event>, e: Event, k: nat)
    requires k <= |log| && EventOk(log, e) && IsEffect((log + [e])[k])
    requires k < |log| ==> EffectOk(log, k)
    ensures EffectOk(log + [e], k)
  {
    var log' := log + [e];
    var f :| 0 <= f < k && log[f] == PassedPreflight(log'[k].op);
    assert log'[f] == PassedPreflight(log'[k].op);
    UnmarkedGrows(log, log', log'[k].head, log'[k].op.id);
  }

  lemma SignalStays(log: seq<Event>, e: Event, k: nat)
    requires k <= |log| && EventOk(log, e) && (log + [e])[k].DidSignal?
    requires k < |log| ==> SignalOk(log, k)
    ensures SignalOk(log + [e], k)
  {
  }

  lemma HistoryAppend(log: seq<Event>, e: Event)
    requires HistoryOk(log) && EventOk(log, e)
    ensures HistoryOk(log + [e])
  {
    hide MovesOk, EffectOk, SignalOk, MoveOk, LookOk;
    var log' := log + [e];
    MovesStay(log, e);
    forall k | 0 <= k < |log'| && IsEffect(log'[k]) ensures EffectOk(log', k) {
      if k < |log| { assert log'[k] == log[k]; }
      EffectStays(log, e, k);
    }
    forall k | 0 <= k < |log'| && log'[k].DidSignal? ensures SignalOk(log', k) {
      if k < |log| { assert log'[k] == log[k]; }
      SignalStays(log, e, k);
    }
    forall i, k | 0 <= i < k < |log'| && log'[i].DidSignal? && log'[k].DidSignal? ensures log'[i].won != log'[k].won {
      if k < |log| { assert log[i].DidSignal? && log[k].DidSignal?; } else { assert log[i].DidSignal?; }
    }
  }

  lemma KeptAppend(s: State, log: seq<Event>, e: Event)
    requires Kept(s, log) && !e.MarkedAborted? && !e.MovedPlane?
    ensures Kept(s, log + [e])
  {
    PartsGrow(s, log, s.done, log + [e]);
    DoneLogGrows(s.done, log, log + [e]);
    MarksGrow(s, s, log, log + [e]);
  }

  lemma WinsAppend(log: seq<Event>, e: Event, j: Option<Journal>)
    requires WinsOk(log, j)
    requires e.WonAttempt? ==> WinOk(e, j) && forall i :: 0 <= i < |log| && log[i].WonAttempt? ==> Later(log[i], e)
    ensures WinsOk(log + [e], j)
  {
    var log' := log + [e];
    forall i | 0 <= i < |log'| && log'[i].WonAttempt? ensures WinOk(log'[i], j) {
      if i < |log| { assert log'[i] == log[i]; }
    }
    forall i, k | 0 <= i < k < |log'| && log'[i].WonAttempt? && log'[k].WonAttempt? ensures Later(log'[i], log'[k]) {
      assert log'[i] == log[i];
      if k < |log| { assert log'[k] == log[k]; }
    }
  }

  lemma NotedGood(w: World, e: Event)
    requires Good(w) && EventOk(w.log, e) && !e.MarkedAborted? && !e.MovedPlane?
    requires e.WonAttempt? ==> WinOk(e, w.agent.journal) && forall i :: 0 <= i < |w.log| && w.log[i].WonAttempt? ==> Later(w.log[i], e)
    ensures Advances(w, Noted(w, e))
  {
    hide Kept, HistoryOk, WinsOk, EventOk;
    KeptAppend(w.agent, w.log, e);
    HistoryAppend(w.log, e);
    WinsAppend(w.log, e, w.agent.journal);
    GrowsRefl(w.agent);
  }

  lemma GrowsRefl(s: State)
    ensures Grows(s, s)
  {
  }

  // ------------------------------------------------------------------ one saved section

  /** Counted attempts stay counted, whatever happens to the journal. */
  lemma WinsGrow(log: seq<Event>, s: State, n: State)
    requires WinsOk(log, s.journal) && JournalGrows(s, n)
    requires s.journal.Some? ==> s.journal.value.opening <= s.journal.value.number
    ensures WinsOk(log, n.journal)
  {
    forall i | 0 <= i < |log| && log[i].WonAttempt? ensures WinOk(log[i], n.journal) {
      assert WinOk(log[i], s.journal);
    }
  }

  lemma SavedGood(w: World, c: Call)
    requires Good(w) && CallOk(w.agent, w.log, c) && Durable(w.agent, c).Saved?
    requires c.CommitCall? ==> !CommitMoves(w.agent, c.tuple, c.proof)
    ensures Advances(w, After(w, c)) && After(w, c).log == w.log + Marks(w.agent, c) && NoSignals(Marks(w.agent, c))
  {
    hide CallOk, HistoryOk, WinsOk, CommitMoves, Mutate, GuardHolds;
    SaveKeeps(w.agent, w.log, c);
    WinsGrow(w.log, w.agent, Durable(w.agent, c).state);
    MarkedGood(w.log, Marks(w.agent, c), After(w, c).agent.journal);
  }

  ghost predicate NoSignals(events: seq<Event>) {
    forall i :: 0 <= i < |events| ==> events[i].MarkedAborted?
  }

  /** Abort marks alone never hurt the history. */
  lemma MarkedGood(log: seq<Event>, marks: seq<Event>, j: Option<Journal>)
    requires HistoryOk(log) && WinsOk(log, j) && |marks| <= 1 && NoSignals(marks)
    ensures HistoryOk(log + marks) && WinsOk(log + marks, j)
  {
    hide HistoryOk, WinsOk;
    if marks == [] {
      assert log + marks == log;
    } else {
      assert marks == [marks[0]];
      HistoryAppend(log, marks[0]);
      WinsAppend(log, marks[0], j);
    }
  }

  // ------------------------------------------------------------------ shapes of a step

  /** The actor only moves on. */
  lemma Stays(w: World, pc: Pc, next: Pc)
    requires Good(w) && PcOk(next, w.agent, w.log) && !next.Signalling?
    ensures StepOk(w, pc, Moment(w, next))
  {
    hide Good, Kept, PcOk;
    GrowsRefl(w.agent);
  }

  /** The actor saves one section, then moves on. */
  lemma Saves(w: World, pc: Pc, c: Call, next: Pc)
    requires Good(w) && CallOk(w.agent, w.log, c) && Durable(w.agent, c).Saved?
    requires c.CommitCall? ==> !CommitMoves(w.agent, c.tuple, c.proof)
    requires PcOk(next, w.agent, w.log) && !next.Signalling?
    ensures StepOk(w, pc, Moment(After(w, c), next))
  {
    hide Kept, HistoryOk, WinsOk, CallOk, CommitMoves, Durable, PcOk, Grows, Marks;
    SavedGood(w, c);
    PcGrows(next, w.agent, After(w, c).agent, w.log, After(w, c).log);
  }

  /** The actor saves one section or the call ends. */
  lemma Musts(w: World, pc: Pc, c: Call, next: Pc)
    requires Good(w) && CallOk(w.agent, w.log, c) && !c.CommitCall?
    requires PcOk(next, w.agent, w.log) && !next.Signalling?
    ensures StepOk(w, pc, Must(w, c, next))
  {
    hide Good, CallOk, PcOk, Durable, StepOk, After;
    if Durable(w.agent, c).Saved? { Saves(w, pc, c, next); } else { Quits(w, pc); }
  }

  lemma Quits(w: World, pc: Pc)
    requires Good(w)
    ensures StepOk(w, pc, Moment(w, Done))
  {
    hide Good, Grows;
    Stays(w, pc, Done);
  }

  /** The actor notes an event that is no signal, then moves on. */
  lemma Notes(w: World, pc: Pc, e: Event, next: Pc)
    requires Good(w) && EventOk(w.log, e) && !e.MarkedAborted? && !e.MovedPlane? && !e.WonAttempt? && !e.ClosedOver?
    requires e.DidSignal? ==> pc.Signalling? && e.won == pc.won
    requires PcOk(next, w.agent, w.log + [e]) && !next.Signalling?
    ensures StepOk(w, pc, Moment(Noted(w, e), next))
  {
    hide Good, EventOk, PcOk, Grows;
    NotedGood(w, e);
  }

  // ------------------------------------------------------------------ reading the coordinates

  /** A plane that carries this operation's signature was moved by it, on proof. */
  lemma MovedIsProven(s: State, log: seq<Event>, op: Op, p: Plane)
    requires Kept(s, log) && ReservedOp(s.done, op) && MovedByMe(s, op, p)
    ensures Proven(log, TupleFor(op, p))
  {
    hide DoneOk, SlotsOk, EndedOk, MarksOk, JournalOk, CandidateOk, BaselineOk, Sound;
    if p == Http { assert PlaneOk(s.planes.http, Http, s.done, log); }
    else { assert PlaneOk(s.planes.stream, Stream, s.done, log); }
  }

  lemma ReachedIsTrue(s: State, log: seq<Event>, op: Op)
    requires Kept(s, log) && ReservedOp(s.done, op)
    ensures IsTerminal(ReachedPhase(s, op))
    ensures ReachedPhase(s, op) == Activated ==> ProvenBoth(log, op)
  {
    hide Kept;
    if ReachedPhase(s, op) == Activated {
      MovedIsProven(s, log, op, Http);
      MovedIsProven(s, log, op, Stream);
    }
  }

  lemma JournalIsCas(s: State, log: seq<Event>)
    requires Kept(s, log) && s.journal.Some?
    ensures CasOk(s, log, s.journal.value)
  {
    hide DoneOk, SlotsOk, EndedOk, MarksOk, PlaneOk, CandidateOk, BaselineOk, Sound;
  }

  /** Two operations of one identity reserved the same tuples. */
  lemma SameReservation(done: map<StepKey, Tuple>, log: seq<Event>, a: Op, b: Op)
    requires ReservedOp(done, a) && ReservedOp(done, b) && a.id == b.id && ProvenBoth(log, a)
    ensures ProvenBoth(log, b)
  {
    assert TupleFor(a, Http) == TupleFor(b, Http) && TupleFor(a, Stream) == TupleFor(b, Stream);
  }

  /** Not closed means no abort mark anywhere in the history. */
  lemma OpenIsUnmarked(s: State, log: seq<Event>, op: Op)
    requires MarksOk(s.ended, log) && !ClosedTransition(s, op)
    ensures Unmarked(log, |log|, op.id)
  {
    forall i | 0 <= i < |log| ensures log[i] != MarkedAborted(op.id) {
      if log[i].MarkedAborted? { assert IsAborted(s.ended, log[i].id); }
    }
  }

  /** The entry continues the turn's own. */
  lemma TurnEntry(s: State, log: seq<Event>, j: Journal, entry: Journal)
    requires CasOk(s, log, j) && entry.number == j.number + 1 && Follows(j, entry) && EntryTrue(entry, s.done, log)
    ensures EntryOk(s, log, entry)
  {
    hide EntryTrue, Follows;
  }

  // ------------------------------------------------------------------ one lemma per stage of the protocol

  /** Entering an iteration: the head reads the journal. */
  lemma StepHead(w: World, pc: Pc, answer: Answer)
    requires Ready(w, pc) && pc.Head?
    ensures StepOk(w, pc, Act(w, pc, answer))
  {
    hide Kept, HistoryOk, WinsOk, Grows, Occurred, Proven, ReachedPhase, ClosedTransition, AssertOwnership, EntryTrue;
    var s, next := w.agent, AtHead(w.agent, pc.bound, |w.log|);
    if OwnsJournal(s.journal, pc.bound) && !IsTerminal(s.journal.value.phase) { HeadOk(w, pc.bound); }
    assert PcOk(next, s, w.log);
    Stays(w, pc, next);
  }

  lemma HeadOk(w: World, bound: Op)
    requires Kept(w.agent, w.log)
    requires OwnsJournal(w.agent.journal, bound) && !IsTerminal(w.agent.journal.value.phase)
    ensures PcOk(AtHead(w.agent, bound, |w.log|), w.agent, w.log)
  {
    hide Kept, Occurred, Proven, ReachedPhase, ClosedTransition, AssertOwnership, EntryTrue;
    var s := w.agent;
    var j := s.journal.value;
    JournalIsCas(s, w.log);
    KeptParts(s, w.log);
    ReachedIsTrue(s, w.log, j.op);
    if !ClosedTransition(s, j.op) { OpenIsUnmarked(s, w.log, j.op); }
    HeadWrites(s, w.log, j);
  }

  lemma KeptParts(s: State, log: seq<Event>)
    requires Kept(s, log) && s.journal.Some?
    ensures MarksOk(s.ended, log) && ReservedOp(s.done, s.journal.value.op)
    ensures ProgressOk(s.journal.value.progress, s.journal.value.op, log)
  {
  }

  /** The entries the head writes without awaiting anything. */
  lemma HeadWrites(s: State, log: seq<Event>, j: Journal)
    requires CasOk(s, log, j)
    ensures j.phase == MembershipStaged ==> EntryOk(s, log, Stepped(j, ReloadIntent))
    ensures j.phase == PartiallyActivated ==> EntryOk(s, log, Stepped(j, PartialExhausted))
    ensures j.phase == PartiallyActivated && Stuck(j) == {} ==> EntryOk(s, log, Stepped(j, Activated))
    ensures j.phase == PartiallyActivated ==> EntryOk(s, log, Stepped(j, ReloadObserved).(attempts := j.attempts + 1))
  {
    hide Proven, Occurred;
    if Stuck(j) == {} { NothingStuck(j); }
  }

  lemma NothingStuck(j: Journal)
    requires Stuck(j) == {}
    ensures j.progress.http == PlaneCommitted && j.progress.stream == PlaneCommitted
  {
    assert Http !in Stuck(j) && Stream !in Stuck(j);
    assert Http == PLANES[0] && Stream == PLANES[1];
  }

  /** The calls around the loop: reserving, recovering, closing, giving back, aborting. */
  predicate ControlPc(pc: Pc) {
    || pc.Reserving? || pc.ReleasingIdle? || pc.ClosingStale? || pc.ReleasingStale? || pc.Reclaiming?
    || pc.Finishing? || pc.Closing? || pc.Intending?
  }

  lemma StepControl(w: World, pc: Pc, answer: Answer)
    requires Ready(w, pc) && ControlPc(pc)
    ensures StepOk(w, pc, Act(w, pc, answer))
  {
    hide Kept, HistoryOk, WinsOk, Durable, After, StepOk, TurnOk, CasOk, OwnsJournal;
    match pc
    case Reserving(op) => Musts(w, pc, ReserveAllCall(op), Head(op));
    case ReleasingIdle => Musts(w, pc, ReleaseIdleCall, Done);
    case ClosingStale(op) => Musts(w, pc, CloseCall(op, Superseded), ReleasingStale(op));
    case ReleasingStale(op) => Musts(w, pc, ReleaseStaleCall(op), Done);
    case Reclaiming(op) => Musts(w, pc, ReclaimCall(op), Head(op));
    case Finishing(op, release, next) => Musts(w, pc, FinishCall(op, release), Resume(next));
    case Closing(turn, how) =>
      ClosingCallOk(w.agent, w.log, turn.j, how);
      Musts(w, pc, CloseCall(turn.j.op, how), Finishing(turn.j.op, {Http, Stream}, Stop));
    case Intending(turn) => Musts(w, pc, IntentCall(RecordOf(turn.j.op)), Publishing(turn));
    case _ =>
  }

  lemma ClosingCallOk(s: State, log: seq<Event>, j: Journal, how: Phase)
    requires Kept(s, log) && CasOk(s, log, j) && IsTerminal(how) && (how == Activated ==> ProvenBoth(log, j.op))
    ensures CallOk(s, log, CloseCall(j.op, how))
  {
    hide Proven, Occurred, Sound, MarksOk, EndedOk, DoneOk, BaselineOk, CandidateOk;
    if how == Activated && OwnsJournal(s.journal, j.op) {
      SameReservation(s.done, log, j.op, s.journal.value.op);
    }
  }

  lemma StepRecover(w: World, pc: Pc, answer: Answer)
    requires Ready(w, pc) && pc.Recovering?
    ensures StepOk(w, pc, Act(w, pc, answer))
  {
    hide Kept, HistoryOk, WinsOk, Durable, After, StepOk;
    Stays(w, pc, AtRecover(w.agent));
  }

  lemma StepWriting(w: World, pc: Pc, answer: Answer)
    requires Ready(w, pc) && pc.Writing?
    ensures StepOk(w, pc, Act(w, pc, answer))
  {
    hide Kept, HistoryOk, WinsOk, After, StepOk, EntryOk;
    var c := WriteCall(pc.entry);
    var d := Durable(w.agent, c);
    if d.Saved? {
      Saves(w, pc, c, Resume(pc.next));
    } else if d.Refusal? && d.why == JournalConflict {
      Stays(w, pc, Resume(pc.next));
    } else {
      Quits(w, pc);
    }
  }

  lemma StepAbort(w: World, pc: Pc, answer: Answer)
    requires Ready(w, pc) && AbortPc(pc)
    ensures StepOk(w, pc, ActAbort(w, pc))
  {
    hide Kept, HistoryOk, WinsOk, Durable, After, StepOk, OwnsJournal, ReachedPhase, ActAbortClose;
    var op, e := pc.op, pc.envelope;
    if pc.Aborting? {
      if pc.todo == [] { Stays(w, pc, AbortReleasing(op, e)); }
      else if pc.todo[0] !in e.carried { RestEnded(pc, w.agent); Stays(w, pc, Aborting(op, e, pc.todo[1..])); }
      else { StepAborting(w, pc); }
    } else if pc.AbortReleasing? {
      Musts(w, pc, ReleaseHolderCall(op), AbortFinishing(op, e));
    } else if pc.AbortFinishing? {
      if Declared(e) <= e.carried { AllAborted(w.agent, op, e); Musts(w, pc, FinishCall(op, Declared(e)), AbortJudging(op, e)); }
      else { Quits(w, pc); }
    } else if pc.AbortJudging? {
      if w.agent.journal.None? { Quits(w, pc); }
      else { JudgedIsTrue(w, op, e); Stays(w, pc, AbortClosing(op, e, ReachedPhase(w.agent, w.agent.journal.value.op))); }
    } else {
      StepAbortClosing(w, pc);
    }
  }

  lemma AllAborted(s: State, op: Op, e: Envelope)
    requires AbortedBut(s, op, e, []) && Declared(e) <= e.carried
    ensures AbortedAll(s, op, e)
  {
    forall p: Plane | p in e.declared ensures EndedOrStale(s, op.id, p) { assert p in Declared(e); }
  }

  lemma JudgedIsTrue(w: World, op: Op, e: Envelope)
    requires Good(w) && w.agent.journal.Some?
    ensures ClosingTrue(w.agent, op, e, ReachedPhase(w.agent, w.agent.journal.value.op))
  {
    hide Kept, HistoryOk, WinsOk;
    var s := w.agent;
    KeptParts(s, w.log);
    ReachedIsTrue(s, w.log, s.journal.value.op);
    if OwnsJournal(s.journal, op) && ReachedPhase(s, s.journal.value.op) == Activated {
      ProvenIsActivated(s, w.log, s.journal.value.op);
      forall p: Plane | p in e.declared ensures EndedHow(s, op.id, p) == Some(EndActivated) { assert p == Http || p == Stream; }
    }
  }

  /** A proven move is on record in the ledger. */
  lemma ProvenIsActivated(s: State, log: seq<Event>, op: Op)
    requires MarksOk(s.ended, log)
    ensures Proven(log, TupleFor(op, Http)) ==> EndedHow(s, op.id, Http) == Some(EndActivated)
    ensures Proven(log, TupleFor(op, Stream)) ==> EndedHow(s, op.id, Stream) == Some(EndActivated)
  {
    if Proven(log, TupleFor(op, Http)) {
      var c :| 0 <= c < |log| && log[c].MovedPlane? && log[c].tuple == TupleFor(op, Http);
      assert IsActivated(s.ended, EndKeyOf(log[c].tuple));
    }
    if Proven(log, TupleFor(op, Stream)) {
      var c :| 0 <= c < |log| && log[c].MovedPlane? && log[c].tuple == TupleFor(op, Stream);
      assert IsActivated(s.ended, EndKeyOf(log[c].tuple));
    }
  }

  /** For an operation that reserved, the ledger shows an activation exactly when a move was proven. */
  lemma ActivatedIsProven(s: State, log: seq<Event>, op: Op)
    requires Kept(s, log) && ReservedOp(s.done, op)
    ensures EndedHow(s, op.id, Http) == Some(EndActivated) <==> Proven(log, TupleFor(op, Http))
    ensures EndedHow(s, op.id, Stream) == Some(EndActivated) <==> Proven(log, TupleFor(op, Stream))
  {
    hide DoneOk, SlotsOk, PlaneOk, JournalOk, CandidateOk, BaselineOk, Sound, MarksOk, Proven;
    ProvenIsActivated(s, log, op);
    if EndedHow(s, op.id, Http) == Some(EndActivated) { assert EndKey(op.id, Http) in s.ended; }
    if EndedHow(s, op.id, Stream) == Some(EndActivated) { assert EndKey(op.id, Stream) in s.ended; }
  }

  /** The close of an abort: true of the journal it hits, or noted as claiming too much. */
  lemma StepAbortClosing(w: World, pc: Pc)
    requires Ready(w, pc) && pc.AbortClosing?
    ensures StepOk(w, pc, ActAbortClose(w, pc.op, pc.envelope, pc.how))
  {
    hide Kept, HistoryOk, WinsOk, Durable, After, StepOk;
    var c := CloseCall(pc.op, pc.how);
    if !Durable(w.agent, c).Saved? {
      Quits(w, pc);
    } else if ClosesOver(w.agent, pc.op, pc.how) {
      ClosesOverOk(w, pc);
    } else {
      ClosesTruly(w, pc);
      Saves(w, pc, c, Done);
    }
  }

  lemma ClosesTruly(w: World, pc: Pc)
    requires Ready(w, pc) && pc.AbortClosing? && !ClosesOver(w.agent, pc.op, pc.how)
    ensures CallOk(w.agent, w.log, CloseCall(pc.op, pc.how))
  {
    hide Kept, HistoryOk, WinsOk;
    var s := w.agent;
    if OwnsJournal(s.journal, pc.op) {
      KeptParts(s, w.log);
      ActivatedIsProven(s, w.log, s.journal.value.op);
    }
  }

  lemma ClosesOverOk(w: World, pc: Pc)
    requires Ready(w, pc) && pc.AbortClosing? && ClosesOver(w.agent, pc.op, pc.how) && Durable(w.agent, CloseCall(pc.op, pc.how)).Saved?
    ensures StepOk(w, pc, ActAbortClose(w, pc.op, pc.envelope, pc.how))
  {
    hide Kept, HistoryOk, WinsOk, Durable, Grows;
    var c := CloseCall(pc.op, pc.how);
    var e := ClosedOver(pc.op.id, w.agent.journal.value.opening, Declared(pc.envelope));
    var v := Noted(w, e);
    assert !NamesBoth(e.scope);
    NotedGood(w, e);
    assert v.log[|w.log|] == e;
    assert WasClosedOver(v.log, pc.op.id, w.agent.journal.value.opening);
    SavedGood(v, c);
    assert Marks(w.agent, c) == [];
    assert v.log + [] == v.log && (w.log + []) + [e] == v.log;
    assert Noted(After(w, c), e) == After(v, c);
    NotedCloses(w, pc, v, After(v, c));
  }

  lemma NotedCloses(w: World, pc: Pc, v: World, x: World)
    requires pc.AbortClosing? && Advances(v, x) && v == w.(log := v.log) && x.log == v.log
    requires |v.log| == |w.log| + 1 && w.log <= v.log
    requires v.log[|w.log|].ClosedOver? && v.log[|w.log|].scope == Declared(pc.envelope)
    ensures StepOk(w, pc, Moment(x, Done))
  {
    hide Good, Grows;
  }

  /** One plane of an abort: afterwards it is ended, or the caller is out of date. */
  lemma StepAborting(w: World, pc: Pc)
    requires Ready(w, pc) && pc.Aborting? && pc.todo != [] && pc.todo[0] in pc.envelope.carried
    ensures StepOk(w, pc, ActAbort(w, pc))
  {
    hide Kept, HistoryOk, WinsOk, StepOk, GuardHolds, Close;
    var c := AbortCall(TupleFor(pc.op, pc.todo[0]));
    var d := Durable(w.agent, c);
    var rest := Aborting(pc.op, pc.envelope, pc.todo[1..]);
    AbortEnds(w.agent, pc.op, pc.todo[0]);
    if d.Tripped? {
      Quits(w, pc);
    } else if d.Refusal? {
      assert After(w, c) == w;
      RestEnded(pc, w.agent);
      Stays(w, pc, rest);
    } else {
      SavedGood(w, c);
      AbortGrows(pc, w.agent, After(w, c).agent, w.log, After(w, c).log);
      RestEnded(pc, After(w, c).agent);
      assert PcOk(rest, After(w, c).agent, After(w, c).log);
      NewSignals(w, pc, c, rest);
    }
  }

  lemma RestEnded(pc: Pc, s: State)
    requires pc.Aborting? && pc.todo != [] && AbortedBut(s, pc.op, pc.envelope, pc.todo)
    requires pc.todo[0] in pc.envelope.carried ==> EndedOrStale(s, pc.op.id, pc.todo[0])
    ensures AbortedBut(s, pc.op, pc.envelope, pc.todo[1..])
  {
    assert forall p :: p in pc.todo ==> p == pc.todo[0] || p in pc.todo[1..];
  }

  lemma AbortEnds(s: State, op: Op, p: Plane)
    ensures var d := Durable(s, AbortCall(TupleFor(op, p)));
      && (d.Refusal? ==> EndedOrStale(s, op.id, p))
      && (d.Saved? ==> EndedOrStale(d.state, op.id, p))
  {
    hide GuardHolds, DropIf;
  }

  lemma NewSignals(w: World, pc: Pc, c: Call, next: Pc)
    requires Advances(w, After(w, c)) && PcOk(next, After(w, c).agent, After(w, c).log) && !next.Signalling?
    requires After(w, c).log == w.log + Marks(w.agent, c) && NoSignals(Marks(w.agent, c))
    ensures StepOk(w, pc, Moment(After(w, c), next))
  {
    hide Good, Grows, PcOk, After;
  }

  // ------------------------------------------------------------------ ending badly

  lemma StepFailing(w: World, pc: Pc, answer: Answer)
    requires Ready(w, pc) && FailPc(pc)
    ensures StepOk(w, pc, ActFail(w, pc))
  {
    hide Kept, HistoryOk, WinsOk, StepOk, Durable, After, MovedByMe, ReachedPhase, EntryTrue, Proven;
    if pc.Judging? { StepJudging(w, pc); }
    else if pc.todo == [] { Stays(w, pc, Judging(pc.j, pc.progress, pc.again)); }
    else {
      var p, rest := pc.todo[0], pc.todo[1..];
      CasReserved(w, pc.j);
      if pc.Failing? {
        if MovedByMe(w.agent, pc.j.op, p) {
          MovedIsProven(w.agent, w.log, pc.j.op, p);
          Stays(w, pc, Failing(pc.j, Put(pc.progress, p, PlaneCommitted), rest, pc.again));
        } else {
          Stays(w, pc, FailingPlane(pc.j, pc.progress, pc.todo, pc.again));
        }
      } else {
        var c, next := FailCall(TupleFor(pc.j.op, p)), Failing(pc.j, Put(pc.progress, p, PlaneFailed), rest, pc.again);
        if Durable(w.agent, c).Tripped? { Quits(w, pc); }
        else if Durable(w.agent, c).Saved? { Saves(w, pc, c, next); }
        else { Unsaved(w, c); Stays(w, pc, next); }
      }
    }
  }

  lemma Unsaved(w: World, c: Call)
    requires !Durable(w.agent, c).Saved?
    ensures After(w, c) == w
  {
    hide Durable;
  }

  lemma CasReserved(w: World, j: Journal)
    requires CasOk(w.agent, w.log, j)
    ensures ReservedOp(w.agent.done, j.op)
  {
  }

  lemma StepJudging(w: World, pc: Pc)
    requires Ready(w, pc) && pc.Judging?
    ensures StepOk(w, pc, ActFail(w, pc))
  {
    hide Kept, HistoryOk, WinsOk, StepOk, ReachedPhase, Proven, Occurred;
    var s, j := w.agent, pc.j;
    var phase := if s.journal.Some? then ReachedPhase(s, s.journal.value.op) else Failed;
    var entry := Stepped(j, phase).(progress := pc.progress);
    if entry.number == JournalSeq(s) + 1 && s.journal.Some? {
      ReachedIsTrue(s, w.log, j.op);
    }
    Stays(w, pc, Writing(entry, ThenFinish(j.op, {}, pc.again)));
  }

  lemma FailAllOk(w: World, pc: Pc, turn: Turn)
    requires Good(w) && TurnOk(w.agent, w.log, turn)
    ensures PcOk(FailingPc(turn), w.agent, w.log) && !FailingPc(turn).Signalling?
  {
    hide Good, Reserved, Proven, Occurred, Unmarked;
  }

  lemma TimedOutOk(w: World, bound: Op)
    requires Kept(w.agent, w.log)
    ensures PcOk(TimedOut(w.agent, bound), w.agent, w.log) && !TimedOut(w.agent, bound).Signalling?
  {
    hide Kept, CasOk, ProgressOk;
    if OwnsJournal(w.agent.journal, bound) {
      JournalIsCas(w.agent, w.log);
      KeptParts(w.agent, w.log);
    }
  }

  // ------------------------------------------------------------------ up to publication

  lemma StepPreflight(w: World, pc: Pc, answer: Answer)
    requires Ready(w, pc) && pc.Preflighting?
    ensures StepOk(w, pc, Act(w, pc, answer))
  {
    hide Kept, HistoryOk, WinsOk, StepOk, AssertOwnership, TimedOut, FailingPc, CasOk, EntryOk, Unmarked;
    var turn, s := pc.turn, w.agent;
    if answer == Late { TimedOutOk(w, turn.bound); Stays(w, pc, TimedOut(s, turn.bound)); }
    else if AssertOwnership(s, turn.j.op).Lost? { Quits(w, pc); }
    else if answer != Yes { FailAllOk(w, pc, turn); Stays(w, pc, FailingPc(turn)); }
    else {
      var e, entry := PassedPreflight(turn.j.op), Stepped(turn.j, PublishIntent);
      PassedEntry(s, w.log, turn.j);
      Notes(w, pc, e, Writing(entry, Again(turn.bound)));
    }
  }

  lemma PassedEntry(s: State, log: seq<Event>, j: Journal)
    requires CasOk(s, log, j) && !IsTerminal(j.phase)
    ensures EntryOk(s, log + [PassedPreflight(j.op)], Stepped(j, PublishIntent))
  {
    hide Proven, Reserved;
    var log' := log + [PassedPreflight(j.op)];
    assert log'[|log|] == PassedPreflight(j.op);
    EntryGrows(j, s.done, s.done, log, log');
    TurnEntry(s, log', j, Stepped(j, PublishIntent));
  }

  /** An entry that only moves a running operation to another running phase. */
  lemma RunsOn(s: State, log: seq<Event>, turn: Turn, entry: Journal)
    requires PastTurn(s, log, turn)
    requires entry == turn.j.(phase := entry.phase, number := turn.j.number + 1, attempts := entry.attempts,
                              progress := entry.progress, evidence := entry.evidence)
    requires turn.j.attempts <= entry.attempts && (turn.j.evidence.Some? ==> entry.evidence.Some?)
    requires !IsTerminal(entry.phase) && ProgressOk(entry.progress, entry.op, log)
    ensures EntryOk(s, log, entry)
  {
    hide Proven, Reserved, Unmarked;
    TurnEntry(s, log, turn.j, entry);
  }

  lemma TurnProgress(s: State, log: seq<Event>, turn: Turn)
    requires TurnOk(s, log, turn)
    ensures ProgressOk(turn.j.progress, turn.j.op, log)
  {
    hide Proven, Reserved, Unmarked;
  }

  /** A turn past preflight may have effects. */
  lemma MayAct(s: State, log: seq<Event>, turn: Turn)
    requires PastTurn(s, log, turn)
    ensures turn.head <= |log| && Unmarked(log, turn.head, turn.j.op.id) && Occurred(log, PassedPreflight(turn.j.op))
  {
    hide Proven, Reserved, Unmarked;
  }

  lemma StepLookingUp(w: World, pc: Pc, answer: Answer)
    requires Ready(w, pc) && pc.LookingUp?
    ensures StepOk(w, pc, Act(w, pc, answer))
  {
    hide Kept, HistoryOk, WinsOk, StepOk, TimedOut, TurnOk, EntryOk, Unmarked, PublishedByMe;
    var turn, s := pc.turn, w.agent;
    if answer == Late { TimedOutOk(w, turn.bound); Stays(w, pc, TimedOut(s, turn.bound)); }
    else if PublishedByMe(w.published, turn.j.op) {
      TurnProgress(s, w.log, turn);
      RunsOn(s, w.log, turn, Stepped(turn.j, Published));
      Stays(w, pc, Writing(Stepped(turn.j, Published), Again(turn.bound)));
    }
    else { Stays(w, pc, Intending(turn)); }
  }

  lemma StepPublishing(w: World, pc: Pc, answer: Answer)
    requires Ready(w, pc) && pc.Publishing?
    ensures StepOk(w, pc, Act(w, pc, answer))
  {
    hide Kept, HistoryOk, WinsOk, TimedOut, TurnOk, EntryOk, Unmarked, Grows, Occurred;
    var turn, s := pc.turn, w.agent;
    if answer == No { Quits(w, pc); }
    else {
      var e := DidPublish(turn.j.op, turn.head);
      var next := Writing(Stepped(turn.j, Published), Again(turn.bound));
      MayAct(s, w.log, turn);
      if answer == Late {
        EffectNoted(w, e);
        TimedOutOk(Noted(w, e), turn.bound);
        Notes(w, pc, e, TimedOut(s, turn.bound));
      } else {
        TurnProgress(s, w.log, turn);
        RunsOn(s, w.log, turn, Stepped(turn.j, Published));
        GrowsRefl(s);
        EntryOkGrows(s, s, w.log, w.log + [e], next.entry);
        Notes(w, pc, e, next);
        assert Advances(w, Noted(w, e).(published := OwnedBy(RecordOf(turn.j.op))));
      }
    }
  }

  lemma EffectNoted(w: World, e: Event)
    requires Good(w) && EventOk(w.log, e) && !e.MarkedAborted? && !e.MovedPlane? && !e.WonAttempt?
    ensures Kept(Noted(w, e).agent, Noted(w, e).log)
  {
    hide Kept, HistoryOk, WinsOk, EventOk;
    KeptAppend(w.agent, w.log, e);
  }

  // ------------------------------------------------------------------ staging

  lemma PutProgress(progress: PerPlane<Progress>, op: Op, p: Plane, v: Progress, log: seq<Event>)
    requires ProgressOk(progress, op, log) && (v == PlaneCommitted ==> Proven(log, TupleFor(op, p)))
    ensures ProgressOk(Put(progress, p, v), op, log)
  {
    hide Proven;
  }

  lemma StepStaging(w: World, pc: Pc, answer: Answer)
    requires Ready(w, pc) && (pc.Staging? || pc.Loading?)
    ensures StepOk(w, pc, ActStage(w, pc, answer))
  {
    hide Kept, HistoryOk, WinsOk, StepOk, Durable, After, TurnOk, ProgressOk, EntryOk, FailingPc, CallOk;
    var turn, progress, todo := pc.turn, pc.progress, pc.todo;
    if todo == [] {
      if pc.Loading? { Quits(w, pc); }
      else if pc.advanced == 0 { FailAllOk(w, pc, turn); Stays(w, pc, FailingPc(turn)); }
      else {
        var entry := Stepped(turn.j, MembershipStaged).(progress := progress);
        RunsOn(w.agent, w.log, turn, entry);
        Stays(w, pc, Writing(entry, Again(turn.bound)));
      }
    } else {
      var p, rest := todo[0], todo[1..];
      PutProgress(progress, turn.j.op, p, PlaneFailed, w.log);
      var skipped := Staging(turn, Put(progress, p, PlaneFailed), rest, pc.advanced);
      if pc.Staging? {
        var c := StageCall(TupleFor(turn.j.op, p));
        if Durable(w.agent, c).Saved? {
          ReservedTuple(w.agent, w.log, turn, p);
          Saves(w, pc, c, Loading(turn, progress, todo, pc.advanced));
        }
        else if Durable(w.agent, c).Refusal? { Stays(w, pc, skipped); }
        else { Quits(w, pc); }
      } else if answer == Yes || answer == Late { StepLoaded(w, pc, answer); }
      else { Stays(w, pc, skipped); }
    }
  }

  lemma ReservedTuple(s: State, log: seq<Event>, turn: Turn, p: Plane)
    requires TurnOk(s, log, turn)
    ensures Reserved(s.done, TupleFor(turn.j.op, p))
    ensures CallOk(s, log, StageCall(TupleFor(turn.j.op, p)))
    ensures forall e :: CallOk(s, log, CommitCall(TupleFor(turn.j.op, p), e))
  {
    assert p == Http || p == Stream;
  }

  lemma StepLoaded(w: World, pc: Pc, answer: Answer)
    requires Ready(w, pc) && pc.Loading? && pc.todo != [] && (answer == Yes || answer == Late)
    ensures StepOk(w, pc, ActStage(w, pc, answer))
  {
    hide Kept, HistoryOk, WinsOk, StepOk, TurnOk, ProgressOk, TimedOut, Unmarked, Occurred, Grows;
    var turn, p := pc.turn, pc.todo[0];
    var e := DidStage(turn.j.op, p, turn.head);
    MayAct(w.agent, w.log, turn);
    EffectNoted(w, e);
    if answer == Late {
      TimedOutOk(Noted(w, e), turn.bound);
      Notes(w, pc, e, TimedOut(w.agent, turn.bound));
    } else {
      var next := Staging(turn, Put(pc.progress, p, PlaneStaged), pc.todo[1..], pc.advanced + 1);
      PutProgress(pc.progress, turn.j.op, p, PlaneStaged, w.log);
      GrowsRefl(w.agent);
      StagingGrows(next, w.agent, w.agent, w.log, w.log + [e]);
      Notes(w, pc, e, next);
    }
  }

  // ------------------------------------------------------------------ the reload

  lemma StepReload(w: World, pc: Pc, answer: Answer)
    requires Ready(w, pc) && (pc.ReadingWorld? || pc.Winning? || pc.Signalling? || pc.Awaiting?)
    ensures StepOk(w, pc, ActReload(w, pc, answer))
  {
    hide *;
    if pc.ReadingWorld? { StepReading(w, pc, answer); }
    else if pc.Winning? { StepWinning(w, pc, answer); }
    else if pc.Signalling? { StepSignalling(w, pc, answer); }
    else { StepAwaiting(w, pc, answer); }
  }

  lemma ProofIsSeen(seen: Option<Evidence>, generation: Name)
    requires ProvesActivation(seen, generation)
    ensures seen.Some?
  {
  }

  lemma StepReading(w: World, pc: Pc, answer: Answer)
    requires Ready(w, pc) && pc.ReadingWorld?
    ensures StepOk(w, pc, ActReload(w, pc, answer))
  {
    hide Kept, HistoryOk, WinsOk, StepOk, TurnOk, FailingPc, ProvesActivation, EntryOk, ProgressOk;
    var turn, j := pc.turn, pc.turn.j;
    var seen := if answer.Saw? then answer.reading else Blind;
    if seen.Read? && ProvesActivation(seen.evidence, j.op.generation) {
      var entry := Stepped(j, ReloadObserved).(evidence := seen.evidence);
      TurnProgress(w.agent, w.log, turn);
      ProofIsSeen(seen.evidence, j.op.generation);
      RunsOn(w.agent, w.log, turn, entry);
      Stays(w, pc, Writing(entry, Again(turn.bound)));
    } else if j.attempts >= RELOAD_ATTEMPT_LIMIT || (seen.Blind? && j.attempts > 0) {
      FailAllOk(w, pc, turn);
      Stays(w, pc, FailingPc(turn));
    } else {
      Stays(w, pc, Winning(turn, seen));
    }
  }

  lemma StepSignalling(w: World, pc: Pc, answer: Answer)
    requires Ready(w, pc) && pc.Signalling?
    ensures StepOk(w, pc, ActReload(w, pc, answer))
  {
    hide Kept, HistoryOk, WinsOk, StepOk, TurnOk, TimedOut, Unmarked, Occurred, Unspent, ProvesActivation;
    var turn, j := pc.turn, pc.turn.j;
    if answer == No { Quits(w, pc); }
    else {
      var e := DidSignal(j.op, j.opening, pc.won, pc.seen, turn.head);
      MayAct(w.agent, w.log, turn);
      EffectNoted(w, e);
      if answer == Late {
        TimedOutOk(Noted(w, e), turn.bound);
        Notes(w, pc, e, TimedOut(w.agent, turn.bound));
      } else {
        GrowsRefl(w.agent);
        PlainGrows(Awaiting(turn), w.agent, w.agent, w.log, w.log + [e]);
        Notes(w, pc, e, Awaiting(turn));
      }
    }
  }

  lemma StepAwaiting(w: World, pc: Pc, answer: Answer)
    requires Ready(w, pc) && pc.Awaiting?
    ensures StepOk(w, pc, ActReload(w, pc, answer))
  {
    hide Kept, HistoryOk, WinsOk, StepOk, TurnOk, ProvesActivation, EntryOk;
    var turn := pc.turn;
    var seen := if answer.Saw? && answer.reading.Read? then answer.reading.evidence else None;
    if seen.None? || !OwnsJournal(w.agent.journal, turn.j.op) { Stays(w, pc, Head(turn.bound)); }
    else {
      var now := w.agent.journal.value;
      var noted := Stepped(now, if ProvesActivation(seen, turn.j.op.generation) then ReloadObserved else now.phase).(evidence := seen);
      EvidenceNoted(w.agent, w.log, turn, now, noted);
      Stays(w, pc, Writing(noted, Again(turn.bound)));
    }
  }

  /** The evidence goes into whatever entry of this operation is current. */
  lemma EvidenceNoted(s: State, log: seq<Event>, turn: Turn, now: Journal, noted: Journal)
    requires Kept(s, log) && PastTurn(s, log, turn) && OwnsJournal(s.journal, turn.j.op) && s.journal == Some(now)
    requires noted.evidence.Some? && (noted.phase == now.phase || noted.phase == ReloadObserved)
    requires noted == now.(phase := noted.phase, number := now.number + 1, evidence := noted.evidence)
    ensures EntryOk(s, log, noted)
  {
    hide Proven, Occurred, Unmarked, Sound, DoneOk, SlotsOk, PlaneOk, EndedOk, MarksOk, CandidateOk, BaselineOk;
    SameOp(s.done, turn.j.op, now.op);
  }

  /** An identity reserves one operation only. */
  lemma SameOp(done: map<StepKey, Tuple>, a: Op, b: Op)
    requires ReservedOp(done, a) && ReservedOp(done, b) && a.id == b.id
    ensures a == b
  {
    assert TupleFor(a, Http) == TupleFor(b, Http) && TupleFor(a, Stream) == TupleFor(b, Stream);
  }

  lemma StepWinning(w: World, pc: Pc, answer: Answer)
    requires Ready(w, pc) && pc.Winning?
    ensures StepOk(w, pc, ActReload(w, pc, answer))
  {
    hide Kept, HistoryOk, WinsOk, StepOk, TurnOk, CasOk, Unspent, ProvesActivation, EntryOk, GuardHolds, Mutate,
         OwnsJournal, ProgressOk;
    var turn, j := pc.turn, pc.turn.j;
    var entry := Stepped(j, j.phase).(attempts := j.attempts + 1);
    var c := WriteCall(entry);
    TurnProgress(w.agent, w.log, turn);
    TurnRuns(w.agent, w.log, turn);
    RunsOn(w.agent, w.log, turn, entry);
    var d := Durable(w.agent, c);
    if d.Saved? {
      WonGood(w, pc, entry);
    } else if d.Refusal? && d.why == JournalConflict {
      Stays(w, pc, Head(turn.bound));
    } else {
      Quits(w, pc);
    }
  }

  lemma TurnRuns(s: State, log: seq<Event>, turn: Turn)
    requires TurnOk(s, log, turn)
    ensures !IsTerminal(turn.j.phase)
  {
    hide CasOk, Unmarked;
  }

  /** The write that counts an attempt was won: count it, and hold it until the signal. */
  lemma WonGood(w: World, pc: Pc, entry: Journal)
    requires Ready(w, pc) && pc.Winning? && EntryOk(w.agent, w.log, entry)
    requires entry == Stepped(pc.turn.j, pc.turn.j.phase).(attempts := pc.turn.j.attempts + 1)
    requires Durable(w.agent, WriteCall(entry)).Saved?
    ensures var v := After(w, WriteCall(entry));
      StepOk(w, pc, Moment(Noted(v, WonAttempt(pc.turn.j.opening, pc.turn.j.attempts + 1)), Signalling(pc.turn, |v.log|, pc.seen)))
  {
    hide Kept, HistoryOk, TurnOk, CasOk, EntryOk, GuardHolds, ProvesActivation, Grows, Durable;
    var c, j, turn := WriteCall(entry), pc.turn.j, pc.turn;
    var v := After(w, c);
    var e := WonAttempt(j.opening, j.attempts + 1);
    SavedGood(w, c);
    WonTheJournal(w, turn, entry);
    NotedGood(v, e);
    GrowsTwice(w.agent, v.agent);
    SignalGrows(pc, w.agent, v.agent, w.log, v.log + [e]);
    NobodySpent(v.log, e);
  }

  lemma GrowsTwice(s: State, n: State)
    requires Grows(s, n)
    ensures Grows(s, n)
  {
  }

  lemma NobodySpent(log: seq<Event>, e: Event)
    requires HistoryOk(log) && e.WonAttempt?
    ensures Unspent(|log|, log + [e])
  {
    forall k | 0 <= k < |log + [e]| && (log + [e])[k].DidSignal? ensures (log + [e])[k].won != |log| {
      assert (log + [e])[k] == log[k];
      assert SignalOk(log, k);
    }
  }

  /** Winning the CAS means the journal was still the turn's own entry, so this attempt is new. */
  lemma WonTheJournal(w: World, turn: Turn, entry: Journal)
    requires WinsOk(w.log, w.agent.journal) && TurnOk(w.agent, w.log, turn) && turn.j.attempts < RELOAD_ATTEMPT_LIMIT
    requires entry == Stepped(turn.j, turn.j.phase).(attempts := turn.j.attempts + 1)
    requires Durable(w.agent, WriteCall(entry)).Saved?
    ensures var v, e := After(w, WriteCall(entry)), WonAttempt(turn.j.opening, turn.j.attempts + 1);
      WinOk(e, v.agent.journal) && v.log == w.log && (forall i :: 0 <= i < |v.log| && v.log[i].WonAttempt? ==> Later(v.log[i], e))
  {
    hide GuardHolds, EntryTrue;
    var e := WonAttempt(turn.j.opening, turn.j.attempts + 1);
    assert w.agent.journal == Some(turn.j);
    forall i | 0 <= i < |w.log| && w.log[i].WonAttempt? ensures Later(w.log[i], e) {
      assert WinOk(w.log[i], w.agent.journal);
    }
  }

  // ------------------------------------------------------------------ the commits

  lemma StepCommit(w: World, pc: Pc, answer: Answer)
    requires Ready(w, pc) && (pc.Confirming? || pc.Proving? || pc.Committing?)
    ensures StepOk(w, pc, ActCommit(w, pc, answer))
  {
    hide *;
    if pc.Confirming? { StepConfirming(w, pc, answer); }
    else if pc.Proving? { StepProving(w, pc, answer); }
    else { StepCommitting(w, pc, answer); }
  }

  lemma StepConfirming(w: World, pc: Pc, answer: Answer)
    requires Ready(w, pc) && pc.Confirming?
    ensures StepOk(w, pc, ActCommit(w, pc, answer))
  {
    hide Kept, HistoryOk, WinsOk, StepOk, TurnOk, TimedOut, EntryOk, ProgressOk, Unmarked, Occurred;
    var turn, j := pc.turn, pc.turn.j;
    if answer == Late { TimedOutOk(w, turn.bound); Stays(w, pc, TimedOut(w.agent, turn.bound)); }
    else if PublishedByMe(w.published, j.op) {
      var e := SawMine(j.op, w.published);
      MayAct(w.agent, w.log, turn);
      GrowsRefl(w.agent);
      TurnGrows(w.agent, w.agent, w.log, w.log + [e], turn);
      Notes(w, pc, e, Proving(turn, |w.log|));
    } else {
      BackTo(w, pc, turn, PublishIntent);
    }
  }

  lemma BackTo(w: World, pc: Pc, turn: Turn, phase: Phase)
    requires Good(w) && PastTurn(w.agent, w.log, turn) && !IsTerminal(phase)
    ensures StepOk(w, pc, Moment(w, Writing(Stepped(turn.j, phase), Again(turn.bound))))
  {
    hide Kept, HistoryOk, WinsOk, StepOk, TurnOk, EntryOk, ProgressOk;
    TurnProgress(w.agent, w.log, turn);
    RunsOn(w.agent, w.log, turn, Stepped(turn.j, phase));
    Stays(w, pc, Writing(Stepped(turn.j, phase), Again(turn.bound)));
  }

  lemma StepProving(w: World, pc: Pc, answer: Answer)
    requires Ready(w, pc) && pc.Proving?
    ensures StepOk(w, pc, ActCommit(w, pc, answer))
  {
    hide Kept, HistoryOk, WinsOk, StepOk, TurnOk, EntryOk, ProgressOk, Grows;
    var turn, j := pc.turn, pc.turn.j;
    var seen := if answer.Saw? && answer.reading.Read? then answer.reading.evidence else None;
    if ProvesActivation(seen, j.op.generation) {
      TurnProgress(w.agent, w.log, turn);
      Stays(w, pc, Committing(turn, seen.value, pc.saw, j.progress, PLANES));
    } else {
      BackTo(w, pc, turn, ReloadIntent);
    }
  }

  lemma StepCommitting(w: World, pc: Pc, answer: Answer)
    requires Ready(w, pc) && pc.Committing?
    ensures StepOk(w, pc, ActCommit(w, pc, answer))
  {
    hide Kept, HistoryOk, WinsOk, StepOk, TurnOk, EntryOk, ProgressOk, Durable, After, CommitMoves, ProvesActivation,
         AfterCommits, Grows;
    var turn, todo := pc.turn, pc.todo;
    if todo == [] {
      CommitsDone(w, pc);
    } else {
      var t := TupleFor(turn.j.op, todo[0]);
      var c := CommitCall(t, pc.proof);
      var d := Durable(w.agent, c);
      if d.Saved? {
        if CommitMoves(w.agent, t, pc.proof) { StepMoving(w, pc); } else { StepReplaying(w, pc); }
      } else if d.Refusal? {
        PutProgress(pc.progress, turn.j.op, todo[0], PlaneFailed, w.log);
        Stays(w, pc, Committing(turn, pc.proof, pc.saw, Put(pc.progress, todo[0], PlaneFailed), todo[1..]));
      } else {
        Quits(w, pc);
      }
    }
  }

  lemma CommitsDone(w: World, pc: Pc)
    requires Ready(w, pc) && pc.Committing?
    ensures StepOk(w, pc, Moment(w, AfterCommits(pc.turn, pc.proof, pc.progress)))
  {
    hide Kept, HistoryOk, WinsOk, StepOk, Unmarked, Proven, Occurred, ProvesActivation, Grows;
    var turn := pc.turn;
    var entry := Stepped(turn.j, CommittedPhase(pc.progress)).(progress := pc.progress, evidence := Some(pc.proof));
    TurnEntry(w.agent, w.log, turn.j, entry);
    Stays(w, pc, AfterCommits(turn, pc.proof, pc.progress));
  }

  /** A replayed or already arrived commit was proven before. */
  lemma StepReplaying(w: World, pc: Pc)
    requires Ready(w, pc) && pc.Committing? && pc.todo != []
    requires var t := TupleFor(pc.turn.j.op, pc.todo[0]);
      Durable(w.agent, CommitCall(t, pc.proof)).Saved? && !CommitMoves(w.agent, t, pc.proof)
    ensures var p := pc.todo[0];
      StepOk(w, pc, Moment(After(w, CommitCall(TupleFor(pc.turn.j.op, p), pc.proof)),
                           Committing(pc.turn, pc.proof, pc.saw, Put(pc.progress, p, PlaneCommitted), pc.todo[1..])))
  {
    hide Kept, HistoryOk, WinsOk, StepOk, TurnOk, ProgressOk, GuardHolds, CommitMoves, ProvesActivation, After, Grows, CallOk;
    var turn, p := pc.turn, pc.todo[0];
    var t := TupleFor(turn.j.op, p);
    ReservedTuple(w.agent, w.log, turn, p);
    ReplayProven(w, t, pc.proof);
    PutProgress(pc.progress, turn.j.op, p, PlaneCommitted, w.log);
    Saves(w, pc, CommitCall(t, pc.proof), Committing(turn, pc.proof, pc.saw, Put(pc.progress, p, PlaneCommitted), pc.todo[1..]));
  }

  lemma ReplayProven(w: World, t: Tuple, e: Evidence)
    requires Good(w) && Reserved(w.agent.done, t) && Durable(w.agent, CommitCall(t, e)).Saved? && !CommitMoves(w.agent, t, e)
    ensures Proven(w.log, t)
  {
    hide Kept, HistoryOk, WinsOk, CommitMoves, GuardHolds, Reserved, Proven;
    KeptIsSound(w.agent, w.log);
    GuardFiresExactly(w.agent, CommitCall(t, e));
    KeepCommitReplay(w.agent, w.log, t, e);
  }

  /** The commit that moves a plane, noted as a proven move. */
  lemma StepMoving(w: World, pc: Pc)
    requires Ready(w, pc) && pc.Committing? && pc.todo != []
    requires var t := TupleFor(pc.turn.j.op, pc.todo[0]);
      Durable(w.agent, CommitCall(t, pc.proof)).Saved? && CommitMoves(w.agent, t, pc.proof)
    ensures var p := pc.todo[0]; var t := TupleFor(pc.turn.j.op, p);
      StepOk(w, pc, Moment(Noted(After(w, CommitCall(t, pc.proof)), MovedPlane(t, pc.proof, pc.saw)),
                           Committing(pc.turn, pc.proof, pc.saw, Put(pc.progress, p, PlaneCommitted), pc.todo[1..])))
  {
    hide Kept, HistoryOk, WinsOk, StepOk, TurnOk, ProgressOk, GuardHolds, CommitMoves, ProvesActivation, Durable,
         Grows, MoveOk, CallOk;
    var turn, p, c := pc.turn, pc.todo[0], CommitCall(TupleFor(pc.turn.j.op, pc.todo[0]), pc.proof);
    var e := MovedPlane(c.tuple, pc.proof, pc.saw);
    var v := Noted(After(w, c), e);
    ReservedTuple(w.agent, w.log, turn, p);
    MovedGood(w, c.tuple, pc.proof, pc.saw, turn.j.op);
    CommitGrows(pc, w.agent, v.agent, w.log, v.log);
    assert v.log[|w.log|] == e;
    PutProgress(pc.progress, turn.j.op, p, PlaneCommitted, v.log);
    MovedSpends(w, pc, v, Committing(turn, pc.proof, pc.saw, Put(pc.progress, p, PlaneCommitted), pc.todo[1..]), e);
  }

  lemma MovedSpends(w: World, pc: Pc, v: World, next: Pc, e: Event)
    requires Advances(w, v) && v.log == w.log + [e] && !e.DidSignal? && !e.ClosedOver? && PcOk(next, v.agent, v.log) && !next.Signalling?
    ensures StepOk(w, pc, Moment(v, next))
  {
    hide Good, Grows, PcOk;
  }

  lemma MovedGood(w: World, t: Tuple, e: Evidence, saw: nat, op: Op)
    requires Good(w) && Reserved(w.agent.done, t) && ProvesActivation(Some(e), t.generation)
    requires saw < |w.log| && w.log[saw].SawMine? && w.log[saw].op == op && TupleFor(op, t.plane) == t
    requires Durable(w.agent, CommitCall(t, e)).Saved? && CommitMoves(w.agent, t, e)
    ensures var v := Noted(After(w, CommitCall(t, e)), MovedPlane(t, e, saw)); Advances(w, v) && v.log == w.log + [MovedPlane(t, e, saw)]
  {
    hide Kept, HistoryOk, WinsOk, CommitMoves, GuardHolds, ProvesActivation, Reserved, CommitPlane, JournalGrows;
    var c, n, m := CommitCall(t, e), CommitPlane(w.agent, t, e).state, MovedPlane(t, e, saw);
    assert Mutate(w.agent, c) == CommitPlane(w.agent, t, e);
    assert Marks(w.agent, c) == [];
    assert After(w, c).log == w.log;
    KeptIsSound(w.agent, w.log);
    GuardFiresExactly(w.agent, c);
    KeepMoved(w.agent, w.log, t, e, saw);
    assert MoveOk(w.log + [m], |w.log|);
    HistoryAppend(w.log, m);
    OpeningBound(w.agent, w.log);
    WinsGrow(w.log, w.agent, n);
    WinsAppend(w.log, m, n.journal);
  }

  lemma OpeningBound(s: State, log: seq<Event>)
    requires Kept(s, log)
    ensures s.journal.Some? ==> s.journal.value.opening <= s.journal.value.number
  {
  }

  // ------------------------------------------------------------------ any step

  /** Every step of every actor keeps the world good and hands the actor what it needs next. */
  lemma EveryStep(w: World, pc: Pc, answer: Answer)
    requires Ready(w, pc)
    ensures StepOk(w, pc, Act(w, pc, answer))
  {
    hide Ready, StepOk, PcOk, ActStage, ActReload, ActCommit, ActFail, ActAbort, Must, AtHead, AtRecover, After,
         Durable, FailingPc, TimedOut, Noted, Stepped, RecordOf, PublishedByMe, AssertOwnership, Resume;
    if pc.Head? { StepHead(w, pc, answer); }
    else if ControlPc(pc) { StepControl(w, pc, answer); }
    else if pc.Recovering? { StepRecover(w, pc, answer); }
    else if pc.Writing? { StepWriting(w, pc, answer); }
    else if AbortPc(pc) { StepAbort(w, pc, answer); }
    else if FailPc(pc) { StepFailing(w, pc, answer); }
    else if pc.Preflighting? { StepPreflight(w, pc, answer); }
    else if pc.LookingUp? { StepLookingUp(w, pc, answer); }
    else if pc.Publishing? { StepPublishing(w, pc, answer); }
    else if pc.Staging? || pc.Loading? { StepStaging(w, pc, answer); }
    else if pc.ReadingWorld? || pc.Winning? || pc.Signalling? || pc.Awaiting? { StepReload(w, pc, answer); }
    else if pc.Confirming? || pc.Proving? || pc.Committing? { StepCommit(w, pc, answer); }
    else { assert pc.Done?; ReadyGood(w, pc); Quits(w, pc); }
  }

  lemma ReadyGood(w: World, pc: Pc)
    requires Ready(w, pc)
    ensures Good(w)
  {
  }
}
