/**
 * Aborts whose envelope does not name both planes (`abortConfig`, src/dp/driver.ts).  Nothing
 * checks the envelope of an abort, and it closes the journal as what it read from whatever journal
 * was there a moment before.  Here is exactly when that lets it write `activated` over a plane
 * that never moved, and what a caller can check to rule it out.
 */
module ApplyNarrowAborts {
  import opened Wrappers
  import opened Operation
  import opened Agent
  import opened AgentGuard
  import opened ApplyMachine
  import opened ApplyInvariant
  import opened ApplySafety
  import opened ApplySteps
  import opened ApplyTheorems
  import opened ApplyCrash

  // ------------------------------------------------------------------ the closing step

  /** The actor is about to close its own open journal as `activated`. */
  predicate AboutToActivate(pc: Pc, s: State) {
    pc.AbortClosing? && pc.how == Activated && OwnsJournal(s.journal, pc.op) && !IsTerminal(s.journal.value.phase)
  }

  /** Every plane the envelope leaves out was activated by this very operation, says the ledger. */
  predicate LeftOutIsActivated(s: State, op: Op, e: Envelope) {
    forall p: Plane :: p in e.declared || EndedHow(s, op.id, p) == Some(EndActivated)
  }

  ghost predicate BothMovedAfterProof(log: seq<Event>, op: Op) {
    MovedAfterProof(log, TupleFor(op, Http)) && MovedAfterProof(log, TupleFor(op, Stream))
  }

  lemma StoryIsProven(log: seq<Event>, op: Op)
    requires MovesOk(log)
    ensures BothMovedAfterProof(log, op) <==> ProvenBoth(log, op)
  {
    if ProvenBoth(log, op) {
      ProvenHasStory(log, TupleFor(op, Http));
      ProvenHasStory(log, TupleFor(op, Stream));
    }
  }

  /** What the close does: the journal ends `activated`, and the claim is noted unless the ledger backs it. */
  lemma CloseActivates(w: World, pc: Pc, answer: Answer)
    requires Good(w) && AboutToActivate(pc, w.agent)
    ensures var v := Act(w, pc, answer).w;
      && v.agent.journal == Some(Stepped(w.agent.journal.value, Activated))
      && v.log == w.log + if ClosesOver(w.agent, pc.op, Activated)
                          then [ClosedOver(pc.op.id, w.agent.journal.value.opening, Declared(pc.envelope))] else []
  {
    hide GuardHolds, Sound, HistoryOk, WinsOk, ReachedPhase, ActAbort, ClosesOver;
    var c := CloseCall(pc.op, Activated);
    KeptIsSound(w.agent, w.log);
    GuardFiresExactly(w.agent, c);
    Delegates(w, pc, answer);
    hide Act;
    assert ActAbort(w, pc) == ActAbortClose(w, pc.op, pc.envelope, Activated) by { LastStep(w, pc); }
    assert Marks(w.agent, c) == [];
  }

  lemma LastStep(w: World, pc: Pc)
    requires pc.AbortClosing?
    ensures ActAbort(w, pc) == ActAbortClose(w, pc.op, pc.envelope, pc.how)
  {
    hide ActAbortClose;
  }

  /** On the planes it declares the abort is right; so it is right exactly if the ledger has the others. */
  lemma RightExactly(s: State, log: seq<Event>, pc: Pc)
    requires Kept(s, log) && PcOk(pc, s, log) && AboutToActivate(pc, s)
    ensures LeftOutIsActivated(s, pc.op, pc.envelope) <==> !ClosesOver(s, pc.op, Activated)
    ensures LeftOutIsActivated(s, pc.op, pc.envelope) <==> ProvenBoth(log, s.journal.value.op)
  {
    hide Kept, Proven;
    KeptParts(s, log);
    ActivatedIsProven(s, log, s.journal.value.op);
    if !ClosesOver(s, pc.op, Activated) {
      forall p: Plane ensures p in pc.envelope.declared || EndedHow(s, pc.op.id, p) == Some(EndActivated) {
        assert p == Http || p == Stream;
      }
    }
  }

  /**
   * In every run: the close of an abort that ends the journal as `activated` is backed by a proven
   * move of both planes if and only if every plane its envelope leaves out was activated by this
   * operation; otherwise, and only then, the history notes it.
   */
  lemma ClosesTrulyExactly(published: PublishedState, run: seq<Happening>, who: nat, answer: Answer)
    requires who in RunOf(published, run).actors
    requires AboutToActivate(RunOf(published, run).actors[who], RunOf(published, run).w.agent)
    ensures var sys := RunOf(published, run);
      var n, pc, j := Happened(sys, Turned(who, answer)), sys.actors[who], sys.w.agent.journal.value;
      && n.w.agent.journal == Some(Stepped(j, Activated))
      && (BothMovedAfterProof(n.w.log, j.op) <==> LeftOutIsActivated(sys.w.agent, pc.op, pc.envelope))
      && (WasClosedOver(n.w.log[|sys.w.log|..], j.op.id, j.opening) <==> !LeftOutIsActivated(sys.w.agent, pc.op, pc.envelope))
  {
    hide RunOf, Act, Kept, HistoryOk, WinsOk, PcOk, BothMovedAfterProof, LeftOutIsActivated;
    var sys := RunOf(published, run);
    var pc, j := sys.actors[who], sys.w.agent.journal.value;
    EveryRunIsGood(published, run);
    SystemStep(sys, Turned(who, answer));
    RightExactly(sys.w.agent, sys.w.log, pc);
    CloseActivates(sys.w, pc, answer);
    var v := Act(sys.w, pc, answer).w;
    HistoryHasMoves(sys.w.log);
    HistoryHasMoves(v.log);
    StoryIsProven(v.log, j.op);
    SameProof(sys.w.log, v.log, j.op);
    var more := v.log[|sys.w.log|..];
    if more != [] { assert more[0].ClosedOver? && more[0].id == j.op.id && more[0].opening == j.opening; }
  }

  lemma HistoryHasMoves(log: seq<Event>)
    requires HistoryOk(log)
    ensures MovesOk(log)
  {
  }

  /** A note about a close proves nothing about moves. */
  lemma SameProof(log: seq<Event>, log': seq<Event>, op: Op)
    requires log <= log' && forall k :: |log| <= k < |log'| ==> !log'[k].MovedPlane?
    ensures ProvenBoth(log', op) <==> ProvenBoth(log, op)
  {
    if ProvenBoth(log, op) { ProvenBothGrows(log, log', op); }
    if ProvenBoth(log', op) {
      var h :| 0 <= h < |log'| && log'[h].MovedPlane? && log'[h].tuple == TupleFor(op, Http);
      var t :| 0 <= t < |log'| && log'[t].MovedPlane? && log'[t].tuple == TupleFor(op, Stream);
      assert log[h] == log'[h] && log[t] == log'[t];
    }
  }

  /**
   * In every run, whatever the journal's phase says: its operation moved both planes on proof if and
   * only if the ledger shows both as activated.
   */
  lemma LedgerTells(published: PublishedState, run: seq<Happening>)
    requires RunOf(published, run).w.agent.journal.Some?
    ensures var w := RunOf(published, run).w; var op := w.agent.journal.value.op;
      BothMovedAfterProof(w.log, op) <==>
        EndedHow(w.agent, op.id, Http) == Some(EndActivated) && EndedHow(w.agent, op.id, Stream) == Some(EndActivated)
  {
    hide RunOf, Kept, HistoryOk, WinsOk, BothMovedAfterProof, Proven;
    var w := RunOf(published, run).w;
    GoodWorld(published, run);
    KeptParts(w.agent, w.log);
    ActivatedIsProven(w.agent, w.log, w.agent.journal.value.op);
    HistoryHasMoves(w.log);
    StoryIsProven(w.log, w.agent.journal.value.op);
  }

  // ------------------------------------------------------------------ what a caller can check

  /** Each plane is named, or is over for this transition already, or the caller is out of date. */
  predicate Covers(s: State, op: Op, e: Envelope) {
    forall p: Plane :: p in e.declared || EndedOrStale(s, op.id, p)
  }

  /** Every abort of the run covered its operation when it was called. */
  ghost predicate CarefulRun(published: PublishedState, run: seq<Happening>) {
    forall i | 0 <= i < |run| && run[i].Start? && run[i].pc.Aborting? ::
      Covers(RunOf(published, run[..i]).w.agent, run[i].pc.op, run[i].pc.envelope)
  }

  /** The abort will be right whatever others do. */
  predicate Careful(pc: Pc, s: State) {
    && (AbortPc(pc) ==> Covers(s, pc.op, pc.envelope))
    && (pc.AbortClosing? ==> ClosingTrue(s, pc.op, WHOLE, pc.how))
  }

  predicate NothingClosedOver(log: seq<Event>) {
    forall k :: 0 <= k < |log| ==> !log[k].ClosedOver?
  }

  ghost predicate CarefulSystem(sys: System) {
    NothingClosedOver(sys.w.log) && forall a | a in sys.actors :: Careful(sys.actors[a], sys.w.agent)
  }

  lemma CoversAll(s: State, op: Op, e: Envelope)
    requires Covers(s, op, e) && AbortedAll(s, op, e)
    ensures AbortedAll(s, op, WHOLE)
  {
  }

  lemma CarefulGrows(pc: Pc, s: State, n: State, log: seq<Event>)
    requires Grows(s, n) && PcOk(pc, s, log) && Careful(pc, s)
    ensures Careful(pc, n)
  {
    hide JournalGrows, DoneGrows, ClosingTrue;
    if pc.AbortClosing? {
      CoversAll(s, pc.op, pc.envelope);
      ClosingGrows(s, n, pc.op, WHOLE, pc.how);
    }
  }

  /** Only judging leads to the close. */
  lemma ComesFromJudging(w: World, pc: Pc)
    requires AbortPc(pc) && ActAbort(w, pc).pc.AbortClosing?
    ensures pc.AbortJudging? && w.agent.journal.Some? && ActAbort(w, pc).w == w
    ensures ActAbort(w, pc).pc.how == ReachedPhase(w.agent, w.agent.journal.value.op)
  {
    hide Durable, ReachedPhase, After;
  }

  /** The actor itself stays careful, and its close claims nothing the ledger lacks. */
  lemma StepStaysCareful(w: World, pc: Pc, answer: Answer)
    requires Ready(w, pc) && Careful(pc, w.agent) && NothingClosedOver(w.log)
    ensures var m := Act(w, pc, answer); Careful(m.pc, m.w.agent) && NothingClosedOver(m.w.log)
  {
    hide Act, Good, PcOk, Grows, ActAbort, ReachedPhase, ClosingTrue, Covers;
    var m := Act(w, pc, answer);
    EveryStep(w, pc, answer);
    ActSaves(w, pc, answer);
    if AbortPc(pc) {
      Delegates(w, pc, answer);
      CoversGrows(w.agent, m.w.agent, pc.op, pc.envelope);
      if m.pc.AbortClosing? {
        ComesFromJudging(w, pc);
        JudgedIsTrue(w, pc.op, WHOLE);
      }
      if pc.AbortClosing? { ClosesQuietly(w, pc); }
    }
    StillNothing(w, pc, m);
  }

  lemma CoversGrows(s: State, n: State, op: Op, e: Envelope)
    requires Grows(s, n) && Covers(s, op, e)
    ensures Covers(n, op, e)
  {
    hide JournalGrows, DoneGrows;
    forall p: Plane ensures p in e.declared || EndedOrStale(n, op.id, p) {
      assert p in e.declared || EndedOrStale(s, op.id, p);
    }
  }

  lemma ClosesQuietly(w: World, pc: Pc)
    requires pc.AbortClosing? && ClosingTrue(w.agent, pc.op, WHOLE, pc.how)
    ensures ActAbort(w, pc).w.log == w.log
  {
    hide Durable, OwnsJournal;
    assert PLANES[0] == Http && PLANES[1] == Stream;
    assert w.log + [] == w.log;
  }

  lemma StillNothing(w: World, pc: Pc, m: Moment)
    requires NothingClosedOver(w.log) && w.log <= m.w.log && ClosesOwn(w, pc, m)
    requires pc.AbortClosing? ==> m.w.log == w.log
    ensures NothingClosedOver(m.w.log)
  {
    forall k | 0 <= k < |m.w.log| ensures !m.w.log[k].ClosedOver? {
      if k < |w.log| { assert m.w.log[k] == w.log[k]; }
    }
  }

  lemma TurnStaysCareful(sys: System, who: nat, answer: Answer)
    requires SystemOk(sys) && CarefulSystem(sys) && who in sys.actors
    ensures CarefulSystem(Happened(sys, Turned(who, answer)))
  {
    hide Act, Good, PcOk, Grows, Careful, NothingClosedOver;
    StepStaysCareful(sys.w, sys.actors[who], answer);
    SystemStep(sys, Turned(who, answer));
    var n := Happened(sys, Turned(who, answer));
    forall a | a in n.actors ensures Careful(n.actors[a], n.w.agent) {
      if a != who { CarefulGrows(sys.actors[a], sys.w.agent, n.w.agent, sys.w.log); }
    }
  }

  lemma OutsideStaysCareful(sys: System, c: Call)
    requires SystemOk(sys) && CarefulSystem(sys) && (c.FenceCall? || c.HealthCall?)
    ensures CarefulSystem(sys.(w := After(sys.w, c)))
  {
    hide Good, PcOk, Grows, Careful, Durable;
    OutsideKeeps(sys, c);
    var v := After(sys.w, c);
    assert v.log == sys.w.log;
    forall a | a in sys.actors ensures Careful(sys.actors[a], v.agent) {
      CarefulGrows(sys.actors[a], sys.w.agent, v.agent, sys.w.log);
    }
  }

  lemma HappenedStaysCareful(sys: System, h: Happening)
    requires SystemOk(sys) && CarefulSystem(sys)
    requires h.Start? && h.pc.Aborting? ==> Covers(sys.w.agent, h.pc.op, h.pc.envelope)
    ensures CarefulSystem(Happened(sys, h))
  {
    hide Act, After, SystemOk;
    match h
    case Turned(who, answer) => if who in sys.actors { TurnStaysCareful(sys, who, answer); }
    case FencedBy(token) => OutsideStaysCareful(sys, FenceCall(token));
    case HealthMoved(t) => OutsideStaysCareful(sys, HealthCall(t));
    case _ =>
  }

  lemma {:induction false} RunStaysCareful(published: PublishedState, run: seq<Happening>)
    requires CarefulRun(published, run)
    ensures CarefulSystem(RunOf(published, run))
    decreases |run|
  {
    hide CarefulSystem, Happened, Covers;
    if run == [] {
      StartsCareful(published);
    } else {
      var front := run[..|run| - 1];
      assert CarefulRun(published, front) by {
        forall i | 0 <= i < |front| && front[i].Start? && front[i].pc.Aborting?
          ensures Covers(RunOf(published, front[..i]).w.agent, front[i].pc.op, front[i].pc.envelope)
        {
          assert front[..i] == run[..i];
        }
      }
      RunStaysCareful(published, front);
      EveryRunIsGood(published, front);
      HappenedStaysCareful(RunOf(published, front), run[|run| - 1]);
    }
  }

  lemma StartsCareful(published: PublishedState)
    ensures CarefulSystem(Initial(published))
  {
  }

  /**
   * If every abort of a run named each plane that was not over yet when it was called, whoever
   * raced it, the journal says `activated` only when both planes were moved on proof.
   */
  lemma CarefulAbortsKeepProof(published: PublishedState, run: seq<Happening>)
    requires CarefulRun(published, run)
    ensures var w := RunOf(published, run).w;
      w.agent.journal.Some? && w.agent.journal.value.phase == Activated ==> BothMovedAfterProof(w.log, w.agent.journal.value.op)
  {
    hide RunOf, MovedAfterProof, CarefulRun;
    RunStaysCareful(published, run);
    ActivatedOnlyAfterProof(published, run);
  }
}
