/**
 * What a fence is for: once a newer leader was seen, no operation of an older one moves a plane,
 * reserves, stages, writes the journal or judges a plane ever again.
 */
module ApplyFencing {
  import opened Wrappers
  import opened Operation
  import opened Agent
  import opened AgentGuard
  import opened ApplyMachine
  import opened ApplyInvariant
  import opened ApplySafety
  import opened ApplySteps
  import opened ApplyTheorems

  /** The leader a section speaks for; the clean-up sections speak for nobody. */
  function SpeaksFor(c: Call): Option<nat> {
    match c
    case ReserveAllCall(op) => Some(op.id.token)
    case StageCall(t) => Some(t.id.token)
    case CommitCall(t, _) => Some(t.id.token)
    case FailCall(t) => Some(t.id.token)
    case AbortCall(t) => Some(t.id.token)
    case HealthCall(t) => Some(t.id.token)
    case WriteCall(entry) => Some(entry.op.id.token)
    case IntentCall(r) => Some(r.id.token)
    case FenceCall(token) => Some(token)
    case _ => None
  }

  /** A section that speaks for a leader is refused as stale exactly when a newer one was seen. */
  lemma StaleIsRefusedExactly(s: State, c: Call)
    requires SpeaksFor(c).Some?
    ensures Durable(s, c) == Refusal(StaleLeader) <==> SpeaksFor(c).value < s.maxToken
  {
    hide GuardHolds, Supersede, ReserveAll, Close, Moved, AlreadyThere, Recorded;
    if c.ReserveAllCall? { ReserveIsNotStale(s, c.op); }
  }

  lemma ReserveIsNotStale(s: State, op: Op)
    ensures ReserveAll(s, op) == Rejected(StaleLeader) <==> op.id.token < s.maxToken
  {
    hide ReserveOne, Recorded;
    assert SweepOrphan(s, op).maxToken == s.maxToken;
    var h := ReserveOne(SweepOrphan(s, op), TupleFor(op, Http));
    if op.id.token >= s.maxToken {
      OneIsNotStale(SweepOrphan(s, op), TupleFor(op, Http));
      if h.Accepted? { OneIsNotStale(h.state, TupleFor(op, Stream)); }
    }
  }

  lemma OneIsNotStale(s: State, t: Tuple)
    requires s.maxToken <= t.id.token
    ensures ReserveOne(s, t) != Rejected(StaleLeader)
    ensures ReserveOne(s, t).Accepted? ==> ReserveOne(s, t).state.maxToken == t.id.token
  {
  }

  /**
   * The sections that speak for nobody only clean up: they move no plane, record and judge
   * nothing, and beyond the candidate they settle touch only slots, journal and right.
   */
  lemma CleanUpOnlyReleases(s: State, c: Call)
    requires SpeaksFor(c).None? && Durable(s, c).Saved?
    ensures var n := Durable(s, c).state;
      && n == s.(slots := n.slots, journal := n.journal, holder := n.holder,
                 baseline := n.baseline, pending := n.pending, pendingEpochs := n.pendingEpochs)
      && Submap(n.slots, s.slots)
      && (n.journal == s.journal || (c.CloseCall? && OwnsJournal(s.journal, c.op) && !IsTerminal(s.journal.value.phase)))
      && (n.holder == s.holder || n.holder.None? || (c.ReclaimCall? && s.holder.None? && s.maxToken <= c.op.id.token))
      && ((n.pending == s.pending && n.baseline == s.baseline) || (c.FinishCall? && Judges(s, c.op.id)))
  {
    hide GuardHolds, JudgedBaseline, SameName;
  }

  // ------------------------------------------------------------------ over whole runs

  /** Every plane moved since `from` was moved by a leader of at least this token. */
  ghost predicate MovesAtLeast(log: seq<Event>, from: nat, token: nat) {
    forall k :: from <= k < |log| && log[k].MovedPlane? ==> token <= log[k].tuple.id.token
  }

  lemma CommitSpeaks(w: World, pc: Pc, answer: Answer)
    requires pc.Confirming? || pc.Proving? || pc.Committing?
    ensures var m := ActCommit(w, pc, answer); w.log <= m.w.log && MovesAtLeast(m.w.log, |w.log|, w.agent.maxToken)
  {
    hide GuardHolds, Moved, AlreadyThere, MoveRefusal, ProvesActivation, PublishedByMe, OwnsJournal;
  }

  predicate Quiet(log: seq<Event>, from: nat) {
    forall k :: from <= k < |log| ==> !log[k].MovedPlane?
  }

  lemma OthersMoveNothing(w: World, pc: Pc, answer: Answer)
    requires !(pc.Confirming? || pc.Proving? || pc.Committing?)
    ensures var m := Act(w, pc, answer); w.log <= m.w.log && Quiet(m.w.log, |w.log|)
  {
    hide ActStage, ActReload, ActAbort, ActFail, Durable, ReachedPhase, ClosedTransition, AssertOwnership, PublishedByMe, AtHead;
    if pc.Staging? || pc.Loading? { StageQuiet(w, pc, answer); }
    else if pc.ReadingWorld? || pc.Winning? || pc.Signalling? || pc.Awaiting? { ReloadQuiet(w, pc, answer); }
    else if AbortPc(pc) || FailPc(pc) { EndingQuiet(w, pc); }
  }

  lemma StageQuiet(w: World, pc: Pc, answer: Answer)
    requires pc.Staging? || pc.Loading?
    ensures var m := ActStage(w, pc, answer); w.log <= m.w.log && Quiet(m.w.log, |w.log|)
  {
    hide Durable, OwnsJournal;
  }

  lemma ReloadQuiet(w: World, pc: Pc, answer: Answer)
    requires pc.ReadingWorld? || pc.Winning? || pc.Signalling? || pc.Awaiting?
    ensures var m := ActReload(w, pc, answer); w.log <= m.w.log && Quiet(m.w.log, |w.log|)
  {
    hide Durable, OwnsJournal, ProvesActivation;
  }

  lemma EndingQuiet(w: World, pc: Pc)
    requires AbortPc(pc) || FailPc(pc)
    ensures var m := if AbortPc(pc) then ActAbort(w, pc) else ActFail(w, pc); w.log <= m.w.log && Quiet(m.w.log, |w.log|)
  {
    hide Durable, ReachedPhase, MovedByMe;
  }

  lemma HappenedMoves(sys: System, h: Happening)
    ensures var n := Happened(sys, h); sys.w.log <= n.w.log && MovesAtLeast(n.w.log, |sys.w.log|, sys.w.agent.maxToken)
  {
    hide Act, ActCommit, Durable;
    match h
    case Turned(who, answer) =>
      if who in sys.actors {
        var pc := sys.actors[who];
        if pc.Confirming? || pc.Proving? || pc.Committing? {
          CommitSpeaks(sys.w, pc, answer);
          CommitAct(sys.w, pc, answer);
        } else {
          OthersMoveNothing(sys.w, pc, answer);
        }
      }
    case _ =>
  }

  lemma CommitAct(w: World, pc: Pc, answer: Answer)
    requires pc.Confirming? || pc.Proving? || pc.Committing?
    ensures Act(w, pc, answer) == ActCommit(w, pc, answer)
  {
    hide ActCommit;
  }

  /**
   * Whatever crashes, recovers, races or lands late: after the agent was fenced for some leader,
   * every plane that moves is moved by an operation of that leader or a newer one.
   */
  lemma {:induction false} FencedLeaderMovesNothing(published: PublishedState, run: seq<Happening>, more: seq<Happening>)
    ensures var w, v := RunOf(published, run).w, RunOf(published, run + more).w;
      w.log <= v.log && MovesAtLeast(v.log, |w.log|, w.agent.maxToken)
    decreases |more|
  {
    hide Happened;
    if more == [] {
      assert run + more == run;
    } else {
      var most := run + more[..|more| - 1];
      FencedLeaderMovesNothing(published, run, more[..|more| - 1]);
      NothingGoesBack(published, run, more[..|more| - 1]);
      assert (run + more)[..|run + more| - 1] == most;
      HappenedMoves(RunOf(published, most), more[|more| - 1]);
    }
  }
}
