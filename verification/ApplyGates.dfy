/**
 * What must hold for the driver to go on (src/dp/apply.ts), read off the stored fields: whose
 * journal it is, who holds the right, that nobody gave the transition up, and that the intent to
 * publish is on record before anything is published.
 */
module ApplyGates {
  import opened Wrappers
  import opened Operation
  import opened Agent
  import opened AgentGuard
  import opened ApplyMachine
  import opened ApplySafety
  import opened ApplySteps
  import opened ApplyCrash

  /** The plane's verdict under this very identity. */
  predicate EndedAs(s: State, id: Identity, p: Plane, how: Ended) { EndKey(id, p) in s.ended && s.ended[EndKey(id, p)] == how }

  /** One aborted plane, or both failed. */
  predicate GivenUp(s: State, id: Identity) {
    || EndedAs(s, id, Http, EndAborted) || EndedAs(s, id, Stream, EndAborted)
    || (EndedAs(s, id, Http, EndFailed) && EndedAs(s, id, Stream, EndFailed))
  }

  /** The iteration goes on with the operation, rather than return, clean up or close. */
  predicate GoesOn(pc: Pc) { !pc.Done? && !pc.Finishing? && !pc.Closing? }

  /**
   * An iteration goes on exactly if the journal is this very operation's and open, the transition
   * was not given up, no newer leader was seen, and the right is held under its name; a given-up one
   * is closed instead, and whatever else is wrong ends the call without touching anything but a right
   * of its own.
   */
  lemma HeadGoesOnExactly(s: State, bound: Op, head: nat)
    ensures GoesOn(AtHead(s, bound, head)) <==>
      && s.journal.Some? && s.journal.value.op.id == bound.id
      && s.journal.value.phase !in {Activated, PartialExhausted, Failed, Superseded}
      && !GivenUp(s, bound.id) && s.maxToken <= bound.id.token
      && s.holder.Some? && s.holder.value.id.operation == bound.id.operation && s.holder.value.id.transition == bound.id.transition
    ensures AtHead(s, bound, head).Closing? <==>
      && s.journal.Some? && s.journal.value.op.id == bound.id
      && s.journal.value.phase !in {Activated, PartialExhausted, Failed, Superseded}
      && GivenUp(s, bound.id)
    ensures AtHead(s, bound, head).Finishing? ==>
      s.holder.Some? && s.holder.value.id.operation == bound.id.operation && s.holder.value.id.transition == bound.id.transition
  {
    hide ReachedPhase, Stuck, Stepped;
  }

  /** Nothing is published but by an actor whose last step saved the intent, with this very record. */
  lemma IntentComesFirst(w: World, pc: Pc, answer: Answer)
    requires Act(w, pc, answer).pc.Publishing?
    ensures var m := Act(w, pc, answer); var op := m.pc.turn.j.op;
      pc.Intending? && m.w.agent.intent == Some(Record(op.generation, op.id, op.digest)) && m.pc.turn == pc.turn
  {
    hide Act, ActStage, ActReload, ActCommit, ActAbort, ActFail;
    Delegates(w, pc, answer);
    if pc.Staging? || pc.Loading? { StageDoesNot(w, pc, answer); }
    else if pc.ReadingWorld? || pc.Winning? || pc.Signalling? || pc.Awaiting? { ReloadDoesNot(w, pc, answer); }
    else if pc.Confirming? || pc.Proving? || pc.Committing? { CommitDoesNot(w, pc, answer); }
    else if AbortPc(pc) || FailPc(pc) { EndingDoesNot(w, pc); }
    else { PlainPublishes(w, pc, answer); }
  }

  lemma StageDoesNot(w: World, pc: Pc, answer: Answer)
    requires pc.Staging? || pc.Loading?
    ensures !ActStage(w, pc, answer).pc.Publishing?
  {
    hide Durable, OwnsJournal;
  }

  lemma ReloadDoesNot(w: World, pc: Pc, answer: Answer)
    requires pc.ReadingWorld? || pc.Winning? || pc.Signalling? || pc.Awaiting?
    ensures !ActReload(w, pc, answer).pc.Publishing?
  {
    hide Durable, OwnsJournal, ProvesActivation;
  }

  lemma CommitDoesNot(w: World, pc: Pc, answer: Answer)
    requires pc.Confirming? || pc.Proving? || pc.Committing?
    ensures !ActCommit(w, pc, answer).pc.Publishing?
  {
    hide Durable, OwnsJournal, ProvesActivation, PublishedByMe, CommitMoves;
  }

  lemma EndingDoesNot(w: World, pc: Pc)
    requires AbortPc(pc) || FailPc(pc)
    ensures !(if AbortPc(pc) then ActAbort(w, pc) else ActFail(w, pc)).pc.Publishing?
  {
    hide Durable, ReachedPhase, MovedByMe;
  }

  lemma PlainPublishes(w: World, pc: Pc, answer: Answer)
    requires ControlPc(pc) || pc.Done? || pc.Recovering? || pc.Head? || pc.Writing? || pc.Preflighting? || pc.LookingUp? || pc.Publishing?
    requires Act(w, pc, answer).pc.Publishing?
    ensures var m := Act(w, pc, answer); var op := m.pc.turn.j.op;
      pc.Intending? && m.w.agent.intent == Some(Record(op.generation, op.id, op.digest)) && m.pc.turn == pc.turn
  {
    hide ActStage, ActReload, ActCommit, ActAbort, ActFail, AssertOwnership, PublishedByMe, ReachedPhase,
         ClosedTransition, GuardHolds;
    hide ReserveAll, Reclaim, FinishOperation, CloseJournal, ReleaseStaleSlots, ReleaseIdleHolder, WriteJournal;
  }
}
