/**
 * Ledger, step records and coordinates agree on what was committed (src/dp/agent.ts): every saved
 * section keeps it, and it is why the answer to a commit tells whether the plane was activated.
 */
module ApplyBooks {
  import opened Wrappers
  import opened Operation
  import opened Agent
  import opened ApplyMachine
  import opened ApplyInvariant
  import opened ApplyTidy

  /** The commit of this plane is on record, by the very tuple that was reserved. */
  predicate OnRecord(done: map<StepKey, Tuple>, k: EndKey) {
    var c, r := StepKey(k.id, k.plane, Commit), StepKey(k.id, k.plane, Reserve);
    c in done && r in done && done[c] == done[r]
  }

  /** A signed plane is in the ledger, and the evidence that let it move is kept beside it. */
  predicate SignedIsLedgered(s: State, p: Plane) {
    s.planes.At(p).author.Some? ==>
      var id, k := s.planes.At(p).author.value, SlotKey(p, s.planes.At(p).at.epoch);
      && IsActivated(s.ended, EndKey(id, p)) && StepKey(id, p, Reserve) in s.done
      && k in s.evidence && ProvesActivation(Some(s.evidence[k]), s.done[StepKey(id, p, Reserve)].generation)
  }

  /** Signatures, epochs and evidence are as before. */
  predicate SameSigned(s: State, n: State) {
    && n.planes.http.author == s.planes.http.author && n.planes.stream.author == s.planes.stream.author
    && n.planes.http.at.epoch == s.planes.http.at.epoch && n.planes.stream.at.epoch == s.planes.stream.at.epoch
    && n.evidence == s.evidence
  }

  /** An activation in the ledger has its record, a commit record its activation, a signature its activation. */
  ghost predicate Booked(s: State) {
    && (forall k | k in s.ended :: s.ended[k] == EndActivated ==> OnRecord(s.done, k))
    && (forall k | k in s.done :: k.step == Commit ==> IsActivated(s.ended, EndKey(k.id, k.plane)))
    && SignedIsLedgered(s, Http) && SignedIsLedgered(s, Stream)
  }

  // ------------------------------------------------------------------ every section keeps it

  ghost predicate VerdictsStay(s: State, n: State) {
    && (forall k | k in s.ended :: k in n.ended && n.ended[k] == s.ended[k])
    && (forall k | k in n.ended && k !in s.ended :: n.ended[k] != EndActivated)
  }

  /** No commit, no signature, no activation: verdicts and records may grow otherwise. */
  lemma BooksStay(s: State, n: State)
    requires Booked(s) && VerdictsStay(s, n)
    requires forall k | k in s.done :: k in n.done && n.done[k] == s.done[k]
    requires forall k | k in n.done && k !in s.done :: k.step != Commit
    requires SameSigned(s, n)
    ensures Booked(n)
  {
  }

  lemma SameBooks(s: State, n: State)
    requires Booked(s) && n.done == s.done && n.ended == s.ended
    requires SameSigned(s, n)
    ensures Booked(n)
  {
  }

  lemma StampStays(s: State, t: Tuple)
    ensures var n := StampAborted(s, t); VerdictsStay(s, n) && n == s.(ended := n.ended)
  {
  }

  lemma SupersedeStays(s: State, h: Holder)
    ensures var n := Supersede(s, h); n.ended == s.ended && n.done == s.done && n.planes == s.planes && n.evidence == s.evidence
  {
    hide FinalizeCandidate;
    FinalizeLeaves(s, h.id);
  }

  lemma SweepStays(s: State, op: Op)
    ensures var n := SweepOrphan(s, op); VerdictsStay(s, n) && n.done == s.done && n.planes == s.planes && n.evidence == s.evidence
  {
    hide StampAborted, Supersede;
    if !(s.journal.None? || OwnsJournal(s.journal, op) || IsTerminal(s.journal.value.phase)) {
      var stale := s.journal.value.op;
      var s1 := StampAborted(s, TupleFor(stale, Http));
      var s2 := StampAborted(s1, TupleFor(stale, Stream));
      StampStays(s, TupleFor(stale, Http));
      StampStays(s1, TupleFor(stale, Stream));
      SupersedeStays(s2, HolderOf(stale));
    }
  }

  lemma ReserveOneStays(s: State, t: Tuple)
    requires ReserveOne(s, t).Accepted?
    ensures var n := ReserveOne(s, t).state;
      && n.ended == s.ended && n.planes == s.planes && n.evidence == s.evidence
      && (forall k | k in s.done :: k in n.done && n.done[k] == s.done[k])
      && (forall k | k in n.done && k !in s.done :: k.step != Commit)
  {
  }

  lemma ReserveBooked(s: State, op: Op)
    requires Booked(s) && ReserveAll(s, op).Accepted?
    ensures Booked(ReserveAll(s, op).state)
  {
    hide SweepOrphan, ReserveOne, Booked;
    var s0 := SweepOrphan(s, op);
    var s1 := ReserveOne(s0, TupleFor(op, Http)).state;
    var s2 := ReserveOne(s1, TupleFor(op, Stream)).state;
    SweepStays(s, op);
    BooksStay(s, s0);
    ReserveOneStays(s0, TupleFor(op, Http));
    BooksStay(s0, s1);
    ReserveOneStays(s1, TupleFor(op, Stream));
    BooksStay(s1, s2);
    SameBooks(s2, ReserveAll(s, op).state);
  }

  lemma StageBooked(s: State, t: Tuple)
    requires Booked(s) && StageSlot(s, t).Accepted?
    ensures Booked(StageSlot(s, t).state)
  {
    BooksStay(s, StageSlot(s, t).state);
  }

  lemma EndBooked(s: State, t: Tuple, how: Ended)
    requires Booked(s) && EndPlane(s, t, how).Accepted? && how != EndActivated
    ensures Booked(EndPlane(s, t, how).state)
  {
    BooksStay(s, EndPlane(s, t, how).state);
  }

  lemma HealthBooked(s: State, t: Tuple)
    requires Booked(s) && ApplyHealth(s, t).Accepted?
    ensures Booked(ApplyHealth(s, t).state)
  {
    BooksStay(s, ApplyHealth(s, t).state);
  }

  lemma CommitBooked(s: State, t: Tuple, e: Evidence)
    requires Booked(s) && NeatSlots(s) && CommitPlane(s, t, e).Accepted?
    ensures var n := CommitPlane(s, t, e).state; Booked(n) && IsActivated(n.ended, EndKeyOf(t))
  {
    if CommitMoves(s, t, e) {
      OwnerIsReserved(s, t);
      MovedBooked(s, t, e);
    } else {
      assert StepKey(t.id, t.plane, Commit) in s.done;
      SameBooks(s, CommitPlane(s, t, e).state);
    }
  }

  lemma MovedBooked(s: State, t: Tuple, e: Evidence)
    requires Booked(s) && Reserved(s.done, t) && CommitMoves(s, t, e) && CommitPlane(s, t, e).Accepted?
    ensures var n := CommitPlane(s, t, e).state; Booked(n) && IsActivated(n.ended, EndKeyOf(t))
  {
    MovedLeaves(s, t, e);
    hide CommitPlane, CommitMoves, ProvesActivation;
    MoveIsBooked(s, CommitPlane(s, t, e).state, t, e);
  }

  lemma MovedLeaves(s: State, t: Tuple, e: Evidence)
    requires CommitMoves(s, t, e) && CommitPlane(s, t, e).Accepted?
    ensures ProvesActivation(Some(e), t.generation)
    ensures var n := CommitPlane(s, t, e).state;
      && n.done == s.done[StepKey(t.id, t.plane, Commit) := t] && n.ended == s.ended[EndKeyOf(t) := EndActivated]
      && n.planes == Put(s.planes, t.plane, PlaneState(t.move.target, t.move.payload, Some(t.id)))
      && n.evidence == s.evidence[KeyOf(t) := e]
  {
    hide ProvesActivation;
  }

  lemma MoveIsBooked(s: State, n: State, t: Tuple, e: Evidence)
    requires Booked(s) && Reserved(s.done, t) && ProvesActivation(Some(e), t.generation)
    requires n.done == s.done[StepKey(t.id, t.plane, Commit) := t] && n.ended == s.ended[EndKeyOf(t) := EndActivated]
    requires n.planes == Put(s.planes, t.plane, PlaneState(t.move.target, t.move.payload, Some(t.id)))
    requires n.evidence == s.evidence[KeyOf(t) := e]
    ensures Booked(n)
  {
    hide ProvesActivation;
  }

  /** Every section in its place keeps the books. */
  lemma BookedSection(s: State, c: Call)
    requires Booked(s) && NeatSlots(s) && Mutate(s, c).Accepted?
    ensures Booked(Mutate(s, c).state)
  {
    hide Booked, NeatSlots, ReserveAll, StageSlot, CommitPlane, EndPlane, ApplyHealth, Fence, FinishOperation;
    match c
    case ReserveAllCall(op) => ReserveBooked(s, op);
    case StageCall(t) => StageBooked(s, t);
    case CommitCall(t, e) => CommitBooked(s, t, e);
    case FailCall(t) => EndBooked(s, t, EndFailed);
    case AbortCall(t) => EndBooked(s, t, EndAborted);
    case HealthCall(t) => HealthBooked(s, t);
    case _ => ControlLeaves(s, c); ControlPlanes(s, c); SameBooks(s, Mutate(s, c).state);
  }

  lemma ControlPlanes(s: State, c: Call)
    requires Mutate(s, c).Accepted?
    requires c.ReclaimCall? || c.FinishCall? || c.CloseCall? || c.ReleaseStaleCall? || c.ReleaseIdleCall? || c.ReleaseHolderCall?
             || c.WriteCall? || c.IntentCall? || c.FenceCall?
    ensures Mutate(s, c).state.planes == s.planes && Mutate(s, c).state.evidence == s.evidence
  {
    hide FinalizeCandidate, Supersede;
    if c.FinishCall? { FinalizeLeaves(s, c.op.id); }
    if c.FenceCall? && s.holder.Some? { SupersedeStays(s.(maxToken := c.token), s.holder.value); }
  }

  // ------------------------------------------------------------------ what the answer to a commit means

  /**
   * The leader of the day commits a plane that was reserved: the section is accepted exactly when
   * the plane is activated afterwards, and a refusal changes nothing.
   */
  lemma CommitAnswers(s: State, t: Tuple, e: Evidence)
    requires Booked(s) && NeatSlots(s) && Reserved(s.done, t) && t.id.token == s.maxToken
    ensures CommitPlane(s, t, e).Rejected? ==> !IsActivated(s.ended, EndKeyOf(t))
    ensures CommitPlane(s, t, e).Accepted? ==> IsActivated(CommitPlane(s, t, e).state.ended, EndKeyOf(t))
  {
    hide MoveRefusal;
    if CommitPlane(s, t, e).Accepted? { CommitBooked(s, t, e); }
    if IsActivated(s.ended, EndKeyOf(t)) { assert OnRecord(s.done, EndKeyOf(t)); }
  }

  /** What an operation moved is in the ledger. */
  lemma MovedIsLedgered(s: State, op: Op, p: Plane)
    requires Booked(s) && MovedByMe(s, op, p)
    ensures IsActivated(s.ended, EndKey(op.id, p))
  {
    assert p == Http || p == Stream;
  }
}
