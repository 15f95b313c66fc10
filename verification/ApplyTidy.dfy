/**
 * The shape of the durable state between any two steps: who may hold the right, whose slots are
 * still there (src/dp/agent.ts).  Every section keeps it, so a runner finds it after any crash.
 */
module ApplyTidy {
  import opened Wrappers
  import opened Operation
  import opened Agent
  import opened AgentGuard
  import opened ApplyMachine
  import opened ApplyInvariant

  predicate Holds(s: State, id: Identity) {
    s.holder.Some? && SameName(s.holder.value.id, id)
  }

  /** The journal is of no future leader; the right is only held by the latest, for a journal of its time. */
  predicate Tidy(s: State) {
    && (s.journal.Some? ==> s.journal.value.op.id.token <= s.maxToken)
    && (s.holder.Some? ==> s.holder.value.id.token == s.maxToken && s.journal.Some? && s.journal.value.op.id.token == s.maxToken)
  }

  /** The plane failed or was activated: nothing more will be done for it. */
  predicate IsOver(s: State, id: Identity, p: Plane) {
    EndedHow(s, id, p) == Some(EndFailed) || EndedHow(s, id, p) == Some(EndActivated)
  }

  /** Slots are filed under their own keys, belong to reservations, and to none that is over. */
  ghost predicate NeatSlots(s: State) {
    forall k | k in s.slots ::
      KeyOf(s.slots[k].owner) == k && Reserved(s.done, s.slots[k].owner)
      && !IsOver(s, s.slots[k].owner.id, s.slots[k].owner.plane)
  }

  ghost predicate Neat(s: State) {
    NeatSlots(s) && (s.journal.Some? ==> ReservedOp(s.done, s.journal.value.op))
  }

  // ------------------------------------------------------------------ sections in their place

  /** Steps and entries are for what was reserved. */
  predicate Backed(s: State, c: Call) {
    match c
    case StageCall(t) => Reserved(s.done, t)
    case FailCall(t) => Reserved(s.done, t)
    case WriteCall(entry) => ReservedOp(s.done, entry.op)
    case _ => true
  }

  /** The sections a runner saves while it works on the journal it found. */
  predicate OwnSection(s: State, c: Call) {
    match c
    case ReserveAllCall(_) => true
    case StageCall(t) => s.journal.Some? && t == TupleFor(s.journal.value.op, t.plane)
    case CommitCall(t, _) => s.journal.Some? && t == TupleFor(s.journal.value.op, t.plane)
    case FailCall(t) => s.journal.Some? && t == TupleFor(s.journal.value.op, t.plane)
    case ReclaimCall(op) => s.journal.Some? && op == s.journal.value.op
    case WriteCall(entry) => s.journal.Some? && entry.op == s.journal.value.op
    case FinishCall(_, _) => true
    case CloseCall(_, _) => true
    case ReleaseStaleCall(_) => true
    case ReleaseIdleCall => true
    case IntentCall(_) => true
    case _ => false
  }

  lemma OwnIsBacked(s: State, c: Call)
    requires Neat(s) && OwnSection(s, c)
    ensures Backed(s, c)
  {
  }

  // ------------------------------------------------------------------ the right and the journal

  /** The steps of a transition leave right and journal alone, and for a leader already seen the token too. */
  lemma TupleLeaves(s: State, c: Call)
    requires c.StageCall? || c.CommitCall? || c.FailCall?
    requires Mutate(s, c).Accepted? && c.tuple.id.token <= s.maxToken
    ensures var n := Mutate(s, c).state;
      n.holder == s.holder && n.journal == s.journal && n.maxToken == s.maxToken && (c.StageCall? ==> n.ended == s.ended)
  {
  }

  lemma FinishLeaves(s: State, op: Op, release: set<Plane>)
    ensures var n := FinishOperation(s, op, release);
      n.journal == s.journal && n.maxToken == s.maxToken && n.ended == s.ended && n.planes == s.planes
      && n.holder == (if s.holder.Some? && s.holder.value.id == op.id then None else s.holder)
      && !Judges(n, op.id)
  {
  }

  lemma TidyTuple(s: State, c: Call)
    requires Tidy(s) && OwnSection(s, c) && (c.StageCall? || c.CommitCall? || c.FailCall?) && Mutate(s, c).Accepted?
    ensures Tidy(Mutate(s, c).state)
  {
    hide Mutate;
    TupleLeaves(s, c);
  }

  lemma TidyReserve(s: State, op: Op)
    requires Tidy(s) && ReserveAll(s, op).Accepted?
    ensures Tidy(ReserveAll(s, op).state)
    ensures var n := ReserveAll(s, op).state; OwnsJournal(n.journal, op) && n.holder == Some(HolderOf(op)) && n.maxToken == op.id.token
  {
    hide SweepOrphan, Acquire, EndedHow;
    var s1 := ReserveOne(SweepOrphan(s, op), TupleFor(op, Http)).state;
    ReserveToken(SweepOrphan(s, op), TupleFor(op, Http));
    ReserveToken(s1, TupleFor(op, Stream));
  }

  lemma ReserveToken(s: State, t: Tuple)
    requires ReserveOne(s, t).Accepted?
    ensures var n := ReserveOne(s, t).state; n.maxToken == t.id.token && n.journal == s.journal && n.holder == s.holder
  {
  }

  lemma TidyKept(s: State, c: Call)
    requires Tidy(s) && OwnSection(s, c) && Durable(s, c).Saved?
    ensures Tidy(Durable(s, c).state)
  {
    var n := Durable(s, c).state;
    hide NothingUndone, ReserveAll, StageSlot, CommitPlane, EndPlane, FinishOperation, WithoutOwned;
    match c
    case ReserveAllCall(op) => TidyReserve(s, op);
    case FinishCall(op, release) => FinishLeaves(s, op, release);
    case StageCall(t) => TidyTuple(s, c);
    case CommitCall(t, e) => TidyTuple(s, c);
    case FailCall(t) => TidyTuple(s, c);
    case ReclaimCall(op) =>
    case WriteCall(entry) =>
    case _ =>
  }

  // ------------------------------------------------------------------ the slots

  /** Fewer slots, the same records, no new verdict but an abort: still neat. */
  lemma FewerAreNeat(s: State, n: State)
    requires NeatSlots(s) && n.done == s.done && Submap(n.slots, s.slots)
    requires OnlyAborts(s, n)
    ensures NeatSlots(n)
  {
  }

  lemma SweepLeaves(s: State, op: Op)
    ensures var n := SweepOrphan(s, op);
      && n.done == s.done && Submap(n.slots, s.slots) && OnlyAborts(s, n)
      && (n.journal == s.journal || (s.journal.Some? && n.journal.Some? && n.journal.value.op == s.journal.value.op))
  {
    hide StampAborted, Supersede;
    if !(s.journal.None? || OwnsJournal(s.journal, op) || IsTerminal(s.journal.value.phase)) {
      var stale := s.journal.value.op;
      var s1 := StampAborted(s, TupleFor(stale, Http));
      var s2 := StampAborted(s1, TupleFor(stale, Stream));
      StampLeaves(s, TupleFor(stale, Http));
      StampLeaves(s1, TupleFor(stale, Stream));
      SupersedeLeaves(s2, HolderOf(stale));
    }
  }

  ghost predicate OnlyAborts(s: State, n: State) {
    forall k | k in n.ended :: (k in s.ended && s.ended[k] == n.ended[k]) || n.ended[k] == EndAborted
  }

  lemma StampLeaves(s: State, t: Tuple)
    ensures StampAborted(s, t) == s.(ended := StampAborted(s, t).ended) && OnlyAborts(s, StampAborted(s, t))
  {
  }

  lemma SupersedeLeaves(s: State, h: Holder)
    ensures var n := Supersede(s, h);
      && n.done == s.done && Submap(n.slots, s.slots) && n.ended == s.ended
      && (n.journal == s.journal || (s.journal.Some? && n.journal.Some? && n.journal.value.op == s.journal.value.op))
  {
    hide FinalizeCandidate;
    FinalizeLeaves(s, h.id);
  }

  lemma ReserveOneNeat(s: State, t: Tuple)
    requires NeatSlots(s) && ReserveOne(s, t).Accepted?
    ensures var n := ReserveOne(s, t).state;
      NeatSlots(n) && Reserved(n.done, t) && (forall u | Reserved(s.done, u) :: Reserved(n.done, u)) && n.journal == s.journal
  {
  }

  lemma ReserveNeat(s: State, op: Op)
    requires Neat(s) && ReserveAll(s, op).Accepted?
    ensures Neat(ReserveAll(s, op).state)
  {
    hide SweepOrphan, NeatSlots, ReserveOne, Reserved;
    var s0 := SweepOrphan(s, op);
    SweepLeaves(s, op);
    FewerAreNeat(s, s0);
    var s1 := ReserveOne(s0, TupleFor(op, Http)).state;
    ReserveOneNeat(s0, TupleFor(op, Http));
    var s2 := ReserveOne(s1, TupleFor(op, Stream)).state;
    ReserveOneNeat(s1, TupleFor(op, Stream));
    var n := ReserveAll(s, op).state;
    SameSlots(s2, n);
  }

  lemma SameSlots(s: State, n: State)
    requires NeatSlots(s) && n.slots == s.slots && n.done == s.done && n.ended == s.ended
    ensures NeatSlots(n)
  {
  }

  lemma StageNeat(s: State, t: Tuple)
    requires NeatSlots(s) && Reserved(s.done, t) && StageSlot(s, t).Accepted?
    ensures var n := StageSlot(s, t).state; NeatSlots(n) && (forall u | Reserved(s.done, u) :: Reserved(n.done, u))
  {
  }

  /** A tuple that was reserved is over: the one slot it may have is given back with it. */
  lemma CloseNeat(s: State, n: State, t: Tuple, how: Ended)
    requires NeatSlots(s) && (how != EndAborted ==> Reserved(s.done, t))
    requires n.slots == DropIf(s.slots, KeyOf(t), OwnsSlot(s, t)) && n.ended == s.ended[EndKeyOf(t) := how]
    requires forall u | Reserved(s.done, u) :: Reserved(n.done, u)
    ensures NeatSlots(n)
  {
    forall k | k in n.slots
      ensures KeyOf(n.slots[k].owner) == k && Reserved(n.done, n.slots[k].owner)
              && !IsOver(n, n.slots[k].owner.id, n.slots[k].owner.plane)
    {
      var o := n.slots[k].owner;
      assert Reserved(s.done, o);
      if how != EndAborted && EndKeyOf(o) == EndKeyOf(t) { assert o == t; }
    }
  }

  lemma EndNeat(s: State, t: Tuple, how: Ended)
    requires NeatSlots(s) && (how != EndAborted ==> Reserved(s.done, t)) && EndPlane(s, t, how).Accepted?
    ensures NeatSlots(EndPlane(s, t, how).state) && EndPlane(s, t, how).state.done == s.done
  {
    var n := EndPlane(s, t, how).state;
    if EndedHow(s, t.id, t.plane).None? { CloseNeat(s, n, t, how); } else { SameSlots(s, n); }
  }

  lemma CommitNeat(s: State, t: Tuple, e: Evidence)
    requires NeatSlots(s) && CommitPlane(s, t, e).Accepted?
    ensures var n := CommitPlane(s, t, e).state; NeatSlots(n) && (forall u | Reserved(s.done, u) :: Reserved(n.done, u))
  {
    hide NeatSlots;
    var n := CommitPlane(s, t, e).state;
    if CommitMoves(s, t, e) {
      OwnerIsReserved(s, t);
      CloseNeat(s, n, t, EndActivated);
    } else {
      CommitReplays(s, t, e);
      RecordsNeat(s, n);
    }
  }

  lemma OwnerIsReserved(s: State, t: Tuple)
    requires NeatSlots(s) && OwnsSlot(s, t)
    ensures Reserved(s.done, t)
  {
  }

  lemma CommitReplays(s: State, t: Tuple, e: Evidence)
    requires CommitPlane(s, t, e).Accepted? && !CommitMoves(s, t, e)
    ensures var n := CommitPlane(s, t, e).state;
      n.slots == s.slots && n.ended == s.ended && (forall u | Reserved(s.done, u) :: Reserved(n.done, u))
  {
  }

  lemma RecordsNeat(s: State, n: State)
    requires NeatSlots(s) && n.slots == s.slots && n.ended == s.ended && (forall u | Reserved(s.done, u) :: Reserved(n.done, u))
    ensures NeatSlots(n)
  {
  }

  lemma HealthNeat(s: State, t: Tuple)
    requires NeatSlots(s) && ApplyHealth(s, t).Accepted?
    ensures var n := ApplyHealth(s, t).state; NeatSlots(n) && (forall u | Reserved(s.done, u) :: Reserved(n.done, u)) && n.journal == s.journal
  {
    hide NeatSlots;
    RecordsNeat(s, ApplyHealth(s, t).state);
  }

  /** The sections without a tuple, seen from the slots. */
  lemma ControlLeaves(s: State, c: Call)
    requires Mutate(s, c).Accepted?
    requires c.ReclaimCall? || c.FinishCall? || c.CloseCall? || c.ReleaseStaleCall? || c.ReleaseIdleCall? || c.ReleaseHolderCall?
             || c.WriteCall? || c.IntentCall? || c.FenceCall?
    ensures var n := Mutate(s, c).state;
      && n.done == s.done && n.ended == s.ended && Submap(n.slots, s.slots)
      && (n.journal == s.journal || (c.WriteCall? && n.journal == Some(c.entry))
          || (s.journal.Some? && n.journal.Some? && n.journal.value.op == s.journal.value.op))
  {
    hide FinalizeCandidate, Supersede, SupersededJournal;
    if c.FinishCall? { FinalizeLeaves(s, c.op.id); }
    if c.FenceCall? && s.holder.Some? { SupersedeLeaves(s.(maxToken := c.token), s.holder.value); }
  }

  lemma FinalizeLeaves(s: State, id: Identity)
    ensures var n := FinalizeCandidate(s, id); n == s.(baseline := n.baseline, pending := n.pending, pendingEpochs := n.pendingEpochs)
  {
    hide JudgedBaseline;
  }

  /** Every section in its place keeps the state neat. */
  lemma NeatSection(s: State, c: Call)
    requires Neat(s) && Backed(s, c) && Mutate(s, c).Accepted?
    ensures Neat(Mutate(s, c).state)
  {
    hide NeatSlots, Reserved, ReserveAll, StageSlot, CommitPlane, EndPlane, ApplyHealth, Fence, FinishOperation;
    var n := Mutate(s, c).state;
    match c
    case ReserveAllCall(op) => ReserveNeat(s, op);
    case StageCall(t) => StageNeat(s, t); TupleJournal(s, c);
    case CommitCall(t, e) => CommitNeat(s, t, e); TupleJournal(s, c);
    case FailCall(t) => EndNeat(s, t, EndFailed); TupleJournal(s, c);
    case AbortCall(t) => EndNeat(s, t, EndAborted); TupleJournal(s, c);
    case HealthCall(t) => HealthNeat(s, t);
    case _ =>
      ControlLeaves(s, c);
      FewerAreNeat(s, n);
  }

  lemma TupleJournal(s: State, c: Call)
    requires Mutate(s, c).Accepted? && (c.StageCall? || c.CommitCall? || c.FailCall? || c.AbortCall?)
    ensures Mutate(s, c).state.journal == s.journal
  {
  }

  lemma NeatKept(s: State, c: Call)
    requires Neat(s) && OwnSection(s, c) && Durable(s, c).Saved?
    ensures Neat(Durable(s, c).state)
  {
    hide Neat, GuardHolds, Mutate, OwnSection, Backed;
    OwnIsBacked(s, c);
    NeatSection(s, c);
  }
}
