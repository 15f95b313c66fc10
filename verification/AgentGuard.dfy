/**
 * The guard in front of every durable write (assertInvariants, src/dp/agent.ts) against the
 * serial sections: from a sound state it fires exactly for a leader that skipped its fence.
 */
module AgentGuard {
  import opened Wrappers
  import opened Operation
  import opened Agent

  predicate SlotSound(k: SlotKey, t: Tuple, token: nat) {
    KeyOf(t) == k && t.move.expected.epoch < t.move.target.epoch && t.id.token <= token
  }

  /** Every slot is filed under its own key, points forward, and belongs to no future leader. */
  ghost predicate SlotsSound(slots: map<SlotKey, Slot>, token: nat) {
    forall k | k in slots :: SlotSound(k, slots[k].owner, token)
  }

  /** The guard's one-state clauses, and sound slots. */
  ghost predicate Sound(s: State) {
    Fenced(s) && SlotsSound(s.slots, s.maxToken)
  }

  /** The call speaks for a leader newer than any the agent has seen, and finds somebody to overrule. */
  predicate Unfenced(s: State, c: Call) {
    match c
    case StageCall(t) => s.holder.Some? && s.maxToken < t.id.token
    case CommitCall(t, _) => s.holder.Some? && s.maxToken < t.id.token
    case FailCall(t) => s.holder.Some? && s.maxToken < t.id.token
    case AbortCall(t) => s.holder.Some? && s.maxToken < t.id.token
    case HealthCall(t) => s.holder.Some? && s.maxToken < t.id.token
    case ReclaimCall(op) => s.holder.None? && s.maxToken < op.id.token
    case IntentCall(r) => s.maxToken < r.id.token
    case _ => false
  }

  // ------------------------------------------------------------------ frames: what each section may touch

  /** Reservation and staging touch the token, the slots and the idempotency records. */
  ghost predicate SlotWork(s: State, n: State, token: nat) {
    && n == s.(maxToken := token, slots := n.slots, done := n.done)
    && s.maxToken <= token && SlotsSound(n.slots, token)
  }

  lemma AcquireFrame(s: State, t: Tuple)
    requires SlotsSound(s.slots, s.maxToken) && t.id.token <= s.maxToken && Acquire(s, t).Accepted?
    ensures var n := Acquire(s, t).state; n == s.(slots := n.slots) && SlotsSound(n.slots, n.maxToken)
    ensures OwnsSlot(Acquire(s, t).state, t)
  {
  }

  lemma ReserveOneFrame(s: State, t: Tuple)
    requires SlotsSound(s.slots, s.maxToken) && ReserveOne(s, t).Accepted?
    ensures SlotWork(s, ReserveOne(s, t).state, t.id.token)
  {
    var a := Admit(s, t, Reserve);
    if a.Fresh? { AcquireFrame(a.state, t); }
  }

  lemma StageFrame(s: State, t: Tuple)
    requires SlotsSound(s.slots, s.maxToken) && StageSlot(s, t).Accepted?
    ensures SlotWork(s, StageSlot(s, t).state, t.id.token)
  {
    var a := Admit(s, t, Stage);
    if a.Fresh? { AcquireFrame(a.state, t); }
  }

  lemma CommitFrame(s: State, t: Tuple, e: Evidence)
    requires SlotsSound(s.slots, s.maxToken) && CommitPlane(s, t, e).Accepted?
    ensures var n := CommitPlane(s, t, e).state;
      if CommitMoves(s, t, e) then
        n == Moved(s.(maxToken := t.id.token), t, e) && EndKeyOf(t) !in s.ended
        && s.maxToken <= t.id.token && SlotsSound(n.slots, n.maxToken)
        && s.planes.At(t.plane).at.epoch < t.move.target.epoch
      else SlotWork(s, n, t.id.token)
  {
  }

  /** What closing a superseded operation leaves as it was. */
  lemma SupersedeFrame(s: State, h: Holder)
    requires SlotsSound(s.slots, s.maxToken)
    ensures var n := Supersede(s, h);
      && n == s.(slots := n.slots, journal := n.journal, holder := n.holder,
                 baseline := n.baseline, pending := n.pending, pendingEpochs := n.pendingEpochs)
      && SlotsSound(n.slots, n.maxToken)
      && n.holder == LetGo(s.holder, h.id) && n.journal == SupersededJournal(s.journal, h.id)
      && BaselineKept(s, n)
  {
  }

  /** The baseline stays, is deposed, or becomes the candidate; the candidate stays or goes. */
  ghost predicate BaselineKept(s: State, n: State) {
    && (n.baseline == s.baseline || n.baseline == None || n.baseline == s.pending)
    && (n.pending == s.pending || n.pending == None)
  }

  ghost predicate EndedGrows(s: State, n: State) {
    forall k | k in s.ended :: k in n.ended && n.ended[k] == s.ended[k]
  }

  ghost predicate SweepWork(s: State, n: State) {
    && n == s.(slots := n.slots, journal := n.journal, holder := n.holder, ended := n.ended,
               baseline := n.baseline, pending := n.pending, pendingEpochs := n.pendingEpochs)
    && SlotsSound(n.slots, n.maxToken)
    && BaselineKept(s, n)
    && JournalSeq(s) <= JournalSeq(n)
    && EndedGrows(s, n)
  }

  lemma StampFrame(s: State, t: Tuple)
    ensures var n := StampAborted(s, t); n == s.(ended := n.ended) && EndedGrows(s, n)
  {
  }

  lemma SweepFrame(s: State, op: Op)
    requires SlotsSound(s.slots, s.maxToken)
    ensures SweepWork(s, SweepOrphan(s, op))
    ensures OwnsJournal(SweepOrphan(s, op).journal, op) ==> SweepOrphan(s, op) == s
  {
    if !(s.journal.None? || OwnsJournal(s.journal, op) || IsTerminal(s.journal.value.phase)) {
      var stale := s.journal.value.op;
      var s1 := StampAborted(s, TupleFor(stale, Http));
      var s2 := StampAborted(s1, TupleFor(stale, Stream));
      StampFrame(s, TupleFor(stale, Http));
      StampFrame(s1, TupleFor(stale, Stream));
      SupersedeFrame(s2, HolderOf(stale));
      SweepComposes(s, s2, Supersede(s2, HolderOf(stale)), stale);
    }
  }

  lemma SweepComposes(s: State, s2: State, n: State, stale: Op)
    requires s.journal.Some? && s2 == s.(ended := s2.ended) && EndedGrows(s, s2)
    requires n == s2.(slots := n.slots, journal := n.journal, holder := n.holder,
                      baseline := n.baseline, pending := n.pending, pendingEpochs := n.pendingEpochs)
    requires SlotsSound(n.slots, n.maxToken) && BaselineKept(s2, n)
    requires n.journal == SupersededJournal(s.journal, stale.id)
    ensures SweepWork(s, n)
  {
  }

  /** The final state of a reservation, from the states it passes through. */
  lemma ReserveFrame(s: State, op: Op)
    requires SlotsSound(s.slots, s.maxToken) && ReserveAll(s, op).Accepted?
    ensures var n, s0 := ReserveAll(s, op).state, SweepOrphan(s, op);
      && SweepWork(s, s0) && (OwnsJournal(s0.journal, op) ==> s0 == s)
      && n == s0.(maxToken := op.id.token, slots := n.slots, done := n.done, holder := Some(HolderOf(op)), journal := n.journal)
      && s0.maxToken <= op.id.token && SlotsSound(n.slots, op.id.token)
      && n.journal == if OwnsJournal(s0.journal, op) then s0.journal else Some(OpeningEntry(op, JournalSeq(s0) + 1))
  {
    var s0 := SweepOrphan(s, op);
    SweepFrame(s, op);
    ReserveOneFrame(s0, TupleFor(op, Http));
    ReserveOneFrame(ReserveOne(s0, TupleFor(op, Http)).state, TupleFor(op, Stream));
  }

  // ------------------------------------------------------------------ the guard over each frame

  lemma GuardSlotWork(s: State, n: State, token: nat)
    requires Sound(s) && SlotWork(s, n, token)
    ensures GuardHolds(s, n) <==> (s.holder.Some? ==> token == s.maxToken)
    ensures GuardHolds(s, n) ==> Sound(n)
  {
  }

  lemma EndFrame(s: State, t: Tuple, how: Ended)
    requires SlotsSound(s.slots, s.maxToken) && EndPlane(s, t, how).Accepted?
    ensures var n := EndPlane(s, t, how).state;
      && n == s.(maxToken := t.id.token, slots := n.slots, ended := n.ended)
      && s.maxToken <= t.id.token && SlotsSound(n.slots, n.maxToken) && EndedGrows(s, n)
  {
  }

  lemma GuardEndWork(s: State, n: State)
    requires Sound(s) && s.maxToken <= n.maxToken && SlotsSound(n.slots, n.maxToken)
    requires n == s.(maxToken := n.maxToken, slots := n.slots, ended := n.ended) && EndedGrows(s, n)
    ensures GuardHolds(s, n) <==> (s.holder.Some? ==> n.maxToken == s.maxToken)
    ensures GuardHolds(s, n) ==> Sound(n)
  {
  }

  lemma GuardMoved(s: State, t: Tuple, e: Evidence)
    requires Sound(s) && s.maxToken <= t.id.token && EndKeyOf(t) !in s.ended
    requires s.planes.At(t.plane).at.epoch < t.move.target.epoch
    requires SlotsSound(Moved(s.(maxToken := t.id.token), t, e).slots, t.id.token)
    ensures var n := Moved(s.(maxToken := t.id.token), t, e);
      && (GuardHolds(s, n) <==> (s.holder.Some? ==> t.id.token == s.maxToken))
      && (GuardHolds(s, n) ==> Sound(n))
  {
  }

  lemma GuardHealth(s: State, t: Tuple)
    requires Sound(s) && ApplyHealth(s, t).Accepted?
    ensures var n := ApplyHealth(s, t).state;
      && (GuardHolds(s, n) <==> (s.holder.Some? ==> t.id.token == s.maxToken))
      && (GuardHolds(s, n) ==> Sound(n))
  {
    var n := ApplyHealth(s, t).state;
    assert n == s.(maxToken := t.id.token, planes := n.planes, done := n.done);
    assert n.planes.http.at.epoch == s.planes.http.at.epoch && n.planes.stream.at.epoch == s.planes.stream.at.epoch;
    GuardHealthWork(s, n);
  }

  lemma GuardHealthWork(s: State, n: State)
    requires Sound(s) && s.maxToken <= n.maxToken
    requires n == s.(maxToken := n.maxToken, planes := n.planes, done := n.done)
    requires n.planes.http.at.epoch == s.planes.http.at.epoch && n.planes.stream.at.epoch == s.planes.stream.at.epoch
    ensures GuardHolds(s, n) <==> (s.holder.Some? ==> n.maxToken == s.maxToken)
    ensures GuardHolds(s, n) ==> Sound(n)
  {
  }

  /** Sections that neither move a plane nor drop a candidate. */
  lemma GuardControl(s: State, n: State)
    requires Sound(s) && SlotsSound(n.slots, n.maxToken) && JournalSeq(s) <= JournalSeq(n)
    requires n == s.(slots := n.slots, journal := n.journal, holder := n.holder)
    ensures GuardHolds(s, n) <==> (n.holder.Some? ==> n.holder.value.id.token == s.maxToken)
    ensures GuardHolds(s, n) ==> Sound(n)
  {
  }

  lemma GuardIntent(s: State, r: Record)
    requires Sound(s) && s.maxToken <= r.id.token
    ensures GuardHolds(s, s.(intent := Some(r))) <==> r.id.token == s.maxToken
    ensures GuardHolds(s, s.(intent := Some(r))) ==> Sound(s.(intent := Some(r)))
  {
  }

  /** Sections that may judge the candidate. */
  lemma GuardJudged(s: State, n: State)
    requires Sound(s) && s.maxToken <= n.maxToken && SlotsSound(n.slots, n.maxToken)
    requires BaselineKept(s, n) && EndedGrows(s, n) && JournalSeq(s) <= JournalSeq(n)
    requires n.planes == s.planes && n.evidence == s.evidence && n.intent == s.intent
    requires n.holder.Some? ==> n.holder.value.id.token == n.maxToken
    requires LeavesBaseline(s, n)
    ensures GuardHolds(s, n) && Sound(n)
  {
  }

  lemma JudgedLeaves(s: State, n: State, id: Identity)
    requires n.planes == s.planes && n.ended == s.ended && n.pending == FinalizeCandidate(s, id).pending
    requires n.baseline == FinalizeCandidate(s, id).baseline
    ensures LeavesBaseline(s, n)
  {
  }

  lemma GuardReserve(s: State, op: Op)
    requires Sound(s) && ReserveAll(s, op).Accepted?
    ensures var n := ReserveAll(s, op).state; GuardHolds(s, n) && Sound(n)
  {
    ReserveFrame(s, op);
    GuardJudged(s, ReserveAll(s, op).state);
  }

  lemma FenceFrame(s: State, token: nat)
    requires SlotsSound(s.slots, s.maxToken) && s.maxToken <= token
    requires s.holder.Some? && s.holder.value.id.token < token
    ensures var n := Fence(s, token).state;
      && n.maxToken == token && SlotsSound(n.slots, token) && n.holder == None
      && n.planes == s.planes && n.ended == s.ended && n.evidence == s.evidence && n.intent == s.intent
      && BaselineKept(s, n) && JournalSeq(s) <= JournalSeq(n)
      && n.pending == FinalizeCandidate(s, s.holder.value.id).pending
      && n.baseline == FinalizeCandidate(s, s.holder.value.id).baseline
  {
    SupersedeFrame(s.(maxToken := token), s.holder.value);
  }

  lemma GuardFence(s: State, token: nat)
    requires Sound(s) && s.maxToken <= token
    ensures var n := Fence(s, token).state; GuardHolds(s, n) && Sound(n)
  {
    var n := Fence(s, token).state;
    if s.holder.Some? && s.holder.value.id.token < token {
      FenceFrame(s, token);
      JudgedLeaves(s, n, s.holder.value.id);
      GuardJudged(s, n);
    } else {
      assert n == s.(maxToken := token);
      GuardSlotWork(s, n, token);
    }
  }

  lemma FinishFrame(s: State, op: Op, release: set<Plane>)
    requires SlotsSound(s.slots, s.maxToken)
    ensures var n := FinishOperation(s, op, release);
      && n == FinalizeCandidate(s, op.id).(slots := n.slots, holder := LetGo(s.holder, op.id))
      && SlotsSound(n.slots, n.maxToken) && BaselineKept(s, n)
  {
  }

  lemma GuardFinish(s: State, op: Op, release: set<Plane>)
    requires Sound(s)
    ensures var n := FinishOperation(s, op, release); GuardHolds(s, n) && Sound(n)
  {
    FinishFrame(s, op, release);
    GuardFinishWork(s, FinishOperation(s, op, release), op.id);
  }

  lemma GuardFinishWork(s: State, n: State, id: Identity)
    requires Sound(s) && SlotsSound(n.slots, n.maxToken) && BaselineKept(s, n)
    requires n == FinalizeCandidate(s, id).(slots := n.slots, holder := LetGo(s.holder, id))
    ensures GuardHolds(s, n) && Sound(n)
  {
    JudgedLeaves(s, n, id);
    GuardJudged(s, n);
  }

  /** Journal, execution right and slot releases: everything that is not a tuple operation. */
  predicate IsControl(c: Call) {
    c.ReclaimCall? || c.CloseCall? || c.ReleaseStaleCall? || c.ReleaseIdleCall? || c.ReleaseHolderCall? || c.WriteCall?
  }

  lemma ControlFrame(s: State, c: Call)
    requires SlotsSound(s.slots, s.maxToken) && IsControl(c) && Mutate(s, c).Accepted?
    ensures var n := Mutate(s, c).state;
      && n == s.(slots := n.slots, journal := n.journal, holder := n.holder)
      && SlotsSound(n.slots, n.maxToken) && JournalSeq(s) <= JournalSeq(n)
      && (n.holder == s.holder || n.holder == None
          || (c.ReclaimCall? && s.holder.None? && n.holder == Some(HolderOf(c.op)) && s.maxToken <= c.op.id.token))
      && (c.ReclaimCall? && s.holder.None? ==> n.holder == Some(HolderOf(c.op)))
  {
  }

  /** The guard fires exactly for the unfenced calls, and what is saved is sound again. */
  lemma GuardFiresExactly(s: State, c: Call)
    requires Sound(s) && Mutate(s, c).Accepted?
    ensures GuardHolds(s, Mutate(s, c).state) <==> !Unfenced(s, c)
    ensures !Unfenced(s, c) ==> Sound(Mutate(s, c).state)
  {
    if IsControl(c) {
      ControlFrame(s, c);
      GuardControl(s, Mutate(s, c).state);
    } else if c.ReserveAllCall? {
      GuardReserve(s, c.op);
    } else if c.FinishCall? {
      GuardFinish(s, c.op, c.release);
    } else if c.FenceCall? {
      GuardFence(s, c.token);
    } else if c.IntentCall? {
      GuardIntent(s, c.record);
    } else {
      GuardTuple(s, c);
    }
  }

  lemma GuardTuple(s: State, c: Call)
    requires Sound(s) && Mutate(s, c).Accepted?
    requires c.StageCall? || c.CommitCall? || c.FailCall? || c.AbortCall? || c.HealthCall?
    ensures var n := Mutate(s, c).state;
      && (GuardHolds(s, n) <==> (s.holder.Some? ==> c.tuple.id.token == s.maxToken))
      && (GuardHolds(s, n) ==> Sound(n)) && s.maxToken <= c.tuple.id.token
  {
    var n := Mutate(s, c).state;
    match c
    case StageCall(t) => StageFrame(s, t); GuardSlotWork(s, n, t.id.token);
    case CommitCall(t, e) =>
      CommitFrame(s, t, e);
      if CommitMoves(s, t, e) { GuardMoved(s, t, e); } else { GuardSlotWork(s, n, t.id.token); }
    case FailCall(t) => EndFrame(s, t, EndFailed); GuardEndWork(s, n);
    case AbortCall(t) => EndFrame(s, t, EndAborted); GuardEndWork(s, n);
    case HealthCall(t) => GuardHealth(s, t);
  }
}
