/**
 * What the agent's sections answer and leave, read off the stored fields themselves
 * (src/dp/agent.ts): repeating a section, moving membership, judging a candidate, a succession.
 */
module AgentAnswers {
  import opened Wrappers
  import opened Operation
  import opened Agent
  import opened AgentGuard
  import opened ApplyMachine

  // ------------------------------------------------------------------ asking again

  /** The sections a caller may repeat when an answer got lost. */
  predicate Repeatable(c: Call) {
    c.StageCall? || c.CommitCall? || c.FailCall? || c.AbortCall? || c.HealthCall? || c.FenceCall? || c.IntentCall?
  }

  /** Saving the same state again trips nothing. */
  lemma SameStateIsSaved(s: State, n: State)
    requires GuardHolds(s, n)
    ensures GuardHolds(n, n)
  {
  }

  lemma AgainIsAccepted(s: State, c: Call)
    requires Repeatable(c) && Mutate(s, c).Accepted?
    ensures Mutate(Mutate(s, c).state, c) == Mutate(s, c)
  {
    hide ProvesActivation, Supersede;
    match c
    case StageCall(t) => StageAgain(s, t);
    case CommitCall(t, e) => CommitAgain(s, t, e);
    case FailCall(t) => EndAgain(s, t, EndFailed);
    case AbortCall(t) => EndAgain(s, t, EndAborted);
    case HealthCall(t) => HealthAgain(s, t);
    case FenceCall(token) => FenceAgain(s, token);
    case IntentCall(r) =>
  }

  lemma StageAgain(s: State, t: Tuple)
    requires StageSlot(s, t).Accepted?
    ensures StageSlot(StageSlot(s, t).state, t) == StageSlot(s, t)
  {
    var n := StageSlot(s, t).state;
    assert n.(maxToken := Max(n.maxToken, t.id.token)) == n;
  }

  lemma CommitAgain(s: State, t: Tuple, e: Evidence)
    requires CommitPlane(s, t, e).Accepted?
    ensures CommitPlane(CommitPlane(s, t, e).state, t, e) == CommitPlane(s, t, e)
  {
    hide MoveRefusal;
    var n := CommitPlane(s, t, e).state;
    assert n.(maxToken := Max(n.maxToken, t.id.token)) == n;
  }

  lemma EndAgain(s: State, t: Tuple, how: Ended)
    requires EndPlane(s, t, how).Accepted?
    ensures EndPlane(EndPlane(s, t, how).state, t, how) == EndPlane(s, t, how)
  {
    var n := EndPlane(s, t, how).state;
    assert n.(maxToken := Max(n.maxToken, t.id.token)) == n;
  }

  lemma HealthAgain(s: State, t: Tuple)
    requires ApplyHealth(s, t).Accepted?
    ensures ApplyHealth(ApplyHealth(s, t).state, t) == ApplyHealth(s, t)
  {
    var n := ApplyHealth(s, t).state;
    assert n.(maxToken := Max(n.maxToken, t.id.token)) == n;
  }

  lemma FenceAgain(s: State, token: nat)
    requires Fence(s, token).Accepted?
    ensures Fence(Fence(s, token).state, token) == Fence(s, token)
  {
    hide FinalizeCandidate, WithoutOwned;
    FinalizeKeeps(s.(maxToken := token), if s.holder.Some? then s.holder.value.id else Identity(0, 0, 0));
    var n := Fence(s, token).state;
    assert n.(maxToken := token) == n;
  }

  lemma FinalizeKeeps(s: State, id: Identity)
    ensures var n := FinalizeCandidate(s, id); n == s.(baseline := n.baseline, pending := n.pending, pendingEpochs := n.pendingEpochs)
  {
    hide JudgedBaseline;
  }

  /** A section that was saved can be asked for again: the same answer, and nothing changes any more. */
  lemma SectionsAreIdempotent(s: State, c: Call)
    requires Repeatable(c) && Durable(s, c).Saved?
    ensures Durable(Durable(s, c).state, c) == Saved(Durable(s, c).state)
  {
    hide Mutate, GuardHolds;
    AgainIsAccepted(s, c);
    SameStateIsSaved(s, Mutate(s, c).state);
  }

  // ------------------------------------------------------------------ membership

  /**
   * A membership update either was recorded before and changes no plane, or it moves exactly one
   * plane, from the very coordinate it expects, to a later revision of the same epoch, and the
   * plane stays signed by whoever moved it to that epoch.
   */
  lemma HealthMovesForward(s: State, t: Tuple)
    requires Durable(s, HealthCall(t)).Saved?
    ensures var n := Durable(s, HealthCall(t)).state; var was, now := s.planes.At(t.plane), n.planes.At(t.plane);
      && n == s.(maxToken := n.maxToken, planes := n.planes, done := n.done)
      && (forall p: Plane | p != t.plane :: n.planes.At(p) == s.planes.At(p))
      && (n.planes != s.planes ==> was.at == t.move.expected && now == PlaneState(t.move.target, t.move.payload, was.author)
                                   && now.at.epoch == was.at.epoch && was.at.revision < now.at.revision)
      && (StepKey(t.id, t.plane, Health) !in s.done ==> n.planes != s.planes)
  {
    hide GuardHolds;
  }

  // ------------------------------------------------------------------ the candidate

  /** The plane is in the declared epoch because of this very candidate: by signature, or by the ledger where nobody signed. */
  predicate CameWith(s: State, id: Identity, p: Plane, epoch: nat) {
    && s.planes.At(p).at.epoch == epoch
    && (s.planes.At(p).author == Some(id)
        || (s.planes.At(p).author.None? && EndKey(id, p) in s.ended && s.ended[EndKey(id, p)] == EndActivated))
  }

  /**
   * Judging a candidate: it becomes the baseline exactly when both planes came to the declared
   * epochs with it; the baseline falls exactly when both planes are there without it; otherwise the
   * baseline stands, and without declared epochs always.  The candidate is gone afterwards.
   */
  lemma CandidateIsJudged(s: State, id: Identity)
    requires s.pending.Some? && SameName(s.pending.value.id, id)
    ensures var n := FinalizeCandidate(s, id); var r := s.pending.value;
      var own := if s.pendingEpochs.Some? then s.pendingEpochs
                 else if s.journal.Some? && SameName(s.journal.value.op.id, id) then Some(EpochsOf(s.journal.value.op)) else None;
      && n == s.(baseline := n.baseline, pending := None, pendingEpochs := None)
      && (own.None? ==> n.baseline == s.baseline)
      && (own.Some? ==>
            var came := CameWith(s, r.id, Http, own.value.http) && CameWith(s, r.id, Stream, own.value.stream);
            var there := s.planes.http.at.epoch == own.value.http && s.planes.stream.at.epoch == own.value.stream;
            && (came ==> n.baseline == Some(r))
            && (!came && there ==> n.baseline.None?)
            && (!came && !there ==> n.baseline == s.baseline))
  {
  }

  /** A candidate of another name is left alone. */
  lemma OthersAreNotJudged(s: State, id: Identity)
    requires s.pending.Some? ==> !SameName(s.pending.value.id, id)
    ensures FinalizeCandidate(s, id) == s
  {
  }

  // ------------------------------------------------------------------ a succession

  /**
   * A fence by a newer leader than the holder's closes the holder's operation on the spot: its open
   * journal becomes `superseded`, its right is gone, its slots in the epochs it declared are given
   * back, and its candidate is judged.
   */
  lemma FenceCloses(s: State, token: nat)
    requires Fence(s, token).Accepted? && s.holder.Some? && s.holder.value.id.token < token
    ensures var n, h := Fence(s, token).state, s.holder.value;
      && n.maxToken == token && n.holder.None?
      && (s.journal.Some? && SameName(s.journal.value.op.id, h.id) && !IsTerminal(s.journal.value.phase) ==>
            n.journal == Some(s.journal.value.(phase := Superseded, number := s.journal.value.number + 1)))
      && (s.journal.None? || !SameName(s.journal.value.op.id, h.id) || IsTerminal(s.journal.value.phase) ==> n.journal == s.journal)
      && (forall k | k in n.slots :: k in s.slots && n.slots[k] == s.slots[k])
      && (forall k | k in s.slots && k !in n.slots :: s.slots[k].owner.id == h.id)
      && (forall p: Plane :: var k := SlotKey(p, h.epochs.At(p)); k in n.slots ==> n.slots[k].owner.id != h.id)
      && n.baseline == FinalizeCandidate(s.(maxToken := token), h.id).baseline
  {
    hide JudgedBaseline;
    forall p: Plane ensures var k := SlotKey(p, s.holder.value.epochs.At(p)); k in Fence(s, token).state.slots ==>
      Fence(s, token).state.slots[k].owner.id != s.holder.value.id
    {
      assert p == Http || p == Stream;
    }
  }

  /** A fence that overrules nobody only raises the token. */
  lemma FenceRaises(s: State, token: nat)
    requires Fence(s, token).Accepted? && (s.holder.Some? ==> s.holder.value.id.token >= token)
    ensures Fence(s, token).state == s.(maxToken := token)
  {
  }

  // ------------------------------------------------------------------ who is refused

  /** A reservation is refused as busy exactly when another transition holds the right, and nobody newer was seen. */
  lemma BusyIsRefusedExactly(s: State, op: Op)
    ensures Durable(s, ReserveAllCall(op)) == Refusal(OperationInFlight) <==>
      s.maxToken <= op.id.token && s.holder.Some?
      && (s.holder.value.id.operation != op.id.operation || s.holder.value.id.transition != op.id.transition)
  {
    hide GuardHolds, ReserveOne;
    if s.maxToken <= op.id.token && (s.holder.None? || SameName(s.holder.value.id, op.id)) {
      var s0 := SweepOrphan(s, op);
      OneIsNotBusy(s0, TupleFor(op, Http));
      if ReserveOne(s0, TupleFor(op, Http)).Accepted? { OneIsNotBusy(ReserveOne(s0, TupleFor(op, Http)).state, TupleFor(op, Stream)); }
    }
  }

  lemma OneIsNotBusy(s: State, t: Tuple)
    ensures ReserveOne(s, t) != Rejected(OperationInFlight)
  {
  }

  /**
   * A plane that failed or was given up takes no further step: staging and committing it are refused
   * with its verdict, exactly then, or when it was activated and this step was never recorded.
   */
  lemma OverIsRefusedExactly(s: State, t: Tuple, e: Evidence, how: Ended)
    ensures Durable(s, StageCall(t)) == Refusal(Terminal(how)) <==>
      s.maxToken <= t.id.token && HasVerdict(s, t, how) && (how != EndActivated || StepKey(t.id, t.plane, Stage) !in s.done)
    ensures Durable(s, CommitCall(t, e)) == Refusal(Terminal(how)) <==>
      s.maxToken <= t.id.token && HasVerdict(s, t, how) && (how != EndActivated || StepKey(t.id, t.plane, Commit) !in s.done)
  {
    hide GuardHolds, ProvesActivation;
  }

  predicate HasVerdict(s: State, t: Tuple, how: Ended) { EndKeyOf(t) in s.ended && s.ended[EndKeyOf(t)] == how }

  /** A verdict is final: ending a plane otherwise is refused with the verdict it has, and the same again is fine. */
  lemma VerdictIsFinal(s: State, t: Tuple, how: Ended)
    requires s.maxToken <= t.id.token && EndKeyOf(t) in s.ended
    ensures EndPlane(s, t, how) == if s.ended[EndKeyOf(t)] == how then Accepted(s.(maxToken := t.id.token)) else Rejected(Terminal(s.ended[EndKeyOf(t)]))
  {
  }

  /** A step that was recorded under the same name is compared with the record: other contents, or another tuple. */
  lemma RecordsAreCompared(s: State, t: Tuple)
    requires s.maxToken <= t.id.token && !HasVerdict(s, t, EndAborted) && !HasVerdict(s, t, EndFailed)
    requires StepKey(t.id, t.plane, Stage) in s.done
    ensures var was := s.done[StepKey(t.id, t.plane, Stage)];
      && (was == t ==> StageSlot(s, t) == Accepted(s.(maxToken := t.id.token)))
      && (was != t && was.move.payload != t.move.payload ==> StageSlot(s, t) == Rejected(DigestMismatch))
      && (was != t && was.move.payload == t.move.payload ==> StageSlot(s, t) == Rejected(TupleMismatch))
  {
  }

  // ------------------------------------------------------------------ what it takes to move a plane

  /**
   * A commit moves its plane exactly if nobody newer was seen, the step is new and the plane without
   * verdict, its slot is the transition's own and holds just its payload, the plane stands where the
   * transition expects it, the evidence proves its generation, and the plane is not there already.
   */
  lemma MovesExactly(s: State, t: Tuple, e: Evidence)
    requires Sound(s) && t.id.token <= s.maxToken
    ensures (exists n :: Durable(s, CommitCall(t, e)) == Saved(n) && n.planes != s.planes) <==>
      && t.id.token == s.maxToken && EndKeyOf(t) !in s.ended && StepKey(t.id, t.plane, Commit) !in s.done
      && KeyOf(t) in s.slots && s.slots[KeyOf(t)] == Slot(t, Some(t.move.payload))
      && s.planes.At(t.plane).at == t.move.expected && ProvesActivation(Some(e), t.generation)
      && s.planes.At(t.plane) != PlaneState(t.move.target, t.move.payload, Some(t.id))
  {
    hide GuardHolds, ProvesActivation, Sound;
    if CommitPlane(s, t, e).Accepted? { GuardFiresExactly(s, CommitCall(t, e)); }
  }

  /** Evidence proves a generation exactly unless it is missing, names another one, or was refuted by what was observed. */
  lemma RefutedExactly(seen: Option<Evidence>, generation: Name)
    ensures !ProvesActivation(seen, generation) <==>
      || seen.None? || seen.value.accepting != Some(generation) || seen.value.configTestPassed == Some(false)
      || (seen.value.errorLogGrowth.Some? && seen.value.errorLogGrowth.value > 0)
      || (seen.value.workersExpected.Some? && seen.value.workersReported.Some?
          && seen.value.workersReported.value < seen.value.workersExpected.value)
  {
  }

  // ------------------------------------------------------------------ giving back

  /** An orphan's slots go, both of them and no others, unless somebody holds the right. */
  lemma StaleSlotsGo(s: State, op: Op)
    ensures var n := ReleaseStaleSlots(s, op); n == s.(slots := n.slots) && (s.holder.Some? ==> n == s)
    ensures s.holder.None? ==> OwnSlotsGo(s, ReleaseStaleSlots(s, op), HolderOf(op))
  {
  }

  /** The holder's slots in the epochs it declared, and nothing else. */
  predicate OwnSlotsGo(s: State, n: State, h: Holder) {
    && (forall k | k in n.slots :: k in s.slots && n.slots[k] == s.slots[k])
    && (forall k | k in s.slots :: k !in n.slots <==>
          s.slots[k].owner.id == h.id && (k == SlotKey(Http, h.epochs.http) || k == SlotKey(Stream, h.epochs.stream)))
  }

  /** An abort lets go of the right and both slots exactly when the right is this very operation's. */
  lemma HolderSlotsGo(s: State, op: Op)
    ensures var n := ReleaseHolderSlots(s, op);
      if s.holder.Some? && s.holder.value.id == op.id
      then n == s.(slots := n.slots, holder := None) && OwnSlotsGo(s, n, s.holder.value)
      else n == s
  {
  }
}
