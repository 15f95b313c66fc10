/**
 * The durable state of the data-plane agent and its serial sections (src/dp/agent.ts).
 *
 * Each serial section of the source loads the whole state, changes a clone, checks the
 * state invariants and saves; a rejection or a broken invariant saves nothing.  Here a
 * section is a function from state to outcome, `Durable` (ApplyMachine.dfy) puts the
 * check in front of the save, and the class `DpAgent` (AgentStore.dfy) is the load / check /
 * compare-and-swap loop.
 */
module Agent {
  import opened Wrappers
  import opened Operation

  // ------------------------------------------------------------------ state

  datatype PlaneState = PlaneState(at: Coordinate, payload: Name, author: Option<Identity>)

  datatype Slot = Slot(owner: Tuple, staged: Option<Name>)

  /** (plane, epoch): what a reservation is exclusive about. */
  datatype SlotKey = SlotKey(plane: Plane, epoch: nat)

  datatype Ended = EndActivated | EndFailed | EndAborted

  /** The ledger key of one plane of one transition, token included. */
  datatype EndKey = EndKey(id: Identity, plane: Plane)

  datatype Step = Reserve | Stage | Commit | Health

  datatype StepKey = StepKey(id: Identity, plane: Plane, step: Step)

  /** Who holds the apply path, and the target epoch it declared for each plane. */
  datatype Holder = Holder(id: Identity, epochs: PerPlane<nat>)

  datatype State = State(
    maxToken: nat,
    planes: PerPlane<PlaneState>,
    slots: map<SlotKey, Slot>,
    done: map<StepKey, Tuple>,
    ended: map<EndKey, Ended>,
    evidence: map<SlotKey, Evidence>,
    holder: Option<Holder>,
    journal: Option<Journal>,
    intent: Option<Record>,
    pending: Option<Record>,
    pendingEpochs: Option<PerPlane<nat>>,
    baseline: Option<Record>)

  datatype Rejection =
    | StaleLeader | Terminal(how: Ended) | SlotTaken | NotReserved | TupleMismatch
    | CoordinateMismatch | DigestMismatch | EpochNotMonotonic | NotStaged
    | OperationInFlight | JournalConflict | NotActivated

  datatype Outcome = Accepted(state: State) | Rejected(why: Rejection)

  const INITIAL: State :=
    State(0, Both(PlaneState(Coordinate(0, 0), 0, None)), map[], map[], map[], map[],
          None, None, None, None, None, None)

  // ------------------------------------------------------------------ small parts

  function Max(a: nat, b: nat): nat { if a < b then b else a }

  function KeyOf(t: Tuple): SlotKey { SlotKey(t.plane, t.move.target.epoch) }

  function EndKeyOf(t: Tuple): EndKey { EndKey(t.id, t.plane) }

  function EndedHow(s: State, id: Identity, p: Plane): Option<Ended> {
    if EndKey(id, p) in s.ended then Some(s.ended[EndKey(id, p)]) else None
  }

  predicate OwnsSlot(s: State, t: Tuple) {
    KeyOf(t) in s.slots && s.slots[KeyOf(t)].owner == t
  }

  /** The slots without `k`, when `mine` says that slot is ours. */
  function DropIf(slots: map<SlotKey, Slot>, k: SlotKey, mine: bool): map<SlotKey, Slot> {
    if mine then slots - {k} else slots
  }

  predicate SlotOf(slots: map<SlotKey, Slot>, k: SlotKey, id: Identity) {
    k in slots && slots[k].owner.id == id
  }

  /** The slots without those the holder itself took and still owns. */
  function WithoutOwned(slots: map<SlotKey, Slot>, h: Holder): map<SlotKey, Slot> {
    var http, stream := SlotKey(Http, h.epochs.http), SlotKey(Stream, h.epochs.stream);
    DropIf(DropIf(slots, http, SlotOf(slots, http, h.id)), stream, SlotOf(slots, stream, h.id))
  }

  predicate AuthoredBy(at: PlaneState, id: Identity) { at.author == Some(id) }

  function EpochsOf(op: Op): PerPlane<nat> {
    PerPlane(op.targets.http.target.epoch, op.targets.stream.target.epoch)
  }

  function HolderOf(op: Op): Holder { Holder(op.id, EpochsOf(op)) }

  function JournalSeq(s: State): nat { if s.journal.Some? then s.journal.value.number else 0 }

  function Recorded(s: State, t: Tuple, step: Step): State {
    s.(done := s.done[StepKey(t.id, t.plane, step) := t])
  }

  // ------------------------------------------------------------------ candidate and baseline

  /** The declared epochs a candidate is judged by: its own, else those of a journal of the same name. */
  function DeclaredEpochs(s: State, id: Identity): Option<PerPlane<nat>> {
    if s.pendingEpochs.Some? then s.pendingEpochs
    else if s.journal.Some? && SameName(s.journal.value.op.id, id) then Some(EpochsOf(s.journal.value.op))
    else None
  }

  predicate PlaneArrived(s: State, r: Record, p: Plane, epoch: nat) {
    var at := s.planes.At(p);
    && at.at.epoch == epoch
    && (if at.author.None? then EndedHow(s, r.id, p) == Some(EndActivated) else AuthoredBy(at, r.id))
  }

  /** Did the candidate itself put both planes where it said it would? */
  predicate CandidateArrived(s: State, r: Record, epochs: Option<PerPlane<nat>>) {
    epochs.Some? && PlaneArrived(s, r, Http, epochs.value.http) && PlaneArrived(s, r, Stream, epochs.value.stream)
  }

  predicate PositionsReached(s: State, epochs: Option<PerPlane<nat>>) {
    && epochs.Some?
    && s.planes.http.at.epoch == epochs.value.http
    && s.planes.stream.at.epoch == epochs.value.stream
  }

  /** Is the current candidate one of this name? */
  predicate Judges(s: State, id: Identity) {
    s.pending.Some? && SameName(s.pending.value.id, id)
  }

  /** Promote the candidate, or depose a baseline the world has passed, or neither. */
  function JudgedBaseline(s: State, id: Identity): Option<Record>
    requires Judges(s, id)
  {
    var epochs := DeclaredEpochs(s, id);
    if CandidateArrived(s, s.pending.value, epochs) then s.pending
    else if PositionsReached(s, epochs) then None
    else s.baseline
  }

  function FinalizeCandidate(s: State, id: Identity): State {
    if Judges(s, id) then s.(baseline := JudgedBaseline(s, id), pending := None, pendingEpochs := None) else s
  }

  /** The holder afterwards, when exactly `id` lets go. */
  function LetGo(holder: Option<Holder>, id: Identity): Option<Holder> {
    if holder.Some? && holder.value.id == id then None else holder
  }

  function SupersededJournal(j: Option<Journal>, id: Identity): Option<Journal> {
    if j.Some? && SameName(j.value.op.id, id) && !IsTerminal(j.value.phase)
    then Some(j.value.(phase := Superseded, number := j.value.number + 1))
    else j
  }

  /** Close the operation of an out-of-date holder: give back its slots, close its journal. */
  function Supersede(s: State, h: Holder): State {
    var s1 := FinalizeCandidate(s, h.id);
    s1.(slots := WithoutOwned(s.slots, h),
        journal := SupersededJournal(s.journal, h.id),
        holder := LetGo(s.holder, h.id))
  }

  // ------------------------------------------------------------------ admission and reservation

  datatype Admission = Refused(why: Rejection) | Replay(state: State) | Fresh(state: State)

  /** Token, ledger and idempotency test in front of every tuple operation. */
  function Admit(s: State, t: Tuple, step: Step): Admission {
    if t.id.token < s.maxToken then Refused(StaleLeader)
    else
      var s1 := s.(maxToken := Max(s.maxToken, t.id.token));
      var already := EndedHow(s, t.id, t.plane);
      var k := StepKey(t.id, t.plane, step);
      if already == Some(EndAborted) || already == Some(EndFailed) then Refused(Terminal(already.value))
      else if k in s.done then
        if s.done[k] == t then Replay(s1)
        else if s.done[k].move.payload != t.move.payload then Refused(DigestMismatch)
        else Refused(TupleMismatch)
      else if already.Some? then Refused(Terminal(already.value))
      else Fresh(s1)
  }

  /** Take the (plane, epoch) slot, or find it already ours. */
  function Acquire(s: State, t: Tuple): Outcome {
    if KeyOf(t) in s.slots then
      if s.slots[KeyOf(t)].owner == t then Accepted(s) else Rejected(SlotTaken)
    else if s.planes.At(t.plane).at != t.move.expected then Rejected(CoordinateMismatch)
    else if t.move.target.epoch <= s.planes.At(t.plane).at.epoch then Rejected(EpochNotMonotonic)
    else Accepted(s.(slots := s.slots[KeyOf(t) := Slot(t, None)]))
  }

  function ReserveOne(s: State, t: Tuple): Outcome {
    match Admit(s, t, Reserve)
    case Refused(why) => Rejected(why)
    case Replay(s1) => Accepted(s1)
    case Fresh(s1) =>
      match Acquire(s1, t)
      case Rejected(why) => Rejected(why)
      case Accepted(s2) => Accepted(Recorded(s2, t, Reserve))
  }

  function StampAborted(s: State, t: Tuple): State {
    if EndedHow(s, t.id, t.plane).Some? then s
    else s.(ended := s.ended[EndKeyOf(t) := EndAborted])
  }

  /** A non-terminal journal of somebody else is an orphan here: abort it and give its slots back. */
  function SweepOrphan(s: State, op: Op): State {
    if s.journal.None? || OwnsJournal(s.journal, op) || IsTerminal(s.journal.value.phase) then s
    else
      var stale := s.journal.value.op;
      var s1 := StampAborted(s, TupleFor(stale, Http));
      var s2 := StampAborted(s1, TupleFor(stale, Stream));
      Supersede(s2, HolderOf(stale))
  }

  function OpeningEntry(op: Op, number: nat): Journal {
    Journal(op, Preflight, 0, number, Both(PlaneReserved), None, number)
  }

  function ReserveAll(s: State, op: Op): Outcome {
    if op.id.token < s.maxToken then Rejected(StaleLeader)
    else if s.holder.Some? && !SameName(s.holder.value.id, op.id) then Rejected(OperationInFlight)
    else
      match ReserveOne(SweepOrphan(s, op), TupleFor(op, Http))
      case Rejected(why) => Rejected(why)
      case Accepted(s1) =>
        match ReserveOne(s1, TupleFor(op, Stream))
        case Rejected(why) => Rejected(why)
        case Accepted(s2) =>
          var s3 := s2.(holder := Some(HolderOf(op)));
          Accepted(if OwnsJournal(s3.journal, op) then s3
                   else s3.(journal := Some(OpeningEntry(op, JournalSeq(s3) + 1))))
  }

  // ------------------------------------------------------------------ steps of a transition

  function StageSlot(s: State, t: Tuple): Outcome {
    match Admit(s, t, Stage)
    case Refused(why) => Rejected(why)
    case Replay(s1) => Accepted(s1)
    case Fresh(s1) =>
      match Acquire(s1, t)
      case Rejected(why) => Rejected(why)
      case Accepted(s2) =>
        Accepted(Recorded(s2.(slots := s2.slots[KeyOf(t) := Slot(t, Some(t.move.payload))]), t, Stage))
  }

  /** Leave the transition: give its slot back and write how it ended. */
  function Close(s: State, t: Tuple, how: Ended): State {
    s.(slots := DropIf(s.slots, KeyOf(t), OwnsSlot(s, t)), ended := s.ended[EndKeyOf(t) := how])
  }

  predicate AlreadyThere(s: State, t: Tuple) {
    var at := s.planes.At(t.plane);
    at.at == t.move.target && at.payload == t.move.payload && AuthoredBy(at, t.id)
  }

  /** Would a fresh commit of `t` with evidence `e` move the plane now? */
  function MoveRefusal(s: State, t: Tuple, e: Evidence): Option<Rejection> {
    if KeyOf(t) !in s.slots then Some(NotStaged)
    else if s.slots[KeyOf(t)].owner != t then Some(SlotTaken)
    else if s.planes.At(t.plane).at != t.move.expected then Some(CoordinateMismatch)
    else if s.slots[KeyOf(t)].staged.None? then Some(NotStaged)
    else if s.slots[KeyOf(t)].staged.value != t.move.payload then Some(DigestMismatch)
    else if !ProvesActivation(Some(e), t.generation) then Some(NotActivated)
    else None
  }

  function Moved(s: State, t: Tuple, e: Evidence): State {
    var declared := if s.holder.Some? && s.holder.value.id == t.id then Some(s.holder.value.epochs) else s.pendingEpochs;
    var s1 := s.(
      planes := Put(s.planes, t.plane, PlaneState(t.move.target, t.move.payload, Some(t.id))),
      evidence := s.evidence[KeyOf(t) := e],
      pendingEpochs := declared,
      pending := Some(Record(t.generation, t.id, t.digest)));
    Recorded(Close(s1, t, EndActivated), t, Commit)
  }

  function CommitPlane(s: State, t: Tuple, e: Evidence): Outcome {
    match Admit(s, t, Commit)
    case Refused(why) => Rejected(why)
    case Replay(s1) => Accepted(s1)
    case Fresh(s1) =>
      if AlreadyThere(s1, t) then Accepted(Recorded(s1, t, Commit))
      else match MoveRefusal(s1, t, e)
        case Some(why) => Rejected(why)
        case None => Accepted(Moved(s1, t, e))
  }

  /** Is this commit the one that moves the coordinate (and not a replay)? */
  predicate CommitMoves(s: State, t: Tuple, e: Evidence) {
    var a := Admit(s, t, Commit);
    a.Fresh? && !AlreadyThere(a.state, t) && MoveRefusal(a.state, t, e).None?
  }

  /** `fail` and `abort`: end one plane of a transition, idempotently. */
  function EndPlane(s: State, t: Tuple, how: Ended): Outcome {
    if t.id.token < s.maxToken then Rejected(StaleLeader)
    else
      var s1 := s.(maxToken := Max(s.maxToken, t.id.token));
      match EndedHow(s, t.id, t.plane)
      case Some(was) => if was == how then Accepted(s1) else Rejected(Terminal(was))
      case None => Accepted(Close(s1, t, how))
  }

  /** Membership moves inside the active epoch only, and only forward. */
  function ApplyHealth(s: State, t: Tuple): Outcome {
    match Admit(s, t, Health)
    case Refused(why) => Rejected(why)
    case Replay(s1) => Accepted(s1)
    case Fresh(s1) =>
      var cur := s1.planes.At(t.plane);
      if cur.at != t.move.expected || t.move.target.epoch != cur.at.epoch then Rejected(CoordinateMismatch)
      else if t.move.target.revision <= cur.at.revision then Rejected(EpochNotMonotonic)
      else Accepted(Recorded(
        s1.(planes := Put(s1.planes, t.plane, PlaneState(t.move.target, t.move.payload, cur.author))), t, Health))
  }

  // ------------------------------------------------------------------ execution right and journal

  function Reclaim(s: State, op: Op): Outcome {
    if s.holder.Some? then Accepted(s)
    else if op.id.token < s.maxToken then Rejected(StaleLeader)
    else Accepted(s.(holder := Some(HolderOf(op))))
  }

  function FinishOperation(s: State, op: Op, release: set<Plane>): State {
    var h, t := TupleFor(op, Http), TupleFor(op, Stream);
    var rest := DropIf(DropIf(s.slots, KeyOf(h), Http in release && OwnsSlot(s, h)),
                       KeyOf(t), Stream in release && OwnsSlot(s, t));
    FinalizeCandidate(s, op.id).(slots := rest, holder := LetGo(s.holder, op.id))
  }

  function CloseJournal(s: State, op: Op, how: Phase): State {
    if OwnsJournal(s.journal, op) && !IsTerminal(s.journal.value.phase)
    then s.(journal := Some(s.journal.value.(phase := how, number := s.journal.value.number + 1)))
    else s
  }

  function ReleaseStaleSlots(s: State, op: Op): State {
    if s.holder.Some? then s else s.(slots := WithoutOwned(s.slots, HolderOf(op)))
  }

  /** Only ever called with no journal: nothing has happened, so the right can be given back. */
  function ReleaseIdleHolder(s: State): State {
    if s.holder.None? || s.journal.Some? then s
    else
      var h := s.holder.value;
      s.(slots := s.slots - {SlotKey(Http, h.epochs.http), SlotKey(Stream, h.epochs.stream)}, holder := None)
  }

  /** Abort: give back everything the holder took, when the holder is exactly this operation. */
  function ReleaseHolderSlots(s: State, op: Op): State {
    if s.holder.None? || s.holder.value.id != op.id then s
    else s.(slots := WithoutOwned(s.slots, s.holder.value), holder := None)
  }

  function WriteJournal(s: State, entry: Journal): Outcome {
    if entry.op.id.token < s.maxToken then Rejected(StaleLeader)
    else if s.holder.None? || !SameName(s.holder.value.id, entry.op.id) then Rejected(NotReserved)
    else if entry.number != JournalSeq(s) + 1 then Rejected(JournalConflict)
    else Accepted(s.(journal := Some(entry)))
  }

  function RecordIntent(s: State, r: Record): Outcome {
    if r.id.token < s.maxToken then Rejected(StaleLeader) else Accepted(s.(intent := Some(r)))
  }

  /** A higher token is a succession: the old holder's operation is closed on the spot. */
  function Fence(s: State, token: nat): Outcome {
    if token < s.maxToken then Rejected(StaleLeader)
    else
      var s1 := s.(maxToken := token);
      Accepted(if s1.holder.Some? && s1.holder.value.id.token < token then Supersede(s1, s1.holder.value) else s1)
  }

  // ------------------------------------------------------------------ reading

  /** Did this operation, by signature and epoch, put the plane where it is? */
  predicate MovedByMe(s: State, op: Op, p: Plane) {
    s.planes.At(p).at.epoch == op.targets.At(p).target.epoch && AuthoredBy(s.planes.At(p), op.id)
  }

  /** How far the operation of this journal got, read from the coordinates alone. */
  function ReachedPhase(s: State, op: Op): Phase {
    if MovedByMe(s, op, Http) && MovedByMe(s, op, Stream) then Activated
    else if MovedByMe(s, op, Http) || MovedByMe(s, op, Stream) then PartialExhausted
    else Failed
  }

  datatype Ownership = Mine | Lost(why: Rejection)

  function AssertOwnership(s: State, op: Op): Ownership {
    if op.id.token < s.maxToken then Lost(StaleLeader)
    else if s.holder.None? then Lost(NotReserved)
    else if !SameName(s.holder.value.id, op.id) then Lost(OperationInFlight)
    else Mine
  }

  /** Given up (one aborted plane is enough) or failed on every plane. */
  predicate ClosedTransition(s: State, op: Op) {
    var h, t := EndedHow(s, op.id, Http), EndedHow(s, op.id, Stream);
    || h == Some(EndAborted) || t == Some(EndAborted)
    || (h == Some(EndFailed) && t == Some(EndFailed))
  }

  // ------------------------------------------------------------------ the guard in front of every save

  predicate AtMost(r: Option<Record>, token: nat) { r.Some? ==> r.value.id.token <= token }

  /** The clauses of the guard that look at one state: the holder is the latest leader, nothing is ahead of it. */
  predicate Fenced(s: State) {
    && (s.holder.Some? ==> s.holder.value.id.token == s.maxToken)
    && (forall k | k in s.slots :: s.slots[k].owner.id.token <= s.maxToken)
    && AtMost(s.intent, s.maxToken) && AtMost(s.baseline, s.maxToken) && AtMost(s.pending, s.maxToken)
  }

  predicate NewIntent(before: State, next: State) {
    && next.intent.Some?
    && (before.intent.None? || !SameName(before.intent.value.id, next.intent.value.id)
        || before.intent.value.generation != next.intent.value.generation)
  }

  /** An activated journal whose candidate really arrived must leave it as the baseline. */
  predicate LeavesBaseline(before: State, next: State) {
    (&& before.pending.Some? && next.pending.None?
     && CandidateArrived(next, before.pending.value, DeclaredEpochs(before, before.pending.value.id))
     && next.journal.Some? && next.journal.value.phase == Activated
     && SameName(next.journal.value.op.id, before.pending.value.id))
    ==> next.baseline == before.pending
  }

  /** The clauses that compare the state before a save with the state to be saved. */
  predicate NothingUndone(before: State, next: State) {
    && (NewIntent(before, next) ==> next.intent.value.id.token == next.maxToken)
    && before.maxToken <= next.maxToken
    && before.planes.http.at.epoch <= next.planes.http.at.epoch
    && before.planes.stream.at.epoch <= next.planes.stream.at.epoch
    && (next.baseline.Some? && next.baseline != before.baseline ==> next.baseline == before.pending)
    && LeavesBaseline(before, next)
    && (forall k | k in before.ended :: k in next.ended && next.ended[k] == before.ended[k])
    && (forall p: Plane :: var k := SlotKey(p, next.planes.At(p).at.epoch); k in before.evidence ==> k in next.evidence)
    && (before.journal.Some? && next.journal.Some? ==> before.journal.value.number <= next.journal.value.number)
  }

  predicate GuardHolds(before: State, next: State) {
    Fenced(next) && NothingUndone(before, next)
  }

  // ------------------------------------------------------------------ the serial sections as data

  datatype Call =
    | ReserveAllCall(op: Op)
    | StageCall(tuple: Tuple)
    | CommitCall(tuple: Tuple, proof: Evidence)
    | FailCall(tuple: Tuple)
    | AbortCall(tuple: Tuple)
    | HealthCall(tuple: Tuple)
    | ReclaimCall(op: Op)
    | FinishCall(op: Op, release: set<Plane>)
    | CloseCall(op: Op, how: Phase)
    | ReleaseStaleCall(op: Op)
    | ReleaseIdleCall
    | ReleaseHolderCall(op: Op)
    | WriteCall(entry: Journal)
    | IntentCall(record: Record)
    | FenceCall(token: nat)

  /** What the section computes, before the guard. */
  function Mutate(s: State, c: Call): Outcome {
    match c
    case ReserveAllCall(op) => ReserveAll(s, op)
    case StageCall(t) => StageSlot(s, t)
    case CommitCall(t, e) => CommitPlane(s, t, e)
    case FailCall(t) => EndPlane(s, t, EndFailed)
    case AbortCall(t) => EndPlane(s, t, EndAborted)
    case HealthCall(t) => ApplyHealth(s, t)
    case ReclaimCall(op) => Reclaim(s, op)
    case FinishCall(op, release) => Accepted(FinishOperation(s, op, release))
    case CloseCall(op, how) => Accepted(CloseJournal(s, op, how))
    case ReleaseStaleCall(op) => Accepted(ReleaseStaleSlots(s, op))
    case ReleaseIdleCall => Accepted(ReleaseIdleHolder(s))
    case ReleaseHolderCall(op) => Accepted(ReleaseHolderSlots(s, op))
    case WriteCall(entry) => WriteJournal(s, entry)
    case IntentCall(r) => RecordIntent(s, r)
    case FenceCall(token) => Fence(s, token)
  }
}
