/**
 * The apply protocol as a state machine over its atomic steps (src/dp/apply.ts, src/dp/driver.ts).
 *
 * An actor is one call of `run`, `recover` or `abortConfig`, by whatever process.  Between two
 * of its awaits an actor is one step, so actors interleave exactly where the source yields; a
 * crash stops an actor at any such point and a later `recover` starts a fresh one.  Publications
 * may land late: `Drift` lets the published record become anything at any time.  What the
 * engine answers is arbitrary (`Answer`).
 */
module ApplyMachine {
  import opened Wrappers
  import opened Operation
  import opened Agent
  import opened AgentGuard

  // ------------------------------------------------------------------ history

  /** What happened, in order; the proofs read it, the protocol does not. */
  datatype Event =
    | PassedPreflight(op: Op)
    /** `observePublished` came back with `seen`, in `reload_observed`, and was taken for this operation's own */
    | SawMine(op: Op, seen: PublishedState)
    /** a commit moved a plane; `saw` is the position of the SawMine before it */
    | MovedPlane(tuple: Tuple, proof: Evidence, saw: nat)
    /** the journal write that counts reload attempt number `attempt` of this opening won its CAS */
    | WonAttempt(opening: nat, attempt: nat)
    /** an `aborted` mark was written for this operation */
    | MarkedAborted(id: Identity)
    /** an abort over the planes of `scope` closed the journal as `activated` without an activation on record for each plane */
    | ClosedOver(id: Identity, opening: nat, scope: set<Plane>)
    | DidPublish(op: Op, head: nat)
    | DidStage(op: Op, plane: Plane, head: nat)
    /** a HUP; `won` is the position of the WonAttempt it spends, `before` the read in front of it */
    | DidSignal(op: Op, opening: nat, won: nat, before: Reading, head: nat)

  /** Reading the engine either fails, or gives what was seen (possibly nothing). */
  datatype Reading = Blind | Read(evidence: Option<Evidence>)

  /** Everything actors share. */
  datatype World = World(agent: State, published: PublishedState, log: seq<Event>)

  // ------------------------------------------------------------------ program counters

  /** One iteration of the driver loop: whose call, the entry it read, and how long the history was then. */
  datatype Turn = Turn(bound: Op, j: Journal, head: nat)

  /** Where to go after a shared tail (a journal write, a finish). */
  datatype Next = Stop | Again(bound: Op) | ThenFinish(op: Op, release: set<Plane>, again: Option<Op>)

  /** What an abort declares: any list of planes, and those it carries a target for. */
  datatype Envelope = Envelope(declared: seq<Plane>, carried: set<Plane>)

  function Declared(e: Envelope): set<Plane> { set p | p in e.declared }

  /** The envelope that names both planes. */
  const WHOLE: Envelope := Envelope(PLANES, {Http, Stream})

  datatype Pc =
    | Done
    | Reserving(op: Op)
    | Recovering
    | ReleasingIdle
    | ClosingStale(op: Op)
    | ReleasingStale(op: Op)
    | Reclaiming(op: Op)
    | Head(bound: Op)
    | Finishing(op: Op, release: set<Plane>, next: Next)
    | Closing(turn: Turn, how: Phase)
    | Writing(entry: Journal, next: Next)
    | Preflighting(turn: Turn)
    | LookingUp(turn: Turn)
    | Intending(turn: Turn)
    | Publishing(turn: Turn)
    | Staging(turn: Turn, progress: PerPlane<Progress>, todo: seq<Plane>, advanced: nat)
    | Loading(turn: Turn, progress: PerPlane<Progress>, todo: seq<Plane>, advanced: nat)
    | ReadingWorld(turn: Turn)
    | Winning(turn: Turn, seen: Reading)
    | Signalling(turn: Turn, won: nat, seen: Reading)
    | Awaiting(turn: Turn)
    | Confirming(turn: Turn)
    | Proving(turn: Turn, saw: nat)
    | Committing(turn: Turn, proof: Evidence, saw: nat, progress: PerPlane<Progress>, todo: seq<Plane>)
    | Failing(j: Journal, progress: PerPlane<Progress>, todo: seq<Plane>, again: Option<Op>)
    | FailingPlane(j: Journal, progress: PerPlane<Progress>, todo: seq<Plane>, again: Option<Op>)
    | Judging(j: Journal, progress: PerPlane<Progress>, again: Option<Op>)
    | Aborting(op: Op, envelope: Envelope, todo: seq<Plane>)
    | AbortReleasing(op: Op, envelope: Envelope)
    | AbortFinishing(op: Op, envelope: Envelope)
    | AbortJudging(op: Op, envelope: Envelope)
    | AbortClosing(op: Op, envelope: Envelope, how: Phase)

  function Resume(next: Next): Pc {
    match next
    case Stop => Done
    case Again(bound) => Head(bound)
    case ThenFinish(op, release, again) =>
      Finishing(op, release, if again.Some? then Again(again.value) else Stop)
  }

  /** How an awaited effect comes back; `Late` is the effect timeout. */
  datatype Answer = Yes | No | Late | Saw(reading: Reading)

  // ------------------------------------------------------------------ saving

  datatype Save = Saved(state: State) | Refusal(why: Rejection) | Tripped

  /** A serial section as the store sees it: nothing is saved on a rejection or a broken invariant. */
  function Durable(s: State, c: Call): Save {
    match Mutate(s, c)
    case Rejected(why) => Refusal(why)
    case Accepted(n) => if GuardHolds(s, n) then Saved(n) else Tripped
  }

  /** The abort marks this section would add. */
  function Marks(s: State, c: Call): seq<Event> {
    match c
    case AbortCall(t) => if EndedHow(s, t.id, t.plane).None? then [MarkedAborted(t.id)] else []
    case ReserveAllCall(op) =>
      if s.journal.Some? && !OwnsJournal(s.journal, op) && !IsTerminal(s.journal.value.phase)
         && (EndedHow(s, s.journal.value.op.id, Http).None? || EndedHow(s, s.journal.value.op.id, Stream).None?)
      then [MarkedAborted(s.journal.value.op.id)] else []
    case _ => []
  }

  ghost function After(w: World, c: Call): World {
    var d := Durable(w.agent, c);
    if d.Saved? then w.(agent := d.state, log := w.log + Marks(w.agent, c)) else w
  }

  function Noted(w: World, e: Event): World { w.(log := w.log + [e]) }

  // ------------------------------------------------------------------ the driver loop

  function Stuck(j: Journal): set<Plane> {
    set p <- PLANES | j.progress.At(p) != PlaneCommitted
  }

  function Stepped(j: Journal, phase: Phase): Journal {
    j.(phase := phase, number := j.number + 1)
  }

  /** The synchronous part of an iteration: read the journal and decide what to await. */
  function AtHead(s: State, bound: Op, head: nat): Pc {
    if s.journal.None? then Done
    else if !OwnsJournal(s.journal, bound) then
      if s.holder.Some? && SameName(s.holder.value.id, bound.id) then Finishing(bound, {}, Stop) else Done
    else
      var j := s.journal.value;
      var turn := Turn(bound, j, head);
      if IsTerminal(j.phase) then
        if s.holder.Some? && SameName(s.holder.value.id, j.op.id) then Finishing(j.op, Stuck(j), Stop) else Done
      else if ClosedTransition(s, j.op) then Closing(turn, ReachedPhase(s, j.op))
      else if AssertOwnership(s, j.op).Lost? then Done
      else if j.phase == Preflight then Preflighting(turn)
      else if j.phase == PublishIntent then LookingUp(turn)
      else if j.phase == Published then Staging(turn, j.progress, PLANES, 0)
      else if j.phase == MembershipStaged then Writing(Stepped(j, ReloadIntent), Again(bound))
      else if j.phase == ReloadIntent then ReadingWorld(turn)
      else if j.phase == ReloadObserved then Confirming(turn)
      // a partial activation is pushed again, finitely often
      else if j.attempts >= RELOAD_ATTEMPT_LIMIT + PARTIAL_RETRY_LIMIT then
        Writing(Stepped(j, PartialExhausted), ThenFinish(j.op, Stuck(j), None))
      else if Stuck(j) == {} then Writing(Stepped(j, Activated), Again(bound))
      else Writing(Stepped(j, ReloadObserved).(attempts := j.attempts + 1), Again(bound))
  }

  function AtRecover(s: State): Pc {
    if s.journal.None? then ReleasingIdle
    else
      var j := s.journal.value;
      if IsTerminal(j.phase) then Finishing(j.op, Stuck(j), Stop)
      else if j.op.id.token < s.maxToken then ClosingStale(j.op)
      else Reclaiming(j.op)
  }

  /** `failAll` for the iteration's own entry. */
  function FailingPc(turn: Turn): Pc {
    Failing(turn.j, turn.j.progress, PLANES, Some(turn.bound))
  }

  /** An effect ran out of its budget: clean up if the journal is still ours, then return. */
  function TimedOut(s: State, bound: Op): Pc {
    if OwnsJournal(s.journal, bound) then Failing(s.journal.value, s.journal.value.progress, PLANES, None) else Done
  }

  /** After HUP, the evidence goes into our own journal only. */
  function AfterAwait(s: State, turn: Turn, seen: Option<Evidence>): Pc {
    if seen.None? || !OwnsJournal(s.journal, turn.j.op) then Head(turn.bound)
    else
      var now := s.journal.value;
      var noted := Stepped(now, if ProvesActivation(seen, turn.j.op.generation) then ReloadObserved else now.phase);
      Writing(noted.(evidence := seen), Again(turn.bound))
  }

  function CommittedPhase(progress: PerPlane<Progress>): Phase {
    if progress.http == PlaneCommitted && progress.stream == PlaneCommitted then Activated
    else if progress.http != PlaneCommitted && progress.stream != PlaneCommitted then Failed
    else PartiallyActivated
  }

  function AfterCommits(turn: Turn, proof: Evidence, progress: PerPlane<Progress>): Pc {
    var phase := CommittedPhase(progress);
    var entry := Stepped(turn.j, phase).(progress := progress, evidence := Some(proof));
    Writing(entry, if phase == PartiallyActivated then Again(turn.bound)
                   else ThenFinish(turn.j.op, Stuck(entry), Some(turn.bound)))
  }

  // ------------------------------------------------------------------ one step of one actor

  datatype Moment = Moment(w: World, pc: Pc)

  /** A serial section whose rejection ends the call. */
  ghost function Must(w: World, c: Call, pc: Pc): Moment {
    if Durable(w.agent, c).Saved? then Moment(After(w, c), pc) else Moment(w, Done)
  }

  ghost function ActStage(w: World, pc: Pc, answer: Answer): Moment
    requires pc.Staging? || pc.Loading?
  {
    var turn, progress, todo, advanced := pc.turn, pc.progress, pc.todo, pc.advanced;
    if todo == [] then
      if pc.Loading? then Moment(w, Done)
      else if advanced == 0 then Moment(w, FailingPc(turn))
      else Moment(w, Writing(Stepped(turn.j, MembershipStaged).(progress := progress), Again(turn.bound)))
    else
      var p, rest := todo[0], todo[1..];
      var skipped := Staging(turn, Put(progress, p, PlaneFailed), rest, advanced);
      if pc.Staging? then
        var c := StageCall(TupleFor(turn.j.op, p));
        match Durable(w.agent, c)
        case Saved(_) => Moment(After(w, c), Loading(turn, progress, todo, advanced))
        case Refusal(_) => Moment(w, skipped)
        case Tripped => Moment(w, Done)
      else
        match answer
        case Yes =>
          Moment(Noted(w, DidStage(turn.j.op, p, turn.head)),
                 Staging(turn, Put(progress, p, PlaneStaged), rest, advanced + 1))
        case Late => Moment(Noted(w, DidStage(turn.j.op, p, turn.head)), TimedOut(w.agent, turn.bound))
        case _ => Moment(w, skipped)
  }

  ghost function ActReload(w: World, pc: Pc, answer: Answer): Moment
    requires pc.ReadingWorld? || pc.Winning? || pc.Signalling? || pc.Awaiting?
  {
    var turn := pc.turn;
    var j := turn.j;
    if pc.ReadingWorld? then
      var seen := if answer.Saw? then answer.reading else Blind;
      if seen.Read? && ProvesActivation(seen.evidence, j.op.generation) then
        Moment(w, Writing(Stepped(j, ReloadObserved).(evidence := seen.evidence), Again(turn.bound)))
      else if j.attempts >= RELOAD_ATTEMPT_LIMIT || (seen.Blind? && j.attempts > 0) then Moment(w, FailingPc(turn))
      else Moment(w, Winning(turn, seen))
    else if pc.Winning? then
      // only the runner that wins this write signals
      var c := WriteCall(Stepped(j, j.phase).(attempts := j.attempts + 1));
      match Durable(w.agent, c)
      case Saved(_) =>
        Moment(Noted(After(w, c), WonAttempt(j.opening, j.attempts + 1)), Signalling(turn, |After(w, c).log|, pc.seen))
      case Refusal(why) => Moment(w, if why == JournalConflict then Head(turn.bound) else Done)
      case Tripped => Moment(w, Done)
    else if pc.Signalling? then
      if answer == No then Moment(w, Done)
      else Moment(Noted(w, DidSignal(j.op, j.opening, pc.won, pc.seen, turn.head)),
                  if answer == Late then TimedOut(w.agent, turn.bound) else Awaiting(turn))
    else
      Moment(w, AfterAwait(w.agent, turn, if answer.Saw? && answer.reading.Read? then answer.reading.evidence else None))
  }

  ghost function ActCommit(w: World, pc: Pc, answer: Answer): Moment
    requires pc.Confirming? || pc.Proving? || pc.Committing?
  {
    var turn := pc.turn;
    var j := turn.j;
    if pc.Confirming? then
      if answer == Late then Moment(w, TimedOut(w.agent, turn.bound))
      else if PublishedByMe(w.published, j.op) then Moment(Noted(w, SawMine(j.op, w.published)), Proving(turn, |w.log|))
      else Moment(w, Writing(Stepped(j, PublishIntent), Again(turn.bound)))
    else if pc.Proving? then
      var seen := if answer.Saw? && answer.reading.Read? then answer.reading.evidence else None;
      if ProvesActivation(seen, j.op.generation) then Moment(w, Committing(turn, seen.value, pc.saw, j.progress, PLANES))
      else Moment(w, Writing(Stepped(j, ReloadIntent), Again(turn.bound)))
    else
      var proof, saw, progress, todo := pc.proof, pc.saw, pc.progress, pc.todo;
      if todo == [] then Moment(w, AfterCommits(turn, proof, progress))
      else
        var t := TupleFor(j.op, todo[0]);
        var c := CommitCall(t, proof);
        match Durable(w.agent, c)
        case Saved(_) =>
          var w' := if CommitMoves(w.agent, t, proof) then Noted(After(w, c), MovedPlane(t, proof, saw)) else After(w, c);
          Moment(w', Committing(turn, proof, saw, Put(progress, todo[0], PlaneCommitted), todo[1..]))
        case Refusal(_) => Moment(w, Committing(turn, proof, saw, Put(progress, todo[0], PlaneFailed), todo[1..]))
        case Tripped => Moment(w, Done)
  }

  ghost function ActFail(w: World, pc: Pc): Moment
    requires pc.Failing? || pc.FailingPlane? || pc.Judging?
  {
    var j, progress, again := pc.j, pc.progress, pc.again;
    if pc.Judging? then
      // the phase is read from whatever journal is there now, the entry continues our own
      var phase := if w.agent.journal.Some? then ReachedPhase(w.agent, w.agent.journal.value.op) else Failed;
      Moment(w, Writing(Stepped(j, phase).(progress := progress), ThenFinish(j.op, {}, again)))
    else if pc.todo == [] then Moment(w, Judging(j, progress, again))
    else
      var p, rest := pc.todo[0], pc.todo[1..];
      if pc.Failing? then
        // the coordinate is read before the section that fails the plane is queued
        Moment(w, if MovedByMe(w.agent, j.op, p) then Failing(j, Put(progress, p, PlaneCommitted), rest, again)
                  else FailingPlane(j, progress, pc.todo, again))
      else
        var c := FailCall(TupleFor(j.op, p));
        if Durable(w.agent, c).Tripped? then Moment(w, Done)
        else Moment(After(w, c), Failing(j, Put(progress, p, PlaneFailed), rest, again))
  }

  /** Closing this operation's open journal as `activated`, though the ledger lacks an activation of some plane. */
  predicate ClosesOver(s: State, op: Op, how: Phase) {
    && OwnsJournal(s.journal, op) && !IsTerminal(s.journal.value.phase) && how == Activated
    && !(EndedHow(s, op.id, Http) == Some(EndActivated) && EndedHow(s, op.id, Stream) == Some(EndActivated))
  }

  /** The last step of an abort; the history notes a close that claims more than the ledger shows. */
  ghost function ActAbortClose(w: World, op: Op, e: Envelope, how: Phase): Moment {
    var c := CloseCall(op, how);
    if !Durable(w.agent, c).Saved? then Moment(w, Done)
    else if ClosesOver(w.agent, op, how) then
      Moment(Noted(After(w, c), ClosedOver(op.id, w.agent.journal.value.opening, Declared(e))), Done)
    else Moment(After(w, c), Done)
  }

  ghost function ActAbort(w: World, pc: Pc): Moment
    requires pc.Aborting? || pc.AbortReleasing? || pc.AbortFinishing? || pc.AbortJudging? || pc.AbortClosing?
  {
    var op, e := pc.op, pc.envelope;
    if pc.Aborting? then
      if pc.todo == [] then Moment(w, AbortReleasing(op, e))
      // a plane without a target is refused, and the abort goes on
      else if pc.todo[0] !in e.carried then Moment(w, Aborting(op, e, pc.todo[1..]))
      else
        var c := AbortCall(TupleFor(op, pc.todo[0]));
        if Durable(w.agent, c).Tripped? then Moment(w, Done) else Moment(After(w, c), Aborting(op, e, pc.todo[1..]))
    else if pc.AbortReleasing? then Must(w, ReleaseHolderCall(op), AbortFinishing(op, e))
    else if pc.AbortFinishing? then
      // giving back the slot of a plane without a target is refused as a whole
      if Declared(e) <= e.carried then Must(w, FinishCall(op, Declared(e)), AbortJudging(op, e)) else Moment(w, Done)
    else if pc.AbortJudging? then
      Moment(w, if w.agent.journal.None? then Done
                else AbortClosing(op, e, ReachedPhase(w.agent, w.agent.journal.value.op)))
    else ActAbortClose(w, op, e, pc.how)
  }

  ghost function Act(w: World, pc: Pc, answer: Answer): Moment {
    match pc
    case Done => Moment(w, Done)
    case Reserving(op) => Must(w, ReserveAllCall(op), Head(op))
    case Recovering => Moment(w, AtRecover(w.agent))
    case ReleasingIdle => Must(w, ReleaseIdleCall, Done)
    case ClosingStale(op) => Must(w, CloseCall(op, Superseded), ReleasingStale(op))
    case ReleasingStale(op) => Must(w, ReleaseStaleCall(op), Done)
    case Reclaiming(op) => Must(w, ReclaimCall(op), Head(op))
    case Head(bound) => Moment(w, AtHead(w.agent, bound, |w.log|))
    case Finishing(op, release, next) => Must(w, FinishCall(op, release), Resume(next))
    case Closing(turn, how) => Must(w, CloseCall(turn.j.op, how), Finishing(turn.j.op, {Http, Stream}, Stop))
    case Writing(entry, next) =>
      (match Durable(w.agent, WriteCall(entry))
       case Saved(_) => Moment(After(w, WriteCall(entry)), Resume(next))
       case Refusal(why) => Moment(w, if why == JournalConflict then Resume(next) else Done)
       case Tripped => Moment(w, Done))
    case Preflighting(turn) =>
      if answer == Late then Moment(w, TimedOut(w.agent, turn.bound))
      else if AssertOwnership(w.agent, turn.j.op).Lost? then Moment(w, Done)
      else if answer != Yes then Moment(w, FailingPc(turn))
      else Moment(Noted(w, PassedPreflight(turn.j.op)), Writing(Stepped(turn.j, PublishIntent), Again(turn.bound)))
    case LookingUp(turn) =>
      if answer == Late then Moment(w, TimedOut(w.agent, turn.bound))
      else if PublishedByMe(w.published, turn.j.op) then Moment(w, Writing(Stepped(turn.j, Published), Again(turn.bound)))
      else Moment(w, Intending(turn))
    case Intending(turn) => Must(w, IntentCall(RecordOf(turn.j.op)), Publishing(turn))
    case Publishing(turn) =>
      // it lands now, or (Late) at some later time, which Drift allows; No is a lease that refused
      if answer == No then Moment(w, Done)
      else if answer == Late then
        Moment(Noted(w, DidPublish(turn.j.op, turn.head)), TimedOut(w.agent, turn.bound))
      else
        Moment(Noted(w, DidPublish(turn.j.op, turn.head)).(published := OwnedBy(RecordOf(turn.j.op))),
               Writing(Stepped(turn.j, Published), Again(turn.bound)))
    case Staging(_, _, _, _) => ActStage(w, pc, answer)
    case Loading(_, _, _, _) => ActStage(w, pc, answer)
    case ReadingWorld(_) => ActReload(w, pc, answer)
    case Winning(_, _) => ActReload(w, pc, answer)
    case Signalling(_, _, _) => ActReload(w, pc, answer)
    case Awaiting(_) => ActReload(w, pc, answer)
    case Confirming(_) => ActCommit(w, pc, answer)
    case Proving(_, _) => ActCommit(w, pc, answer)
    case Committing(_, _, _, _, _) => ActCommit(w, pc, answer)
    case Failing(_, _, _, _) => ActFail(w, pc)
    case FailingPlane(_, _, _, _) => ActFail(w, pc)
    case Judging(_, _, _) => ActFail(w, pc)
    case _ => ActAbort(w, pc)
  }

  // ------------------------------------------------------------------ the whole system

  datatype System = System(w: World, actors: map<nat, Pc>)

  datatype Happening =
    | Start(who: nat, pc: Pc)
    | Turned(who: nat, answer: Answer)
    | Crash(who: nat)
    | FencedBy(token: nat)
    | HealthMoved(tuple: Tuple)
    | Drift(published: PublishedState)

  /** The calls the driver surface offers; nothing checks the envelope of an abort. */
  predicate IsEntry(pc: Pc) {
    pc.Reserving? || pc.Recovering? || (pc.Aborting? && pc.todo == pc.envelope.declared)
  }

  ghost function Happened(sys: System, h: Happening): System {
    match h
    case Start(who, pc) =>
      if who !in sys.actors && IsEntry(pc) then sys.(actors := sys.actors[who := pc]) else sys
    case Turned(who, answer) =>
      if who in sys.actors then
        var m := Act(sys.w, sys.actors[who], answer);
        System(m.w, sys.actors[who := m.pc])
      else sys
    case Crash(who) => if who in sys.actors then sys.(actors := sys.actors[who := Done]) else sys
    case FencedBy(token) => sys.(w := After(sys.w, FenceCall(token)))
    case HealthMoved(t) => sys.(w := After(sys.w, HealthCall(t)))
    case Drift(published) => sys.(w := sys.w.(published := published))
  }

  ghost function Initial(published: PublishedState): System {
    System(World(INITIAL, published, []), map[])
  }

  /** The state after a whole run: any actors, any interleaving, any answers. */
  ghost function RunOf(published: PublishedState, run: seq<Happening>): System
    decreases |run|
  {
    if run == [] then Initial(published)
    else Happened(RunOf(published, run[..|run| - 1]), run[|run| - 1])
  }
}
