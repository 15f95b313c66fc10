/**
 * The runner itself (`ApplyRunner` in src/dp/apply.ts): the calls `run` and `recover`, the
 * driver loop and one method per journal phase, working on one agent and one engine with nobody
 * else at the journal.
 *
 * Every method says which steps of the state machine (ApplyMachine.dfy) it takes, so the safety
 * theorems over all runs apply to it, and by how much it lowers the measure (ApplyProgress.dfy).
 */
module ApplyRunner {
  import opened Wrappers
  import opened Operation
  import opened Agent
  import opened AgentGuard
  import opened AgentStore
  import opened ApplyMachine
  import opened ApplyInvariant
  import opened ApplyEngine
  import opened ApplyAnswers
  import opened ApplyProgress
  import opened ApplyTidy
  import opened ApplyBooks

  /** What ends a call without a result. */
  datatype Fault = Rejects(why: Rejection) | BrokenInvariant | LeaseLost | TooManyTurns | BadEnvelope(fault: EnvelopeFault)

  /** How an iteration ends: go round again, out of budget, an exception, a result. */
  datatype Flow = Continue | Expired | Threw(fault: Fault) | Returned(seen: Option<Journal>)

  /** Where the state machine stands after that. */
  function PcAfter(flow: Flow, s: State, bound: Op): Pc {
    match flow
    case Continue => Head(bound)
    case Expired => TimedOut(s, bound)
    case Threw(fault) => if fault == TooManyTurns then Head(bound) else Done
    case Returned(_) => Done
  }

  function FaultOf(r: Save): Fault {
    if r.Refusal? then Rejects(r.why) else BrokenInvariant
  }

  /** Where it stands after publishing: at the write that says so, unless the call is over. */
  function PublishPc(flow: Flow, s: State, turn: Turn): Pc {
    if flow.Continue? then Writing(Stepped(turn.j, Published), Again(turn.bound)) else PcAfter(flow, s, turn.bound)
  }

  /** The journal is still of the operation it was of. */
  predicate SameOperation(s: State, n: State) {
    s.journal.Some? ==> n.journal.Some? && n.journal.value.op == s.journal.value.op
  }

  /** What a call reports: its own journal as it stands, or that there is none of its own. */
  function Report(s: State, bound: Op): Option<Journal> {
    if OwnsJournal(s.journal, bound) then s.journal else None
  }

  /**
   * The entry says of each plane whether the ledger has its activation, and as a whole that all,
   * none or some of them were activated: only some leaves the journal open.
   */
  predicate SaysHowFar(s: State, op: Op) {
    && s.journal.Some? && s.journal.value.op == op
    && var j, http, stream := s.journal.value, IsActivated(s.ended, EndKey(op.id, Http)), IsActivated(s.ended, EndKey(op.id, Stream));
    && (j.progress.http == PlaneCommitted <==> http) && (j.progress.stream == PlaneCommitted <==> stream)
    && (http && stream ==> j.phase == Activated)
    && (!http && !stream ==> j.phase == Failed)
    && (http != stream ==> j.phase == PartiallyActivated)
  }

  /** An entry that says the target was observed carries evidence that proves it. */
  predicate ObservedOnProof(s: State) {
    s.journal.Some? && s.journal.value.phase == ReloadObserved ==> ProvesActivation(s.journal.value.evidence, s.journal.value.op.generation)
  }

  /** The entry carries this evidence. */
  predicate Shows(s: State, e: Evidence) { s.journal.Some? && s.journal.value.evidence == Some(e) }

  /** The closing entry says how many planes stand where the operation put them, under its signature. */
  predicate SaysWhatStands(s: State, op: Op) {
    && s.journal.Some? && s.journal.value.op == op
    && var phase, http, stream := s.journal.value.phase, Stands(s, op, Http), Stands(s, op, Stream);
    && (http && stream ==> phase == Activated)
    && (!http && !stream ==> phase == Failed)
    && (http != stream ==> phase == PartialExhausted)
  }

  predicate Stands(s: State, op: Op, p: Plane) {
    s.planes.At(p).author == Some(op.id) && s.planes.At(p).at.epoch == op.targets.At(p).target.epoch
  }

  /** The entry moved on to `membership_staged`, with exactly these planes as staged and the others as failed. */
  predicate StagedAs(s: State, j: Journal, http: bool, stream: bool) {
    && s.journal.Some? && s.journal.value.op == j.op && s.journal.value.phase == MembershipStaged
    && s.journal.value.number == j.number + 1 && s.journal.value.attempts == j.attempts
    && (s.journal.value.progress.http == PlaneStaged <==> http) && (s.journal.value.progress.stream == PlaneStaged <==> stream)
  }

  /** The journal is closed and its operation does not hold the execution right. */
  predicate Closed(s: State, id: Identity) {
    s.journal.Some? && s.journal.value.op.id == id && IsTerminal(s.journal.value.phase) && !Holds(s, id)
  }

  // ------------------------------------------------------------------ single sections, seen by the runner

  lemma WriteSaves(s: State, entry: Journal)
    requires Durable(s, WriteCall(entry)).Saved?
    ensures Durable(s, WriteCall(entry)).state == s.(journal := Some(entry)) && Holds(s, entry.op.id)
  {
    hide GuardHolds;
  }

  lemma WriteNeverConflicts(s: State, entry: Journal)
    requires entry.number == JournalSeq(s) + 1
    ensures Durable(s, WriteCall(entry)) != Refusal(JournalConflict)
  {
    hide GuardHolds;
  }

  lemma FinishSaves(s: State, op: Op, release: set<Plane>)
    requires Durable(s, FinishCall(op, release)).Saved? && Tidy(s)
    ensures var n := Durable(s, FinishCall(op, release)).state;
      n.journal == s.journal && (s.journal.Some? && s.journal.value.op.id == op.id ==> !Holds(n, op.id)) && !Judges(n, op.id)
      && n.ended == s.ended && n.planes == s.planes
  {
    hide GuardHolds, FinishOperation;
    FinishLeaves(s, op, release);
  }

  lemma TupleSaves(s: State, c: Call)
    requires (c.StageCall? || c.CommitCall? || c.FailCall?) && Durable(s, c).Saved? && c.tuple.id.token <= s.maxToken
    ensures var n := Durable(s, c).state;
      n.journal == s.journal && n.holder == s.holder && n.maxToken == s.maxToken && (c.StageCall? ==> n.ended == s.ended)
  {
    hide GuardHolds, Mutate;
    TupleLeaves(s, c);
  }

  lemma SoundKept(s: State, c: Call)
    requires Sound(s) && Durable(s, c).Saved?
    ensures Sound(Durable(s, c).state)
  {
    hide Mutate, GuardHolds, Sound, Unfenced;
    GuardFiresExactly(s, c);
  }

  lemma BookedKept(s: State, c: Call)
    requires Neat(s) && Booked(s) && Durable(s, c).Saved?
    ensures Booked(Durable(s, c).state)
  {
    hide Mutate, GuardHolds, Booked, NeatSlots;
    BookedSection(s, c);
  }

  /** The sections that only let go speak for no leader, so they are always saved. */
  lemma LettingGoSaves(s: State, c: Call)
    requires Sound(s) && (c.FinishCall? || c.CloseCall? || c.ReleaseStaleCall? || c.ReleaseIdleCall?)
    ensures Durable(s, c).Saved?
  {
    hide GuardHolds, Sound, FinishOperation, CloseJournal, ReleaseStaleSlots, ReleaseIdleHolder;
    GuardFiresExactly(s, c);
  }

  class Runner {
    const agent: DpAgent
    const effects: Engine
    /** how often activation is read after a signal; the source's default is 25 */
    const polls: nat
    /** the distinct consecutive phases this runner wrote */
    var phases: seq<Phase>
    ghost var log: seq<Event>

    ghost predicate Valid()
      reads this, agent
    {
      agent.Valid() && agent.contenders == 0 && Sound(agent.state) && Tidy(agent.state) && Neat(agent.state) && Booked(agent.state)
    }

    ghost function W(): World
      reads this, agent, effects
    {
      World(agent.state, effects.published, log)
    }

    /** The state machine at this place, with all the engine has said. */
    ghost function Here(pc: Pc): Scene
      reads this, agent, effects
    {
      Scene(W(), pc, effects.heard)
    }

    /** The measure of the journal as it stands, 0 without one. */
    ghost function Left(): nat
      reads this, agent, effects
    {
      if agent.state.journal.Some?
      then Measure(agent.state.journal.value, effects.published, effects.foreign, effects.last, effects.flips)
      else 0
    }

    /** A runner starts on whatever store it finds; `history` is what happened before. */
    constructor (agent: DpAgent, effects: Engine, polls: nat, ghost history: seq<Event>)
      requires agent.Valid() && agent.contenders == 0 && Sound(agent.state) && Tidy(agent.state) && Neat(agent.state) && Booked(agent.state)
      ensures Valid() && this.agent == agent && this.effects == effects && this.polls == polls
      ensures log == history && phases == []
    {
      this.agent, this.effects, this.polls := agent, effects, polls;
      phases, log := [], history;
    }

    /** One serial section of the agent. */
    method Section(c: Call) returns (r: Save)
      requires Valid() && OwnSection(agent.state, c)
      modifies this`log, agent
      ensures Valid() && r == Durable(old(agent.state), c) && W() == After(old(W()), c)
    {
      hide Durable, Marks, Sound, Tidy, Neat, Booked, OwnSection;
      ghost var before := agent.state;
      var done := agent.Serial(c);
      r := done.save;
      if r.Saved? {
        log := log + Marks(before, c);
        TidyKept(before, c);
        NeatKept(before, c);
        SoundKept(before, c);
        BookedKept(before, c);
      }
    }

    /** `write`: the journal entry through its own serial section, a lost race is no error. */
    method Write(entry: Journal, ghost next: Next) returns (fault: Option<Fault>)
      requires Valid() && agent.state.journal.Some? && entry.op == agent.state.journal.value.op
      requires entry.number == agent.state.journal.value.number + 1
      modifies this, agent
      ensures Valid()
      ensures Reaches(polls, Scene(old(W()), Writing(entry, next), old(effects.heard)), Here(if fault.None? then Resume(next) else Done))
      ensures fault != Some(TooManyTurns)
      ensures fault.None? ==> agent.state == old(agent.state).(journal := Some(entry)) && Holds(agent.state, entry.op.id)
      ensures fault.Some? ==> agent.state == old(agent.state)
      ensures log == old(log)
    {
      hide Durable, Sound, Tidy, Neat, Booked, Reaches, Listens, AnswerTo, GuardHolds;
      ghost var a := Here(Writing(entry, next));
      var r := Section(WriteCall(entry));
      WriteNeverConflicts(a.w.agent, entry);
      Starts(polls, a);
      Moves(polls, a, a);
      if r.Saved? {
        WriteSaves(a.w.agent, entry);
        if phases == [] || phases[|phases| - 1] != entry.phase { phases := phases + [entry.phase]; }
        fault := None;
      } else {
        fault := if r.Refusal? && r.why == JournalConflict then None else Some(FaultOf(r));
      }
    }

    /** `finishOperation`: judge the candidate, give slots and the execution right back. */
    method Finish(op: Op, release: set<Plane>, ghost next: Next) returns (fault: Option<Fault>)
      requires Valid()
      modifies this`log, agent
      ensures Valid() && log == old(log)
      ensures Reaches(polls, Scene(old(W()), Finishing(op, release, next), old(effects.heard)), Here(if fault.None? then Resume(next) else Done))
      ensures fault != Some(TooManyTurns) && agent.state.journal == old(agent.state).journal
      ensures fault.None? <==> Durable(old(agent.state), FinishCall(op, release)).Saved?
      ensures fault.None? ==> Durable(old(agent.state), FinishCall(op, release)) == Saved(agent.state)
      ensures fault.None? && OwnsJournal(agent.state.journal, op) ==> !Holds(agent.state, op.id)
      ensures agent.state.ended == old(agent.state).ended && agent.state.planes == old(agent.state).planes
      ensures fault.None? && FreesStuck(old(agent.state), op, release) ==> !LeavesWork(agent.state)
    {
      hide Durable, Sound, Tidy, Neat, Booked, Reaches, Listens, AnswerTo, GuardHolds;
      ghost var a := Here(Finishing(op, release, next));
      var r := Section(FinishCall(op, release));
      Starts(polls, a);
      Moves(polls, a, a);
      if r.Saved? {
        FinishSaves(a.w.agent, op, release);
        if FreesStuck(a.w.agent, op, release) { FinishRests(a.w.agent, op, release); }
        fault := None;
      } else {
        fault := Some(FaultOf(r));
      }
    }

    /** One plane that did not move is failed, whatever the section answers. */
    method FailPlane(j: Journal, p: Plane, progress: PerPlane<Progress>, ghost rest: seq<Plane>, ghost again: Option<Op>)
      returns (tripped: bool)
      requires Valid() && agent.state.journal == Some(j) && Live(agent.state, j.op) && !MovedByMe(agent.state, j.op, p)
      modifies this`log, agent
      ensures Valid() && log == old(log) && agent.state.journal == Some(j)
      ensures Reaches(polls, Scene(old(W()), Failing(j, progress, [p] + rest, again), old(effects.heard)),
                      Here(if tripped then Done else Failing(j, Put(progress, p, PlaneFailed), rest, again)))
      ensures !tripped ==> Live(agent.state, j.op) && !OwnsSlot(agent.state, TupleFor(j.op, p))
      ensures forall t: Tuple :: OwnsSlot(agent.state, t) ==> OwnsSlot(old(agent.state), t)
      ensures agent.state.planes == old(agent.state).planes
    {
      hide Durable, Sound, Tidy, Neat, Booked, Reaches, Listens, AnswerTo, GuardHolds, MovedByMe, ActStage, ActReload,
           ActCommit, ActAbort, AtHead, AtRecover, Must;
      ghost var a := Here(Failing(j, progress, [p] + rest, again));
      ghost var b := Here(FailingPlane(j, progress, [p] + rest, again));
      assert ([p] + rest)[1..] == rest;
      Starts(polls, a);
      Moves(polls, a, a);
      TidyToken(agent.state, j);
      Moves(polls, a, b);
      var r := Section(FailCall(TupleFor(j.op, p)));
      tripped := r.Tripped?;
      FailKeepsPlanes(b.w.agent, TupleFor(j.op, p));
      if !tripped { FailLeaves(b.w.agent, j, p); }
    }

    /** The planes of `failAll`: what the operation moved stays committed, the rest is failed. */
    method FailPlanes(j: Journal, ghost again: Option<Op>) returns (tripped: bool, progress: PerPlane<Progress>)
      requires Valid() && agent.state.journal == Some(j) && Live(agent.state, j.op)
      modifies this`log, agent
      ensures Valid() && log == old(log) && agent.state.journal == Some(j)
      ensures Reaches(polls, Scene(old(W()), Failing(j, j.progress, PLANES, again), old(effects.heard)),
                      Here(if tripped then Done else Judging(j, progress, again)))
      ensures !tripped ==> forall p: Plane :: progress.At(p) == PlaneCommitted || !OwnsSlot(agent.state, TupleFor(j.op, p))
      ensures agent.state.planes == old(agent.state).planes
      ensures !tripped ==> forall p: Plane :: progress.At(p) == PlaneCommitted <==> Stands(agent.state, j.op, p)
    {
      hide Durable, Sound, Tidy, Neat, Booked, Reaches, Listens, AnswerTo, GuardHolds, MovedByMe, ActStage, ActReload,
           ActCommit, ActAbort, AtHead, AtRecover, Must, Live;
      ghost var a := Here(Failing(j, j.progress, PLANES, again));
      var i := 0;
      tripped, progress := false, j.progress;
      Starts(polls, a);
      while i < |PLANES|
        invariant Valid() && log == old(log) && 0 <= i <= |PLANES|
        invariant agent.state.journal == Some(j) && Live(agent.state, j.op)
        invariant Reaches(polls, a, Here(Failing(j, progress, PLANES[i..], again)))
        invariant i > 0 ==> progress.At(Http) == PlaneCommitted || !OwnsSlot(agent.state, TupleFor(j.op, Http))
        invariant i > 1 ==> progress.At(Stream) == PlaneCommitted || !OwnsSlot(agent.state, TupleFor(j.op, Stream))
        invariant agent.state.planes == old(agent.state).planes
        invariant i > 0 ==> (progress.http == PlaneCommitted <==> Stands(agent.state, j.op, Http))
        invariant i > 1 ==> (progress.stream == PlaneCommitted <==> Stands(agent.state, j.op, Stream))
      {
        ghost var b := Here(Failing(j, progress, PLANES[i..], again));
        var p := PLANES[i];
        MovedStands(agent.state, j.op, p);
        assert PLANES[i..] == [p] + PLANES[i + 1..] && PLANES[i..][1..] == PLANES[i + 1..];
        if MovedByMe(agent.state, j.op, p) {
          Moves(polls, a, b);
          progress := Put(progress, p, PlaneCommitted);
        } else {
          tripped := FailPlane(j, p, progress, PLANES[i + 1..], again);
          Chains(polls, a, b, Here(if tripped then Done else Failing(j, Put(progress, p, PlaneFailed), PLANES[i + 1..], again)));
          if tripped { return; }
          progress := Put(progress, p, PlaneFailed);
        }
        i := i + 1;
      }
      assert PLANES[i..] == [];
      Moves(polls, a, Here(Failing(j, progress, [], again)));
    }

    /** `failAll`: close every plane the operation did not move, write the verdict, give the right back. */
    method FailAll(j: Journal, ghost again: Option<Op>) returns (fault: Option<Fault>)
      requires Valid() && agent.state.journal == Some(j) && Live(agent.state, j.op)
      modifies this, agent
      ensures Valid() && log == old(log) && fault != Some(TooManyTurns)
      ensures Reaches(polls, Scene(old(W()), Failing(j, j.progress, PLANES, again), old(effects.heard)),
                      Here(if fault.None? && again.Some? then Head(again.value) else Done))
      ensures SameOperation(old(agent.state), agent.state)
      ensures fault.None? ==> Closed(agent.state, j.op.id) && agent.state.journal.value.attempts == j.attempts && !LeavesWork(agent.state)
      // each plane is reported as it stands, and the entry as a whole too
      ensures fault.None? ==> SaysWhatStands(agent.state, j.op)
      ensures fault.None? ==> forall p: Plane :: agent.state.journal.value.progress.At(p) == PlaneCommitted <==> Stands(agent.state, j.op, p)
    {
      hide Durable, Sound, Tidy, Neat, Booked, Reaches, Listens, AnswerTo, GuardHolds, ReachedPhase, ActStage,
           ActReload, ActCommit, ActAbort, AtHead, AtRecover, Must;
      ghost var a := Here(Failing(j, j.progress, PLANES, again));
      ghost var rest := ThenFinish(j.op, {}, again);
      var tripped, progress := FailPlanes(j, again);
      if tripped { return Some(BrokenInvariant); }
      Moves(polls, a, Here(Judging(j, progress, again)));
      var entry := Stepped(j, ReachedPhase(agent.state, j.op)).(progress := progress);
      ReachedIsTerminal(agent.state, j.op);
      ReachedStands(agent.state, j.op);
      ghost var d := Here(Writing(entry, rest));
      fault := Write(entry, rest);
      Chains(polls, a, d, Here(if fault.None? then Resume(rest) else Done));
      if fault.None? {
        ghost var e := Here(Resume(rest));
        fault := Finish(j.op, {}, if again.Some? then Again(again.value) else Stop);
        Chains(polls, a, e, Here(if fault.None? && again.Some? then Head(again.value) else Done));
      }
    }

    // ---------------------------------------------------------------- shared ends of an iteration

    /** Write the next entry and go round again. */
    method Move(bound: Op, entry: Journal) returns (flow: Flow)
      requires Valid() && agent.state.journal.Some? && entry.op == agent.state.journal.value.op
      requires entry.number == agent.state.journal.value.number + 1
      modifies this, agent
      ensures Valid() && log == old(log) && (flow.Continue? || flow.Threw?) && flow != Threw(TooManyTurns)
      ensures Reaches(polls, Scene(old(W()), Writing(entry, Again(bound)), old(effects.heard)), Here(PcAfter(flow, agent.state, bound)))
      ensures SameOperation(old(agent.state), agent.state)
      ensures flow.Continue? ==> agent.state.journal == Some(entry) && AtRest(agent.state)
      ensures agent.state.ended == old(agent.state).ended && agent.state.planes == old(agent.state).planes
    {
      hide Sound, Tidy, Neat, Booked, Reaches;
      var fault := Write(entry, Again(bound));
      flow := if fault.None? then Continue else Threw(fault.value);
    }

    /** `failAll` inside an iteration. */
    method FailTurn(bound: Op, j: Journal) returns (flow: Flow)
      requires Valid() && agent.state.journal == Some(j) && !IsTerminal(j.phase) && Live(agent.state, j.op)
      modifies this, agent
      ensures Valid() && log == old(log) && (flow.Continue? || flow.Threw?) && flow != Threw(TooManyTurns)
      ensures flow.Continue? ==> AtRest(agent.state) && Closed(agent.state, j.op.id)
      ensures forall head: nat :: Reaches(polls, Scene(old(W()), FailingPc(Turn(bound, j, head)), old(effects.heard)), Here(PcAfter(flow, agent.state, bound)))
      ensures SameOperation(old(agent.state), agent.state)
      ensures flow.Continue? ==> Left() < old(Left())
    {
      hide Sound, Tidy, Neat, Booked, Reaches, Listens, AnswerTo, Measure;
      var fault := FailAll(j, Some(bound));
      flow := if fault.None? then Continue else Threw(fault.value);
      if flow.Continue? {
        ClosingLowers(j, agent.state.journal.value, effects.published, effects.published,
                      effects.foreign, effects.foreign, effects.last, effects.last, effects.flips, effects.flips);
      }
    }

    /** `awaitActivation`: read until the target is proven or the polls run out. */
    method AwaitActivation(generation: Name) returns (seen: Option<Evidence>, ghost said: seq<Reply>)
      requires Valid()
      modifies effects`last, effects`flips, effects`heard
      ensures effects.flips <= old(effects.flips)
      ensures polls > 0 ==> (ProvesActivation(seen, generation) <==> Proves(effects.last, generation))
      ensures polls == 0 ==> seen == None && effects.last == old(effects.last) && effects.flips == old(effects.flips)
      ensures ProvesActivation(seen, generation) ==> Proves(effects.last, generation)
      ensures Proves(old(effects.last), generation) && !Proves(effects.last, generation) ==> effects.flips < old(effects.flips)
      // exactly what the engine said, no more and no fewer readings
      ensures effects.heard == old(effects.heard) + said && seen == LastSeen(said)
      ensures Polled(said, polls, generation) && forall r | r in said :: r.question == AskServed
    {
      hide Sound, Tidy, Neat, Booked, ProvesActivation;
      var i := 0;
      seen, said := None, [];
      NothingProves(generation);
      while i < polls
        invariant 0 <= i <= polls && effects.flips <= old(effects.flips)
        invariant i > 0 ==> !Proves(effects.last, generation) && !ProvesActivation(seen, generation)
        invariant i > 0 && Proves(old(effects.last), generation) ==> effects.flips < old(effects.flips)
        invariant i == 0 ==> effects.last == old(effects.last) && effects.flips == old(effects.flips)
        invariant effects.heard == old(effects.heard) + said && seen == LastSeen(said) && |said| == i
        invariant forall k :: 0 <= k < i ==> said[k].question == AskServed && !ProvesActivation(SeenIn(said[k]), generation)
      {
        var reading := effects.ObserveActivation(generation);
        said := said + [Reply(AskServed, Saw(reading))];
        seen := if reading.Read? then reading.evidence else None;
        if ProvesActivation(seen, generation) { return; }
        i := i + 1;
      }
    }

    // ---------------------------------------------------------------- one method per phase

    /** `preflight`: check before anything is published. */
    method OnPreflight(bound: Op, j: Journal, ghost head: nat) returns (flow: Flow)
      requires j.phase == Preflight
      requires Valid() && agent.state.journal == Some(j) && !IsTerminal(j.phase) && Live(agent.state, j.op)
      modifies this, agent, effects
      ensures Valid() && !flow.Returned? && flow != Threw(TooManyTurns)
      ensures (flow.Continue? ==> AtRest(agent.state)) && (flow.Expired? ==> Live(agent.state, j.op))
      ensures Reaches(polls, Scene(old(W()), Preflighting(Turn(bound, j, head)), old(effects.heard)), Here(PcAfter(flow, agent.state, bound)))
      ensures SameOperation(old(agent.state), agent.state)
      ensures effects.foreign <= old(effects.foreign) && effects.flips <= old(effects.flips)
      ensures flow.Continue? ==> Left() < old(Left())
      // the engine is asked once; only its yes lets the operation on, a refusal closes it
      ensures |effects.heard| == |old(effects.heard)| + 1 && effects.heard[|old(effects.heard)|].question == AskPreflight(j.op)
      ensures var answer := effects.heard[|old(effects.heard)|].answer;
        && (answer != Yes ==> log == old(log))
        && (flow.Continue? ==> answer != Late && if answer == Yes then agent.state.journal == Some(Stepped(j, PublishIntent)) else Closed(agent.state, j.op.id))
    {
      hide Durable, Sound, Tidy, Neat, Booked, Reaches, Listens, AnswerTo, GuardHolds, Measure, ProvesActivation,
           PublishedByMe, ActStage, ActReload, ActCommit, ActAbort, ActFail, AtHead, AtRecover, Must;
      hide AssertOwnership;
      ghost var turn := Turn(bound, j, head);
      ghost var a := Here(Preflighting(turn));
      Starts(polls, a);
      var answer := effects.Ask(AskPreflight(j.op));
      Drifts(polls, a, a, effects.published);
      ghost var b := Scene(W(), Preflighting(turn), a.heard);
      Hears(polls, a, b, AskPreflight(j.op), answer);
      WaitingIsCounted(j, old(effects.published), effects.published, old(effects.foreign), effects.foreign,
                       effects.last, effects.last, effects.flips, effects.flips);
      if answer == Late { return Expired; }
      if AssertOwnership(agent.state, j.op).Lost? { return Threw(Rejects(AssertOwnership(agent.state, j.op).why)); }
      if answer != Yes {
        ghost var c := Here(FailingPc(turn));
        flow := FailTurn(bound, j);
        Chains(polls, a, c, Here(PcAfter(flow, agent.state, bound)));
        return;
      }
      log := log + [PassedPreflight(j.op)];
      var entry := Stepped(j, PublishIntent);
      ghost var d := Here(Writing(entry, Again(bound)));
      flow := Move(bound, entry);
      Chains(polls, a, d, Here(PcAfter(flow, agent.state, bound)));
      if flow.Continue? {
        ForwardLowers(j, entry, old(effects.published), effects.published, old(effects.foreign), effects.foreign,
                      effects.last, effects.last, effects.flips, effects.flips);
      }
    }

    /** Record the intent, then publish under the lease. */
    method PublishNow(bound: Op, j: Journal, ghost head: nat) returns (flow: Flow)
      requires Valid() && agent.state.journal == Some(j) && Live(agent.state, j.op)
      modifies this`log, agent, effects`published, effects`heard
      ensures Valid() && !flow.Returned? && flow != Threw(TooManyTurns) && Live(agent.state, j.op)
      ensures Reaches(polls, Scene(old(W()), Intending(Turn(bound, j, head)), old(effects.heard)), Here(PublishPc(flow, agent.state, Turn(bound, j, head))))
      ensures agent.state.journal == Some(j)
      ensures flow.Continue? ==> effects.published == OwnedBy(RecordOf(j.op))
      // the intent is on record before the engine is asked to publish
      ensures effects.heard != old(effects.heard) ==> agent.state.intent == Some(Record(j.op.generation, j.op.id, j.op.digest))
    {
      hide Durable, Sound, Tidy, Neat, Booked, Reaches, Listens, AnswerTo, GuardHolds, ActStage, ActReload, ActCommit,
           ActAbort, ActFail, AtHead, AtRecover, TimedOut;
      ghost var turn := Turn(bound, j, head);
      ghost var a := Here(Intending(turn));
      Starts(polls, a);
      var r := Section(IntentCall(RecordOf(j.op)));
      Moves(polls, a, a);
      if !r.Saved? { return Threw(FaultOf(r)); }
      IntentLeaves(a.w.agent, RecordOf(j.op));
      ghost var c := Here(Publishing(turn));
      var landed := effects.Publish(RecordOf(j.op));
      Hears(polls, a, c, AskPublish(RecordOf(j.op)), landed);
      if landed == No { return Threw(LeaseLost); }
      log := log + [DidPublish(j.op, head)];
      flow := if landed == Late then Expired else Continue;
    }

    /** `publish_intent`: look before publishing, record the intent, publish under the lease. */
    method OnPublishIntent(bound: Op, j: Journal, ghost head: nat) returns (flow: Flow)
      requires j.phase == PublishIntent
      requires Valid() && agent.state.journal == Some(j) && !IsTerminal(j.phase) && Live(agent.state, j.op)
      modifies this, agent, effects
      ensures Valid() && !flow.Returned? && flow != Threw(TooManyTurns)
      ensures (flow.Continue? ==> AtRest(agent.state)) && (flow.Expired? ==> Live(agent.state, j.op))
      ensures Reaches(polls, Scene(old(W()), LookingUp(Turn(bound, j, head)), old(effects.heard)), Here(PcAfter(flow, agent.state, bound)))
      ensures SameOperation(old(agent.state), agent.state)
      ensures effects.foreign <= old(effects.foreign) && effects.flips <= old(effects.flips)
      ensures flow.Continue? ==> Left() < old(Left())
    {
      hide Durable, Sound, Tidy, Neat, Booked, Reaches, Listens, AnswerTo, GuardHolds, Measure, ProvesActivation,
           PublishedByMe, Act, TimedOut, OwnsJournal;
      ghost var turn := Turn(bound, j, head);
      ghost var a := Here(LookingUp(turn));
      Starts(polls, a);
      var answer := effects.Ask(AskPublished);
      Drifts(polls, a, a, effects.published);
      ghost var b := Scene(W(), LookingUp(turn), a.heard);
      Hears(polls, a, b, AskPublished, answer);
      LookingStep(b.w, turn, answer);
      b := b.(heard := effects.heard);
      WaitingIsCounted(j, old(effects.published), effects.published, old(effects.foreign), effects.foreign,
                       effects.last, effects.last, effects.flips, effects.flips);
      if answer == Late { return Expired; }
      if !PublishedByMe(effects.published, j.op) {
        flow := PublishNow(bound, j, head);
        Chains(polls, a, Scene(b.w, Intending(turn), b.heard), Here(PublishPc(flow, agent.state, turn)));
        if !flow.Continue? { return; }
        PublishedIsMine(j.op);
      }
      var entry := Stepped(j, Published);
      ghost var d := Here(Writing(entry, Again(bound)));
      flow := Move(bound, entry);
      Chains(polls, a, d, Here(PcAfter(flow, agent.state, bound)));
      if flow.Continue? {
        ForwardLowers(j, entry, old(effects.published), effects.published, old(effects.foreign), effects.foreign,
                      effects.last, effects.last, effects.flips, effects.flips);
      }
    }

    /** The write that counts an attempt: only who wins it may signal. */
    method WinAttempt(bound: Op, j: Journal, ghost head: nat, seen: Reading) returns (wins: bool, flow: Flow, counted: Journal, ghost won: nat)
      requires Valid() && agent.state.journal == Some(j) && Live(agent.state, j.op)
      modifies this, agent
      ensures Valid() && (flow.Continue? || flow.Threw?) && flow != Threw(TooManyTurns)
      ensures SameOperation(old(agent.state), agent.state)
      ensures counted == Stepped(j, j.phase).(attempts := j.attempts + 1)
      ensures (wins <==> flow.Continue?) && (wins ==> agent.state.journal == Some(counted) && Live(agent.state, j.op))
      ensures Reaches(polls, Scene(old(W()), Winning(Turn(bound, j, head), seen), old(effects.heard)),
                      Here(if wins then Signalling(Turn(bound, j, head), won, seen) else PcAfter(flow, agent.state, bound)))
    {
      hide Durable, Sound, Tidy, Neat, Booked, Reaches, Listens, AnswerTo, GuardHolds, Act, OwnsJournal;
      ghost var turn := Turn(bound, j, head);
      ghost var a := Here(Winning(turn, seen));
      Starts(polls, a);
      counted := Stepped(j, j.phase).(attempts := j.attempts + 1);
      var r := Section(WriteCall(counted));
      Moves(polls, a, a);
      WinningStep(a.w, turn, seen);
      WriteNeverConflicts(a.w.agent, counted);
      won, wins := |log|, r.Saved?;
      if wins {
        WriteSaves(a.w.agent, counted);
        log := log + [WonAttempt(j.opening, j.attempts + 1)];
        flow := Continue;
      } else {
        // losing the write means going round again, which cannot happen to a runner alone
        flow := if r.Refusal? && r.why == JournalConflict then Continue else Threw(FaultOf(r));
      }
    }

    /** The signal: the write that counts it must be won first; then HUP, then wait for the engine. */
    method Signal(bound: Op, j: Journal, ghost head: nat, seen: Reading) returns (flow: Flow)
      requires j.phase == ReloadIntent && j.attempts < RELOAD_ATTEMPT_LIMIT
      requires Valid() && agent.state.journal == Some(j) && !IsTerminal(j.phase) && Live(agent.state, j.op)
      modifies this, agent, effects
      ensures Valid() && !flow.Returned? && flow != Threw(TooManyTurns)
      ensures (flow.Continue? ==> AtRest(agent.state)) && (flow.Expired? ==> Live(agent.state, j.op))
      ensures Reaches(polls, Scene(old(W()), Winning(Turn(bound, j, head), seen), old(effects.heard)), Here(PcAfter(flow, agent.state, bound)))
      ensures SameOperation(old(agent.state), agent.state)
      ensures effects.foreign <= old(effects.foreign) && effects.flips <= old(effects.flips)
      ensures flow.Continue? ==> Left() < old(Left())
      ensures flow.Continue? ==> ObservedOnProof(agent.state)
    {
      hide Durable, Sound, Tidy, Neat, Booked, Reaches, Listens, AnswerTo, GuardHolds, Measure, ProvesActivation,
           PublishedByMe, ActAbort, ActFail, AtHead, AtRecover, Must, TimedOut, OwnsJournal;
      hide Act;
      ghost var a := Here(Winning(Turn(bound, j, head), seen));
      var wins, lost, counted, won := WinAttempt(bound, j, head, seen);
      if !wins { return lost; }
      ghost var b := Here(Signalling(Turn(bound, j, head), won, seen));
      PushLowers(j, counted, effects.published, effects.published, effects.foreign, effects.foreign,
                 effects.last, effects.last, effects.flips, effects.flips);
      flow := SendSignal(bound, j, head, won, seen, counted);
      Chains(polls, a, b, Here(PcAfter(flow, agent.state, bound)));
    }

    /** HUP, then wait for the engine and note what it shows. */
    method SendSignal(bound: Op, j: Journal, ghost head: nat, ghost won: nat, seen: Reading, counted: Journal) returns (flow: Flow)
      requires Valid() && agent.state.journal == Some(counted) && counted.op == j.op && counted.phase == ReloadIntent
      requires Live(agent.state, j.op)
      modifies this, agent, effects
      ensures Valid() && !flow.Returned? && flow != Threw(TooManyTurns)
      ensures (flow.Continue? ==> AtRest(agent.state)) && (flow.Expired? ==> Live(agent.state, j.op))
      ensures Reaches(polls, Scene(old(W()), Signalling(Turn(bound, j, head), won, seen), old(effects.heard)), Here(PcAfter(flow, agent.state, bound)))
      ensures SameOperation(old(agent.state), agent.state)
      ensures effects.foreign <= old(effects.foreign) && effects.flips <= old(effects.flips)
      ensures flow.Continue? ==> Left() <= old(Left())
      ensures flow.Continue? ==> ObservedOnProof(agent.state)
    {
      hide Durable, Sound, Tidy, Neat, Booked, Reaches, Listens, AnswerTo, GuardHolds, Measure, ProvesActivation,
           PublishedByMe, ActAbort, ActFail, AtHead, AtRecover, Must, TimedOut, OwnsJournal;
      hide Act, AfterAwait;
      ghost var turn := Turn(bound, j, head);
      ghost var a := Here(Signalling(turn, won, seen));
      Starts(polls, a);
      var sent := effects.Ask(AskSignal);
      Drifts(polls, a, a, effects.published);
      Hears(polls, a, Scene(W(), Signalling(turn, won, seen), a.heard), AskSignal, sent);
      SignallingStep(W(), turn, won, seen, sent);
      if sent == No { return Threw(LeaseLost); }
      log := log + [DidSignal(j.op, j.opening, won, seen, head)];
      if sent == Late { return Expired; }
      ghost var c := Here(Awaiting(turn));
      var after, said := AwaitActivation(j.op.generation);
      HearsAll(polls, a, c, said);
      c := c.(heard := effects.heard);
      AwaitingStep(c.w, turn, after);
      WaitingIsCounted(counted, old(effects.published), effects.published, old(effects.foreign), effects.foreign,
                       old(effects.last), effects.last, old(effects.flips), effects.flips);
      flow := NoteEvidence(bound, counted, head, j, after);
      Chains(polls, a, Scene(c.w, AfterAwait(c.w.agent, turn, after), c.heard), Here(PcAfter(flow, agent.state, bound)));
    }

    /** After the signal: what was seen goes into the operation's own journal. */
    method NoteEvidence(bound: Op, now: Journal, ghost head: nat, ghost j: Journal, seen: Option<Evidence>) returns (flow: Flow)
      requires Valid() && agent.state.journal == Some(now) && now.op == j.op && now.phase == ReloadIntent
      requires ProvesActivation(seen, now.op.generation) ==> Proves(effects.last, now.op.generation)
      modifies this, agent
      ensures Valid() && (flow.Continue? || flow.Threw?) && flow != Threw(TooManyTurns)
      ensures Reaches(polls, Scene(old(W()), AfterAwait(old(W()).agent, Turn(bound, j, head), seen), old(effects.heard)), Here(PcAfter(flow, agent.state, bound)))
      ensures SameOperation(old(agent.state), agent.state)
      ensures flow.Continue? ==> Left() <= old(Left()) && AtRest(agent.state)
      // what was seen is noted, and the phase moves on exactly if it proves the target
      ensures flow.Continue? && seen.Some? ==> Shows(agent.state, seen.value)
      ensures flow.Continue? ==> agent.state.journal.value.phase == if ProvesActivation(seen, now.op.generation) then ReloadObserved else ReloadIntent
      ensures flow.Continue? ==> ObservedOnProof(agent.state)
    {
      hide Durable, Sound, Tidy, Neat, Booked, Reaches, Listens, AnswerTo, GuardHolds, ProvesActivation, PublishedByMe;
      ghost var a := Here(AfterAwait(W().agent, Turn(bound, j, head), seen));
      Starts(polls, a);
      NothingProves(now.op.generation);
      if seen.None? { return Continue; }
      var entry := Stepped(now, if ProvesActivation(seen, now.op.generation) then ReloadObserved else now.phase).(evidence := seen);
      flow := Move(bound, entry);
    }

    /** `reload_intent`: read first, count the attempt durably, and only then signal. */
    method OnReloadIntent(bound: Op, j: Journal, ghost head: nat) returns (flow: Flow)
      requires j.phase == ReloadIntent
      requires Valid() && agent.state.journal == Some(j) && !IsTerminal(j.phase) && Live(agent.state, j.op)
      modifies this, agent, effects
      ensures Valid() && !flow.Returned? && flow != Threw(TooManyTurns)
      ensures (flow.Continue? ==> AtRest(agent.state)) && (flow.Expired? ==> Live(agent.state, j.op))
      ensures Reaches(polls, Scene(old(W()), ReadingWorld(Turn(bound, j, head)), old(effects.heard)), Here(PcAfter(flow, agent.state, bound)))
      ensures SameOperation(old(agent.state), agent.state)
      ensures effects.foreign <= old(effects.foreign) && effects.flips <= old(effects.flips)
      ensures flow.Continue? ==> Left() < old(Left())
      ensures flow.Continue? ==> ObservedOnProof(agent.state)
    {
      hide Durable, Sound, Tidy, Neat, Booked, Reaches, Listens, AnswerTo, GuardHolds, Measure, ProvesActivation,
           PublishedByMe, ActAbort, ActFail, AtHead, AtRecover, Must, TimedOut, OwnsJournal;
      hide ActStage, ActCommit;
      ghost var turn := Turn(bound, j, head);
      ghost var a := Here(ReadingWorld(turn));
      Starts(polls, a);
      var reading := effects.ObserveActivation(j.op.generation);
      Hears(polls, a, a, AskServed, Saw(reading));
      ghost var r := a.(heard := effects.heard);
      WaitingIsCounted(j, effects.published, effects.published, effects.foreign, effects.foreign,
                       old(effects.last), effects.last, old(effects.flips), effects.flips);
      if reading.Read? && ProvesActivation(reading.evidence, j.op.generation) {
        var entry := Stepped(j, ReloadObserved).(evidence := reading.evidence);
        flow := Move(bound, entry);
        Chains(polls, a, Scene(r.w, Writing(entry, Again(bound)), r.heard), Here(PcAfter(flow, agent.state, bound)));
        if flow.Continue? {
          ForwardLowers(j, entry, effects.published, effects.published, effects.foreign, effects.foreign,
                        old(effects.last), effects.last, old(effects.flips), effects.flips);
        }
        return;
      }
      if j.attempts >= RELOAD_ATTEMPT_LIMIT || (reading.Blind? && j.attempts > 0) {
        flow := FailTurn(bound, j);
        Chains(polls, a, Scene(r.w, FailingPc(turn), r.heard), Here(PcAfter(flow, agent.state, bound)));
        return;
      }
      flow := Signal(bound, j, head, reading);
      Chains(polls, a, Scene(r.w, Winning(turn, reading), r.heard), Here(PcAfter(flow, agent.state, bound)));
    }

    /** Reserve the plane's slot and load its membership; a refusal fails the plane only. */
    method StageOne(bound: Op, j: Journal, ghost head: nat, progress: PerPlane<Progress>, todo: seq<Plane>, advanced: nat)
      returns (flow: Flow, progress': PerPlane<Progress>, advanced': nat)
      requires Valid() && agent.state.journal == Some(j) && todo != [] && Live(agent.state, j.op)
      modifies this`log, agent, effects`published, effects`foreign, effects`heard
      ensures Valid() && agent.state.journal == Some(j) && !flow.Returned? && flow != Threw(TooManyTurns)
      ensures Live(agent.state, j.op)
      ensures effects.foreign <= old(effects.foreign)
      ensures effects.foreign == old(effects.foreign) ==> effects.published == old(effects.published)
      // the plane counts as staged exactly if the engine said so, and only it was asked about
      ensures old(effects.heard) <= effects.heard
      ensures forall i :: |old(effects.heard)| <= i < |effects.heard| ==> effects.heard[i].question == AskLoad(TupleFor(j.op, todo[0]))
      ensures forall p | p != todo[0] :: progress'.At(p) == progress.At(p)
      ensures flow.Continue? ==> (progress'.At(todo[0]) == PlaneStaged <==> Loaded(effects.heard, |old(effects.heard)|, j.op, todo[0]))
      ensures flow.Continue? ==> advanced' == advanced + if progress'.At(todo[0]) == PlaneStaged then 1 else 0
      ensures var turn := Turn(bound, j, head);
        Reaches(polls, Scene(old(W()), Staging(turn, progress, todo, advanced), old(effects.heard)),
                Here(if flow.Continue? then Staging(turn, progress', todo[1..], advanced') else PcAfter(flow, agent.state, bound)))
    {
      hide Durable, Sound, Tidy, Neat, Booked, Reaches, Listens, AnswerTo, Loaded, Told, Stepped, Report, GuardHolds,
           Measure, ProvesActivation, PublishedByMe, Act, TimedOut, OwnsJournal, CommitMoves;
      ghost var turn := Turn(bound, j, head);
      ghost var a := Here(Staging(turn, progress, todo, advanced));
      var p := todo[0];
      progress', advanced' := Put(progress, p, PlaneFailed), advanced;
      TidyToken(agent.state, j);
      NothingLoaded(effects.heard, j.op, p);
      Starts(polls, a);
      var r := Section(StageCall(TupleFor(j.op, p)));
      Moves(polls, a, a);
      StagingStep(a.w, turn, progress, todo, advanced);
      if r.Tripped? { return Threw(BrokenInvariant), progress', advanced'; }
      if r.Saved? {
        TupleSaves(a.w.agent, StageCall(TupleFor(j.op, p)));
        ghost var b := Here(Loading(turn, progress, todo, advanced));
        var loaded := effects.Ask(AskLoad(TupleFor(j.op, p)));
        OneReplyLoads(b.heard, j.op, p, loaded);
        Drifts(polls, a, b, effects.published);
        Hears(polls, a, Scene(W(), b.pc, b.heard), AskLoad(TupleFor(j.op, p)), loaded);
        LoadingStep(W(), turn, progress, todo, advanced, loaded);
        if loaded == Yes || loaded == Late { log := log + [DidStage(j.op, p, head)]; }
        if loaded == Late { return Expired, progress', advanced'; }
        if loaded == Yes { progress', advanced' := Put(progress, p, PlaneStaged), advanced + 1; }
      }
      flow := Continue;
    }

    /** `published`: load every plane's membership in front of the signal. */
    method OnPublished(bound: Op, j: Journal, ghost head: nat) returns (flow: Flow)
      requires j.phase == Published
      requires Valid() && agent.state.journal == Some(j) && !IsTerminal(j.phase) && Live(agent.state, j.op)
      modifies this, agent, effects
      ensures Valid() && !flow.Returned? && flow != Threw(TooManyTurns)
      ensures (flow.Continue? ==> AtRest(agent.state)) && (flow.Expired? ==> Live(agent.state, j.op))
      ensures Reaches(polls, Scene(old(W()), Staging(Turn(bound, j, head), j.progress, PLANES, 0), old(effects.heard)), Here(PcAfter(flow, agent.state, bound)))
      ensures SameOperation(old(agent.state), agent.state)
      ensures effects.foreign <= old(effects.foreign) && effects.flips <= old(effects.flips)
      ensures flow.Continue? ==> Left() < old(Left())
      // it goes on if the engine loaded a plane, and reports exactly the loaded ones as staged; with none it is closed
      ensures old(effects.heard) <= effects.heard
      ensures flow.Continue? && (Loaded(effects.heard, |old(effects.heard)|, j.op, Http) || Loaded(effects.heard, |old(effects.heard)|, j.op, Stream)) ==>
        StagedAs(agent.state, j, Loaded(effects.heard, |old(effects.heard)|, j.op, Http), Loaded(effects.heard, |old(effects.heard)|, j.op, Stream))
      ensures flow.Continue? && !Loaded(effects.heard, |old(effects.heard)|, j.op, Http) && !Loaded(effects.heard, |old(effects.heard)|, j.op, Stream) ==>
        Closed(agent.state, j.op.id)
    {
      hide Durable, Sound, Tidy, Neat, Booked, Reaches, Listens, AnswerTo, Loaded, LoadedSoFar, StagedCount,
           GuardHolds, Measure, ProvesActivation, PublishedByMe, Act, TimedOut, OwnsJournal, CommitMoves;
      ghost var turn := Turn(bound, j, head);
      ghost var a := Here(Staging(turn, j.progress, PLANES, 0));
      var progress, advanced, i := j.progress, 0, 0;
      Starts(polls, a);
      LoadedAtFirst(a.heard, j.op, progress);
      while i < |PLANES|
        invariant Valid() && 0 <= i <= |PLANES| && agent.state.journal == Some(j) && Live(agent.state, j.op)
        invariant Reaches(polls, a, Here(Staging(turn, progress, PLANES[i..], advanced)))
        invariant effects.foreign <= old(effects.foreign) && effects.flips == old(effects.flips) && effects.last == old(effects.last)
        invariant effects.foreign == old(effects.foreign) ==> effects.published == old(effects.published)
        invariant a.heard <= effects.heard
        invariant LoadedSoFar(effects.heard, |a.heard|, j.op, progress, i) && advanced == StagedCount(progress, i)
      {
        ghost var b := Here(Staging(turn, progress, PLANES[i..], advanced));
        ghost var before := progress;
        assert PLANES[i..][1..] == PLANES[i + 1..];
        flow, progress, advanced := StageOne(bound, j, head, progress, PLANES[i..], advanced);
        Chains(polls, a, b, Here(if flow.Continue? then Staging(turn, progress, PLANES[i + 1..], advanced) else PcAfter(flow, agent.state, bound)));
        if !flow.Continue? { return; }
        LoadedNext(b.heard, effects.heard, |a.heard|, j.op, before, progress, i);
        i := i + 1;
      }
      assert PLANES[i..] == [];
      StagedAll(effects.heard, |a.heard|, j.op, progress);
      ghost var c := Here(Staging(turn, progress, [], advanced));
      Moves(polls, a, c);
      StagedStep(W(), turn, progress, advanced);
      flow := AfterStaging(bound, j, progress, advanced);
      Chains(polls, a, Scene(c.w, StagedPc(turn, progress, advanced), c.heard), Here(PcAfter(flow, agent.state, bound)));
      WaitingIsCounted(j, old(effects.published), effects.published, old(effects.foreign), effects.foreign,
                       effects.last, effects.last, effects.flips, effects.flips);
    }

    /** One plane that advanced is enough to go on. */
    method AfterStaging(bound: Op, j: Journal, progress: PerPlane<Progress>, advanced: nat) returns (flow: Flow)
      requires Valid() && agent.state.journal == Some(j) && j.phase == Published && Live(agent.state, j.op)
      modifies this, agent
      ensures Valid() && (flow.Continue? || flow.Threw?) && flow != Threw(TooManyTurns)
      ensures flow.Continue? ==> AtRest(agent.state)
      ensures flow.Continue? ==>
        if advanced == 0 then Closed(agent.state, j.op.id) else agent.state.journal == Some(Stepped(j, MembershipStaged).(progress := progress))
      ensures forall head: nat ::
        Reaches(polls, Scene(old(W()), StagedPc(Turn(bound, j, head), progress, advanced), old(effects.heard)), Here(PcAfter(flow, agent.state, bound)))
      ensures SameOperation(old(agent.state), agent.state)
      ensures flow.Continue? ==> Left() < old(Left())
    {
      hide Durable, Sound, Tidy, Neat, Booked, Reaches, Listens, AnswerTo, GuardHolds, Measure, ProvesActivation,
           PublishedByMe, Act, TimedOut, OwnsJournal, CommitMoves;
      if advanced == 0 {
        flow := FailTurn(bound, j);
      } else {
        var entry := Stepped(j, MembershipStaged).(progress := progress);
        flow := Move(bound, entry);
        if flow.Continue? {
          ForwardLowers(j, entry, effects.published, effects.published, effects.foreign, effects.foreign,
                        effects.last, effects.last, effects.flips, effects.flips);
        }
      }
    }

    /** `reload_observed`: is the publication still ours, is activation proven, then move the coordinates. */
    method OnReloadObserved(bound: Op, j: Journal, ghost head: nat) returns (flow: Flow)
      requires j.phase == ReloadObserved
      requires Valid() && agent.state.journal == Some(j) && !IsTerminal(j.phase) && Live(agent.state, j.op)
      modifies this, agent, effects
      ensures Valid() && !flow.Returned? && flow != Threw(TooManyTurns)
      ensures (flow.Continue? ==> AtRest(agent.state)) && (flow.Expired? ==> Live(agent.state, j.op))
      ensures Reaches(polls, Scene(old(W()), Confirming(Turn(bound, j, head)), old(effects.heard)), Here(PcAfter(flow, agent.state, bound)))
      ensures SameOperation(old(agent.state), agent.state)
      // back to publishing or signalling, or every plane was pushed and the entry says how far that got
      ensures flow.Continue? ==> agent.state.journal.Some?
      ensures flow.Continue? ==> agent.state.journal.value.phase in {PublishIntent, ReloadIntent} || SaysHowFar(agent.state, j.op)
      ensures effects.foreign <= old(effects.foreign) && effects.flips <= old(effects.flips)
      ensures flow.Continue? && polls > 0 ==> Left() < old(Left())
    {
      hide Durable, Sound, Tidy, Neat, Booked, Reaches, Listens, AnswerTo, GuardHolds, Measure, SaysHowFar,
           ProvesActivation, PublishedByMe, Act, TimedOut, OwnsJournal, CommitMoves;
      ghost var turn := Turn(bound, j, head);
      ghost var a := Here(Confirming(turn));
      Starts(polls, a);
      var answer := effects.Ask(AskPublished);
      Drifts(polls, a, a, effects.published);
      Hears(polls, a, Scene(W(), Confirming(turn), a.heard), AskPublished, answer);
      ConfirmingStep(W(), turn, answer);
      if answer == Late { return Expired; }
      if !PublishedByMe(effects.published, j.op) {
        ghost var b := Here(Writing(Stepped(j, PublishIntent), Again(bound)));
        flow := Move(bound, Stepped(j, PublishIntent));
        Chains(polls, a, b, Here(PcAfter(flow, agent.state, bound)));
        RepublishLowers(j, Stepped(j, PublishIntent), old(effects.published), effects.published, old(effects.foreign), effects.foreign,
                        effects.last, effects.flips);
        return;
      }
      ghost var saw := |log|;
      log := log + [SawMine(j.op, effects.published)];
      WaitingIsCounted(j, old(effects.published), effects.published, old(effects.foreign), effects.foreign,
                       effects.last, effects.last, effects.flips, effects.flips);
      ghost var c := Here(Proving(turn, saw));
      flow := ProveAndCommit(bound, j, head, saw);
      Chains(polls, a, c, Here(PcAfter(flow, agent.state, bound)));
    }

    /** Read the engine again; without proof go back to the signal, with it commit. */
    method ProveAndCommit(bound: Op, j: Journal, ghost head: nat, ghost saw: nat) returns (flow: Flow)
      requires j.phase == ReloadObserved && PublishedByMe(effects.published, j.op)
      requires Valid() && agent.state.journal == Some(j) && !IsTerminal(j.phase) && Live(agent.state, j.op)
      modifies this, agent, effects`last, effects`flips, effects`heard
      ensures Valid() && !flow.Returned? && flow != Threw(TooManyTurns)
      ensures (flow.Continue? ==> AtRest(agent.state)) && (flow.Expired? ==> Live(agent.state, j.op))
      ensures Reaches(polls, Scene(old(W()), Proving(Turn(bound, j, head), saw), old(effects.heard)), Here(PcAfter(flow, agent.state, bound)))
      ensures SameOperation(old(agent.state), agent.state)
      // back to publishing or signalling, or every plane was pushed and the entry says how far that got
      ensures flow.Continue? ==> agent.state.journal.Some?
      ensures flow.Continue? ==> agent.state.journal.value.phase in {PublishIntent, ReloadIntent} || SaysHowFar(agent.state, j.op)
      ensures effects.foreign <= old(effects.foreign) && effects.flips <= old(effects.flips)
      ensures flow.Continue? && polls > 0 ==> Left() < old(Left())
    {
      hide Durable, Sound, Tidy, Neat, Booked, Reaches, Listens, AnswerTo, GuardHolds, Measure, SaysHowFar,
           ProvesActivation, PublishedByMe, Act, TimedOut, OwnsJournal, CommitMoves;
      ghost var turn := Turn(bound, j, head);
      ghost var a := Here(Proving(turn, saw));
      Starts(polls, a);
      var proof, said := AwaitActivation(j.op.generation);
      HearsAll(polls, a, a, said);
      ghost var r := a.(heard := effects.heard);
      ProvingStep(a.w, turn, saw, proof);
      if !ProvesActivation(proof, j.op.generation) {
        var entry := Stepped(j, ReloadIntent);
        flow := Move(bound, entry);
        Chains(polls, a, Scene(r.w, Writing(entry, Again(bound)), r.heard), Here(PcAfter(flow, agent.state, bound)));
        if polls > 0 {
          UnprovenLowers(j, entry, effects.published, effects.foreign, old(effects.last), effects.last, old(effects.flips), effects.flips);
        }
        return;
      }
      ProofIsSome(proof, j.op.generation);
      WaitingIsCounted(j, effects.published, effects.published, effects.foreign, effects.foreign,
                       old(effects.last), effects.last, old(effects.flips), effects.flips);
      flow := CommitAll(bound, j, head, proof.value, saw);
      Chains(polls, a, Scene(r.w, Committing(turn, proof.value, saw, j.progress, PLANES), r.heard), Here(PcAfter(flow, agent.state, bound)));
    }

    /** Commit one plane; a refusal fails the plane only. */
    method CommitOne(bound: Op, j: Journal, ghost head: nat, proof: Evidence, ghost saw: nat, progress: PerPlane<Progress>, todo: seq<Plane>)
      returns (tripped: bool, progress': PerPlane<Progress>)
      requires Valid() && agent.state.journal == Some(j) && todo != [] && j.op.id.token == agent.state.maxToken
      modifies this`log, agent
      ensures Valid() && agent.state.journal == Some(j) && agent.state.maxToken == old(agent.state).maxToken
      // committed means activated, refused means not, and the other plane is left alone
      ensures !tripped ==> (progress'.At(todo[0]) == PlaneCommitted <==> IsActivated(agent.state.ended, EndKey(j.op.id, todo[0])))
      ensures forall p | p != todo[0] :: progress'.At(p) == progress.At(p)
      ensures forall p | p != todo[0] ::
        IsActivated(agent.state.ended, EndKey(j.op.id, p)) <==> IsActivated(old(agent.state).ended, EndKey(j.op.id, p))
      ensures var turn := Turn(bound, j, head);
        Reaches(polls, Scene(old(W()), Committing(turn, proof, saw, progress, todo), old(effects.heard)),
                Here(if tripped then Done else Committing(turn, proof, saw, progress', todo[1..])))
    {
      hide Durable, Sound, Tidy, Neat, Booked, Reaches, Listens, AnswerTo, GuardHolds, Measure, ProvesActivation,
           PublishedByMe, Act, TimedOut, OwnsJournal, CommitMoves;
      ghost var turn := Turn(bound, j, head);
      ghost var a := Here(Committing(turn, proof, saw, progress, todo));
      var t := TupleFor(j.op, todo[0]);
      TidyToken(agent.state, j);
      Starts(polls, a);
      var r := Section(CommitCall(t, proof));
      Moves(polls, a, a);
      CommittingStep(a.w, turn, proof, saw, progress, todo);
      if r.Saved? { TupleSaves(a.w.agent, CommitCall(t, proof)); }
      CommitTells(a.w.agent, j, todo[0], proof);
      if r.Saved? && CommitMoves(a.w.agent, t, proof) { log := log + [MovedPlane(t, proof, saw)]; }
      tripped := r.Tripped?;
      progress' := Put(progress, todo[0], if r.Saved? then PlaneCommitted else PlaneFailed);
    }

    /** Commit every plane, then say how far it got. */
    method CommitAll(bound: Op, j: Journal, ghost head: nat, proof: Evidence, ghost saw: nat) returns (flow: Flow)
      requires Valid() && agent.state.journal == Some(j) && j.phase == ReloadObserved && Proves(effects.last, j.op.generation)
      requires j.op.id.token == agent.state.maxToken
      modifies this, agent
      ensures Valid() && (flow.Continue? || flow.Threw?) && flow != Threw(TooManyTurns)
      ensures flow.Continue? ==> AtRest(agent.state) && SaysHowFar(agent.state, j.op) && Shows(agent.state, proof)
      ensures Reaches(polls, Scene(old(W()), Committing(Turn(bound, j, head), proof, saw, j.progress, PLANES), old(effects.heard)),
                      Here(PcAfter(flow, agent.state, bound)))
      ensures SameOperation(old(agent.state), agent.state)
      ensures flow.Continue? ==> Left() < old(Left())
    {
      hide Durable, Sound, Tidy, Neat, Booked, Reaches, Listens, AnswerTo, GuardHolds, Measure, SaysHowFar,
           IsActivated, ProvesActivation, PublishedByMe, Act, TimedOut, OwnsJournal, CommitMoves;
      ghost var turn := Turn(bound, j, head);
      ghost var a := Here(Committing(turn, proof, saw, j.progress, PLANES));
      var progress, i := j.progress, 0;
      Starts(polls, a);
      while i < |PLANES|
        invariant Valid() && 0 <= i <= |PLANES| && agent.state.journal == Some(j) && j.op.id.token == agent.state.maxToken
        invariant i > 0 ==> (progress.http == PlaneCommitted <==> IsActivated(agent.state.ended, EndKey(j.op.id, Http)))
        invariant i > 1 ==> (progress.stream == PlaneCommitted <==> IsActivated(agent.state.ended, EndKey(j.op.id, Stream)))
        invariant Reaches(polls, a, Here(Committing(turn, proof, saw, progress, PLANES[i..])))
      {
        ghost var b := Here(Committing(turn, proof, saw, progress, PLANES[i..]));
        assert PLANES[i..][1..] == PLANES[i + 1..];
        var tripped, progress' := CommitOne(bound, j, head, proof, saw, progress, PLANES[i..]);
        Chains(polls, a, b, Here(if tripped then Done else Committing(turn, proof, saw, progress', PLANES[i + 1..])));
        if tripped { return Threw(BrokenInvariant); }
        assert PLANES[0] == Http && PLANES[1] == Stream;
        assert i == 1 ==> progress'.At(Http) == progress.At(Http);
        progress, i := progress', i + 1;
      }
      assert PLANES[i..] == [];
      ghost var c := Here(Committing(turn, proof, saw, progress, []));
      Moves(polls, a, c);
      CommittedStep(W(), turn, proof, saw, progress);
      flow := SayHowFar(bound, j, head, proof, progress);
      Chains(polls, a, Scene(c.w, AfterCommits(turn, proof, progress), c.heard), Here(PcAfter(flow, agent.state, bound)));
    }

    /** All planes: activated; none: failed; otherwise partially activated, to be pushed again. */
    method SayHowFar(bound: Op, j: Journal, ghost head: nat, proof: Evidence, progress: PerPlane<Progress>) returns (flow: Flow)
      requires Valid() && agent.state.journal == Some(j) && j.phase == ReloadObserved && Proves(effects.last, j.op.generation)
      requires progress.http == PlaneCommitted <==> IsActivated(agent.state.ended, EndKey(j.op.id, Http))
      requires progress.stream == PlaneCommitted <==> IsActivated(agent.state.ended, EndKey(j.op.id, Stream))
      modifies this, agent
      ensures Valid() && (flow.Continue? || flow.Threw?) && flow != Threw(TooManyTurns)
      ensures flow.Continue? ==> AtRest(agent.state) && SaysHowFar(agent.state, j.op) && Shows(agent.state, proof)
      ensures Reaches(polls, Scene(old(W()), AfterCommits(Turn(bound, j, head), proof, progress), old(effects.heard)), Here(PcAfter(flow, agent.state, bound)))
      ensures SameOperation(old(agent.state), agent.state)
      ensures flow.Continue? ==> Left() < old(Left())
    {
      hide Durable, Sound, Tidy, Neat, Booked, Reaches, Listens, AnswerTo, GuardHolds, Measure, IsActivated,
           ProvesActivation, PublishedByMe, Act, TimedOut, OwnsJournal, CommitMoves;
      var phase := CommittedPhase(progress);
      var entry := Stepped(j, phase).(progress := progress, evidence := Some(proof));
      ghost var a := Here(AfterCommits(Turn(bound, j, head), proof, progress));
      CommittedLowers(j, entry, effects.published, effects.foreign, effects.last, effects.flips);
      if phase == PartiallyActivated {
        flow := Move(bound, entry);
      } else {
        ghost var next := ThenFinish(j.op, Stuck(entry), Some(bound));
        var fault := Write(entry, next);
        if fault.Some? { return Threw(fault.value); }
        ghost var b := Here(Finishing(j.op, Stuck(entry), Again(bound)));
        fault := Finish(j.op, Stuck(entry), Again(bound));
        Chains(polls, a, b, Here(if fault.None? then Head(bound) else Done));
        flow := if fault.None? then Continue else Threw(fault.value);
      }
    }

    /** `partially_activated`: push again, finitely often; when the budget is spent, close and give up. */
    method OnPartial(bound: Op, j: Journal) returns (flow: Flow)
      requires Valid() && agent.state.journal == Some(j) && j.phase == PartiallyActivated
      modifies this, agent
      ensures Valid() && !flow.Expired? && flow != Threw(TooManyTurns)
      ensures Reaches(polls, Scene(old(W()), PartialPc(j, bound), old(effects.heard)), Here(PcAfter(flow, agent.state, bound)))
      ensures SameOperation(old(agent.state), agent.state)
      ensures flow.Returned? ==> Closed(agent.state, j.op.id) && !LeavesWork(agent.state) && flow.seen == agent.state.journal
      ensures flow.Continue? ==> Left() < old(Left()) && AtRest(agent.state)
    {
      hide Durable, Sound, Tidy, Neat, Booked, Reaches, Listens, AnswerTo, GuardHolds, Measure, PublishedByMe, Act;
      ghost var a := Here(PartialPc(j, bound));
      if j.attempts >= RELOAD_ATTEMPT_LIMIT + PARTIAL_RETRY_LIMIT {
        ghost var next := ThenFinish(j.op, Stuck(j), None);
        var entry := Stepped(j, PartialExhausted);
        var fault := Write(entry, next);
        if fault.Some? { return Threw(fault.value); }
        ghost var b := Here(Finishing(j.op, Stuck(j), Stop));
        fault := Finish(j.op, Stuck(j), Stop);
        Chains(polls, a, b, Here(Done));
        flow := if fault.None? then Returned(agent.state.journal) else Threw(fault.value);
      } else {
        var entry := if Stuck(j) == {} then Stepped(j, Activated) else Stepped(j, ReloadObserved).(attempts := j.attempts + 1);
        flow := Move(bound, entry);
        PartialLowers(j, entry, effects.published, effects.foreign, effects.last, effects.flips);
      }
    }

    // ---------------------------------------------------------------- the loop and the calls

    /** One turn of the driver loop. */
    method Iterate(bound: Op, guard: nat) returns (flow: Flow)
      requires Valid()
      modifies this, agent, effects
      ensures Valid() && SameOperation(old(agent.state), agent.state)
      ensures Reaches(polls, Scene(old(W()), Head(bound), old(effects.heard)), Here(PcAfter(flow, agent.state, bound)))
      ensures effects.foreign <= old(effects.foreign) && effects.flips <= old(effects.flips)
      ensures flow.Continue? ==> agent.state.journal.Some? && guard <= HARD_LIMIT && (polls > 0 ==> Left() < old(Left()))
      ensures flow.Continue? ==> AtRest(agent.state)
      ensures flow.Returned? ==> flow.seen == Report(agent.state, bound)
      ensures flow.Expired? ==> agent.state.journal.Some? && Live(agent.state, agent.state.journal.value.op)
      ensures flow == Threw(TooManyTurns) ==> guard > HARD_LIMIT && old(Left()) > 0
      // a result on our own journal: it is closed and the execution right is given back
      ensures flow.Returned? && OwnsJournal(agent.state.journal, bound) ==> Closed(agent.state, bound.id)
      ensures flow.Returned? && OwnsJournal(agent.state.journal, bound) && AtRest(old(agent.state)) ==> !LeavesWork(agent.state)
      // a transition that was given up, closed or missing has no effects
      ensures NothingToDo(old(agent.state), bound) ==>
        !flow.Continue? && !flow.Expired? && log == old(log) && effects.published == old(effects.published)
    {
      hide Durable, Sound, Tidy, Neat, Booked, Reaches, Listens, AnswerTo, GuardHolds, Measure, Act, ClosedTransition,
           AssertOwnership, ReachedPhase, Mutate;
      ghost var a, head := Here(Head(bound)), |log|;
      var s := agent.state;
      Starts(polls, a);
      Moves(polls, a, a);
      HeadStep(a.w, bound);
      if s.journal.None? { return Returned(None); }
      var j := s.journal.value;
      if !OwnsJournal(s.journal, bound) || IsTerminal(j.phase) || ClosedTransition(s, j.op) {
        flow := CloseUp(bound, j);
        Chains(polls, a, Scene(a.w, CloseUpPc(s, j, bound, head), a.heard), Here(Done));
        return;
      }
      if AssertOwnership(s, j.op).Lost? { return Threw(Rejects(AssertOwnership(s, j.op).why)); }
      if guard > HARD_LIMIT {
        MeasureIsLow(j, effects.published, effects.foreign, effects.last, effects.flips);
        return Threw(TooManyTurns);
      }
      DrivenIsLive(s, j);
      flow := OnPhase(bound, j, head);
      Chains(polls, a, Scene(a.w, PhasePc(Turn(bound, j, head)), a.heard), Here(PcAfter(flow, agent.state, bound)));
    }

    /** The switch over the journal's phase. */
    method OnPhase(bound: Op, j: Journal, ghost head: nat) returns (flow: Flow)
      requires Valid() && agent.state.journal == Some(j) && !IsTerminal(j.phase) && Live(agent.state, j.op)
      modifies this, agent, effects
      ensures Valid() && SameOperation(old(agent.state), agent.state) && flow != Threw(TooManyTurns)
      ensures Reaches(polls, Scene(old(W()), PhasePc(Turn(bound, j, head)), old(effects.heard)), Here(PcAfter(flow, agent.state, bound)))
      ensures effects.foreign <= old(effects.foreign) && effects.flips <= old(effects.flips)
      ensures flow.Continue? ==> AtRest(agent.state) && (polls > 0 ==> Left() < old(Left()))
      ensures flow.Expired? ==> Live(agent.state, j.op)
      ensures flow.Returned? ==> Closed(agent.state, j.op.id) && !LeavesWork(agent.state) && flow.seen == agent.state.journal
    {
      hide Durable, Sound, Tidy, Neat, Booked, Reaches, Listens, AnswerTo, Measure, PartialPc;
      if j.phase == Preflight { flow := OnPreflight(bound, j, head); }
      else if j.phase == PublishIntent { flow := OnPublishIntent(bound, j, head); }
      else if j.phase == Published { flow := OnPublished(bound, j, head); }
      else if j.phase == MembershipStaged {
        flow := Move(bound, Stepped(j, ReloadIntent));
        if flow.Continue? {
          ForwardLowers(j, Stepped(j, ReloadIntent), effects.published, effects.published, effects.foreign, effects.foreign,
                        effects.last, effects.last, effects.flips, effects.flips);
        }
      }
      else if j.phase == ReloadIntent { flow := OnReloadIntent(bound, j, head); }
      else if j.phase == ReloadObserved { flow := OnReloadObserved(bound, j, head); }
      else { flow := OnPartial(bound, j); }
    }

    /** Nothing left to drive: not ours, closed already, or given up.  Let go and return. */
    method CloseUp(bound: Op, j: Journal) returns (flow: Flow)
      requires Valid() && agent.state.journal == Some(j)
      requires !OwnsJournal(agent.state.journal, bound) || IsTerminal(j.phase) || ClosedTransition(agent.state, j.op)
      modifies this, agent
      ensures Valid() && log == old(log) && SameOperation(old(agent.state), agent.state)
      ensures (flow.Returned? || flow.Threw?) && flow != Threw(TooManyTurns)
      ensures flow.Returned? ==> flow.seen == Report(agent.state, bound)
      ensures forall head: nat :: Reaches(polls, Scene(old(W()), CloseUpPc(old(agent.state), j, bound, head), old(effects.heard)), Here(Done))
      ensures flow.Returned? && OwnsJournal(agent.state.journal, bound) ==> Closed(agent.state, bound.id)
      ensures flow.Returned? && OwnsJournal(agent.state.journal, bound) && AtRest(old(agent.state)) ==> !LeavesWork(agent.state)
    {
      hide Durable, Sound, Tidy, Neat, Booked, Reaches, Listens, AnswerTo, GuardHolds, Measure, Act, ClosedTransition,
           ReachedPhase, Mutate;
      ghost var a := W();
      var s := agent.state;
      Starts(polls, Scene(a, Done, effects.heard));
      if !OwnsJournal(s.journal, bound) {
        flow := Returned(None);
        if Holds(s, bound.id) {
          var fault := Finish(bound, {}, Stop);
          flow := if fault.None? then flow else Threw(fault.value);
        }
      } else if IsTerminal(j.phase) {
        flow := Returned(s.journal);
        if Holds(s, j.op.id) {
          var fault := Finish(j.op, Stuck(j), Stop);
          flow := if fault.None? then flow else Threw(fault.value);
        }
      } else {
        flow := CloseGivenUp(bound, j);
      }
    }

    /** A transition that ended as aborted or failed: write how far it got, give everything back. */
    method CloseGivenUp(bound: Op, j: Journal) returns (flow: Flow)
      requires Valid() && agent.state.journal == Some(j) && OwnsJournal(agent.state.journal, bound) && !IsTerminal(j.phase)
      modifies this, agent
      ensures Valid() && log == old(log) && SameOperation(old(agent.state), agent.state)
      ensures (flow.Returned? || flow.Threw?) && flow != Threw(TooManyTurns)
      ensures forall head: nat ::
        Reaches(polls, Scene(old(W()), Closing(Turn(bound, j, head), ReachedPhase(old(agent.state), j.op)), old(effects.heard)), Here(Done))
      ensures flow.Returned? ==> Closed(agent.state, bound.id) && !LeavesWork(agent.state) && flow.seen == agent.state.journal
      ensures flow.Returned? ==> SaysWhatStands(agent.state, j.op)
    {
      hide Durable, Sound, Tidy, Neat, Booked, Reaches, Listens, AnswerTo, GuardHolds, Measure, Act, ReachedPhase, Mutate;
      ghost var a := W();
      var how := ReachedPhase(agent.state, j.op);
      ReachedIsTerminal(agent.state, j.op);
      var r := Section(CloseCall(j.op, how));
      ClosingSteps(polls, a, effects.heard, bound, j, how);
      if !r.Saved? { return Threw(FaultOf(r)); }
      CloseSaves(a.agent, j, how);
      ReachedStands(a.agent, j.op);
      ghost var b := Here(Finishing(j.op, {Http, Stream}, Stop));
      var fault := Finish(j.op, {Http, Stream}, Stop);
      forall head: nat
        ensures Reaches(polls, Scene(a, Closing(Turn(bound, j, head), how), effects.heard), Here(Done))
      {
        Chains(polls, Scene(a, Closing(Turn(bound, j, head), how), effects.heard), b, Here(Done));
      }
      flow := if fault.None? then Returned(agent.state.journal) else Threw(fault.value);
    }

    /**
     * The driver loop.  While activation is read at all it ends because every iteration lowers
     * the measure, not because of HARD_LIMIT, and with at most that much trouble in store
     * HARD_LIMIT is never met.
     */
    method DriveLoop(bound: Op) returns (flow: Flow)
      requires Valid()
      modifies this, agent, effects
      ensures Valid() && SameOperation(old(agent.state), agent.state) && !flow.Continue?
      ensures Reaches(polls, Scene(old(W()), Head(bound), old(effects.heard)), Here(PcAfter(flow, agent.state, bound)))
      ensures polls > 0 && 5 * old(effects.foreign) + 2 * old(effects.flips) + 23 <= HARD_LIMIT ==> flow != Threw(TooManyTurns)
      ensures flow.Returned? && OwnsJournal(agent.state.journal, bound) ==> Closed(agent.state, bound.id)
      ensures flow.Returned? && OwnsJournal(agent.state.journal, bound) && AtRest(old(agent.state)) ==> !LeavesWork(agent.state)
      ensures flow.Expired? ==> agent.state.journal.Some? && Live(agent.state, agent.state.journal.value.op)
      ensures flow.Returned? ==> flow.seen == Report(agent.state, bound)
      ensures NothingToDo(old(agent.state), bound) ==>
        !flow.Expired? && log == old(log) && effects.published == old(effects.published)
    {
      hide Durable, Sound, Tidy, Neat, Booked, Reaches, Listens, AnswerTo, Measure, OwnsJournal, ClosedTransition,
           LeavesWork, AtRest, Live;
      ghost var a := Here(Head(bound));
      ghost var most := Left();
      if agent.state.journal.Some? {
        MeasureIsLow(agent.state.journal.value, effects.published, effects.foreign, effects.last, effects.flips);
      }
      var guard := 0;
      flow := Continue;
      Starts(polls, a);
      while flow.Continue?
        invariant Valid() && SameOperation(old(agent.state), agent.state)
        invariant Reaches(polls, a, Here(PcAfter(flow, agent.state, bound)))
        invariant flow.Continue? ==> guard <= HARD_LIMIT + 1 && (polls > 0 ==> guard + Left() <= most)
        invariant flow == Threw(TooManyTurns) && polls > 0 ==> most > HARD_LIMIT
        invariant flow.Returned? && OwnsJournal(agent.state.journal, bound) ==> Closed(agent.state, bound.id)
        invariant flow.Continue? && AtRest(old(agent.state)) ==> AtRest(agent.state)
        invariant flow.Returned? && OwnsJournal(agent.state.journal, bound) && AtRest(old(agent.state)) ==> !LeavesWork(agent.state)
        invariant flow.Expired? ==> agent.state.journal.Some? && Live(agent.state, agent.state.journal.value.op)
        invariant flow.Returned? ==> flow.seen == Report(agent.state, bound)
        invariant NothingToDo(old(agent.state), bound) ==>
          (flow.Continue? ==> agent.state == old(agent.state)) && !flow.Expired?
          && log == old(log) && effects.published == old(effects.published)
        decreases if !flow.Continue? then 0 else if polls > 0 then Left() + 1 else HARD_LIMIT + 2 - guard
      {
        ghost var b := Here(Head(bound));
        flow := Iterate(bound, guard);
        Chains(polls, a, b, Here(PcAfter(flow, agent.state, bound)));
        guard := guard + 1;
      }
    }

    /** `drive`: the loop, and the clean-up when an effect ran out of its budget. */
    method Drive(bound: Op) returns (flow: Flow)
      requires Valid()
      modifies this, agent, effects
      ensures Valid() && SameOperation(old(agent.state), agent.state) && (flow.Returned? || flow.Threw?)
      ensures Reaches(polls, Scene(old(W()), Head(bound), old(effects.heard)), Here(PcAfter(flow, agent.state, bound)))
      ensures polls > 0 && 5 * old(effects.foreign) + 2 * old(effects.flips) + 23 <= HARD_LIMIT ==> flow != Threw(TooManyTurns)
      ensures flow.Returned? && OwnsJournal(agent.state.journal, bound) ==> Closed(agent.state, bound.id)
      ensures flow.Returned? && OwnsJournal(agent.state.journal, bound) && AtRest(old(agent.state)) ==> !LeavesWork(agent.state)
      ensures flow.Returned? ==> flow.seen == Report(agent.state, bound)
      ensures NothingToDo(old(agent.state), bound) ==> log == old(log) && effects.published == old(effects.published)
    {
      hide Durable, Sound, Tidy, Neat, Booked, Reaches, Listens, AnswerTo, Measure, ClosedTransition, LeavesWork, AtRest, Live;
      ghost var a := Here(Head(bound));
      flow := DriveLoop(bound);
      if flow.Expired? {
        ghost var b := Here(TimedOut(agent.state, bound));
        // our own only: somebody else may have opened the journal while we waited
        if OwnsJournal(agent.state.journal, bound) {
          var fault := FailAll(agent.state.journal.value, None);
          Chains(polls, a, b, Here(Done));
          flow := if fault.None? then Returned(agent.state.journal) else Threw(fault.value);
        } else {
          flow := Returned(None);
        }
      }
    }

    /** `run`: check the envelope, reserve every plane and open the journal in one section, drive. */
    method Run(op: Op, declared: seq<Plane>, carried: set<Plane>) returns (flow: Flow)
      requires Valid()
      modifies this, agent, effects
      ensures Valid() && (flow.Returned? || flow.Threw?)
      ensures AssertEnvelope(declared, carried).Err? ==> flow.Threw? && W() == old(W())
      ensures AssertEnvelope(declared, carried).Ok? ==>
        Reaches(polls, Scene(old(W()), Reserving(op), old(effects.heard)), Here(PcAfter(flow, agent.state, op)))
      ensures polls > 0 && 5 * old(effects.foreign) + 2 * old(effects.flips) + 23 <= HARD_LIMIT ==> flow != Threw(TooManyTurns)
      ensures flow.Returned? ==> Closed(agent.state, op.id) && !LeavesWork(agent.state)
      // the result is the operation's own journal as it was closed
      ensures flow.Returned? ==> flow.seen == agent.state.journal
      // and no effect without the engine's own answer to it
      ensures Answered(old(log), old(effects.heard), log, effects.heard)
    {
      hide Durable, Sound, Tidy, Neat, Booked, Reaches, Answered, ReserveAll, ClosedTransition, Act, AssertEnvelope, LeavesWork;
      var checked := AssertEnvelope(declared, carried);
      NothingIsBacked(log, effects.heard);
      if checked.Err? { return Threw(BadEnvelope(checked.error)); }
      ghost var a := Here(Reserving(op));
      var r := Section(ReserveAllCall(op));
      Starts(polls, a);
      Moves(polls, a, a);
      ReservingStep(a.w, op);
      RepliesBackEffects(polls, a, Here(if r.Saved? then Head(op) else Done));
      if !r.Saved? { return Threw(FaultOf(r)); }
      ReserveOpens(a.w.agent, op);
      ghost var b := Here(Head(op));
      flow := Drive(op);
      Chains(polls, a, b, Here(PcAfter(flow, agent.state, op)));
      RepliesBackEffects(polls, a, Here(PcAfter(flow, agent.state, op)));
    }

    /** `recover`: take over what the journal says, or tidy up after what ended. */
    method Recover() returns (flow: Flow)
      requires Valid()
      modifies this, agent, effects
      ensures Valid() && SameOperation(old(agent.state), agent.state) && (flow.Returned? || flow.Threw?)
      ensures flow != Threw(TooManyTurns) ==> Reaches(polls, Scene(old(W()), Recovering, old(effects.heard)), Here(Done))
      ensures flow == Threw(TooManyTurns) ==>
        old(agent.state).journal.Some? && Reaches(polls, Scene(old(W()), Recovering, old(effects.heard)), Here(Head(old(agent.state).journal.value.op)))
      ensures polls > 0 && 5 * old(effects.foreign) + 2 * old(effects.flips) + 23 <= HARD_LIMIT ==> flow != Threw(TooManyTurns)
      // the result is the journal as it is left
      ensures flow.Returned? ==> flow.seen == agent.state.journal
      // no effect without the engine's own answer to it
      ensures Answered(old(log), old(effects.heard), log, effects.heard)
      // the journal is closed, the right is given back; without a journal there is no holder either
      ensures flow.Returned? ==> Settled(agent.state)
      // and nothing is left for a second one, but the candidate of an orphan that was closed
      ensures flow.Returned? && agent.state.journal.Some? ==> (LeavesWork(agent.state) <==> LeavesCandidate(old(agent.state)))
      ensures flow.Returned? && old(agent.state).journal.None? ==> agent.state == old(agent.state)
      // nothing is published, staged or signalled for a transition that was given up
      ensures old(agent.state).journal.Some? && ClosedTransition(old(agent.state), old(agent.state).journal.value.op) ==>
        log == old(log) && effects.published == old(effects.published)
      // and a journal that is closed already, or none, costs one clean-up that always succeeds, and nothing else
      ensures old(agent.state).journal.None? || IsTerminal(old(agent.state).journal.value.phase) ==> flow.Returned?
      ensures old(agent.state).journal.Some? && IsTerminal(old(agent.state).journal.value.phase) ==>
        effects.published == old(effects.published) && log == old(log) && agent.state == SecondLook(old(agent.state))
    {
      hide Durable, Sound, Tidy, Neat, Booked, Reaches, Answered, ClosedTransition, Act, GuardHolds, Mutate,
           FinishOperation, LeavesWork;
      ghost var a := Here(Recovering);
      ghost var stand := Done;
      var s := agent.state;
      Starts(polls, a);
      Moves(polls, a, a);
      RecoveringStep(a.w);
      if s.journal.None? {
        flow := ReleaseIdle();
        Chains(polls, a, Scene(a.w, ReleasingIdle, a.heard), Here(Done));
      } else {
        var j := s.journal.value;
        if IsTerminal(j.phase) {
          var fault := Finish(j.op, Stuck(j), Stop);
          Chains(polls, a, Scene(a.w, Finishing(j.op, Stuck(j), Stop), a.heard), Here(Done));
          if fault.None? { FinishedIs(s, j.op, Stuck(j)); }
          flow := if fault.None? then Returned(s.journal) else Threw(fault.value);
          LettingGoSaves(s, FinishCall(j.op, Stuck(j)));
        } else if j.op.id.token < s.maxToken {
          flow := CloseStale(j);
          Chains(polls, a, Scene(a.w, ClosingStale(j.op), a.heard), Here(Done));
        } else {
          flow := Resumed(j);
          stand := PcAfter(flow, agent.state, j.op);
          Chains(polls, a, Scene(a.w, Reclaiming(j.op), a.heard), Here(stand));
        }
      }
      RepliesBackEffects(polls, a, Here(stand));
    }

    /**
     * Recovering twice: after a result the second call has a result too, and changes nothing exactly
     * unless the first one found an orphan of an older leader with a candidate still to be judged.
     */
    method RecoverTwice() returns (first: Flow, second: Flow, ghost between: State)
      requires Valid()
      modifies this, agent, effects
      ensures Valid() && (!first.Returned? ==> second == first && agent.state == between)
      ensures first.Returned? ==>
        second.Returned? && (agent.state == between <==> !LeavesCandidate(old(agent.state)))
    {
      hide Sound, Tidy, Neat, Booked, Reaches, Act, ClosedTransition, LeavesWork, LeavesCandidate, SecondLook;
      ghost var start := agent.state;
      first := Recover();
      second, between := first, agent.state;
      if first.Returned? {
        second := Recover();
        TwiceIs(start, between, agent.state);
      }
    }

    /** Died before the first journal write: nothing happened, but the place is given back. */
    method ReleaseIdle() returns (flow: Flow)
      requires Valid() && agent.state.journal.None?
      modifies this`log, agent
      ensures Valid() && log == old(log) && flow == Returned(None)
      ensures Reaches(polls, Scene(old(W()), ReleasingIdle, old(effects.heard)), Here(Done))
      ensures agent.state.holder.None? && agent.state == old(agent.state)
    {
      hide Sound, Neat, Booked, Reaches, Listens, AnswerTo, GuardHolds;
      ghost var a := Here(ReleasingIdle);
      var r := Section(ReleaseIdleCall);
      Starts(polls, a);
      Moves(polls, a, a);
      flow := if r.Saved? then Returned(None) else Threw(FaultOf(r));
      LettingGoSaves(a.w.agent, ReleaseIdleCall);
    }

    /** An orphan of an old leader: close it and give its slots back. */
    method CloseStale(j: Journal) returns (flow: Flow)
      requires Valid() && agent.state.journal == Some(j) && !IsTerminal(j.phase) && j.op.id.token < agent.state.maxToken
      modifies this`log, agent
      ensures Valid() && log == old(log) && SameOperation(old(agent.state), agent.state)
      ensures (flow.Returned? || flow.Threw?) && flow != Threw(TooManyTurns)
      ensures Reaches(polls, Scene(old(W()), ClosingStale(j.op), old(effects.heard)), Here(Done))
      ensures flow.Returned? ==> Settled(agent.state) && agent.state.journal.Some? && flow.seen == agent.state.journal
      ensures flow.Returned? ==> (LeavesWork(agent.state) <==> Judges(old(agent.state), j.op.id))
    {
      hide Durable, Sound, Tidy, Neat, Booked, Reaches, Listens, AnswerTo, GuardHolds, Act, Mutate;
      ghost var a := Here(ClosingStale(j.op));
      Starts(polls, a);
      Moves(polls, a, a);
      StaleSteps(a.w, j.op);
      NobodyHolds(a.w.agent, j);
      var r := Section(CloseCall(j.op, Superseded));
      if !r.Saved? { return Threw(FaultOf(r)); }
      CloseLeaves(a.w.agent, j, Superseded);
      ghost var b := W();
      StaleSteps(b, j.op);
      Moves(polls, a, Scene(b, ReleasingStale(j.op), effects.heard));
      r := Section(ReleaseStaleCall(j.op));
      if r.Saved? {
        ReleaseStaleLeaves(b.agent, j.op);
        StaleLeavesCandidate(a.w.agent, agent.state, j);
      }
      flow := if r.Saved? then Returned(agent.state.journal) else Threw(FaultOf(r));
    }

    /** Take the right again if nobody has it, and drive. */
    method Resumed(j: Journal) returns (flow: Flow)
      requires Valid() && agent.state.journal == Some(j) && !IsTerminal(j.phase)
      modifies this, agent, effects
      ensures Valid() && SameOperation(old(agent.state), agent.state) && (flow.Returned? || flow.Threw?)
      ensures Reaches(polls, Scene(old(W()), Reclaiming(j.op), old(effects.heard)), Here(PcAfter(flow, agent.state, j.op)))
      ensures polls > 0 && 5 * old(effects.foreign) + 2 * old(effects.flips) + 23 <= HARD_LIMIT ==> flow != Threw(TooManyTurns)
      ensures flow.Returned? ==> Closed(agent.state, j.op.id) && !LeavesWork(agent.state) && flow.seen == agent.state.journal
      ensures ClosedTransition(old(agent.state), j.op) ==> log == old(log) && effects.published == old(effects.published)
    {
      hide Durable, Sound, Tidy, Neat, Booked, Reaches, Listens, AnswerTo, GuardHolds, Act, Mutate, ClosedTransition, LeavesWork;
      ghost var a := Here(Reclaiming(j.op));
      Starts(polls, a);
      Moves(polls, a, a);
      ReclaimingStep(a.w, j.op);
      var r := Section(ReclaimCall(j.op));
      if !r.Saved? { return Threw(FaultOf(r)); }
      ReclaimLeaves(a.w.agent, j.op);
      ghost var b := Here(Head(j.op));
      flow := Drive(j.op);
      Chains(polls, a, b, Here(PcAfter(flow, agent.state, j.op)));
    }
  }

  /** The operation is of the latest leader and nobody gave it up. */
  predicate Live(s: State, op: Op) {
    && op.id.token == s.maxToken
    && EndedHow(s, op.id, Http) != Some(EndAborted) && EndedHow(s, op.id, Stream) != Some(EndAborted)
  }

  /** A closed journal is either still to be finished by its holder, or nothing is left to finish. */
  predicate AtRest(s: State) {
    s.journal.Some? && IsTerminal(s.journal.value.phase) ==> Holds(s, s.journal.value.op.id) || !LeavesWork(s)
  }

  /** Finishing with this release leaves no slot of a stuck plane behind. */
  predicate FreesStuck(s: State, op: Op, release: set<Plane>) {
    && s.journal.Some? && s.journal.value.op == op
    && (forall p | p in Stuck(s.journal.value) :: p in release || !OwnsSlot(s, TupleFor(op, p)))
  }

  lemma FinishRests(s: State, op: Op, release: set<Plane>)
    requires Durable(s, FinishCall(op, release)).Saved? && FreesStuck(s, op, release)
    ensures !LeavesWork(Durable(s, FinishCall(op, release)).state)
  {
    hide GuardHolds, JudgedBaseline;
    FinishedIs(s, op, release);
    FinishLeaves(s, op, release);
    assert KeyOf(TupleFor(op, Http)) != KeyOf(TupleFor(op, Stream));
  }

  /** Failing a plane of a live operation gives its slot back, or finds it given back. */
  lemma FailLeaves(s: State, j: Journal, p: Plane)
    requires Tidy(s) && Neat(s) && s.journal == Some(j) && Live(s, j.op) && !Durable(s, FailCall(TupleFor(j.op, p))).Tripped?
    ensures var d := Durable(s, FailCall(TupleFor(j.op, p)));
      var n := if d.Saved? then d.state else s;
      n.journal == Some(j) && n.planes == s.planes && Live(n, j.op) && !OwnsSlot(n, TupleFor(j.op, p)) && (forall t: Tuple :: OwnsSlot(n, t) ==> OwnsSlot(s, t))
  {
    hide GuardHolds;
    var t := TupleFor(j.op, p);
    if OwnsSlot(s, t) { assert !IsOver(s, t.id, t.plane); }
  }

  lemma FailKeepsPlanes(s: State, t: Tuple)
    ensures Durable(s, FailCall(t)).Saved? ==> Durable(s, FailCall(t)).state.planes == s.planes
  {
    hide GuardHolds;
  }

  lemma MovedStands(s: State, op: Op, p: Plane)
    ensures MovedByMe(s, op, p) <==> Stands(s, op, p)
  {
  }

  /** The phase that is read from the coordinates counts the planes that stand. */
  lemma ReachedStands(s: State, op: Op)
    ensures Stands(s, op, Http) && Stands(s, op, Stream) <==> ReachedPhase(s, op) == Activated
    ensures !Stands(s, op, Http) && !Stands(s, op, Stream) <==> ReachedPhase(s, op) == Failed
    ensures Stands(s, op, Http) != Stands(s, op, Stream) <==> ReachedPhase(s, op) == PartialExhausted
  {
  }

  /** The answer to a commit, as the runner gets it. */
  lemma CommitTells(s: State, j: Journal, p: Plane, e: Evidence)
    requires Neat(s) && Booked(s) && s.journal == Some(j) && j.op.id.token == s.maxToken
    ensures var d := Durable(s, CommitCall(TupleFor(j.op, p), e));
      && (d.Saved? ==> IsActivated(d.state.ended, EndKey(j.op.id, p)))
      && (d.Refusal? ==> !IsActivated(s.ended, EndKey(j.op.id, p)))
      && (d.Saved? ==> forall k: EndKey | k != EndKey(j.op.id, p) :: IsActivated(d.state.ended, k) <==> IsActivated(s.ended, k))
  {
    var t := TupleFor(j.op, p);
    JournalIsReserved(s, j, p);
    hide GuardHolds, CommitPlane, Booked, NeatSlots, IsActivated, Reserved;
    CommitAnswers(s, t, e);
    if CommitPlane(s, t, e).Accepted? { CommitJudgesOne(s, t, e); }
  }

  lemma JournalIsReserved(s: State, j: Journal, p: Plane)
    requires Neat(s) && s.journal == Some(j)
    ensures NeatSlots(s) && Reserved(s.done, TupleFor(j.op, p))
  {
    hide NeatSlots;
    assert p == Http || p == Stream;
  }

  lemma CommitJudgesOne(s: State, t: Tuple, e: Evidence)
    requires CommitPlane(s, t, e).Accepted?
    ensures forall k: EndKey | k != EndKeyOf(t) :: IsActivated(CommitPlane(s, t, e).state.ended, k) <==> IsActivated(s.ended, k)
  {
    hide MoveRefusal, AlreadyThere;
  }

  lemma DrivenIsLive(s: State, j: Journal)
    requires Tidy(s) && s.journal == Some(j) && !ClosedTransition(s, j.op) && AssertOwnership(s, j.op).Mine?
    ensures Live(s, j.op)
  {
  }

  /** An orphan of an older leader is about to be closed while its candidate waits to be judged. */
  predicate LeavesCandidate(s: State) {
    && s.journal.Some? && !IsTerminal(s.journal.value.phase) && s.journal.value.op.id.token < s.maxToken
    && Judges(s, s.journal.value.op.id)
  }

  /** Closing an orphan gives its slots back, but judges nothing. */
  lemma StaleLeavesCandidate(s: State, n: State, j: Journal)
    requires Tidy(s) && s.journal == Some(j) && j.op.id.token < s.maxToken
    requires n == ReleaseStaleSlots(s.(journal := Some(Stepped(j, Superseded))), j.op)
    ensures LeavesWork(n) <==> Judges(s, j.op.id)
  {
    assert s.holder.None?;
    assert KeyOf(TupleFor(j.op, Http)) != KeyOf(TupleFor(j.op, Stream));
  }

  /** The second recovery in terms of the state the first one found. */
  lemma TwiceIs(start: State, between: State, end: State)
    requires Settled(between) && (between.journal.None? <==> start.journal.None?)
    requires start.journal.None? ==> between == start
    requires between.journal.Some? ==> (LeavesWork(between) <==> LeavesCandidate(start))
    requires if between.journal.None? then end == between else end == SecondLook(between)
    ensures end == between <==> !LeavesCandidate(start)
  {
    hide SecondLook, LeavesWork;
    if between.journal.Some? { SecondRecoveryIsIdle(between); }
  }

  /** What a recovery leaves: a closed journal whose operation holds nothing, or no journal and no holder. */
  predicate Settled(s: State) {
    if s.journal.None? then s.holder.None?
    else IsTerminal(s.journal.value.phase) && !Holds(s, s.journal.value.op.id)
  }

  /** What recovering from a closed journal makes of the state. */
  function SecondLook(s: State): State
    requires s.journal.Some?
  {
    FinishOperation(s, s.journal.value.op, Stuck(s.journal.value))
  }

  /** A candidate of the operation waits to be judged, or a slot of a stuck plane is still its own. */
  predicate LeavesWork(s: State)
    requires s.journal.Some?
  {
    var j := s.journal.value;
    || Judges(s, j.op.id)
    || (Http in Stuck(j) && OwnsSlot(s, TupleFor(j.op, Http)))
    || (Stream in Stuck(j) && OwnsSlot(s, TupleFor(j.op, Stream)))
  }

  /**
   * A recovery of a settled state changes nothing exactly when no candidate of the operation
   * is still waiting to be judged and no slot of a stuck plane is still its own; whatever it
   * changes, one more recovery changes nothing at all.
   */
  lemma SecondRecoveryIsIdle(s: State)
    requires Settled(s) && s.journal.Some?
    ensures SecondLook(s) == s <==> !LeavesWork(s)
    ensures var n := SecondLook(s);
      && n == s.(slots := n.slots, baseline := n.baseline, pending := n.pending, pendingEpochs := n.pendingEpochs)
      && Settled(n) && SecondLook(n) == n
  {
    hide CandidateArrived, PositionsReached;
    var j := s.journal.value;
    var h, t := TupleFor(j.op, Http), TupleFor(j.op, Stream);
    assert KeyOf(h) != KeyOf(t);
    assert s.holder == LetGo(s.holder, j.op.id);
  }

  lemma FinishedIs(s: State, op: Op, release: set<Plane>)
    requires Durable(s, FinishCall(op, release)).Saved?
    ensures Durable(s, FinishCall(op, release)).state == FinishOperation(s, op, release)
  {
    hide GuardHolds, FinishOperation;
  }

  lemma RecoveringStep(w: World)
    ensures Act(w, Recovering, Yes) == Moment(w, AtRecover(w.agent))
  {
    hide Durable, AtRecover;
  }

  lemma ReservingStep(w: World, op: Op)
    ensures Act(w, Reserving(op), Yes) ==
      if Durable(w.agent, ReserveAllCall(op)).Saved? then Moment(After(w, ReserveAllCall(op)), Head(op)) else Moment(w, Done)
  {
    hide Durable, After;
  }

  lemma ReserveOpens(s: State, op: Op)
    requires Tidy(s) && Durable(s, ReserveAllCall(op)).Saved?
    ensures OwnsJournal(Durable(s, ReserveAllCall(op)).state.journal, op) && Holds(Durable(s, ReserveAllCall(op)).state, op.id)
  {
    hide GuardHolds, ReserveAll, Tidy, Neat;
    TidyReserve(s, op);
  }

  lemma StaleSteps(w: World, op: Op)
    ensures Act(w, ClosingStale(op), Yes) ==
      if Durable(w.agent, CloseCall(op, Superseded)).Saved? then Moment(After(w, CloseCall(op, Superseded)), ReleasingStale(op)) else Moment(w, Done)
    ensures Act(w, ReleasingStale(op), Yes) ==
      if Durable(w.agent, ReleaseStaleCall(op)).Saved? then Moment(After(w, ReleaseStaleCall(op)), Done) else Moment(w, Done)
  {
    hide Durable, After;
  }

  lemma NobodyHolds(s: State, j: Journal)
    requires Tidy(s) && s.journal == Some(j) && j.op.id.token < s.maxToken
    ensures !Holds(s, j.op.id)
  {
  }

  lemma CloseLeaves(s: State, j: Journal, how: Phase)
    requires s.journal == Some(j) && !IsTerminal(j.phase) && Durable(s, CloseCall(j.op, how)).Saved?
    ensures Durable(s, CloseCall(j.op, how)).state == s.(journal := Some(Stepped(j, how)))
  {
    hide GuardHolds;
  }

  lemma ReleaseStaleLeaves(s: State, op: Op)
    requires Durable(s, ReleaseStaleCall(op)).Saved?
    ensures var n := Durable(s, ReleaseStaleCall(op)).state; n == ReleaseStaleSlots(s, op) && n.journal == s.journal && n.holder == s.holder
  {
    hide GuardHolds, WithoutOwned;
  }

  lemma ReclaimingStep(w: World, op: Op)
    ensures Act(w, Reclaiming(op), Yes) ==
      if Durable(w.agent, ReclaimCall(op)).Saved? then Moment(After(w, ReclaimCall(op)), Head(op)) else Moment(w, Done)
  {
    hide Durable, After;
  }

  lemma ReclaimLeaves(s: State, op: Op)
    requires Durable(s, ReclaimCall(op)).Saved?
    ensures var n := Durable(s, ReclaimCall(op)).state; n == s.(holder := n.holder)
    ensures ClosedTransition(s, op) ==> ClosedTransition(Durable(s, ReclaimCall(op)).state, op)
  {
    hide GuardHolds;
  }

  lemma CloseSaves(s: State, j: Journal, how: Phase)
    requires s.journal == Some(j) && !IsTerminal(j.phase) && Durable(s, CloseCall(j.op, how)).Saved?
    ensures Durable(s, CloseCall(j.op, how)).state.journal == Some(Stepped(j, how))
    ensures Durable(s, CloseCall(j.op, how)).state.planes == s.planes
  {
    hide GuardHolds;
  }

  lemma ClosingSteps(polls: nat, w: World, heard: seq<Reply>, bound: Op, j: Journal, how: Phase)
    ensures var c := CloseCall(j.op, how);
      forall head: nat :: Reaches(polls, Scene(w, Closing(Turn(bound, j, head), how), heard),
        if Durable(w.agent, c).Saved? then Scene(After(w, c), Finishing(j.op, {Http, Stream}, Stop), heard) else Scene(w, Done, heard))
  {
    hide Durable, Reaches, After;
    forall head: nat
      ensures var c := CloseCall(j.op, how);
        Reaches(polls, Scene(w, Closing(Turn(bound, j, head), how), heard),
          if Durable(w.agent, c).Saved? then Scene(After(w, c), Finishing(j.op, {Http, Stream}, Stop), heard) else Scene(w, Done, heard))
    {
      var a := Scene(w, Closing(Turn(bound, j, head), how), heard);
      Starts(polls, a);
      Moves(polls, a, a);
    }
  }

  /** The journal is missing, another operation's, closed, or of a transition that was given up. */
  predicate NothingToDo(s: State, bound: Op) {
    s.journal.None? || !OwnsJournal(s.journal, bound) || IsTerminal(s.journal.value.phase) || ClosedTransition(s, s.journal.value.op)
  }

  /** Where an iteration that has something to do goes from its head. */
  function PhasePc(turn: Turn): Pc {
    var phase := turn.j.phase;
    if phase == Preflight then Preflighting(turn)
    else if phase == PublishIntent then LookingUp(turn)
    else if phase == Published then Staging(turn, turn.j.progress, PLANES, 0)
    else if phase == MembershipStaged then Writing(Stepped(turn.j, ReloadIntent), Again(turn.bound))
    else if phase == ReloadIntent then ReadingWorld(turn)
    else if phase == ReloadObserved then Confirming(turn)
    else PartialPc(turn.j, turn.bound)
  }

  function CloseUpPc(s: State, j: Journal, bound: Op, head: nat): Pc {
    if !OwnsJournal(Some(j), bound) then if Holds(s, bound.id) then Finishing(bound, {}, Stop) else Done
    else if IsTerminal(j.phase) then if Holds(s, j.op.id) then Finishing(j.op, Stuck(j), Stop) else Done
    else Closing(Turn(bound, j, head), ReachedPhase(s, j.op))
  }

  lemma HeadStep(w: World, bound: Op)
    ensures var s := w.agent;
      Act(w, Head(bound), Yes) == Moment(w,
        if s.journal.None? then Done
        else if NothingToDo(s, bound) then CloseUpPc(s, s.journal.value, bound, |w.log|)
        else if AssertOwnership(s, s.journal.value.op).Lost? then Done
        else PhasePc(Turn(bound, s.journal.value, |w.log|)))
  {
    hide Durable, ClosedTransition, AssertOwnership, ReachedPhase;
  }

  function PartialPc(j: Journal, bound: Op): Pc {
    if j.attempts >= RELOAD_ATTEMPT_LIMIT + PARTIAL_RETRY_LIMIT then
      Writing(Stepped(j, PartialExhausted), ThenFinish(j.op, Stuck(j), None))
    else if Stuck(j) == {} then Writing(Stepped(j, Activated), Again(bound))
    else Writing(Stepped(j, ReloadObserved).(attempts := j.attempts + 1), Again(bound))
  }

  lemma ProofIsSome(proof: Option<Evidence>, generation: Name)
    requires ProvesActivation(proof, generation)
    ensures proof.Some?
  {
  }

  lemma ConfirmingStep(w: World, turn: Turn, answer: Answer)
    ensures Act(w, Confirming(turn), answer) ==
      if answer == Late then Moment(w, TimedOut(w.agent, turn.bound))
      else if PublishedByMe(w.published, turn.j.op) then Moment(Noted(w, SawMine(turn.j.op, w.published)), Proving(turn, |w.log|))
      else Moment(w, Writing(Stepped(turn.j, PublishIntent), Again(turn.bound)))
  {
    hide Durable;
  }

  lemma ProvingStep(w: World, turn: Turn, saw: nat, proof: Option<Evidence>)
    ensures Act(w, Proving(turn, saw), Saw(Read(proof))) ==
      if ProvesActivation(proof, turn.j.op.generation) then Moment(w, Committing(turn, proof.value, saw, turn.j.progress, PLANES))
      else Moment(w, Writing(Stepped(turn.j, ReloadIntent), Again(turn.bound)))
  {
    hide Durable;
  }

  lemma CommittingStep(w: World, turn: Turn, proof: Evidence, saw: nat, progress: PerPlane<Progress>, todo: seq<Plane>)
    requires todo != []
    ensures var t := TupleFor(turn.j.op, todo[0]);
      var c := CommitCall(t, proof);
      var d := Durable(w.agent, c);
      Act(w, Committing(turn, proof, saw, progress, todo), Yes) ==
        if d.Tripped? then Moment(w, Done)
        else if d.Refusal? then Moment(w, Committing(turn, proof, saw, Put(progress, todo[0], PlaneFailed), todo[1..]))
        else Moment(if CommitMoves(w.agent, t, proof) then Noted(After(w, c), MovedPlane(t, proof, saw)) else After(w, c),
                    Committing(turn, proof, saw, Put(progress, todo[0], PlaneCommitted), todo[1..]))
  {
    hide Durable, CommitMoves;
  }

  lemma CommittedStep(w: World, turn: Turn, proof: Evidence, saw: nat, progress: PerPlane<Progress>)
    ensures Act(w, Committing(turn, proof, saw, progress, []), Yes) == Moment(w, AfterCommits(turn, proof, progress))
  {
    hide Durable, AfterCommits;
  }

  /** Where the machine stands once every plane was staged or failed. */
  function StagedPc(turn: Turn, progress: PerPlane<Progress>, advanced: nat): Pc {
    if advanced == 0 then FailingPc(turn)
    else Writing(Stepped(turn.j, MembershipStaged).(progress := progress), Again(turn.bound))
  }

  lemma StagingStep(w: World, turn: Turn, progress: PerPlane<Progress>, todo: seq<Plane>, advanced: nat)
    requires todo != []
    ensures var c := StageCall(TupleFor(turn.j.op, todo[0]));
      var d := Durable(w.agent, c);
      Act(w, Staging(turn, progress, todo, advanced), Yes) ==
        if d.Saved? then Moment(After(w, c), Loading(turn, progress, todo, advanced))
        else if d.Refusal? then Moment(w, Staging(turn, Put(progress, todo[0], PlaneFailed), todo[1..], advanced))
        else Moment(w, Done)
  {
    hide Durable;
  }

  lemma LoadingStep(w: World, turn: Turn, progress: PerPlane<Progress>, todo: seq<Plane>, advanced: nat, loaded: Answer)
    requires todo != []
    ensures var e := DidStage(turn.j.op, todo[0], turn.head);
      Act(w, Loading(turn, progress, todo, advanced), loaded) ==
        if loaded == Yes then Moment(Noted(w, e), Staging(turn, Put(progress, todo[0], PlaneStaged), todo[1..], advanced + 1))
        else if loaded == Late then Moment(Noted(w, e), TimedOut(w.agent, turn.bound))
        else Moment(w, Staging(turn, Put(progress, todo[0], PlaneFailed), todo[1..], advanced))
  {
    hide Durable;
  }

  lemma StagedStep(w: World, turn: Turn, progress: PerPlane<Progress>, advanced: nat)
    ensures Act(w, Staging(turn, progress, [], advanced), Yes) == Moment(w, StagedPc(turn, progress, advanced))
  {
    hide Durable;
  }

  lemma LookingStep(w: World, turn: Turn, answer: Answer)
    ensures Act(w, LookingUp(turn), answer) == Moment(w,
      if answer == Late then TimedOut(w.agent, turn.bound)
      else if PublishedByMe(w.published, turn.j.op) then Writing(Stepped(turn.j, Published), Again(turn.bound))
      else Intending(turn))
  {
  }

  lemma WinningStep(w: World, turn: Turn, seen: Reading)
    ensures var c := WriteCall(Stepped(turn.j, turn.j.phase).(attempts := turn.j.attempts + 1));
      var v, d := After(w, c), Durable(w.agent, c);
      Act(w, Winning(turn, seen), Yes) ==
        if d.Saved? then Moment(Noted(v, WonAttempt(turn.j.opening, turn.j.attempts + 1)), Signalling(turn, |v.log|, seen))
        else Moment(w, if d == Refusal(JournalConflict) then Head(turn.bound) else Done)
  {
    hide Durable;
  }

  lemma SignallingStep(w: World, turn: Turn, won: nat, seen: Reading, sent: Answer)
    ensures Act(w, Signalling(turn, won, seen), sent) ==
      if sent == No then Moment(w, Done)
      else Moment(Noted(w, DidSignal(turn.j.op, turn.j.opening, won, seen, turn.head)),
                  if sent == Late then TimedOut(w.agent, turn.bound) else Awaiting(turn))
  {
    hide Durable;
  }

  lemma AwaitingStep(w: World, turn: Turn, seen: Option<Evidence>)
    ensures Act(w, Awaiting(turn), Saw(Read(seen))) == Moment(w, AfterAwait(w.agent, turn, seen))
  {
    hide Durable;
  }

  lemma IntentLeaves(s: State, r: Record)
    requires Durable(s, IntentCall(r)).Saved?
    ensures Durable(s, IntentCall(r)).state == s.(intent := Some(r))
  {
    hide GuardHolds;
  }

  lemma PublishedIsMine(op: Op)
    ensures PublishedByMe(OwnedBy(RecordOf(op)), op)
  {
  }

  lemma NothingProves(generation: Name)
    ensures !ProvesActivation(None, generation)
  {
  }

  lemma TidyToken(s: State, j: Journal)
    requires Tidy(s) && s.journal == Some(j)
    ensures j.op.id.token <= s.maxToken
  {
  }

  lemma ReachedIsTerminal(s: State, op: Op)
    ensures IsTerminal(ReachedPhase(s, op))
  {
    hide MovedByMe;
  }
}
