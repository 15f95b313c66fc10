/**
 * What holds in every run of the apply protocol: any number of calls of `run`, `recover` and
 * `abortConfig`, crashed or interleaved anywhere, under any successions, answers and late landings.
 */
module ApplyTheorems {
  import opened Wrappers
  import opened Operation
  import opened Agent
  import opened AgentGuard
  import opened ApplyMachine
  import opened ApplyInvariant
  import opened ApplySafety
  import opened ApplySteps

  // ------------------------------------------------------------------ the whole system stays good

  ghost predicate ActorsOk(w: World, actors: map<nat, Pc>) {
    && (forall a | a in actors :: PcOk(actors[a], w.agent, w.log) && (actors[a].Signalling? ==> Unspent(actors[a].won, w.log)))
    && (forall a, b | a in actors && b in actors && a != b ::
          actors[a].Signalling? && actors[b].Signalling? ==> actors[a].won != actors[b].won)
  }

  ghost predicate SystemOk(sys: System) {
    Good(sys.w) && ActorsOk(sys.w, sys.actors)
  }

  /** One actor took a step; everybody else keeps what it relies on. */
  lemma TurnKeeps(sys: System, who: nat, answer: Answer)
    requires SystemOk(sys) && who in sys.actors
    ensures SystemOk(Happened(sys, Turned(who, answer)))
    ensures var v := Happened(sys, Turned(who, answer)).w; Grows(sys.w.agent, v.agent) && sys.w.log <= v.log
  {
    hide Good, PcOk, Act, Grows;
    var w, pc := sys.w, sys.actors[who];
    var m := Act(w, pc, answer);
    EveryStep(w, pc, answer);
    GoodKept(m.w);
    forall a | a in sys.actors && a != who
      ensures PcOk(sys.actors[a], m.w.agent, m.w.log)
      ensures sys.actors[a].Signalling? ==> Unspent(sys.actors[a].won, m.w.log) && sys.actors[a].won < |w.log|
    {
      PcGrows(sys.actors[a], w.agent, m.w.agent, w.log, m.w.log);
      if sys.actors[a].Signalling? { HeldIsOld(sys.actors[a], w.agent, w.log); StillUnspent(w, pc, m, sys.actors[a].won); }
    }
  }

  lemma GoodKept(w: World)
    requires Good(w)
    ensures Kept(w.agent, w.log)
  {
  }

  lemma HeldIsOld(pc: Pc, s: State, log: seq<Event>)
    requires pc.Signalling? && PcOk(pc, s, log)
    ensures pc.won < |log|
  {
    hide TurnOk;
  }

  lemma StillUnspent(w: World, pc: Pc, m: Moment, won: nat)
    requires w.log <= m.w.log && SpendsOwn(w, pc, m) && Unspent(won, w.log)
    requires pc.Signalling? ==> pc.won != won
    ensures Unspent(won, m.w.log)
  {
    forall k | 0 <= k < |m.w.log| && m.w.log[k].DidSignal? ensures m.w.log[k].won != won {
      if k < |w.log| { assert m.w.log[k] == w.log[k]; }
    }
  }

  /** A section saved by somebody who is no actor: a fence, a health move. */
  lemma OutsideKeeps(sys: System, c: Call)
    requires SystemOk(sys) && (c.FenceCall? || c.HealthCall?)
    ensures SystemOk(sys.(w := After(sys.w, c)))
    ensures Grows(sys.w.agent, After(sys.w, c).agent) && sys.w.log <= After(sys.w, c).log
  {
    hide Good, PcOk, Grows, Durable;
    if Durable(sys.w.agent, c).Saved? {
      SavedGood(sys.w, c);
      GoodKept(After(sys.w, c));
      forall a | a in sys.actors
        ensures PcOk(sys.actors[a], After(sys.w, c).agent, After(sys.w, c).log)
      {
        PcGrows(sys.actors[a], sys.w.agent, After(sys.w, c).agent, sys.w.log, After(sys.w, c).log);
      }
      assert After(sys.w, c).log == sys.w.log;
    } else {
      Unsaved(sys.w, c);
      GrowsRefl(sys.w.agent);
    }
  }

  lemma SystemStep(sys: System, h: Happening)
    requires SystemOk(sys)
    ensures SystemOk(Happened(sys, h))
    ensures Grows(sys.w.agent, Happened(sys, h).w.agent) && sys.w.log <= Happened(sys, h).w.log
  {
    hide Kept, HistoryOk, WinsOk, After, Act;
    GrowsRefl(sys.w.agent);
    match h
    case Turned(who, answer) => if who in sys.actors { TurnKeeps(sys, who, answer); }
    case FencedBy(token) => OutsideKeeps(sys, FenceCall(token));
    case HealthMoved(t) => OutsideKeeps(sys, HealthCall(t));
    case Start(who, pc) => if IsEntry(pc) { EntryPcOk(pc, sys.w.agent, sys.w.log); }
    case Crash(who) =>
    case Drift(published) =>
  }

  lemma EntryPcOk(pc: Pc, s: State, log: seq<Event>)
    requires IsEntry(pc)
    ensures PcOk(pc, s, log) && !pc.Signalling?
  {
  }

  lemma {:induction false} EveryRunIsGood(published: PublishedState, run: seq<Happening>)
    ensures SystemOk(RunOf(published, run))
    decreases |run|
  {
    hide SystemOk, Happened;
    if run == [] {
      InitiallyGood(published);
    } else {
      EveryRunIsGood(published, run[..|run| - 1]);
      SystemStep(RunOf(published, run[..|run| - 1]), run[|run| - 1]);
    }
  }

  lemma InitiallyGood(published: PublishedState)
    ensures SystemOk(Initial(published))
  {
  }

  /** Later in a run the history has only been added to. */
  lemma {:induction false} HistoryOnlyGrows(published: PublishedState, run: seq<Happening>, more: seq<Happening>)
    ensures RunOf(published, run).w.log <= RunOf(published, run + more).w.log
    decreases |more|
  {
    hide Happened, SystemOk, Grows;
    if more == [] {
      assert run + more == run;
    } else {
      var most := run + more[..|more| - 1];
      HistoryOnlyGrows(published, run, more[..|more| - 1]);
      EveryRunIsGood(published, most);
      assert (run + more)[..|run + more| - 1] == most;
      SystemStep(RunOf(published, most), more[|more| - 1]);
    }
  }

  // ------------------------------------------------------------------ activation is proven

  /**
   * The plane was moved by this very tuple, on evidence that proves its generation, after the
   * published record was read back naming the operation, after a preflight that passed.
   */
  ghost predicate MovedAfterProof(log: seq<Event>, t: Tuple) {
    exists f, saw, c :: 0 <= f < saw < c < |log| && MoveStory(log[f], log[saw], log[c], t)
  }

  ghost predicate MoveStory(passed: Event, looked: Event, moved: Event, t: Tuple) {
    && moved.MovedPlane? && moved.tuple == t
    && moved.proof.accepting == Some(t.generation) && moved.proof.configTestPassed != Some(false)
    && (moved.proof.errorLogGrowth.Some? ==> moved.proof.errorLogGrowth.value <= 0)
    && (moved.proof.workersExpected.Some? && moved.proof.workersReported.Some? ==>
          moved.proof.workersReported.value >= moved.proof.workersExpected.value)
    && looked.SawMine? && looked.seen == OwnedBy(Record(t.generation, t.id, t.digest))
    && passed == PassedPreflight(looked.op)
  }

  lemma ProvenHasStory(log: seq<Event>, t: Tuple)
    requires MovesOk(log) && Proven(log, t)
    ensures MovedAfterProof(log, t)
  {
    var c :| 0 <= c < |log| && log[c].MovedPlane? && log[c].tuple == t;
    var saw := log[c].saw;
    assert MoveOk(log, c) && LookOk(log, saw);
    var f :| 0 <= f < saw && log[f] == PassedPreflight(log[saw].op);
    assert MoveStory(log[f], log[saw], log[c], t);
  }

  /**
   * The journal says `activated` only when both planes were moved that way, or when an abort whose
   * envelope left out a plane closed this very opening of it.
   */
  lemma ActivatedOnlyAfterProof(published: PublishedState, run: seq<Happening>)
    ensures var w := RunOf(published, run).w;
      w.agent.journal.Some? && w.agent.journal.value.phase == Activated ==>
        var j := w.agent.journal.value;
        || (MovedAfterProof(w.log, TupleFor(j.op, Http)) && MovedAfterProof(w.log, TupleFor(j.op, Stream)))
        || (exists i :: 0 <= i < |w.log| && w.log[i].ClosedOver? && w.log[i].id == j.op.id && w.log[i].opening == j.opening
                        && !NamesBoth(w.log[i].scope))
  {
    var w := RunOf(published, run).w;
    hide RunOf, MovedAfterProof, Proven;
    GoodWorld(published, run);
    if w.agent.journal.Some? && w.agent.journal.value.phase == Activated {
      var j := w.agent.journal.value;
      ActivatedProven(w);
      if ProvenBoth(w.log, j.op) {
        ProvenHasStory(w.log, TupleFor(j.op, Http));
        ProvenHasStory(w.log, TupleFor(j.op, Stream));
      } else {
        OverLeavesOut(w, j.op.id, j.opening);
      }
    }
  }

  lemma OverLeavesOut(w: World, id: Identity, opening: nat)
    requires HistoryOk(w.log) && WasClosedOver(w.log, id, opening)
    ensures exists i :: 0 <= i < |w.log| && w.log[i].ClosedOver? && w.log[i].id == id && w.log[i].opening == opening
                        && !NamesBoth(w.log[i].scope)
  {
    hide MovesOk, EffectOk, SignalOk;
  }

  lemma GoodWorld(published: PublishedState, run: seq<Happening>)
    ensures Good(RunOf(published, run).w)
  {
    hide RunOf, Good;
    EveryRunIsGood(published, run);
  }

  lemma ActivatedProven(w: World)
    requires Good(w) && w.agent.journal.Some? && w.agent.journal.value.phase == Activated
    ensures ActivatedTrue(w.agent.journal.value, w.log) && HistoryOk(w.log)
  {
  }

  /** A plane carries an operation's signature only if that operation moved it there, on proof. */
  lemma SignedOnlyAfterProof(published: PublishedState, run: seq<Happening>, p: Plane)
    ensures var w := RunOf(published, run).w;
      w.agent.planes.At(p).author.Some? ==>
        exists t: Tuple :: t.id == w.agent.planes.At(p).author.value && t.plane == p
          && t.move.target.epoch == w.agent.planes.At(p).at.epoch && MovedAfterProof(w.log, t)
  {
    var w := RunOf(published, run).w;
    GoodWorld(published, run);
    hide RunOf, MovedAfterProof, Proven;
    if w.agent.planes.At(p).author.Some? {
      var id := w.agent.planes.At(p).author.value;
      assert PlaneOk(w.agent.planes.At(p), p, w.agent.done, w.log);
      assert RecordOk(w.agent.done, w.log, StepKey(id, p, Reserve));
      ProvenHasStory(w.log, w.agent.done[StepKey(id, p, Reserve)]);
    }
  }

  /** The baseline a rollback returns to was itself moved to on both planes, on proof, under its own name. */
  lemma BaselineWasReached(published: PublishedState, run: seq<Happening>)
    ensures var w := RunOf(published, run).w;
      w.agent.baseline.Some? ==>
        exists h: Tuple, t: Tuple :: h.plane == Http && t.plane == Stream
          && h.id == t.id == w.agent.baseline.value.id
          && Record(h.generation, h.id, h.digest) == w.agent.baseline.value == Record(t.generation, t.id, t.digest)
          && MovedAfterProof(w.log, h) && MovedAfterProof(w.log, t)
  {
    var w := RunOf(published, run).w;
    GoodWorld(published, run);
    hide RunOf, MovedAfterProof, Proven;
    if w.agent.baseline.Some? {
      var id := w.agent.baseline.value.id;
      var kh, kt := StepKey(id, Http, Reserve), StepKey(id, Stream, Reserve);
      assert BaselineOk(w.agent.baseline, w.agent.done, w.log);
      assert RecordOk(w.agent.done, w.log, kh) && RecordOk(w.agent.done, w.log, kt);
      ProvenHasStory(w.log, w.agent.done[kh]);
      ProvenHasStory(w.log, w.agent.done[kt]);
    }
  }

  // ------------------------------------------------------------------ signals

  /** The signals sent for one opening of the journal. */
  ghost function SignalsOf(log: seq<Event>, opening: nat): set<nat> {
    set k: nat | k < |log| && log[k].DidSignal? && log[k].opening == opening
  }

  /**
   * Whatever crashes, recovers or races, one opening of the journal is signalled at most
   * RELOAD_ATTEMPT_LIMIT times.
   */
  lemma SignalsAreBounded(published: PublishedState, run: seq<Happening>, opening: nat)
    ensures |SignalsOf(RunOf(published, run).w.log, opening)| <= RELOAD_ATTEMPT_LIMIT == 2
  {
    var w := RunOf(published, run).w;
    GoodWorld(published, run);
    hide RunOf, Kept;
    SignalsCount(w, opening);
  }

  lemma SignalsCount(w: World, opening: nat)
    requires HistoryOk(w.log) && WinsOk(w.log, w.agent.journal)
    ensures |SignalsOf(w.log, opening)| <= RELOAD_ATTEMPT_LIMIT
  {
    hide EffectOk, MovesOk;
    var signals := SignalsOf(w.log, opening);
    forall k | k in signals ensures SpentAttempt(w.log, k) in {1, 2} {
      assert SignalOk(w.log, k) && WinOk(w.log[w.log[k].won], w.agent.journal);
    }
    forall i, k | i in signals && k in signals && i != k ensures SpentAttempt(w.log, i) != SpentAttempt(w.log, k) {
      DifferentAttempts(w, i, k);
    }
    InjectiveIntoTwo(signals, k => SpentAttempt(w.log, k));
  }

  ghost function SpentAttempt(log: seq<Event>, k: nat): nat {
    if k < |log| && log[k].DidSignal? && log[k].won < |log| && log[log[k].won].WonAttempt? then log[log[k].won].attempt else 0
  }

  lemma DifferentAttempts(w: World, i: nat, k: nat)
    requires HistoryOk(w.log) && WinsOk(w.log, w.agent.journal) && i < |w.log| && k < |w.log| && i != k
    requires w.log[i].DidSignal? && w.log[k].DidSignal? && w.log[i].opening == w.log[k].opening
    ensures SpentAttempt(w.log, i) != SpentAttempt(w.log, k)
  {
    hide EffectOk, MovesOk;
    assert SignalOk(w.log, i) && SignalOk(w.log, k);
    var a, b := w.log[i].won, w.log[k].won;
    assert a != b;
    if a < b { assert Later(w.log[a], w.log[b]); } else { assert Later(w.log[b], w.log[a]); }
  }

  lemma InjectiveIntoTwo(s: set<nat>, f: nat -> nat)
    requires forall k | k in s :: f(k) in {1, 2}
    requires forall i, k | i in s && k in s && i != k :: f(i) != f(k)
    ensures |s| <= 2
  {
    if s != {} {
      var a :| a in s;
      var others := s - {a};
      assert |others| == |s| - 1;
      if others != {} {
        var b :| b in others;
        assert others == {b};
      }
    }
  }

  /**
   * Once an attempt of this opening was recorded, a signal that spends a later attempt was
   * preceded by a read of the engine that succeeded and did not show the target generation.
   */
  lemma RepeatNeedsAReading(published: PublishedState, run: seq<Happening>, first: nat, k: nat)
    requires var log := RunOf(published, run).w.log;
      && first < k < |log| && log[k].DidSignal? && log[first].WonAttempt?
      && log[first].opening == log[k].opening && first < log[k].won
    ensures SawOld(RunOf(published, run).w.log[k].before, RunOf(published, run).w.log[k].op.generation)
  {
    var w := RunOf(published, run).w;
    GoodWorld(published, run);
    hide RunOf, Kept, EffectOk, MovesOk;
    assert SignalOk(w.log, k);
    assert Later(w.log[first], w.log[w.log[k].won]);
    assert WinOk(w.log[first], w.agent.journal);
  }

  // ------------------------------------------------------------------ effects, preflight and abort

  /** Nothing is published, staged or signalled before a preflight of that operation passed. */
  lemma EffectsAfterPreflight(published: PublishedState, run: seq<Happening>, k: nat)
    requires k < |RunOf(published, run).w.log| && IsEffect(RunOf(published, run).w.log[k])
    ensures var log := RunOf(published, run).w.log; exists f :: 0 <= f < k && log[f] == PassedPreflight(log[k].op)
  {
    GoodWorld(published, run);
    hide RunOf, Kept;
    assert EffectOk(RunOf(published, run).w.log, k);
  }

  /** An iteration that starts after an abort mark, even on one plane only, has no effects for that operation. */
  lemma MarkedHasNoEffects(published: PublishedState, run: seq<Happening>, mark: nat, k: nat)
    requires var log := RunOf(published, run).w.log;
      mark < k < |log| && IsEffect(log[k]) && log[mark] == MarkedAborted(log[k].op.id)
    ensures RunOf(published, run).w.log[k].head <= mark
  {
    GoodWorld(published, run);
    hide RunOf, Kept;
    var log := RunOf(published, run).w.log;
    assert EffectOk(log, k);
  }

  // ------------------------------------------------------------------ after a crash

  predicate HasTurn(pc: Pc) {
    PlainTurn(pc) || SignalTurn(pc) || CommitTurn(pc) || pc.Closing? || pc.Staging? || pc.Loading?
  }

  /** Every iteration an actor is in the middle of began at or after `base`. */
  predicate Since(pc: Pc, base: nat) { HasTurn(pc) ==> base <= pc.turn.head }

  ghost predicate EffectsSince(log: seq<Event>, from: nat, base: nat) {
    forall k :: from <= k < |log| && IsEffect(log[k]) ==> base <= log[k].head
  }

  lemma StepSince(w: World, pc: Pc, answer: Answer, base: nat)
    requires base <= |w.log| && Since(pc, base)
    ensures var m := Act(w, pc, answer); Since(m.pc, base) && w.log <= m.w.log && EffectsSince(m.w.log, |w.log|, base)
  {
    hide ActStage, ActReload, ActCommit, ActAbort, ActFail, AtHead, AtRecover, Must, FailingPc, TimedOut, Durable, After;
    if pc.Staging? || pc.Loading? { StageSince(w, pc, answer, base); }
    else if pc.ReadingWorld? || pc.Winning? || pc.Signalling? || pc.Awaiting? { ReloadSince(w, pc, answer, base); }
    else if pc.Confirming? || pc.Proving? || pc.Committing? { CommitSince(w, pc, answer, base); }
    else if AbortPc(pc) || FailPc(pc) { EndingSince(w, pc, base); }
    else { OtherSince(w, pc, answer, base); }
  }

  lemma EndingSince(w: World, pc: Pc, base: nat)
    requires base <= |w.log| && (AbortPc(pc) || FailPc(pc))
    ensures var m := if AbortPc(pc) then ActAbort(w, pc) else ActFail(w, pc);
      Since(m.pc, base) && w.log <= m.w.log && EffectsSince(m.w.log, |w.log|, base)
  {
    hide Durable, ReachedPhase, MovedByMe;
  }

  lemma OtherSince(w: World, pc: Pc, answer: Answer, base: nat)
    requires base <= |w.log| && Since(pc, base)
    requires ControlPc(pc) || pc.Done? || pc.Recovering? || pc.Head? || pc.Writing? || pc.Preflighting? || pc.LookingUp? || pc.Publishing?
    ensures var m := Act(w, pc, answer); Since(m.pc, base) && w.log <= m.w.log && EffectsSince(m.w.log, |w.log|, base)
  {
    hide ActStage, ActReload, ActCommit, ActAbort, ActFail, Durable, ReachedPhase, ClosedTransition, AssertOwnership,
         PublishedByMe;
  }

  lemma StageSince(w: World, pc: Pc, answer: Answer, base: nat)
    requires base <= |w.log| && Since(pc, base) && (pc.Staging? || pc.Loading?)
    ensures var m := ActStage(w, pc, answer); Since(m.pc, base) && w.log <= m.w.log && EffectsSince(m.w.log, |w.log|, base)
  {
    hide Durable, OwnsJournal;
  }

  lemma ReloadSince(w: World, pc: Pc, answer: Answer, base: nat)
    requires base <= |w.log| && Since(pc, base) && (pc.ReadingWorld? || pc.Winning? || pc.Signalling? || pc.Awaiting?)
    ensures var m := ActReload(w, pc, answer); Since(m.pc, base) && w.log <= m.w.log && EffectsSince(m.w.log, |w.log|, base)
  {
    hide Durable, OwnsJournal, ProvesActivation;
  }

  lemma CommitSince(w: World, pc: Pc, answer: Answer, base: nat)
    requires base <= |w.log| && Since(pc, base) && (pc.Confirming? || pc.Proving? || pc.Committing?)
    ensures var m := ActCommit(w, pc, answer); Since(m.pc, base) && w.log <= m.w.log && EffectsSince(m.w.log, |w.log|, base)
  {
    hide Durable, OwnsJournal, ProvesActivation, PublishedByMe, CommitMoves;
  }

  ghost predicate AllSince(actors: map<nat, Pc>, base: nat) {
    forall a | a in actors :: Since(actors[a], base)
  }

  lemma HappenedSince(sys: System, h: Happening, base: nat)
    requires base <= |sys.w.log| && AllSince(sys.actors, base)
    ensures var n := Happened(sys, h);
      AllSince(n.actors, base) && sys.w.log <= n.w.log && EffectsSince(n.w.log, |sys.w.log|, base)
  {
    hide Act, Durable;
    match h
    case Turned(who, answer) => if who in sys.actors { StepSince(sys.w, sys.actors[who], answer, base); }
    case _ =>
  }

  lemma {:induction false} RunSince(published: PublishedState, run: seq<Happening>, more: seq<Happening>)
    requires AllSince(RunOf(published, run).actors, |RunOf(published, run).w.log|)
    ensures var base, n := |RunOf(published, run).w.log|, RunOf(published, run + more);
      AllSince(n.actors, base) && base <= |n.w.log| && EffectsSince(n.w.log, base, base)
    decreases |more|
  {
    hide Happened;
    if more == [] {
      assert run + more == run;
    } else {
      var most, base := run + more[..|more| - 1], |RunOf(published, run).w.log|;
      RunSince(published, run, more[..|more| - 1]);
      assert (run + more)[..|run + more| - 1] == most;
      HappenedSince(RunOf(published, most), more[|more| - 1], base);
    }
  }

  /** Every process has crashed (or finished): no actor is in the middle of anything. */
  predicate AllStopped(actors: map<nat, Pc>) {
    forall a | a in actors :: actors[a].Done?
  }

  /**
   * Once everything stopped with an abort mark on any plane of an operation, even half an
   * abort, nothing that is started afterwards publishes, stages or signals for it.
   */
  lemma AbortedStaysUntouched(published: PublishedState, run: seq<Happening>, more: seq<Happening>, id: Identity)
    requires AllStopped(RunOf(published, run).actors)
    requires IsAborted(RunOf(published, run).w.agent.ended, id)
    ensures var log, base := RunOf(published, run + more).w.log, |RunOf(published, run).w.log|;
      forall k :: base <= k < |log| && IsEffect(log[k]) ==> log[k].op.id != id
  {
    var w, v := RunOf(published, run).w, RunOf(published, run + more).w;
    HistoryOnlyGrows(published, run, more);
    RunSince(published, run, more);
    GoodWorld(published, run);
    GoodWorld(published, run + more);
    MarkIsNoted(w, id);
    hide RunOf, Kept;
    var i :| 0 <= i < |w.log| && w.log[i] == MarkedAborted(id);
    forall k | |w.log| <= k < |v.log| && IsEffect(v.log[k]) ensures v.log[k].op.id != id {
      assert EffectOk(v.log, k) && v.log[i] == MarkedAborted(id);
    }
  }

  lemma MarkIsNoted(w: World, id: Identity)
    requires Good(w) && IsAborted(w.agent.ended, id)
    ensures Occurred(w.log, MarkedAborted(id))
  {
  }

  // ------------------------------------------------------------------ the durable state over time

  /** Fences, verdicts and journal numbers never go back, and no record of a step is ever rewritten. */
  ghost predicate NeverBack(s: State, n: State) {
    && s.maxToken <= n.maxToken && JournalSeq(s) <= JournalSeq(n)
    && DoneGrows(s.done, n.done)
    && (forall k | k in s.ended :: k in n.ended && n.ended[k] == s.ended[k])
  }

  lemma {:induction false} NothingGoesBack(published: PublishedState, run: seq<Happening>, more: seq<Happening>)
    ensures NeverBack(RunOf(published, run).w.agent, RunOf(published, run + more).w.agent)
    decreases |more|
  {
    if more == [] {
      assert run + more == run;
    } else {
      var most := run + more[..|more| - 1];
      NothingGoesBack(published, run, more[..|more| - 1]);
      EveryRunIsGood(published, most);
      assert (run + more)[..|run + more| - 1] == most;
      hide Happened, SystemOk;
      SystemStep(RunOf(published, most), more[|more| - 1]);
    }
  }

  /** While one opening of the journal lasts: the operation stays, attempts are only added, and evidence once noted stays noted. */
  predicate SameOpeningGrows(s: State, n: State) {
    s.journal.Some? && n.journal.Some? && n.journal.value.opening == s.journal.value.opening ==>
      var j, e := s.journal.value, n.journal.value;
      e.op == j.op && j.attempts <= e.attempts && j.number <= e.number && (j.evidence.Some? ==> e.evidence.Some?)
  }

  lemma {:induction false} OpeningOnlyGrows(published: PublishedState, run: seq<Happening>, more: seq<Happening>)
    ensures var s, n := RunOf(published, run).w.agent, RunOf(published, run + more).w.agent;
      SameOpeningGrows(s, n) && (s.journal.Some? ==> n.journal.Some?)
    decreases |more|
  {
    hide RunOf, Good, NeverBack, SameOpeningGrows;
    if more == [] {
      assert run + more == run;
      GrowsFromItself(RunOf(published, run).w.agent);
    } else {
      var front, h := more[..|more| - 1], more[|more| - 1];
      OpeningOnlyGrows(published, run, front);
      NothingGoesBack(published, run, front);
      LastStepGrows(published, run + front, h);
      assert run + more == run + front + [h];
      GoodWorld(published, run);
      OpeningStep(RunOf(published, run).w, RunOf(published, run + front).w.agent, RunOf(published, run + more).w.agent);
    }
  }

  lemma GrowsFromItself(s: State)
    ensures SameOpeningGrows(s, s)
  {
  }

  lemma LastStepGrows(published: PublishedState, run: seq<Happening>, h: Happening)
    ensures JournalGrows(RunOf(published, run).w.agent, RunOf(published, run + [h]).w.agent)
  {
    hide Happened, SystemOk;
    EveryRunIsGood(published, run);
    assert (run + [h])[..|run|] == run;
    SystemStep(RunOf(published, run), h);
  }

  lemma OpeningStep(w: World, m: State, n: State)
    requires Good(w) && SameOpeningGrows(w.agent, m) && (w.agent.journal.Some? ==> m.journal.Some?)
    requires NeverBack(w.agent, m) && JournalGrows(m, n)
    ensures SameOpeningGrows(w.agent, n) && (w.agent.journal.Some? ==> n.journal.Some?)
  {
    hide Sound, DoneOk, SlotsOk, PlaneOk, EndedOk, MarksOk, CandidateOk, BaselineOk, HistoryOk, WinsOk;
  }

  /** In every run the store's invariant check fires exactly for a leader that skipped its fence. */
  lemma GuardFiresInRunsExactly(published: PublishedState, run: seq<Happening>, c: Call)
    requires Mutate(RunOf(published, run).w.agent, c).Accepted?
    ensures Durable(RunOf(published, run).w.agent, c).Tripped? <==> Unfenced(RunOf(published, run).w.agent, c)
  {
    var w := RunOf(published, run).w;
    GoodWorld(published, run);
    KeptIsSound(w.agent, w.log);
    hide RunOf, GuardHolds, Mutate, Sound, Kept, Unfenced;
    GuardFiresExactly(w.agent, c);
  }
}
