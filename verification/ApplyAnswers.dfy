/**
 * A runner acts on what the engine really said: along any steps taken by the engine's replies,
 * every passed preflight, publication, staging and signal of the history is backed by a reply to
 * that very question, and never by a refusal.
 */
module ApplyAnswers {
  import opened Wrappers
  import opened Operation
  import opened Agent
  import opened ApplyMachine
  import opened ApplySafety
  import opened ApplySteps
  import opened ApplyCrash
  import opened ApplyEngine

  // ------------------------------------------------------------------ backed by a reply

  /** Since reply number `from` the engine answered this question, with one of these answers. */
  predicate Told(heard: seq<Reply>, from: nat, q: Question, answers: set<Answer>) {
    exists i :: from <= i < |heard| && heard[i].question == q && heard[i].answer in answers
  }

  /** Since reply number `from` the engine was asked this, and did not refuse. */
  predicate Unrefused(heard: seq<Reply>, from: nat, q: Question) {
    exists i :: from <= i < |heard| && heard[i].question == q && heard[i].answer != No
  }

  /** The engine loaded this plane of this operation. */
  predicate Loaded(heard: seq<Reply>, from: nat, op: Op, p: Plane) { Told(heard, from, AskLoad(TupleFor(op, p)), {Yes}) }

  lemma ToldSplits(heard: seq<Reply>, more: seq<Reply>, from: nat, q: Question, answers: set<Answer>)
    requires heard <= more && from <= |heard|
    ensures Told(more, from, q, answers) <==> Told(heard, from, q, answers) || Told(more, |heard|, q, answers)
  {
    if i :| from <= i < |more| && more[i].question == q && more[i].answer in answers {
      if i < |heard| { assert heard[i] == more[i]; }
    }
    if i :| from <= i < |heard| && heard[i].question == q && heard[i].answer in answers { assert more[i] == heard[i]; }
  }

  /** Only this plane was asked about, so nothing was said of the other one. */
  lemma LoadedApart(heard: seq<Reply>, more: seq<Reply>, from: nat, op: Op, p: Plane, q: Plane)
    requires heard <= more && from <= |heard| && p != q
    requires forall i :: |heard| <= i < |more| ==> more[i].question == AskLoad(TupleFor(op, p))
    ensures Loaded(more, from, op, q) <==> Loaded(heard, from, op, q)
    ensures Loaded(more, from, op, p) <==> Loaded(heard, from, op, p) || Loaded(more, |heard|, op, p)
  {
    ToldSplits(heard, more, from, AskLoad(TupleFor(op, q)), {Yes});
    ToldSplits(heard, more, from, AskLoad(TupleFor(op, p)), {Yes});
    assert TupleFor(op, p).plane != TupleFor(op, q).plane;
  }

  lemma NothingLoaded(heard: seq<Reply>, op: Op, p: Plane)
    ensures !Loaded(heard, |heard|, op, p)
  {
  }

  lemma OneReplyLoads(heard: seq<Reply>, op: Op, p: Plane, answer: Answer)
    ensures Loaded(heard + [Reply(AskLoad(TupleFor(op, p)), answer)], |heard|, op, p) <==> answer == Yes
  {
    assert (heard + [Reply(AskLoad(TupleFor(op, p)), answer)])[|heard|].answer == answer;
  }

  /** Of the first planes, exactly the loaded ones count as staged; the others were not loaded yet. */
  predicate LoadedSoFar(heard: seq<Reply>, from: nat, op: Op, progress: PerPlane<Progress>, gone: nat) {
    && (if gone > 0 then progress.http == PlaneStaged <==> Loaded(heard, from, op, Http) else !Loaded(heard, from, op, Http))
    && (if gone > 1 then progress.stream == PlaneStaged <==> Loaded(heard, from, op, Stream) else !Loaded(heard, from, op, Stream))
  }

  /** How many of the planes gone through so far were staged. */
  function StagedCount(progress: PerPlane<Progress>, gone: nat): nat {
    (if gone > 0 && progress.http == PlaneStaged then 1 else 0) + if gone > 1 && progress.stream == PlaneStaged then 1 else 0
  }

  lemma LoadedAtFirst(heard: seq<Reply>, op: Op, progress: PerPlane<Progress>)
    ensures LoadedSoFar(heard, |heard|, op, progress, 0) && StagedCount(progress, 0) == 0
  {
    NothingLoaded(heard, op, Http);
    NothingLoaded(heard, op, Stream);
  }

  lemma StagedAll(heard: seq<Reply>, from: nat, op: Op, progress: PerPlane<Progress>)
    requires LoadedSoFar(heard, from, op, progress, |PLANES|)
    ensures progress.http == PlaneStaged <==> Loaded(heard, from, op, Http)
    ensures progress.stream == PlaneStaged <==> Loaded(heard, from, op, Stream)
    ensures StagedCount(progress, |PLANES|) == 0 <==> !Loaded(heard, from, op, Http) && !Loaded(heard, from, op, Stream)
  {
    hide Loaded;
  }

  /** After one more plane, asked about alone. */
  lemma LoadedNext(heard: seq<Reply>, more: seq<Reply>, from: nat, op: Op, progress: PerPlane<Progress>, progress': PerPlane<Progress>, gone: nat)
    requires gone < |PLANES| && heard <= more && from <= |heard| && LoadedSoFar(heard, from, op, progress, gone)
    requires forall i :: |heard| <= i < |more| ==> more[i].question == AskLoad(TupleFor(op, PLANES[gone]))
    requires progress'.At(PLANES[gone]) == PlaneStaged <==> Loaded(more, |heard|, op, PLANES[gone])
    requires forall p | p != PLANES[gone] :: progress'.At(p) == progress.At(p)
    ensures LoadedSoFar(more, from, op, progress', gone + 1)
    ensures StagedCount(progress', gone + 1) == StagedCount(progress, gone) + if progress'.At(PLANES[gone]) == PlaneStaged then 1 else 0
  {
    hide Loaded, TupleFor;
    assert PLANES[0] == Http && PLANES[1] == Stream;
    assert progress'.At(Http) == progress'.http && progress'.At(Stream) == progress'.stream;
    LoadedApart(heard, more, from, op, PLANES[gone], if gone == 0 then Stream else Http);
  }

  predicate Backs(heard: seq<Reply>, from: nat, e: Event) {
    && (e.PassedPreflight? ==> Told(heard, from, AskPreflight(e.op), {Yes}))
    && (e.DidStage? ==> Told(heard, from, AskLoad(TupleFor(e.op, e.plane)), {Yes, Late}))
    && (e.DidPublish? ==> Unrefused(heard, from, AskPublish(RecordOf(e.op))))
    && (e.DidSignal? ==> Unrefused(heard, from, AskSignal))
  }

  /** Everything the history gained since is backed by what the engine said since. */
  ghost predicate Answered(log: seq<Event>, heard: seq<Reply>, log': seq<Event>, heard': seq<Reply>) {
    && log <= log' && heard <= heard'
    && forall k :: |log| <= k < |log'| ==> Backs(heard', |heard|, log'[k])
  }

  // ------------------------------------------------------------------ one step

  predicate Plain(e: Event) { !e.PassedPreflight? && !IsEffect(e) }

  ghost predicate PlainSince(log: seq<Event>, from: nat) {
    forall k :: from <= k < |log| ==> Plain(log[k])
  }

  lemma ReloadIsBacked(w: World, pc: Pc, answer: Answer)
    requires pc.ReadingWorld? || pc.Winning? || pc.Signalling? || pc.Awaiting?
    ensures var m := ActReload(w, pc, answer);
      w.log <= m.w.log && if pc.Signalling? && answer != No then |m.w.log| == |w.log| + 1 && m.w.log[|w.log|].DidSignal? else PlainSince(m.w.log, |w.log|)
  {
    hide Durable, OwnsJournal, ProvesActivation;
  }

  lemma StageIsBacked(w: World, pc: Pc, answer: Answer)
    requires pc.Staging? || pc.Loading?
    ensures var m := ActStage(w, pc, answer);
      w.log <= m.w.log
      && if pc.Loading? && pc.todo != [] && (answer == Yes || answer == Late)
         then m.w.log == w.log + [DidStage(pc.turn.j.op, pc.todo[0], pc.turn.head)] else PlainSince(m.w.log, |w.log|)
  {
    hide Durable, OwnsJournal;
  }

  lemma CommitIsPlain(w: World, pc: Pc, answer: Answer)
    requires pc.Confirming? || pc.Proving? || pc.Committing?
    ensures var m := ActCommit(w, pc, answer); w.log <= m.w.log && PlainSince(m.w.log, |w.log|)
  {
    hide Durable, OwnsJournal, ProvesActivation, PublishedByMe, CommitMoves;
  }

  lemma EndingIsPlain(w: World, pc: Pc)
    requires AbortPc(pc) || FailPc(pc)
    ensures var m := if AbortPc(pc) then ActAbort(w, pc) else ActFail(w, pc); w.log <= m.w.log && PlainSince(m.w.log, |w.log|)
  {
    hide Durable, ReachedPhase, MovedByMe;
  }

  lemma OtherIsPlain(w: World, pc: Pc, answer: Answer)
    requires ControlPc(pc) || pc.Done? || pc.Recovering? || pc.Head? || pc.Writing? || pc.LookingUp?
    ensures var m := Act(w, pc, answer); w.log <= m.w.log && PlainSince(m.w.log, |w.log|)
  {
    hide ActStage, ActReload, ActCommit, ActAbort, ActFail, Durable, AtHead, AtRecover, TimedOut, AssertOwnership, PublishedByMe;
  }

  /** The preflight counts as passed exactly on a yes. */
  lemma PreflightIsBacked(w: World, pc: Pc, answer: Answer)
    requires pc.Preflighting?
    ensures var m := Act(w, pc, answer);
      m.w.log == if answer == Yes && AssertOwnership(w.agent, pc.turn.j.op).Mine? then w.log + [PassedPreflight(pc.turn.j.op)] else w.log
  {
    hide ActStage, ActReload, ActCommit, ActAbort, ActFail, AssertOwnership, TimedOut;
  }

  lemma PublishIsBacked(w: World, pc: Pc, answer: Answer)
    requires pc.Publishing?
    ensures var m := Act(w, pc, answer);
      m.w.log == if answer != No then w.log + [DidPublish(pc.turn.j.op, pc.turn.head)] else w.log
  {
    hide ActStage, ActReload, ActCommit, ActAbort, ActFail, TimedOut;
  }

  lemma StepIsBacked(polls: nat, a: Scene, said: seq<Reply>)
    requires Listens(polls, a.pc, said)
    ensures Answered(a.w.log, a.heard, Act(a.w, a.pc, AnswerTo(a.pc, said)).w.log, a.heard + said)
  {
    hide Act, ActStage, ActReload, ActCommit, ActAbort, ActFail;
    var w, pc, answer := a.w, a.pc, AnswerTo(a.pc, said);
    Delegates(w, pc, answer);
    if pc.Preflighting? { PreflightIsBacked(w, pc, answer); assert (a.heard + said)[|a.heard|] == said[0]; }
    else if pc.Publishing? { PublishIsBacked(w, pc, answer); assert (a.heard + said)[|a.heard|] == said[0]; }
    else if pc.Staging? || pc.Loading? {
      StageIsBacked(w, pc, answer);
      if said != [] { assert (a.heard + said)[|a.heard|] == said[0]; }
    }
    else if pc.ReadingWorld? || pc.Winning? || pc.Signalling? || pc.Awaiting? {
      ReloadIsBacked(w, pc, answer);
      if said != [] { assert (a.heard + said)[|a.heard|] == said[0]; }
    }
    else if pc.Confirming? || pc.Proving? || pc.Committing? { CommitIsPlain(w, pc, answer); }
    else if AbortPc(pc) || FailPc(pc) { EndingIsPlain(w, pc); }
    else { OtherIsPlain(w, pc, answer); }
  }

  // ------------------------------------------------------------------ any number of steps

  lemma BackedOn(log: seq<Event>, heard: seq<Reply>, log': seq<Event>, heard': seq<Reply>, log'': seq<Event>, heard'': seq<Reply>)
    requires Answered(log, heard, log', heard') && Answered(log', heard', log'', heard'')
    ensures Answered(log, heard, log'', heard'')
  {
    hide Backs;
    forall k | |log| <= k < |log''| ensures Backs(heard'', |heard|, log''[k]) {
      if k < |log'| {
        assert log''[k] == log'[k];
        BackedLater(heard', heard'', |heard|, log''[k]);
      } else {
        BackedEarlier(heard'', |heard|, |heard'|, log''[k]);
      }
    }
  }

  lemma BackedLater(heard: seq<Reply>, more: seq<Reply>, from: nat, e: Event)
    requires heard <= more && Backs(heard, from, e)
    ensures Backs(more, from, e)
  {
    forall i | 0 <= i < |heard| ensures more[i] == heard[i] { }
  }

  lemma BackedEarlier(heard: seq<Reply>, from: nat, later: nat, e: Event)
    requires from <= later && Backs(heard, later, e)
    ensures Backs(heard, from, e)
  {
  }

  lemma {:induction false} PathIsBacked(polls: nat, a: Scene, path: seq<Nudge>)
    requires Heeds(polls, a, path)
    ensures var b := Steps(a, path); Answered(a.w.log, a.heard, b.w.log, b.heard)
    decreases |path|
  {
    hide Act, Listens, AnswerTo, Backs;
    if path != [] {
      var front, n := path[..|path| - 1], path[|path| - 1];
      PathIsBacked(polls, a, front);
      var k := Steps(a, front);
      if n.Took? {
        StepIsBacked(polls, k, n.said);
        BackedOn(a.w.log, a.heard, k.w.log, k.heard, Act(k.w, k.pc, AnswerTo(k.pc, n.said)).w.log, k.heard + n.said);
      }
    }
  }

  /**
   * Whoever acts on the replies of the engine alone: a preflight counts as passed, a plane as staged,
   * a record as published, a signal as sent only if the engine, asked just that, allowed it.
   */
  lemma RepliesBackEffects(polls: nat, a: Scene, b: Scene)
    requires Reaches(polls, a, b)
    ensures Answered(a.w.log, a.heard, b.w.log, b.heard)
  {
    hide Act, Steps, Heeds, Answered;
    var path :| Steps(a, path) == b && Heeds(polls, a, path);
    PathIsBacked(polls, a, path);
  }

  lemma NothingIsBacked(log: seq<Event>, heard: seq<Reply>)
    ensures Answered(log, heard, log, heard)
  {
  }
}
