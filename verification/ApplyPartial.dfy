/**
 * What a commit that is refused leads to (src/dp/apply.ts): the partner of the undisturbed run.
 * With one plane over and the other refused the operation stays open as partially activated and is
 * pushed again, until the other plane is over too or the retries are spent.
 */
module ApplyPartial {
  import opened Wrappers
  import opened Operation
  import opened Agent
  import opened AgentGuard
  import opened ApplyMachine
  import opened ApplyTidy
  import opened ApplyBooks
  import opened ApplyCrash
  import opened ApplyQuiet
  import opened ApplyRecovery

  // ------------------------------------------------------------------ the three ways a commit can go

  /** The operation put this plane where it is, and the commit is on record. */
  predicate Arrives(s: State, t: Tuple) {
    PlaneArrivedAs(s, t) && StepKey(t.id, t.plane, Commit) in s.done && s.done[StepKey(t.id, t.plane, Commit)] == t
  }

  /** Staged, and the plane is where the operation expects it. */
  predicate Prepared(s: State, t: Tuple) { PlaneHeld(s, t) && PlaneLoaded(s, t) }

  /** No verdict yet, but the plane is somewhere else than the operation expects it. */
  predicate Blocked(s: State, t: Tuple) {
    && EndKeyOf(t) !in s.ended && StepKey(t.id, t.plane, Commit) !in s.done
    && s.planes.At(t.plane).at != t.move.expected && s.planes.At(t.plane).author != Some(t.id)
  }

  predicate Fits(s: State, t: Tuple) { Arrives(s, t) || Prepared(s, t) || Blocked(s, t) }

  predicate BothFit(s: State, op: Op) { Fits(s, TupleFor(op, Http)) && Fits(s, TupleFor(op, Stream)) }

  /** The candidate of whoever has a plane already is this operation's own. */
  predicate Pends(s: State, op: Op) {
    Arrives(s, TupleFor(op, Http)) || Arrives(s, TupleFor(op, Stream)) ==>
      s.pending == Some(RecordOf(op)) && s.pendingEpochs == Some(EpochsOf(op))
  }

  /** The other plane looks the same before and after. */
  predicate SamePlane(s: State, n: State, t: Tuple) {
    && Arrives(n, t) == Arrives(s, t) && Prepared(n, t) == Prepared(s, t) && Blocked(n, t) == Blocked(s, t)
  }

  lemma ReplayWorks(w: World, t: Tuple, e: Evidence)
    requires Sound(w.agent) && Arrives(w.agent, t) && t.id.token == w.agent.maxToken
    ensures var c := CommitCall(t, e);
      Durable(w.agent, c) == Saved(w.agent) && After(w, c) == w && !CommitMoves(w.agent, t, e)
  {
    hide GuardHolds, Sound;
    assert CommitPlane(w.agent, t, e) == Accepted(w.agent) by { assert w.agent.(maxToken := w.agent.maxToken) == w.agent; }
    SavesIt(w.agent, CommitCall(t, e));
    assert w.log + [] == w.log;
  }

  lemma BlockedIsRefused(w: World, t: Tuple, e: Evidence)
    requires Blocked(w.agent, t) && t.id.token == w.agent.maxToken
    ensures Durable(w.agent, CommitCall(t, e)).Refusal? && After(w, CommitCall(t, e)) == w
  {
    hide GuardHolds;
  }

  /** What a commit step makes of its plane. */
  lemma CommitStepIs(w: World, turn: Turn, e: Evidence, saw: nat, progress: PerPlane<Progress>, todo: seq<Plane>)
    requires todo != []
    ensures var t := TupleFor(turn.j.op, todo[0]); var d := Durable(w.agent, CommitCall(t, e));
      var m := Act(w, Committing(turn, e, saw, progress, todo), Yes);
      && (d.Refusal? ==> m == Moment(w, Committing(turn, e, saw, Put(progress, todo[0], PlaneFailed), todo[1..])))
      && (d.Saved? && !CommitMoves(w.agent, t, e) ==>
            m == Moment(After(w, CommitCall(t, e)), Committing(turn, e, saw, Put(progress, todo[0], PlaneCommitted), todo[1..])))
  {
    hide Durable, After, CommitMoves;
  }

  /** A move leaves the other plane as it was, and arrives. */
  lemma MoveKeepsOther(s: State, t: Tuple, e: Evidence, other: Tuple)
    requires t.plane != other.plane && Prepared(s, t) && s.holder.Some? && s.holder.value.id == t.id
    ensures var n := Moved(s, t, e); Arrives(n, t) && SamePlane(s, n, other)
  {
    CommitMovesOnly(s, t, e, other);
    assert StepKey(t.id, t.plane, Commit) != StepKey(other.id, other.plane, Commit);
    assert EndKeyOf(t) != EndKeyOf(other) && KeyOf(t) != KeyOf(other);
  }

  // ------------------------------------------------------------------ one round of commits

  /** The operation holds the right and its journal, its publication is current, and both planes fit. */
  ghost predicate Pushing(w: World, op: Op, phase: Phase) {
    && Holding(w.agent, op) && w.agent.journal.value.phase == phase
    && w.published == OwnedBy(RecordOf(op)) && BothFit(w.agent, op) && Pends(w.agent, op)
  }

  /** Where a commit round has come to: this plane is decided, the other one as before. */
  ghost predicate Decided(w: World, n: World, op: Op, p: Plane, progress: PerPlane<Progress>) {
    && Holding(n.agent, op) && n.agent.journal == w.agent.journal && n.published == w.published
    && (forall q: Plane | q != p :: SamePlane(w.agent, n.agent, TupleFor(op, q)))
    && Pends(n.agent, op)
    && (if Blocked(w.agent, TupleFor(op, p)) then progress.At(p) == PlaneFailed && Blocked(n.agent, TupleFor(op, p))
        else progress.At(p) == PlaneCommitted && Arrives(n.agent, TupleFor(op, p)))
  }

  lemma PushesPlane(v: View, a: Moment, w: World, op: Op, p: Plane, turn: Turn, saw: nat, progress: PerPlane<Progress>, todo: seq<Plane>)
    returns (n: World, progress': PerPlane<Progress>)
    requires v.after.Some? && ProvesActivation(v.after, op.generation)
    requires Goes(v, a, Moment(w, Committing(turn, v.after.value, saw, progress, todo)))
    requires Holding(w.agent, op) && Fits(w.agent, TupleFor(op, p)) && Pends(w.agent, op)
    requires todo != [] && todo[0] == p && turn.j.op == op
    ensures Goes(v, a, Moment(n, Committing(turn, v.after.value, saw, progress', todo[1..])))
    ensures Decided(w, n, op, p, progress') && forall q: Plane | q != p :: progress'.At(q) == progress.At(q)
  {
    hide Goes, Sound, Durable, After, Moved, PlaneHeld, PlaneLoaded, PlaneArrivedAs, ProvesActivation, CommitMoves,
         CommitPlane, GuardHolds;
    hide Arrives, Blocked, Act;
    var t, e := TupleFor(op, p), v.after.value;
    var m := Moment(w, Committing(turn, e, saw, progress, todo));
    if Blocked(w.agent, t) {
      progress', n := Put(progress, p, PlaneFailed), w;
      BlockedIsRefused(w, t, e);
      CommitStepIs(w, turn, e, saw, progress, todo);
      AndOneStep(v, a, m);
    } else if Arrives(w.agent, t) {
      progress', n := Put(progress, p, PlaneCommitted), w;
      ReplayWorks(w, t, e);
      CommitStepIs(w, turn, e, saw, progress, todo);
      AndOneStep(v, a, m);
    } else {
      progress' := Put(progress, p, PlaneCommitted);
      n := CommitsPlane(v, a, w, op, p, turn, saw, progress, todo);
      MovesPlane(w, n, op, p, e);
    }
  }

  lemma MovesPlane(w: World, n: World, op: Op, p: Plane, e: Evidence)
    requires Holding(w.agent, op) && Prepared(w.agent, TupleFor(op, p))
    requires n == w.(agent := Moved(w.agent, TupleFor(op, p), e), log := n.log) && Sound(n.agent)
    ensures Holding(n.agent, op) && n.agent.journal == w.agent.journal && Pends(n.agent, op) && Arrives(n.agent, TupleFor(op, p))
    ensures forall q: Plane | q != p :: SamePlane(w.agent, n.agent, TupleFor(op, q))
    ensures !Blocked(w.agent, TupleFor(op, p))
  {
    hide Sound, Moved, Arrives, SamePlane;
    var q := if p == Http then Stream else Http;
    MoveKeepsOther(w.agent, TupleFor(op, p), e, TupleFor(op, q));
    CommitMovesOnly(w.agent, TupleFor(op, p), e, TupleFor(op, q));
    forall r: Plane | r != p ensures SamePlane(w.agent, n.agent, TupleFor(op, r)) { assert r == q; }
  }

  /** The publication is confirmed, the generation proven, and every plane pushed. */
  lemma PushesBoth(v: View, w: World, op: Op) returns (x: World, turn: Turn, progress: PerPlane<Progress>)
    requires Pushing(w, op, ReloadObserved) && v.after.Some? && ProvesActivation(v.after, op.generation)
    ensures turn.bound == op && turn.j == w.agent.journal.value
    ensures Goes(v, Moment(w, Head(op)), Moment(x, AfterCommits(turn, v.after.value, progress)))
    ensures Holding(x.agent, op) && x.agent.journal == w.agent.journal && x.published == w.published && Pends(x.agent, op)
    ensures forall p: Plane :: if Blocked(w.agent, TupleFor(op, p)) then progress.At(p) == PlaneFailed && Blocked(x.agent, TupleFor(op, p))
                               else progress.At(p) == PlaneCommitted && Arrives(x.agent, TupleFor(op, p))
  {
    hide Goes, Sound, Durable, After, ProvesActivation, Act, Arrives, Prepared, Blocked;
    var a, j := Moment(w, Head(op)), w.agent.journal.value;
    turn := Turn(op, j, |w.log|);
    var y := Noted(w, SawMine(op, w.published));
    Confirms(v, w, op, turn);
    var x1, p1 := PushesPlane(v, a, y, op, Http, turn, |w.log|, j.progress, PLANES);
    assert PLANES[1..] == [Stream] && [Stream][1..] == [];
    var x2, p2 := PushesPlane(v, a, x1, op, Stream, turn, |w.log|, p1, [Stream]);
    x, progress := x2, p2;
    AllPushed(v, a, x, turn, v.after.value, |w.log|, progress);
    assert SamePlane(y.agent, x1.agent, TupleFor(op, Stream)) && SamePlane(x1.agent, x2.agent, TupleFor(op, Http));
    forall p: Plane
      ensures if Blocked(w.agent, TupleFor(op, p)) then progress.At(p) == PlaneFailed && Blocked(x.agent, TupleFor(op, p))
              else progress.At(p) == PlaneCommitted && Arrives(x.agent, TupleFor(op, p))
    {
      assert p == Http || p == Stream;
    }
  }

  lemma Confirms(v: View, w: World, op: Op, turn: Turn)
    requires Pushing(w, op, ReloadObserved) && v.after.Some? && ProvesActivation(v.after, op.generation)
    requires turn == Turn(op, w.agent.journal.value, |w.log|)
    ensures Goes(v, Moment(w, Head(op)), Moment(Noted(w, SawMine(op, w.published)), Committing(turn, v.after.value, |w.log|, turn.j.progress, PLANES)))
  {
    hide Goes, Sound, ProvesActivation, Fits, Durable, After;
    var a, y := Moment(w, Head(op)), Noted(w, SawMine(op, w.published));
    NotClosed(w.agent, op);
    hide ClosedTransition, AssertOwnership;
    OneStep(v, a);
    AndOneStep(v, a, Moment(w, Confirming(turn)));
    AndOneStep(v, a, Moment(y, Proving(turn, |w.log|)));
  }

  lemma NotClosed(s: State, op: Op)
    requires Holding(s, op) && BothFit(s, op)
    ensures !ClosedTransition(s, op) && AssertOwnership(s, op).Mine?
  {
    hide Sound;
  }

  lemma AllPushed(v: View, a: Moment, x: World, turn: Turn, e: Evidence, saw: nat, progress: PerPlane<Progress>)
    requires Goes(v, a, Moment(x, Committing(turn, e, saw, progress, [])))
    ensures Goes(v, a, Moment(x, AfterCommits(turn, e, progress)))
  {
    hide Goes, AfterCommits, Durable;
    AndOneStep(v, a, Moment(x, Committing(turn, e, saw, progress, [])));
  }

  // ------------------------------------------------------------------ how a round ends

  function Other(p: Plane): Plane { if p == Http then Stream else Http }

  /** Partially activated: this plane is over, the other one is not. */
  ghost predicate Partly(w: World, op: Op, p: Plane) {
    && Pushing(w, op, PartiallyActivated) && Arrives(w.agent, TupleFor(op, p)) && !Arrives(w.agent, TupleFor(op, Other(p)))
    && w.agent.journal.value.progress.At(p) == PlaneCommitted && w.agent.journal.value.progress.At(Other(p)) == PlaneFailed
  }

  lemma ApartFromJournal(s: State, entry: Journal, t: Tuple)
    ensures SamePlane(s, s.(journal := Some(entry)), t)
  {
  }

  /** One plane over, the other refused: the journal stays open as partially activated. */
  lemma RoundLeavesPartly(v: View, w: World, op: Op, p: Plane) returns (n: World)
    requires Pushing(w, op, ReloadObserved) && v.after.Some? && ProvesActivation(v.after, op.generation)
    requires !Blocked(w.agent, TupleFor(op, p)) && Blocked(w.agent, TupleFor(op, Other(p)))
    ensures Goes(v, Moment(w, Head(op)), Moment(n, Head(op)))
    ensures Partly(n, op, p) && Blocked(n.agent, TupleFor(op, Other(p))) && Attempts(n.agent) == Attempts(w.agent)
  {
    hide Goes, Sound, Durable, After, ProvesActivation, Act;
    var x, turn, progress := PushesBoth(v, w, op);
    var entry := Stepped(turn.j, PartiallyActivated).(progress := progress, evidence := v.after);
    assert progress.At(p) == PlaneCommitted && progress.At(Other(p)) == PlaneFailed;
    assert AfterCommits(turn, v.after.value, progress) == Writing(entry, Again(op));
    Writes(x, op, entry, Again(op), Yes);
    AndOneStep(v, Moment(w, Head(op)), Moment(x, Writing(entry, Again(op))));
    n := Noting(x, entry);
    ApartFromJournal(x.agent, entry, TupleFor(op, p));
    ApartFromJournal(x.agent, entry, TupleFor(op, Other(p)));
    BlockedHasNot(x.agent, TupleFor(op, Other(p)));
  }

  lemma BlockedHasNot(s: State, t: Tuple)
    requires Blocked(s, t)
    ensures !Arrives(s, t) && !MovedHere(s, t)
  {
  }

  predicate MovedHere(s: State, t: Tuple) {
    s.planes.At(t.plane).at.epoch == t.move.target.epoch && s.planes.At(t.plane).author == Some(t.id)
  }

  /** Within the limit a partial activation is pushed again, and counted. */
  lemma GoesBack(v: View, w: World, op: Op, p: Plane) returns (n: World)
    requires Partly(w, op, p) && Attempts(w.agent) < RELOAD_ATTEMPT_LIMIT + PARTIAL_RETRY_LIMIT
    ensures Goes(v, Moment(w, Head(op)), Moment(n, Head(op)))
    ensures Pushing(n, op, ReloadObserved) && Attempts(n.agent) == Attempts(w.agent) + 1
    ensures forall q: Plane :: SamePlane(w.agent, n.agent, TupleFor(op, q))
  {
    hide Goes, Sound, Durable, After, Arrives, Prepared, Blocked;
    var a, j := Moment(w, Head(op)), w.agent.journal.value;
    var entry := Stepped(j, ReloadObserved).(attempts := j.attempts + 1);
    NotClosed(w.agent, op);
    assert Other(p) in Stuck(j) by { assert Other(p) in PLANES; }
    hide ClosedTransition, AssertOwnership;
    OneStep(v, a);
    Writes(w, op, entry, Again(op), Yes);
    hide Act;
    AndOneStep(v, a, Moment(w, Writing(entry, Again(op))));
    n := Noting(w, entry);
    forall q: Plane ensures SamePlane(w.agent, n.agent, TupleFor(op, q)) { ApartFromJournal(w.agent, entry, TupleFor(op, q)); }
    assert SamePlane(w.agent, n.agent, TupleFor(op, Http)) && SamePlane(w.agent, n.agent, TupleFor(op, Stream));
  }

  /** Closed for good: this plane is over, the other one never moved and holds nothing any more. */
  predicate GaveUp(s: State, op: Op, p: Plane) {
    && s.journal.Some? && s.journal.value.op == op && s.journal.value.phase == PartialExhausted && s.holder.None?
    && Arrives(s, TupleFor(op, p)) && Blocked(s, TupleFor(op, Other(p))) && !OwnsSlot(s, TupleFor(op, Other(p)))
  }

  /** With the retries spent it is closed as partially exhausted, and everything is given back. */
  lemma GivesUp(v: View, w: World, op: Op, p: Plane) returns (n: World)
    requires Partly(w, op, p) && Blocked(w.agent, TupleFor(op, Other(p)))
    requires Attempts(w.agent) >= RELOAD_ATTEMPT_LIMIT + PARTIAL_RETRY_LIMIT
    ensures Goes(v, Moment(w, Head(op)), Moment(n, Done)) && GaveUp(n.agent, op, p) && Attempts(n.agent) == Attempts(w.agent)
  {
    hide Goes, Sound, Durable, After, Arrives, Prepared, Blocked;
    var a, j := Moment(w, Head(op)), w.agent.journal.value;
    var entry, next := Stepped(j, PartialExhausted), ThenFinish(op, Stuck(j), None);
    NotClosed(w.agent, op);
    assert Other(p) in Stuck(j) by { assert Other(p) in PLANES; }
    hide ClosedTransition, AssertOwnership;
    OneStep(v, a);
    Writes(w, op, entry, next, Yes);
    hide Act;
    AndOneStep(v, a, Moment(w, Writing(entry, next)));
    var y := Noting(w, entry);
    ApartFromJournal(w.agent, entry, TupleFor(op, p));
    ApartFromJournal(w.agent, entry, TupleFor(op, Other(p)));
    n := LetsGo(y, op, Stuck(j), Stop);
    AndOneStep(v, a, Moment(y, Finishing(op, Stuck(j), Stop)));
    AfterLettingGo(y.agent, n.agent, TupleFor(op, p));
    AfterLettingGo(y.agent, n.agent, TupleFor(op, Other(p)));
  }

  /** Finishing leaves records, verdicts and planes, and gives back the right and the slots that were named. */
  predicate LetGoOf(s: State, n: State, op: Op, release: set<Plane>) {
    && n.journal == s.journal && n.planes == s.planes && n.done == s.done && n.ended == s.ended && n.holder.None?
    && (forall k | k in n.slots :: k in s.slots && n.slots[k] == s.slots[k])
    && (forall q | q in release :: !OwnsSlot(n, TupleFor(op, q)))
  }

  lemma LetsGo(y: World, op: Op, release: set<Plane>, next: Next) returns (n: World)
    requires Holding(y.agent, op)
    ensures Act(y, Finishing(op, release, next), Yes) == Moment(n, Resume(next))
    ensures LetGoOf(y.agent, n.agent, op, release) && n.published == y.published
  {
    hide GuardHolds, Sound, FinishOperation, LetGoOf;
    var c := FinishCall(op, release);
    SavesIt(y.agent, c);
    n := After(y, c);
    FinishLetsGo(y.agent, op, release);
  }

  lemma FinishLetsGo(s: State, op: Op, release: set<Plane>)
    requires s.holder.Some? && s.holder.value.id == op.id
    ensures LetGoOf(s, FinishOperation(s, op, release), op, release)
  {
    hide JudgedBaseline;
  }

  lemma AfterLettingGo(s: State, n: State, t: Tuple)
    requires n.planes == s.planes && n.done == s.done && n.ended == s.ended
    requires forall k | k in n.slots :: k in s.slots && n.slots[k] == s.slots[k]
    ensures (Arrives(s, t) ==> Arrives(n, t)) && Blocked(n, t) == Blocked(s, t)
  {
  }

  /** Both planes over: activated. */
  lemma RoundActivates(v: View, w: World, op: Op) returns (n: World)
    requires Pushing(w, op, ReloadObserved) && v.after.Some? && ProvesActivation(v.after, op.generation)
    requires !Blocked(w.agent, TupleFor(op, Http)) && !Blocked(w.agent, TupleFor(op, Stream))
    ensures Goes(v, Moment(w, Head(op)), Moment(n, Done))
    ensures Finished(n.agent, op) && Attempts(n.agent) == Attempts(w.agent)
  {
    hide Goes, Sound, Durable, After, ProvesActivation, Act, Blocked;
    var x, turn, progress := PushesBoth(v, w, op);
    assert progress.At(Http) == PlaneCommitted && progress.At(Stream) == PlaneCommitted;
    n := Activates(v, Moment(w, Head(op)), x, op, turn, progress);
  }

  /** Both refused: failed, nothing moved, and everything is given back. */
  lemma RoundFails(v: View, w: World, op: Op) returns (n: World)
    requires Pushing(w, op, ReloadObserved) && v.after.Some? && ProvesActivation(v.after, op.generation)
    requires Blocked(w.agent, TupleFor(op, Http)) && Blocked(w.agent, TupleFor(op, Stream))
    ensures Goes(v, Moment(w, Head(op)), Moment(n, Done))
    ensures n.agent.journal.Some? && n.agent.journal.value.op == op && n.agent.journal.value.phase == Failed && n.agent.holder.None?
    ensures forall p: Plane :: Blocked(n.agent, TupleFor(op, p)) && !OwnsSlot(n.agent, TupleFor(op, p))
  {
    hide Goes, Sound, Durable, After, ProvesActivation, Blocked, Arrives, Prepared;
    var a := Moment(w, Head(op));
    var x, turn, progress := PushesBoth(v, w, op);
    assert progress.At(Http) == PlaneFailed && progress.At(Stream) == PlaneFailed;
    var entry := Stepped(turn.j, Failed).(progress := progress, evidence := v.after);
    var release := Stuck(entry);
    assert Http in release && Stream in release by { assert Http in PLANES && Stream in PLANES; }
    var next := ThenFinish(op, release, Some(op));
    assert AfterCommits(turn, v.after.value, progress) == Writing(entry, next);
    Writes(x, op, entry, next, Yes);
    AndOneStep(v, a, Moment(x, Writing(entry, next)));
    var y := Noting(x, entry);
    n := LetsGo(y, op, release, Again(op));
    AndOneStep(v, a, Moment(y, Finishing(op, release, Again(op))));
    AndOneStep(v, a, Moment(n, Head(op)));
    assert Act(n, Head(op), Yes) == Moment(n, Done);
    forall p: Plane ensures Blocked(n.agent, TupleFor(op, p)) && !OwnsSlot(n.agent, TupleFor(op, p)) {
      ApartFromJournal(x.agent, entry, TupleFor(op, p));
      AfterLettingGo(y.agent, n.agent, TupleFor(op, p));
      assert p == Http || p == Stream;
    }
  }

  // ------------------------------------------------------------------ the retries

  /**
   * Undisturbed, a partial activation is pushed again: if the other plane fits now and a retry is
   * left, the next round activates it; as long as it is refused, the rounds go on until the retries
   * are spent, and then the operation is closed as partially exhausted.
   */
  lemma {:induction false} PushedAgain(v: View, w: World, op: Op, p: Plane) returns (n: World)
    requires Partly(w, op, p) && v.after.Some? && ProvesActivation(v.after, op.generation)
    requires Blocked(w.agent, TupleFor(op, Other(p))) || Attempts(w.agent) < RELOAD_ATTEMPT_LIMIT + PARTIAL_RETRY_LIMIT
    ensures Goes(v, Moment(w, Head(op)), Moment(n, Done))
    ensures !Blocked(w.agent, TupleFor(op, Other(p))) ==> Finished(n.agent, op) && Attempts(n.agent) == Attempts(w.agent) + 1
    ensures Blocked(w.agent, TupleFor(op, Other(p))) ==>
      GaveUp(n.agent, op, p) && Attempts(n.agent) == Most(Attempts(w.agent), RELOAD_ATTEMPT_LIMIT + PARTIAL_RETRY_LIMIT)
    decreases RELOAD_ATTEMPT_LIMIT + PARTIAL_RETRY_LIMIT - Attempts(w.agent)
  {
    hide Goes, Pushing, Arrives, Prepared, Blocked, GaveUp, Finished, Attempts, ProvesActivation;
    var a := Moment(w, Head(op));
    if Attempts(w.agent) >= RELOAD_ATTEMPT_LIMIT + PARTIAL_RETRY_LIMIT {
      n := GivesUp(v, w, op, p);
    } else {
      var x := GoesBack(v, w, op, p);
      assert SamePlane(w.agent, x.agent, TupleFor(op, p)) && SamePlane(w.agent, x.agent, TupleFor(op, Other(p)));
      ArrivedIsNotBlocked(x.agent, TupleFor(op, p));
      if Blocked(w.agent, TupleFor(op, Other(p))) {
        var y := RoundLeavesPartly(v, x, op, p);
        Then(v, a, Moment(x, Head(op)), Moment(y, Head(op)));
        n := PushedAgain(v, y, op, p);
        Then(v, a, Moment(y, Head(op)), Moment(n, Done));
      } else {
        n := RoundActivates(v, x, op);
        Then(v, a, Moment(x, Head(op)), Moment(n, Done));
      }
    }
  }

  function Most(a: nat, b: nat): nat { if a < b then b else a }

  lemma ArrivedIsNotBlocked(s: State, t: Tuple)
    requires Arrives(s, t)
    ensures !Blocked(s, t)
  {
  }

  /**
   * The partner of the undisturbed run: with everything ready for the commits and one plane
   * refused, the operation goes through a partial activation, is pushed again until the retries are
   * spent, and ends partially exhausted, with the other plane moved and this one never touched.
   */
  lemma RefusedRunGivesUp(v: View, w: World, op: Op, p: Plane) returns (mid: World, n: World)
    requires Pushing(w, op, ReloadObserved) && v.after.Some? && ProvesActivation(v.after, op.generation)
    requires !Blocked(w.agent, TupleFor(op, p)) && Blocked(w.agent, TupleFor(op, Other(p)))
    ensures Goes(v, Moment(w, Head(op)), Moment(mid, Head(op))) && Partly(mid, op, p)
    ensures Goes(v, Moment(w, Head(op)), Moment(n, Done)) && GaveUp(n.agent, op, p)
    ensures Attempts(n.agent) == Most(Attempts(w.agent), 4)
  {
    hide Goes, Pushing, Partly, Blocked, GaveUp, Attempts, ProvesActivation;
    mid := RoundLeavesPartly(v, w, op, p);
    n := PushedAgain(v, mid, op, p);
    Then(v, Moment(w, Head(op)), Moment(mid, Head(op)), Moment(n, Done));
  }

  // ------------------------------------------------------------------ a run in which it happens

  /** The operation runs until activation was observed. */
  lemma RunsToObserved(published: PublishedState) returns (run: seq<Happening>, w: World)
    ensures RunOf(published, run) == System(w, map[1 := Head(FIRST)])
    ensures Working(w.agent, FIRST, ReloadObserved) && Loaded(w.agent, FIRST) && w.published == OwnedBy(RecordOf(FIRST))
  {
    hide RunOf, Goes, Working, Loaded;
    var v, w0 := View(Read(Some(SEEN)), Some(SEEN)), Initial(published).w;
    FirstIsReady(published);
    StartsInitial(published);
    OneMoreHappens(published, [], Start(1, Reserving(FIRST)));
    var r0 := [] + [Start(1, Reserving(FIRST))];
    assert RunOf(published, r0) == System(w0, map[1 := Reserving(FIRST)]);
    w := Observes(v, w0, FIRST);
    var more := GoesIsARun(published, r0, 1, v, Moment(w, Head(FIRST)));
    run := r0 + more;
    assert map[1 := Reserving(FIRST)][1 := Head(FIRST)] == map[1 := Head(FIRST)];
  }

  /** A membership update raises the revision of the second plane under the waiting operation. */
  lemma HealthBlocks(w: World, op: Op, name: nat) returns (t: Tuple, x: World)
    requires Working(w.agent, op, ReloadObserved) && Loaded(w.agent, op) && w.published == OwnedBy(RecordOf(op)) && Booked(w.agent)
    requires (forall k | k in w.agent.done :: k.id.operation < name) && (forall k | k in w.agent.ended :: k.id.operation < name)
    ensures x == After(w, HealthCall(t))
    ensures Pushing(x, op, ReloadObserved) && Prepared(x.agent, TupleFor(op, Http)) && Blocked(x.agent, TupleFor(op, Stream))
  {
    hide GuardHolds, Sound;
    var s := w.agent;
    var at := s.planes.stream.at;
    t := Tuple(Identity(name, name, s.maxToken), Stream, Target(at, Coordinate(at.epoch, at.revision + 1), 0), 0, 0);
    x := After(w, HealthCall(t));
    var n := s.(planes := Put(s.planes, Stream, PlaneState(t.move.target, 0, s.planes.stream.author)),
                done := s.done[StepKey(t.id, Stream, Health) := t]);
    assert s.(maxToken := s.maxToken) == s;
    assert ApplyHealth(s, t) == Accepted(n);
    SavesIt(s, HealthCall(t));
    assert SignedIsLedgered(s, Stream);
  }

  /**
   * A run in which it happens: the second plane's revision is raised before the commits, the first
   * plane is moved, and after its retries the operation is closed as partially exhausted.
   */
  lemma HealthStopsSecondPlane(published: PublishedState) returns (run: seq<Happening>)
    ensures var s := RunOf(published, run).w.agent;
      GaveUp(s, FIRST, Http) && MovedByMe(s, FIRST, Http) && !MovedByMe(s, FIRST, Stream)
  {
    hide RunOf, Goes, Working, Loaded, Pushing, Booked, Tidy, Neat, GaveUp, Blocked, Prepared, Happened, After;
    var r, w := RunsToObserved(published);
    EveryRunIsTidy(published, r);
    var name := NewName(w.agent);
    var t, x := HealthBlocks(w, FIRST, name);
    OneMoreHappens(published, r, HealthMoved(t));
    var r1 := r + [HealthMoved(t)];
    HealthHappens(RunOf(published, r), t);
    var v := View(Blind, Some(SEEN));
    PreparedIsNotBlocked(x.agent, TupleFor(FIRST, Http));
    var mid, n := RefusedRunGivesUp(v, x, FIRST, Http);
    var more := GoesIsARun(published, r1, 1, v, Moment(n, Done));
    run := r1 + more;
    GaveUpHalf(n.agent);
  }

  lemma HealthHappens(sys: System, t: Tuple)
    ensures Happened(sys, HealthMoved(t)) == sys.(w := After(sys.w, HealthCall(t)))
  {
  }

  lemma PreparedIsNotBlocked(s: State, t: Tuple)
    requires Prepared(s, t)
    ensures !Blocked(s, t)
  {
  }

  lemma GaveUpHalf(s: State)
    requires GaveUp(s, FIRST, Http)
    ensures MovedByMe(s, FIRST, Http) && !MovedByMe(s, FIRST, Stream)
  {
  }
}
