/**
 * What the protocol achieves when nothing goes wrong: one undisturbed `run` by the leader of the
 * day, with effects that succeed and an engine that comes to show the target, activates it.
 */
module ApplyQuiet {
  import opened Wrappers
  import opened Operation
  import opened Agent
  import opened AgentGuard
  import opened ApplyMachine

  // ------------------------------------------------------------------ an undisturbed actor

  /**
   * What the engine shows before a signal, which is anything, and what waiting for it to show
   * the target comes back with: nothing when it is not read at all.
   */
  datatype View = View(before: Reading, after: Option<Evidence>)

  function Helpful(pc: Pc, v: View): Answer {
    if pc.ReadingWorld? then Saw(v.before)
    else if pc.Awaiting? || pc.Proving? then Saw(Read(v.after))
    else Yes
  }

  ghost function Driven(m: Moment, v: View, n: nat): Moment
    decreases n
  {
    if n == 0 then m else Driven(Act(m.w, m.pc, Helpful(m.pc, v)), v, n - 1)
  }

  /** Left alone, the actor gets from `a` to `b`. */
  ghost predicate Goes(v: View, a: Moment, b: Moment) {
    exists n: nat :: Driven(a, v, n) == b
  }

  lemma {:induction false} DrivenOn(m: Moment, v: View, n: nat, k: nat)
    ensures Driven(m, v, n + k) == Driven(Driven(m, v, n), v, k)
    decreases n
  {
    hide Act;
    if n > 0 { DrivenOn(Act(m.w, m.pc, Helpful(m.pc, v)), v, n - 1, k); }
  }

  lemma Then(v: View, a: Moment, b: Moment, c: Moment)
    requires Goes(v, a, b) && Goes(v, b, c)
    ensures Goes(v, a, c)
  {
    hide Driven;
    var n: nat :| Driven(a, v, n) == b;
    var k: nat :| Driven(b, v, k) == c;
    DrivenOn(a, v, n, k);
  }

  lemma OneStep(v: View, a: Moment)
    ensures Goes(v, a, Act(a.w, a.pc, Helpful(a.pc, v)))
  {
    hide Act;
    var b := Act(a.w, a.pc, Helpful(a.pc, v));
    assert Driven(b, v, 0) == b;
    assert Driven(a, v, 1) == Driven(b, v, 0);
  }

  lemma AndOneStep(v: View, a: Moment, b: Moment)
    requires Goes(v, a, b)
    ensures Goes(v, a, Act(b.w, b.pc, Helpful(b.pc, v)))
  {
    hide Act, Goes;
    OneStep(v, b);
    Then(v, a, b, Act(b.w, b.pc, Helpful(b.pc, v)));
  }

  // ------------------------------------------------------------------ where it starts and works

  predicate PlaneReady(s: State, t: Tuple) {
    && s.planes.At(t.plane).at == t.move.expected && t.move.expected.epoch < t.move.target.epoch
    && KeyOf(t) !in s.slots && EndKeyOf(t) !in s.ended
    && (forall step: Step :: StepKey(t.id, t.plane, step) !in s.done)
  }

  /** Nobody is at work, the leader was fenced in, and the transition is a new one that fits the planes. */
  ghost predicate Ready(s: State, op: Op) {
    && Sound(s) && s.holder.None? && op.id.token == s.maxToken
    && (s.journal.Some? ==> IsTerminal(s.journal.value.phase) && s.journal.value.op.id != op.id)
    && PlaneReady(s, TupleFor(op, Http)) && PlaneReady(s, TupleFor(op, Stream))
  }

  predicate PlaneHeld(s: State, t: Tuple) {
    && s.planes.At(t.plane).at == t.move.expected && t.move.expected.epoch < t.move.target.epoch
    && OwnsSlot(s, t) && EndKeyOf(t) !in s.ended && StepKey(t.id, t.plane, Commit) !in s.done
  }

  predicate PlaneLoaded(s: State, t: Tuple) { OwnsSlot(s, t) && s.slots[KeyOf(t)].staged == Some(t.move.payload) }

  predicate PlaneUnstaged(s: State, t: Tuple) { StepKey(t.id, t.plane, Stage) !in s.done }

  ghost predicate Holding(s: State, op: Op) {
    && Sound(s) && op.id.token == s.maxToken && s.holder == Some(HolderOf(op))
    && s.journal.Some? && s.journal.value.op == op
  }

  /** The operation holds the right, its journal and its slots, and no plane has moved. */
  ghost predicate Working(s: State, op: Op, phase: Phase) {
    && Holding(s, op) && s.journal.value.phase == phase
    && PlaneHeld(s, TupleFor(op, Http)) && PlaneHeld(s, TupleFor(op, Stream))
  }

  predicate Unstaged(s: State, op: Op) { PlaneUnstaged(s, TupleFor(op, Http)) && PlaneUnstaged(s, TupleFor(op, Stream)) }
  predicate Loaded(s: State, op: Op) { PlaneLoaded(s, TupleFor(op, Http)) && PlaneLoaded(s, TupleFor(op, Stream)) }

  function Attempts(s: State): nat { if s.journal.Some? then s.journal.value.attempts else 0 }

  // ------------------------------------------------------------------ single steps

  /** A section that accepts and speaks for the fenced leader is saved, and stays sound. */
  lemma SavesIt(s: State, c: Call)
    requires Sound(s) && Mutate(s, c).Accepted? && !Unfenced(s, c)
    ensures Durable(s, c) == Saved(Mutate(s, c).state) && Sound(Mutate(s, c).state)
  {
    hide Mutate, GuardHolds, Sound, Unfenced;
    GuardFiresExactly(s, c);
  }

  function Noting(w: World, entry: Journal): World { w.(agent := w.agent.(journal := Some(entry))) }

  lemma Writes(w: World, op: Op, entry: Journal, next: Next, answer: Answer)
    requires Holding(w.agent, op) && entry.op == op && entry.number == JournalSeq(w.agent) + 1
    ensures Act(w, Writing(entry, next), answer) == Moment(Noting(w, entry), Resume(next))
    ensures Holding(Noting(w, entry).agent, op)
  {
    hide GuardHolds, Sound;
    var c := WriteCall(entry);
    SavesIt(w.agent, c);
    assert w.log + Marks(w.agent, c) == w.log;
  }

  /** Rewriting the journal leaves the planes' side of the work alone. */
  lemma JournalApart(s: State, entry: Journal, op: Op)
    ensures var n := s.(journal := Some(entry));
      && (forall t :: PlaneHeld(n, t) == PlaneHeld(s, t) && PlaneLoaded(n, t) == PlaneLoaded(s, t) && PlaneUnstaged(n, t) == PlaneUnstaged(s, t))
  {
  }

  /** The head of an iteration goes on with the phase. */
  lemma Heads(w: World, op: Op, phase: Phase)
    requires Working(w.agent, op, phase) && !IsTerminal(phase)
    ensures var j := w.agent.journal.value; var turn := Turn(op, j, |w.log|);
      Act(w, Head(op), Yes).w == w && Act(w, Head(op), Yes).pc ==
        if phase == Preflight then Preflighting(turn)
        else if phase == PublishIntent then LookingUp(turn)
        else if phase == Published then Staging(turn, j.progress, PLANES, 0)
        else if phase == MembershipStaged then Writing(Stepped(j, ReloadIntent), Again(op))
        else if phase == ReloadIntent then ReadingWorld(turn)
        else if phase == ReloadObserved then Confirming(turn)
        else Act(w, Head(op), Yes).pc
  {
    hide Sound, Durable, After;
  }

  // ------------------------------------------------------------------ the phases

  lemma Reserved1(s: State, t: Tuple)
    requires Sound(s) && PlaneReady(s, t) && t.id.token == s.maxToken
    ensures var n := s.(slots := s.slots[KeyOf(t) := Slot(t, None)], done := s.done[StepKey(t.id, t.plane, Reserve) := t]);
      ReserveOne(s, t) == Accepted(n)
  {
  }

  /** Reserving takes both slots and the right, and opens the journal. */
  lemma Reserves(w: World, op: Op)
    requires Ready(w.agent, op)
    ensures var m := Act(w, Reserving(op), Yes);
      && m.pc == Head(op) && m.w == w.(agent := m.w.agent)
      && Working(m.w.agent, op, Preflight) && Unstaged(m.w.agent, op) && Attempts(m.w.agent) == 0
  {
    hide GuardHolds, Sound, ReserveAll, PlaneHeld, PlaneUnstaged, PlaneReady, Durable;
    var s := w.agent;
    var c := ReserveAllCall(op);
    ReservesState(s, op);
    SavesIt(s, c);
    assert w.log + Marks(s, c) == w.log;
  }

  lemma ReservesState(s: State, op: Op)
    requires Ready(s, op)
    ensures ReserveAll(s, op).Accepted?
    ensures var n := ReserveAll(s, op).state;
      && n.maxToken == s.maxToken && n.holder == Some(HolderOf(op))
      && n.journal == Some(OpeningEntry(op, JournalSeq(s) + 1))
      && PlaneHeld(n, TupleFor(op, Http)) && PlaneHeld(n, TupleFor(op, Stream)) && Unstaged(n, op)
  {
    hide GuardHolds, Sound, ReserveAll, PlaneReady, PlaneHeld, Unstaged;
    ReservesBoth(s, op);
    BothHeld(s, op);
  }

  function BothReserved(s: State, op: Op): State {
    var h, t := TupleFor(op, Http), TupleFor(op, Stream);
    s.(slots := s.slots[KeyOf(h) := Slot(h, None)][KeyOf(t) := Slot(t, None)],
       done := s.done[StepKey(h.id, Http, Reserve) := h][StepKey(t.id, Stream, Reserve) := t],
       holder := Some(HolderOf(op)), journal := Some(OpeningEntry(op, JournalSeq(s) + 1)))
  }

  lemma ReservesBoth(s: State, op: Op)
    requires Ready(s, op)
    ensures ReserveAll(s, op) == Accepted(BothReserved(s, op))
  {
    hide Sound, ReserveOne, PlaneReady;
    var h, t := TupleFor(op, Http), TupleFor(op, Stream);
    assert SweepOrphan(s, op) == s;
    hide SweepOrphan;
    Reserved1(s, h);
    Reserved2(s, ReserveOne(s, h).state, h, t);
  }

  lemma BothHeld(s: State, op: Op)
    requires Ready(s, op)
    ensures var n := BothReserved(s, op);
      PlaneHeld(n, TupleFor(op, Http)) && PlaneHeld(n, TupleFor(op, Stream)) && Unstaged(n, op)
  {
    hide Sound;
    assert KeyOf(TupleFor(op, Http)) != KeyOf(TupleFor(op, Stream));
  }

  lemma Reserved2(s: State, s1: State, h: Tuple, t: Tuple)
    requires Sound(s) && PlaneReady(s, h) && PlaneReady(s, t) && h.plane == Http && t.plane == Stream
    requires h.id == t.id && t.id.token == s.maxToken
    requires s1 == s.(slots := s.slots[KeyOf(h) := Slot(h, None)], done := s.done[StepKey(h.id, h.plane, Reserve) := h])
    ensures var n := s1.(slots := s1.slots[KeyOf(t) := Slot(t, None)], done := s1.done[StepKey(t.id, t.plane, Reserve) := t]);
      ReserveOne(s1, t) == Accepted(n)
  {
  }

  lemma PassesPreflight(v: View, w: World, op: Op) returns (n: World)
    requires Working(w.agent, op, Preflight) && Unstaged(w.agent, op)
    ensures Goes(v, Moment(w, Head(op)), Moment(n, Head(op)))
    ensures Working(n.agent, op, PublishIntent) && Unstaged(n.agent, op) && Attempts(n.agent) == Attempts(w.agent)
  {
    hide Goes, Sound, Durable, After;
    var a, j := Moment(w, Head(op)), w.agent.journal.value;
    var turn, entry := Turn(op, j, |w.log|), Stepped(j, PublishIntent);
    Heads(w, op, Preflight);
    OneStep(v, a);
    AndOneStep(v, a, Moment(w, Preflighting(turn)));
    var x := Noted(w, PassedPreflight(op));
    assert Act(w, Preflighting(turn), Yes) == Moment(x, Writing(entry, Again(op)));
    n := WritesOn(v, a, x, op, entry);
  }

  /** A journal write that only moves the journal on, and the next iteration. */
  lemma WritesOn(v: View, a: Moment, w: World, op: Op, entry: Journal) returns (n: World)
    requires Goes(v, a, Moment(w, Writing(entry, Again(op)))) && Holding(w.agent, op)
    requires entry.op == op && entry.number == JournalSeq(w.agent) + 1
    ensures n == Noting(w, entry) && Goes(v, a, Moment(n, Head(op))) && Holding(n.agent, op)
    ensures forall t :: PlaneHeld(n.agent, t) == PlaneHeld(w.agent, t) && PlaneLoaded(n.agent, t) == PlaneLoaded(w.agent, t)
                        && PlaneUnstaged(n.agent, t) == PlaneUnstaged(w.agent, t)
  {
    hide Goes, Sound, Durable, After, PlaneHeld, PlaneLoaded, PlaneUnstaged;
    Writes(w, op, entry, Again(op), Yes);
    AndOneStep(v, a, Moment(w, Writing(entry, Again(op))));
    JournalApart(w.agent, entry, op);
    n := Noting(w, entry);
  }

  /** Publishing, unless the published record is ours already. */
  lemma Publishes(v: View, w: World, op: Op) returns (n: World)
    requires Working(w.agent, op, PublishIntent) && Unstaged(w.agent, op)
    ensures Goes(v, Moment(w, Head(op)), Moment(n, Head(op))) && n.published == OwnedBy(RecordOf(op))
    ensures Working(n.agent, op, Published) && Unstaged(n.agent, op) && Attempts(n.agent) == Attempts(w.agent)
  {
    hide Goes, Sound, Durable, After, PlaneHeld, PlaneUnstaged;
    var a, j := Moment(w, Head(op)), w.agent.journal.value;
    var turn, entry := Turn(op, j, |w.log|), Stepped(j, Published);
    Heads(w, op, PublishIntent);
    OneStep(v, a);
    AndOneStep(v, a, Moment(w, LookingUp(turn)));
    if PublishedByMe(w.published, op) {
      n := WritesOn(v, a, w, op, entry);
    } else {
      Intends(w, op, turn);
      var x := w.(agent := w.agent.(intent := Some(RecordOf(op))));
      AndOneStep(v, a, Moment(w, Intending(turn)));
      AndOneStep(v, a, Moment(x, Publishing(turn)));
      var y := Noted(x, DidPublish(op, turn.head)).(published := OwnedBy(RecordOf(op)));
      assert Act(x, Publishing(turn), Yes) == Moment(y, Writing(entry, Again(op)));
      n := WritesOn(v, a, y, op, entry);
    }
  }

  lemma Intends(w: World, op: Op, turn: Turn)
    requires Working(w.agent, op, PublishIntent) && Unstaged(w.agent, op) && turn.j.op == op
    ensures var x := w.(agent := w.agent.(intent := Some(RecordOf(op))));
      && Act(w, Intending(turn), Yes) == Moment(x, Publishing(turn))
      && Working(x.agent, op, PublishIntent) && Unstaged(x.agent, op)
  {
    hide GuardHolds, Sound;
    SavesIt(w.agent, IntentCall(RecordOf(op)));
    assert w.log + Marks(w.agent, IntentCall(RecordOf(op))) == w.log;
  }

  // ------------------------------------------------------------------ staging

  function StagedSlot(s: State, t: Tuple): State {
    s.(slots := s.slots[KeyOf(t) := Slot(t, Some(t.move.payload))], done := s.done[StepKey(t.id, t.plane, Stage) := t])
  }

  lemma Stages(w: World, op: Op, p: Plane, turn: Turn, progress: PerPlane<Progress>, todo: seq<Plane>, advanced: nat)
    requires Working(w.agent, op, Published) && PlaneUnstaged(w.agent, TupleFor(op, p))
    requires todo != [] && todo[0] == p && turn.j.op == op
    ensures var x := w.(agent := StagedSlot(w.agent, TupleFor(op, p)));
      && Act(w, Staging(turn, progress, todo, advanced), Yes) == Moment(x, Loading(turn, progress, todo, advanced))
      && Sound(x.agent)
  {
    hide GuardHolds, Sound;
    var c := StageCall(TupleFor(op, p));
    StageWorks(w.agent, TupleFor(op, p));
    SavesIt(w.agent, c);
    assert w.log + Marks(w.agent, c) == w.log;
  }

  lemma StageWorks(s: State, t: Tuple)
    requires PlaneHeld(s, t) && PlaneUnstaged(s, t) && t.id.token == s.maxToken
    ensures StageSlot(s, t) == Accepted(StagedSlot(s, t))
  {
    assert Max(s.maxToken, t.id.token) == s.maxToken;
  }

  /** Staging one plane leaves the other plane's side alone. */
  lemma StageKeeps(s: State, t: Tuple, other: Tuple)
    requires t.plane != other.plane
    ensures var n := StagedSlot(s, t);
      && (PlaneHeld(s, t) ==> PlaneHeld(n, t) && PlaneLoaded(n, t))
      && PlaneHeld(n, other) == PlaneHeld(s, other) && PlaneLoaded(n, other) == PlaneLoaded(s, other)
      && PlaneUnstaged(n, other) == PlaneUnstaged(s, other)
  {
    assert KeyOf(t) != KeyOf(other);
  }

  /** One plane: staged durably, then loaded into the engine. */
  lemma LoadsPlane(v: View, a: Moment, w: World, op: Op, p: Plane, turn: Turn, progress: PerPlane<Progress>, todo: seq<Plane>, advanced: nat)
    returns (n: World, progress': PerPlane<Progress>)
    requires Goes(v, a, Moment(w, Staging(turn, progress, todo, advanced)))
    requires Working(w.agent, op, Published) && PlaneUnstaged(w.agent, TupleFor(op, p))
    requires todo != [] && todo[0] == p && turn.j.op == op
    ensures Goes(v, a, Moment(n, Staging(turn, progress', todo[1..], advanced + 1)))
    ensures n == w.(agent := StagedSlot(w.agent, TupleFor(op, p)), log := n.log) && Sound(n.agent)
  {
    hide Goes, Sound, Durable, After, StagedSlot;
    var x := w.(agent := StagedSlot(w.agent, TupleFor(op, p)));
    Stages(w, op, p, turn, progress, todo, advanced);
    AndOneStep(v, a, Moment(w, Staging(turn, progress, todo, advanced)));
    n, progress' := Noted(x, DidStage(op, p, turn.head)), Put(progress, p, PlaneStaged);
    AndOneStep(v, a, Moment(x, Loading(turn, progress, todo, advanced)));
  }

  lemma LoadsBoth(v: View, w: World, op: Op) returns (n: World)
    requires Working(w.agent, op, Published) && Unstaged(w.agent, op)
    ensures Goes(v, Moment(w, Head(op)), Moment(n, Head(op))) && n.published == w.published
    ensures Working(n.agent, op, MembershipStaged) && Loaded(n.agent, op) && Attempts(n.agent) == Attempts(w.agent)
  {
    hide Goes, Sound, Durable, After, PlaneHeld, PlaneLoaded, PlaneUnstaged;
    var a, j := Moment(w, Head(op)), w.agent.journal.value;
    var turn := Turn(op, j, |w.log|);
    var h, t := TupleFor(op, Http), TupleFor(op, Stream);
    Heads(w, op, Published);
    OneStep(v, a);
    var x, progress := LoadsPlane(v, a, w, op, Http, turn, j.progress, PLANES, 0);
    StageKeeps(w.agent, h, t);
    assert PLANES[1..] == [Stream];
    var y, progress' := LoadsPlane(v, a, x, op, Stream, turn, progress, PLANES[1..], 1);
    StageKeeps(x.agent, t, h);
    assert PLANES[1..][1..] == [];
    var entry := Stepped(j, MembershipStaged).(progress := progress');
    AndOneStep(v, a, Moment(y, Staging(turn, progress', [], 2)));
    n := WritesOn(v, a, y, op, entry);
  }

  lemma OpensReload(v: View, w: World, op: Op) returns (n: World)
    requires Working(w.agent, op, MembershipStaged) && Loaded(w.agent, op)
    ensures Goes(v, Moment(w, Head(op)), Moment(n, Head(op))) && n.published == w.published
    ensures Working(n.agent, op, ReloadIntent) && Loaded(n.agent, op) && Attempts(n.agent) == Attempts(w.agent)
  {
    hide Goes, Sound, Durable, After, PlaneHeld, PlaneLoaded;
    Heads(w, op, MembershipStaged);
    OneStep(v, Moment(w, Head(op)));
    n := WritesOn(v, Moment(w, Head(op)), w, op, Stepped(w.agent.journal.value, ReloadIntent));
  }

  // ------------------------------------------------------------------ the signal

  lemma WinsAttempt(w: World, op: Op, turn: Turn, seen: Reading)
    requires Working(w.agent, op, ReloadIntent) && Loaded(w.agent, op) && turn.j == w.agent.journal.value
    ensures var entry := Stepped(turn.j, ReloadIntent).(attempts := turn.j.attempts + 1);
      && Act(w, Winning(turn, seen), Yes) ==
           Moment(Noted(Noting(w, entry), WonAttempt(turn.j.opening, turn.j.attempts + 1)), Signalling(turn, |w.log|, seen))
      && Holding(Noting(w, entry).agent, op)
  {
    hide GuardHolds, Sound;
    var entry := Stepped(turn.j, ReloadIntent).(attempts := turn.j.attempts + 1);
    SavesIt(w.agent, WriteCall(entry));
    assert w.log + Marks(w.agent, WriteCall(entry)) == w.log;
  }

  /** The engine does not show the target yet: the attempt is counted, the signal sent, the wait begins. */
  lemma Waits(v: View, w: World, op: Op) returns (n: World, turn: Turn)
    requires Working(w.agent, op, ReloadIntent) && Loaded(w.agent, op) && Attempts(w.agent) == 0
    requires !(v.before.Read? && ProvesActivation(v.before.evidence, op.generation))
    ensures Goes(v, Moment(w, Head(op)), Moment(n, Awaiting(turn))) && n.published == w.published
    ensures Working(n.agent, op, ReloadIntent) && Loaded(n.agent, op) && Attempts(n.agent) == 1
    ensures turn.bound == op && turn.j.op == op
  {
    hide Goes, Sound, Durable, After, PlaneHeld, PlaneLoaded, ProvesActivation;
    var a, j := Moment(w, Head(op)), w.agent.journal.value;
    turn := Turn(op, j, |w.log|);
    Heads(w, op, ReloadIntent);
    ReadsBefore(v, w, turn);
    var entry := Stepped(j, ReloadIntent).(attempts := 1);
    WinsAttempt(w, op, turn, v.before);
    JournalApart(w.agent, entry, op);
    var x := Noted(Noting(w, entry), WonAttempt(j.opening, 1));
    SendsSignal(v, x, turn, |w.log|);
    hide Act;
    OneStep(v, a);
    AndOneStep(v, a, Moment(w, ReadingWorld(turn)));
    AndOneStep(v, a, Moment(w, Winning(turn, v.before)));
    AndOneStep(v, a, Moment(x, Signalling(turn, |w.log|, v.before)));
    n := Noted(x, DidSignal(op, j.opening, |w.log|, v.before, turn.head));
  }

  lemma ReadsBefore(v: View, w: World, turn: Turn)
    requires turn.j.attempts == 0 && !(v.before.Read? && ProvesActivation(v.before.evidence, turn.j.op.generation))
    ensures Act(w, ReadingWorld(turn), Saw(v.before)) == Moment(w, Winning(turn, v.before))
  {
    hide Durable, ProvesActivation;
  }

  lemma SendsSignal(v: View, x: World, turn: Turn, won: nat)
    ensures Act(x, Signalling(turn, won, v.before), Yes) ==
      Moment(Noted(x, DidSignal(turn.j.op, turn.j.opening, won, v.before, turn.head)), Awaiting(turn))
  {
    hide Durable;
  }

  /** The target is shown before the signal or after it. */
  predicate ShowsTarget(v: View, generation: Name) {
    (v.before.Read? && ProvesActivation(v.before.evidence, generation)) || (v.after.Some? && ProvesActivation(v.after, generation))
  }

  /** The engine shows the target already, or it is signalled once and then shows it. */
  lemma Reloads(v: View, w: World, op: Op) returns (n: World)
    requires Working(w.agent, op, ReloadIntent) && Loaded(w.agent, op) && Attempts(w.agent) == 0
    requires ShowsTarget(v, op.generation)
    ensures Goes(v, Moment(w, Head(op)), Moment(n, Head(op))) && n.published == w.published
    ensures Working(n.agent, op, ReloadObserved) && Loaded(n.agent, op)
    ensures Attempts(n.agent) == if v.before.Read? && ProvesActivation(v.before.evidence, op.generation) then 0 else 1
  {
    hide Goes, Sound, Durable, After, PlaneHeld, PlaneLoaded, PlaneUnstaged, ProvesActivation;
    var a, j := Moment(w, Head(op)), w.agent.journal.value;
    if v.before.Read? && ProvesActivation(v.before.evidence, op.generation) {
      Heads(w, op, ReloadIntent);
      OneStep(v, a);
      AndOneStep(v, a, Moment(w, ReadingWorld(Turn(op, j, |w.log|))));
      n := WritesOn(v, a, w, op, Stepped(j, ReloadObserved).(evidence := v.before.evidence));
    } else {
      var x, turn := Waits(v, w, op);
      AndOneStep(v, a, Moment(x, Awaiting(turn)));
      n := WritesOn(v, a, x, op, Stepped(x.agent.journal.value, ReloadObserved).(evidence := v.after));
    }
  }

  // ------------------------------------------------------------------ commit and finish

  /** The plane is where the operation said it would put it, signed by it, its slot given back. */
  predicate PlaneArrivedAs(s: State, t: Tuple) {
    && s.planes.At(t.plane) == PlaneState(t.move.target, t.move.payload, Some(t.id))
    && KeyOf(t) !in s.slots && EndedHow(s, t.id, t.plane) == Some(EndActivated)
  }

  lemma CommitWorks(s: State, t: Tuple, e: Evidence)
    requires PlaneHeld(s, t) && PlaneLoaded(s, t) && t.id.token == s.maxToken && ProvesActivation(Some(e), t.generation)
    ensures CommitPlane(s, t, e) == Accepted(Moved(s, t, e)) && CommitMoves(s, t, e)
  {
    hide ProvesActivation, Moved;
    assert Max(s.maxToken, t.id.token) == s.maxToken;
    assert s.(maxToken := s.maxToken) == s;
  }

  lemma CommitMovesOnly(s: State, t: Tuple, e: Evidence, other: Tuple)
    requires t.plane != other.plane && PlaneHeld(s, t) && s.holder.Some? && s.holder.value.id == t.id
    ensures var n := Moved(s, t, e);
      && PlaneArrivedAs(n, t) && n.journal == s.journal && n.holder == s.holder && n.maxToken == s.maxToken
      && n.pending == Some(Record(t.generation, t.id, t.digest)) && n.pendingEpochs == Some(s.holder.value.epochs)
      && PlaneHeld(n, other) == PlaneHeld(s, other) && PlaneLoaded(n, other) == PlaneLoaded(s, other)
      && PlaneArrivedAs(n, other) == PlaneArrivedAs(s, other)
  {
    assert KeyOf(t) != KeyOf(other) && EndKeyOf(t) != EndKeyOf(other);
  }

  /** One plane is committed, on proof. */
  lemma CommitsPlane(v: View, a: Moment, w: World, op: Op, p: Plane, turn: Turn, saw: nat, progress: PerPlane<Progress>, todo: seq<Plane>)
    returns (n: World)
    requires v.after.Some? && Goes(v, a, Moment(w, Committing(turn, v.after.value, saw, progress, todo)))
    requires Holding(w.agent, op) && PlaneHeld(w.agent, TupleFor(op, p)) && PlaneLoaded(w.agent, TupleFor(op, p))
    requires todo != [] && todo[0] == p && turn.j.op == op && v.after.Some? && ProvesActivation(v.after, op.generation)
    ensures Goes(v, a, Moment(n, Committing(turn, v.after.value, saw, Put(progress, p, PlaneCommitted), todo[1..])))
    ensures n == w.(agent := Moved(w.agent, TupleFor(op, p), v.after.value), log := n.log) && Sound(n.agent)
  {
    hide Goes, Sound, Durable, After, Moved, PlaneHeld, PlaneLoaded, ProvesActivation, CommitMoves, CommitPlane, GuardHolds;
    var t := TupleFor(op, p);
    CommitSaved(w, t, v.after.value);
    AndOneStep(v, a, Moment(w, Committing(turn, v.after.value, saw, progress, todo)));
    n := Noted(w.(agent := Moved(w.agent, t, v.after.value)), MovedPlane(t, v.after.value, saw));
    CommitStep(w, turn, v.after.value, saw, progress, todo, t);
  }

  lemma CommitSaved(w: World, t: Tuple, e: Evidence)
    requires Sound(w.agent) && PlaneHeld(w.agent, t) && PlaneLoaded(w.agent, t) && t.id.token == w.agent.maxToken
    requires ProvesActivation(Some(e), t.generation)
    ensures var c := CommitCall(t, e); var n := Moved(w.agent, t, e);
      Durable(w.agent, c) == Saved(n) && Sound(n) && After(w, c) == w.(agent := n) && CommitMoves(w.agent, t, e)
  {
    hide GuardHolds, Sound, ProvesActivation, Moved, CommitPlane, CommitMoves, PlaneHeld, PlaneLoaded;
    CommitWorks(w.agent, t, e);
    SavesIt(w.agent, CommitCall(t, e));
    assert w.log + Marks(w.agent, CommitCall(t, e)) == w.log;
  }

  lemma CommitStep(w: World, turn: Turn, e: Evidence, saw: nat, progress: PerPlane<Progress>, todo: seq<Plane>, t: Tuple)
    requires todo != [] && t == TupleFor(turn.j.op, todo[0])
    requires Durable(w.agent, CommitCall(t, e)).Saved? && CommitMoves(w.agent, t, e)
    ensures Act(w, Committing(turn, e, saw, progress, todo), Yes) ==
      Moment(Noted(After(w, CommitCall(t, e)), MovedPlane(t, e, saw)),
             Committing(turn, e, saw, Put(progress, todo[0], PlaneCommitted), todo[1..]))
  {
    hide Durable, After, CommitMoves;
  }

  /** Both planes arrived; the operation still holds the right. */
  ghost predicate Arrived(s: State, op: Op) {
    && Holding(s, op) && PlaneArrivedAs(s, TupleFor(op, Http)) && PlaneArrivedAs(s, TupleFor(op, Stream))
    && s.pending == Some(RecordOf(op)) && s.pendingEpochs == Some(EpochsOf(op))
  }

  /** The publication is ours, the generation is proven, and the first plane is committed. */
  lemma CommitsOne(v: View, w: World, op: Op) returns (z: World, turn: Turn, saw: nat)
    requires Working(w.agent, op, ReloadObserved) && Loaded(w.agent, op) && w.published == OwnedBy(RecordOf(op))
    requires v.after.Some? && ProvesActivation(v.after, op.generation)
    ensures turn.bound == op && turn.j == w.agent.journal.value && z.published == w.published
    ensures Goes(v, Moment(w, Head(op)), Moment(z, Committing(turn, v.after.value, saw, Put(turn.j.progress, Http, PlaneCommitted), [Stream])))
    ensures Holding(z.agent, op) && z.agent.journal == w.agent.journal && z.agent.pending == Some(RecordOf(op))
    ensures PlaneArrivedAs(z.agent, TupleFor(op, Http)) && PlaneHeld(z.agent, TupleFor(op, Stream)) && PlaneLoaded(z.agent, TupleFor(op, Stream))
  {
    hide Goes, Sound, Durable, After, Moved, PlaneHeld, PlaneLoaded, PlaneArrivedAs, ProvesActivation;
    var a, j := Moment(w, Head(op)), w.agent.journal.value;
    var h, t := TupleFor(op, Http), TupleFor(op, Stream);
    turn, saw := Turn(op, j, |w.log|), |w.log|;
    Heads(w, op, ReloadObserved);
    OneStep(v, a);
    var y := Noted(w, SawMine(op, w.published));
    AndOneStep(v, a, Moment(w, Confirming(turn)));
    AndOneStep(v, a, Moment(y, Proving(turn, saw)));
    z := CommitsPlane(v, a, y, op, Http, turn, saw, j.progress, PLANES);
    CommitMovesOnly(y.agent, h, v.after.value, t);
    assert PLANES[1..] == [Stream];
  }

  lemma CommitsBoth(v: View, w: World, op: Op) returns (x: World, turn: Turn, progress: PerPlane<Progress>)
    requires Working(w.agent, op, ReloadObserved) && Loaded(w.agent, op) && w.published == OwnedBy(RecordOf(op))
    requires v.after.Some? && ProvesActivation(v.after, op.generation)
    ensures turn.bound == op && turn.j == w.agent.journal.value
    ensures progress == Both(PlaneCommitted) && x.published == w.published
    ensures Goes(v, Moment(w, Head(op)), Moment(x, AfterCommits(turn, v.after.value, progress)))
    ensures Arrived(x.agent, op) && x.agent.journal == w.agent.journal
  {
    hide Goes, Sound, Durable, After, Moved, PlaneHeld, PlaneLoaded, PlaneArrivedAs, ProvesActivation, Working, Loaded;
    var a := Moment(w, Head(op));
    var h, t := TupleFor(op, Http), TupleFor(op, Stream);
    var z, turn', saw := CommitsOne(v, w, op);
    turn := turn';
    x := CommitsPlane(v, a, z, op, Stream, turn, saw, Put(turn.j.progress, Http, PlaneCommitted), [Stream]);
    CommitMovesOnly(z.agent, t, v.after.value, h);
    assert [Stream][1..] == [];
    progress := Both(PlaneCommitted);
    AndOneStep(v, a, Moment(x, Committing(turn, v.after.value, saw, progress, [])));
  }

  /** The operation is done: activated, the right given back, its record the baseline. */
  predicate Finished(s: State, op: Op) {
    && s.journal.Some? && s.journal.value.op == op && s.journal.value.phase == Activated
    && PlaneArrivedAs(s, TupleFor(op, Http)) && PlaneArrivedAs(s, TupleFor(op, Stream))
    && s.holder.None? && s.pending.None? && s.baseline == Some(RecordOf(op))
  }

  /** Every plane arrived, so the candidate is promoted. */
  lemma Promotes(s: State, op: Op)
    requires Arrived(s, op) && s.journal.value.phase == Activated
    ensures FinishOperation(s, op, {}) == s.(baseline := s.pending, pending := None, pendingEpochs := None, holder := None)
  {
    hide Sound;
    assert CandidateArrived(s, s.pending.value, DeclaredEpochs(s, op.id));
  }

  lemma FinishWorks(w: World, op: Op, next: Next)
    requires Arrived(w.agent, op) && w.agent.journal.value.phase == Activated
    ensures var m := Act(w, Finishing(op, {}, next), Yes);
      m.pc == Resume(next) && Finished(m.w.agent, op) && m.w.published == w.published && m.w.log == w.log
      && m.w.agent.journal == w.agent.journal
  {
    hide GuardHolds, Sound, FinishOperation;
    var c := FinishCall(op, {});
    Promotes(w.agent, op);
    SavesIt(w.agent, c);
    assert w.log + Marks(w.agent, c) == w.log;
  }

  lemma Finishes(v: View, w: World, op: Op) returns (n: World)
    requires Working(w.agent, op, ReloadObserved) && Loaded(w.agent, op) && w.published == OwnedBy(RecordOf(op))
    requires v.after.Some? && ProvesActivation(v.after, op.generation)
    ensures Goes(v, Moment(w, Head(op)), Moment(n, Done)) && n.published == w.published
    ensures Finished(n.agent, op) && Attempts(n.agent) == Attempts(w.agent)
  {
    hide Goes, Sound, Durable, After, PlaneHeld, PlaneLoaded, PlaneArrivedAs, ProvesActivation;
    var x, turn, progress := CommitsBoth(v, w, op);
    n := Activates(v, Moment(w, Head(op)), x, op, turn, progress);
  }

  /** Every plane is over: the journal is closed as `activated`, the right given back, the baseline promoted. */
  lemma Activates(v: View, a: Moment, x: World, op: Op, turn: Turn, progress: PerPlane<Progress>) returns (n: World)
    requires v.after.Some? && Goes(v, a, Moment(x, AfterCommits(turn, v.after.value, progress)))
    requires Arrived(x.agent, op) && x.agent.journal == Some(turn.j) && turn.bound == op && progress == Both(PlaneCommitted)
    ensures Goes(v, a, Moment(n, Done)) && n.published == x.published
    ensures Finished(n.agent, op) && Attempts(n.agent) == turn.j.attempts
  {
    hide Goes, Sound, Durable, After, PlaneHeld, PlaneLoaded, PlaneArrivedAs, ProvesActivation;
    var entry := Stepped(turn.j, Activated).(progress := progress, evidence := v.after);
    assert Stuck(entry) == {};
    var next := ThenFinish(op, {}, Some(op));
    assert AfterCommits(turn, v.after.value, progress) == Writing(entry, next);
    Writes(x, op, entry, next, Yes);
    AndOneStep(v, a, Moment(x, Writing(entry, next)));
    var y := Noting(x, entry);
    ArrivedApart(x.agent, entry, op);
    FinishWorks(y, op, Again(op));
    AndOneStep(v, a, Moment(y, Finishing(op, {}, Again(op))));
    n := Act(y, Finishing(op, {}, Again(op)), Yes).w;
    AndOneStep(v, a, Moment(n, Head(op)));
    assert Act(n, Head(op), Yes) == Moment(n, Done);
  }

  lemma ArrivedApart(s: State, entry: Journal, op: Op)
    requires Arrived(s, op) && Holding(s.(journal := Some(entry)), op)
    ensures Arrived(s.(journal := Some(entry)), op)
  {
  }

  // ------------------------------------------------------------------ the theorem

  /** The way to the reload. */
  lemma Prepares(v: View, w: World, op: Op) returns (n: World)
    requires Ready(w.agent, op)
    ensures Goes(v, Moment(w, Reserving(op)), Moment(n, Head(op)))
    ensures Working(n.agent, op, ReloadIntent) && Loaded(n.agent, op) && Attempts(n.agent) == 0 && n.published == OwnedBy(RecordOf(op))
  {
    hide Goes, Ready, Working, Loaded, Unstaged, Act, Attempts;
    var a := Moment(w, Reserving(op));
    Reserves(w, op);
    OneStep(v, a);
    var w1 := Act(w, Reserving(op), Yes).w;
    var w2 := PassesPreflight(v, w1, op);
    Then(v, a, Moment(w1, Head(op)), Moment(w2, Head(op)));
    var w3 := Publishes(v, w2, op);
    Then(v, a, Moment(w2, Head(op)), Moment(w3, Head(op)));
    var w4 := LoadsBoth(v, w3, op);
    Then(v, a, Moment(w3, Head(op)), Moment(w4, Head(op)));
    n := OpensReload(v, w4, op);
    Then(v, a, Moment(w4, Head(op)), Moment(n, Head(op)));
  }

  /** The way to the observed phase. */
  lemma Observes(v: View, w: World, op: Op) returns (n: World)
    requires Ready(w.agent, op) && ShowsTarget(v, op.generation)
    ensures Goes(v, Moment(w, Reserving(op)), Moment(n, Head(op)))
    ensures Working(n.agent, op, ReloadObserved) && Loaded(n.agent, op) && n.published == OwnedBy(RecordOf(op))
    ensures Attempts(n.agent) == if v.before.Read? && ProvesActivation(v.before.evidence, op.generation) then 0 else 1
  {
    hide Goes, Ready, Working, Loaded, ProvesActivation, Act, Attempts;
    var a := Moment(w, Reserving(op));
    var w5 := Prepares(v, w, op);
    n := Reloads(v, w5, op);
    Then(v, a, Moment(w5, Head(op)), Moment(n, Head(op)));
  }

  /**
   * From any sound state in which nobody is at work, a run by the fenced leader for planes that
   * are where it expects them ends with both planes at their targets under its own signature,
   * the journal `activated`, the right given back and its record as the baseline.  It signals
   * once, or not at all when the engine shows the target before.
   */
  lemma QuietRunActivates(v: View, w: World, op: Op) returns (n: World)
    requires Ready(w.agent, op) && v.after.Some? && ProvesActivation(v.after, op.generation)
    ensures Goes(v, Moment(w, Reserving(op)), Moment(n, Done))
    ensures Finished(n.agent, op) && n.published == OwnedBy(RecordOf(op))
    ensures Attempts(n.agent) == if v.before.Read? && ProvesActivation(v.before.evidence, op.generation) then 0 else 1
  {
    hide Goes, Ready, Working, Finished, Loaded, ProvesActivation, Act, Attempts;
    var a := Moment(w, Reserving(op));
    var w6 := Observes(v, w, op);
    n := Finishes(v, w6, op);
    Then(v, a, Moment(w6, Head(op)), Moment(n, Done));
  }
}
