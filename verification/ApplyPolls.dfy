/**
 * What reading at least once is for: an undisturbed run on an engine that shows the target ends
 * if and only if waiting reads it at all (`poll.attempts`, src/dp/apply.ts).
 */
module ApplyPolls {
  import opened Wrappers
  import opened Operation
  import opened Agent
  import opened AgentGuard
  import opened ApplyMachine
  import opened ApplyEngine
  import opened ApplyProgress
  import opened ApplyQuiet

  /** Every reading shows `proof`; waiting comes back with nothing when it never reads. */
  function Polled(proof: Evidence, polls: nat): View {
    View(Read(Some(proof)), if polls == 0 then None else Some(proof))
  }

  // ------------------------------------------------------------------ going round

  /** In this phase, with this many attempts counted, the publication ours. */
  ghost predicate Round(w: World, op: Op, phase: Phase, attempts: nat) {
    Working(w.agent, op, phase) && Attempts(w.agent) == attempts && w.published == OwnedBy(RecordOf(op))
  }

  /** The places between the observed phase and back: confirm, ask for proof, go back to the signal, read, observe. */
  ghost predicate GoesRound(m: Moment, op: Op, attempts: nat) {
    match m.pc
    case Head(bound) =>
      bound == op && (Round(m.w, op, ReloadObserved, attempts) || Round(m.w, op, ReloadIntent, attempts))
    case Confirming(turn) => Round(m.w, op, ReloadObserved, attempts) && OfJournal(turn, m.w, op)
    case Proving(turn, _) => Round(m.w, op, ReloadObserved, attempts) && OfJournal(turn, m.w, op)
    case ReadingWorld(turn) => Round(m.w, op, ReloadIntent, attempts) && OfJournal(turn, m.w, op)
    case Writing(entry, next) =>
      && next == Again(op) && m.w.agent.journal.Some?
      && ((Round(m.w, op, ReloadObserved, attempts) && entry == Stepped(m.w.agent.journal.value, ReloadIntent))
          || (Round(m.w, op, ReloadIntent, attempts)
              && entry == Stepped(m.w.agent.journal.value, ReloadObserved).(evidence := entry.evidence)))
    case _ => false
  }

  predicate OfJournal(turn: Turn, w: World, op: Op) { turn.bound == op && w.agent.journal == Some(turn.j) }

  lemma HeadRounds(m: Moment, v: View, op: Op, attempts: nat)
    requires GoesRound(m, op, attempts) && m.pc.Head?
    ensures GoesRound(Act(m.w, m.pc, Helpful(m.pc, v)), op, attempts)
  {
    hide Durable, After, Working;
    if Round(m.w, op, ReloadObserved, attempts) { Heads(m.w, op, ReloadObserved); OfWork(m.w, op, ReloadObserved); }
    else { Heads(m.w, op, ReloadIntent); OfWork(m.w, op, ReloadIntent); }
  }

  lemma OfWork(w: World, op: Op, phase: Phase)
    requires Working(w.agent, op, phase)
    ensures w.agent.journal.Some? && w.agent.journal.value.op == op && w.agent.journal.value.phase == phase && Holding(w.agent, op)
  {
    hide Sound;
  }

  lemma WriteRounds(m: Moment, v: View, op: Op, attempts: nat)
    requires GoesRound(m, op, attempts) && m.pc.Writing?
    ensures GoesRound(Act(m.w, m.pc, Helpful(m.pc, v)), op, attempts)
  {
    hide Durable, After, Sound;
    var entry := m.pc.entry;
    Writes(m.w, op, entry, Again(op), Yes);
    JournalApart(m.w.agent, entry, op);
  }

  lemma ReadRounds(m: Moment, proof: Evidence, op: Op, attempts: nat)
    requires GoesRound(m, op, attempts) && (m.pc.Confirming? || m.pc.Proving? || m.pc.ReadingWorld?)
    requires ProvesActivation(Some(proof), op.generation)
    ensures GoesRound(Act(m.w, m.pc, Helpful(m.pc, Polled(proof, 0))), op, attempts)
  {
    hide Durable, After, Working;
    assert !ProvesActivation(None, op.generation);
    if m.pc.ReadingWorld? { OfWork(m.w, op, ReloadIntent); } else { OfWork(m.w, op, ReloadObserved); }
  }

  /** No place of the round is the end, and each leads to the next. */
  lemma RoundGoesOn(m: Moment, proof: Evidence, op: Op, attempts: nat)
    requires GoesRound(m, op, attempts) && ProvesActivation(Some(proof), op.generation)
    ensures !m.pc.Done? && GoesRound(Act(m.w, m.pc, Helpful(m.pc, Polled(proof, 0))), op, attempts)
  {
    hide Act, ProvesActivation, Round;
    var v := Polled(proof, 0);
    if m.pc.Head? { HeadRounds(m, v, op, attempts); }
    else if m.pc.Writing? { WriteRounds(m, v, op, attempts); }
    else { ReadRounds(m, proof, op, attempts); }
  }

  lemma {:induction false} NeverDone(m: Moment, proof: Evidence, op: Op, attempts: nat, n: nat)
    requires GoesRound(m, op, attempts) && ProvesActivation(Some(proof), op.generation)
    ensures GoesRound(Driven(m, Polled(proof, 0), n), op, attempts) && !Driven(m, Polled(proof, 0), n).pc.Done?
    decreases n
  {
    hide Act, GoesRound, ProvesActivation;
    RoundGoesOn(m, proof, op, attempts);
    if n > 0 {
      NeverDone(Act(m.w, m.pc, Helpful(m.pc, Polled(proof, 0))), proof, op, attempts, n - 1);
    }
  }

  /** The round lowers no measure: every head in the observed phase has the same one. */
  lemma RoundKeepsMeasure(m: Moment, k: Moment, proof: Evidence, op: Op, attempts: nat)
    requires GoesRound(m, op, attempts) && GoesRound(k, op, attempts)
    requires m.pc.Head? && k.pc.Head? && Round(m.w, op, ReloadObserved, attempts) && Round(k.w, op, ReloadObserved, attempts)
    ensures Measure(m.w.agent.journal.value, m.w.published, 0, Read(Some(proof)), 0)
         == Measure(k.w.agent.journal.value, k.w.published, 0, Read(Some(proof)), 0)
  {
    hide Sound;
  }

  // ------------------------------------------------------------------ the end

  lemma {:induction false} DoneStays(m: Moment, v: View, n: nat)
    requires m.pc.Done?
    ensures Driven(m, v, n).pc.Done?
    decreases n
  {
    if n > 0 {
      assert Act(m.w, Done, Yes) == Moment(m.w, Done);
      hide Act;
      DoneStays(m, v, n - 1);
    }
  }

  /** The run has come to its end after `n` steps. */
  ghost predicate EndsAfter(v: View, a: Moment, n: nat) { Driven(a, v, n).pc.Done? }

  /**
   * From any sound state in which nobody is at work, on an engine that shows the target at every
   * reading: the undisturbed run ends if and only if waiting reads the engine at least once.
   */
  lemma PollsDecide(proof: Evidence, polls: nat, w: World, op: Op)
    requires Ready(w.agent, op) && ProvesActivation(Some(proof), op.generation)
    ensures (exists n: nat :: EndsAfter(Polled(proof, polls), Moment(w, Reserving(op)), n)) <==> polls > 0
  {
    hide Ready, Act, Driven, ProvesActivation, GoesRound;
    var v, a := Polled(proof, polls), Moment(w, Reserving(op));
    if polls > 0 {
      var x := QuietRunActivates(v, w, op);
      var n: nat :| Driven(a, v, n) == Moment(x, Done);
      assert EndsAfter(v, a, n);
    } else {
      var x := Observes(v, w, op);
      var k: nat :| Driven(a, v, k) == Moment(x, Head(op));
      StartsRound(x, op);
      forall n: nat ensures !EndsAfter(v, a, n) { NotAfter(proof, op, a, Moment(x, Head(op)), k, n); }
    }
  }

  lemma StartsRound(x: World, op: Op)
    requires Working(x.agent, op, ReloadObserved) && x.published == OwnedBy(RecordOf(op))
    ensures GoesRound(Moment(x, Head(op)), op, Attempts(x.agent))
  {
    hide Working;
  }

  lemma NotAfter(proof: Evidence, op: Op, a: Moment, b: Moment, k: nat, n: nat)
    requires Driven(a, Polled(proof, 0), k) == b && GoesRound(b, op, Attempts(b.w.agent)) && ProvesActivation(Some(proof), op.generation)
    ensures !EndsAfter(Polled(proof, 0), a, n)
  {
    hide Act, Driven, ProvesActivation, GoesRound;
    var v := Polled(proof, 0);
    if n <= k {
      DrivenOn(a, v, n, k - n);
      if Driven(a, v, n).pc.Done? { DoneStays(Driven(a, v, n), v, k - n); }
      RoundGoesOn(b, proof, op, Attempts(b.w.agent));
    } else {
      DrivenOn(a, v, k, n - k);
      NeverDone(b, proof, op, Attempts(b.w.agent), n - k);
    }
  }
}
