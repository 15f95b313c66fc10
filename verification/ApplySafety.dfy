/**
 * Safety of the apply protocol over every run: any number of runners, recoveries, aborts,
 * crashes, successions and late publications, interleaved at every await.
 */
module ApplySafety {
  import opened Wrappers
  import opened Operation
  import opened Agent
  import opened AgentGuard
  import opened ApplyMachine
  import opened ApplyInvariant

  // ------------------------------------------------------------------ the history is well formed

  predicate IsEffect(e: Event) { e.DidPublish? || e.DidStage? || e.DidSignal? }

  /** An effect comes from an iteration that started unmarked, after a passed preflight. */
  ghost predicate EffectOk(log: seq<Event>, k: nat)
    requires k < |log| && IsEffect(log[k])
  {
    && log[k].head <= k
    && Unmarked(log, log[k].head, log[k].op.id)
    && exists f :: 0 <= f < k && log[f] == PassedPreflight(log[k].op)
  }

  /** The read in front of a repeated signal succeeded and did not show the target. */
  predicate SawOld(seen: Reading, generation: Name) {
    seen.Read? && !ProvesActivation(seen.evidence, generation)
  }

  ghost predicate SignalOk(log: seq<Event>, k: nat)
    requires k < |log| && log[k].DidSignal?
  {
    var e := log[k];
    && e.won < k && log[e.won].WonAttempt? && log[e.won].opening == e.opening
    && (log[e.won].attempt > 1 ==> SawOld(e.before, e.op.generation))
  }

  /** The two planes a configuration operation moves. */
  predicate NamesBoth(scope: set<Plane>) { Http in scope && Stream in scope }

  ghost predicate HistoryOk(log: seq<Event>) {
    && MovesOk(log)
    && (forall k :: 0 <= k < |log| && IsEffect(log[k]) ==> EffectOk(log, k))
    && (forall k :: 0 <= k < |log| && log[k].DidSignal? ==> SignalOk(log, k))
    && (forall i, k :: 0 <= i < k < |log| && log[i].DidSignal? && log[k].DidSignal? ==> log[i].won != log[k].won)
    && (forall k :: 0 <= k < |log| && log[k].ClosedOver? ==> !NamesBoth(log[k].scope))
  }

  ghost predicate WinOk(e: Event, j: Option<Journal>)
    requires e.WonAttempt?
  {
    && 1 <= e.attempt <= RELOAD_ATTEMPT_LIMIT
    && j.Some? && e.opening <= j.value.opening
    && (e.opening == j.value.opening ==> e.attempt <= j.value.attempts)
  }

  predicate Later(a: Event, b: Event)
    requires a.WonAttempt? && b.WonAttempt?
  {
    a.opening == b.opening ==> a.attempt < b.attempt
  }

  /** Every counted attempt is within the limit, and the attempts of one opening are counted upward. */
  ghost predicate WinsOk(log: seq<Event>, j: Option<Journal>) {
    && (forall i :: 0 <= i < |log| && log[i].WonAttempt? ==> WinOk(log[i], j))
    && (forall i, k :: 0 <= i < k < |log| && log[i].WonAttempt? && log[k].WonAttempt? ==> Later(log[i], log[k]))
  }

  ghost predicate Good(w: World) {
    Kept(w.agent, w.log) && HistoryOk(w.log) && WinsOk(w.log, w.agent.journal)
  }

  // ------------------------------------------------------------------ what an actor may rely on

  ghost predicate CasOk(s: State, log: seq<Event>, j: Journal) {
    && EntryTrue(j, s.done, log)
    && j.number <= JournalSeq(s)
    && (j.number == JournalSeq(s) ==> s.journal == Some(j))
  }

  ghost predicate TurnOk(s: State, log: seq<Event>, turn: Turn) {
    && CasOk(s, log, turn.j) && !IsTerminal(turn.j.phase)
    && turn.head <= |log| && Unmarked(log, turn.head, turn.j.op.id)
  }

  ghost predicate PastTurn(s: State, log: seq<Event>, turn: Turn) {
    TurnOk(s, log, turn) && turn.j.phase != Preflight
  }

  predicate EndedOrStale(s: State, id: Identity, p: Plane) {
    EndKey(id, p) in s.ended || id.token < s.maxToken
  }

  /** The abort is through with every plane it declares and carries, but those still to do. */
  predicate AbortedBut(s: State, op: Op, e: Envelope, todo: seq<Plane>) {
    forall p: Plane | p in e.declared && p in e.carried && p !in todo :: EndedOrStale(s, op.id, p)
  }

  predicate AbortedAll(s: State, op: Op, e: Envelope) {
    forall p: Plane | p in e.declared :: EndedOrStale(s, op.id, p)
  }

  ghost predicate PcOk(pc: Pc, s: State, log: seq<Event>) {
    match pc
    case Writing(entry, _) => EntryOk(s, log, entry)
    case Closing(turn, how) => CasOk(s, log, turn.j) && IsTerminal(how) && (how == Activated ==> ProvenBoth(log, turn.j.op))
    case Preflighting(turn) => TurnOk(s, log, turn)
    case LookingUp(turn) => PastTurn(s, log, turn)
    case Intending(turn) => PastTurn(s, log, turn)
    case Publishing(turn) => PastTurn(s, log, turn)
    case Staging(turn, progress, _, _) => PastTurn(s, log, turn) && ProgressOk(progress, turn.j.op, log)
    case Loading(turn, progress, _, _) => PastTurn(s, log, turn) && ProgressOk(progress, turn.j.op, log)
    case ReadingWorld(turn) => PastTurn(s, log, turn)
    case Winning(turn, seen) =>
      && PastTurn(s, log, turn) && turn.j.attempts < RELOAD_ATTEMPT_LIMIT
      && (turn.j.attempts > 0 ==> SawOld(seen, turn.j.op.generation))
    case Signalling(turn, won, seen) =>
      && PastTurn(s, log, turn)
      && won < |log| && log[won] == WonAttempt(turn.j.opening, turn.j.attempts + 1)
      && (turn.j.attempts > 0 ==> SawOld(seen, turn.j.op.generation))
    case Awaiting(turn) => PastTurn(s, log, turn)
    case Confirming(turn) => PastTurn(s, log, turn)
    case Proving(turn, saw) => PastTurn(s, log, turn) && saw < |log| && log[saw] == SawMine(turn.j.op, OwnedBy(RecordOf(turn.j.op)))
    case Committing(turn, proof, saw, progress, _) =>
      && PastTurn(s, log, turn) && saw < |log| && log[saw] == SawMine(turn.j.op, OwnedBy(RecordOf(turn.j.op)))
      && ProvesActivation(Some(proof), turn.j.op.generation) && ProgressOk(progress, turn.j.op, log)
    case Failing(j, progress, _, _) => CasOk(s, log, j) && ProgressOk(progress, j.op, log)
    case FailingPlane(j, progress, _, _) => CasOk(s, log, j) && ProgressOk(progress, j.op, log)
    case Judging(j, progress, _) => CasOk(s, log, j) && ProgressOk(progress, j.op, log)
    case Aborting(op, e, todo) => AbortedBut(s, op, e, todo)
    case AbortReleasing(op, e) => AbortedBut(s, op, e, [])
    case AbortFinishing(op, e) => AbortedBut(s, op, e, [])
    case AbortJudging(op, e) => AbortedAll(s, op, e)
    case AbortClosing(op, e, how) => AbortedAll(s, op, e) && ClosingTrue(s, op, e, how)
    case _ => true
  }

  /** Closing as `activated` would be true, on every plane the abort declares, of the journal the close would hit. */
  predicate ClosingTrue(s: State, op: Op, e: Envelope, how: Phase) {
    && IsTerminal(how)
    && (how == Activated && OwnsJournal(s.journal, op) ==>
          forall p: Plane | p in e.declared :: EndedHow(s, op.id, p) == Some(EndActivated))
  }

  // ------------------------------------------------------------------ stability

  lemma UnmarkedGrows(log: seq<Event>, log': seq<Event>, head: nat, id: Identity)
    requires log <= log' && head <= |log| && Unmarked(log, head, id)
    ensures Unmarked(log', head, id)
  {
    forall i | 0 <= i < |log'| && i < head ensures log'[i] != MarkedAborted(id) { assert log[i] == log'[i]; }
  }

  lemma CasGrows(s: State, n: State, log: seq<Event>, log': seq<Event>, j: Journal)
    requires Grows(s, n) && log <= log' && CasOk(s, log, j)
    ensures CasOk(n, log', j)
  {
    EntryGrows(j, s.done, n.done, log, log');
  }

  lemma TurnGrows(s: State, n: State, log: seq<Event>, log': seq<Event>, turn: Turn)
    requires Grows(s, n) && log <= log' && TurnOk(s, log, turn)
    ensures TurnOk(n, log', turn)
  {
    CasGrows(s, n, log, log', turn.j);
    UnmarkedGrows(log, log', turn.head, turn.j.op.id);
  }

  lemma EntryOkGrows(s: State, n: State, log: seq<Event>, log': seq<Event>, entry: Journal)
    requires Grows(s, n) && log <= log' && EntryOk(s, log, entry)
    ensures EntryOk(n, log', entry)
  {
    if entry.number == JournalSeq(n) + 1 { EntryGrows(entry, s.done, n.done, log, log'); }
  }

  lemma ProvenBothGrows(log: seq<Event>, log': seq<Event>, op: Op)
    requires log <= log' && ProvenBoth(log, op)
    ensures ProvenBoth(log', op)
  {
    ProvenGrows(log, log', TupleFor(op, Http));
    ProvenGrows(log, log', TupleFor(op, Stream));
  }

  lemma ClosingGrows(s: State, n: State, op: Op, e: Envelope, how: Phase)
    requires Grows(s, n) && AbortedAll(s, op, e) && ClosingTrue(s, op, e, how)
    ensures ClosingTrue(n, op, e, how)
  {
    if how == Activated && OwnsJournal(n.journal, op) {
      forall p: Plane | p in e.declared ensures EndedHow(n, op.id, p) == Some(EndActivated) {
        if n.journal == s.journal || (s.journal.Some? && Follows(s.journal.value, n.journal.value)) {
          assert EndedHow(s, op.id, p) == Some(EndActivated);
        } else {
          ReopenedWasActivated(s, n, op, p);
        }
      }
    }
  }

  /** A transition with a plane that was ended before can only be opened again if that plane was activated. */
  lemma ReopenedWasActivated(s: State, n: State, op: Op, p: Plane)
    requires Grows(s, n) && EndedOrStale(s, op.id, p)
    requires OwnsJournal(n.journal, op) && Reopened(s, n)
    ensures EndedHow(n, op.id, p) == Some(EndActivated)
  {
    assert EndKey(op.id, p) in n.ended;
    assert NotGivenUp(n, op.id, p);
  }

  /** Counters that hold nothing but an iteration. */
  predicate PlainTurn(pc: Pc) {
    || pc.Preflighting? || pc.LookingUp? || pc.Intending? || pc.Publishing?
    || pc.ReadingWorld? || pc.Awaiting? || pc.Confirming?
  }

  predicate SignalTurn(pc: Pc) { pc.Winning? || pc.Signalling? }

  predicate CommitTurn(pc: Pc) { pc.Proving? || pc.Committing? }

  predicate FailPc(pc: Pc) { pc.Failing? || pc.FailingPlane? || pc.Judging? }

  predicate AbortPc(pc: Pc) {
    pc.Aborting? || pc.AbortReleasing? || pc.AbortFinishing? || pc.AbortJudging? || pc.AbortClosing?
  }

  lemma PlainGrows(pc: Pc, s: State, n: State, log: seq<Event>, log': seq<Event>)
    requires PlainTurn(pc) && Grows(s, n) && log <= log' && PcOk(pc, s, log)
    ensures PcOk(pc, n, log')
  {
    TurnGrows(s, n, log, log', pc.turn);
  }

  lemma ClosingPcGrows(pc: Pc, s: State, n: State, log: seq<Event>, log': seq<Event>)
    requires pc.Closing? && Grows(s, n) && log <= log' && PcOk(pc, s, log)
    ensures PcOk(pc, n, log')
  {
    CasGrows(s, n, log, log', pc.turn.j);
    if pc.how == Activated { ProvenBothGrows(log, log', pc.turn.j.op); }
  }

  lemma StagingGrows(pc: Pc, s: State, n: State, log: seq<Event>, log': seq<Event>)
    requires (pc.Staging? || pc.Loading?) && Grows(s, n) && log <= log' && PcOk(pc, s, log)
    ensures PcOk(pc, n, log')
  {
    TurnGrows(s, n, log, log', pc.turn);
    ProgressGrows(pc.progress, pc.turn.j.op, log, log');
  }

  lemma SignalGrows(pc: Pc, s: State, n: State, log: seq<Event>, log': seq<Event>)
    requires SignalTurn(pc) && Grows(s, n) && log <= log' && PcOk(pc, s, log)
    ensures PcOk(pc, n, log')
  {
    TurnGrows(s, n, log, log', pc.turn);
    if pc.Signalling? { assert log'[pc.won] == log[pc.won]; }
  }

  lemma CommitGrows(pc: Pc, s: State, n: State, log: seq<Event>, log': seq<Event>)
    requires CommitTurn(pc) && Grows(s, n) && log <= log' && PcOk(pc, s, log)
    ensures PcOk(pc, n, log')
  {
    TurnGrows(s, n, log, log', pc.turn);
    assert log'[pc.saw] == log[pc.saw];
    if pc.Committing? { ProgressGrows(pc.progress, pc.turn.j.op, log, log'); }
  }

  lemma FailingGrows(pc: Pc, s: State, n: State, log: seq<Event>, log': seq<Event>)
    requires FailPc(pc) && Grows(s, n) && log <= log' && PcOk(pc, s, log)
    ensures PcOk(pc, n, log')
  {
    CasGrows(s, n, log, log', pc.j);
    ProgressGrows(pc.progress, pc.j.op, log, log');
  }

  lemma AbortGrows(pc: Pc, s: State, n: State, log: seq<Event>, log': seq<Event>)
    requires AbortPc(pc) && Grows(s, n) && PcOk(pc, s, log)
    ensures PcOk(pc, n, log')
  {
    hide JournalGrows, DoneGrows, ClosingTrue;
    if pc.AbortClosing? { ClosingGrows(s, n, pc.op, pc.envelope, pc.how); }
  }

  /** Whatever others save, what an actor relies on stays true. */
  lemma PcGrows(pc: Pc, s: State, n: State, log: seq<Event>, log': seq<Event>)
    requires Grows(s, n) && log <= log' && PcOk(pc, s, log)
    ensures PcOk(pc, n, log')
  {
    hide Grows, CasOk, TurnOk, EntryOk, ProgressOk, ClosingTrue;
    if pc.Writing? { EntryOkGrows(s, n, log, log', pc.entry); }
    else if PlainTurn(pc) { PlainGrows(pc, s, n, log, log'); }
    else if pc.Closing? { ClosingPcGrows(pc, s, n, log, log'); }
    else if pc.Staging? || pc.Loading? { StagingGrows(pc, s, n, log, log'); }
    else if SignalTurn(pc) { SignalGrows(pc, s, n, log, log'); }
    else if CommitTurn(pc) { CommitGrows(pc, s, n, log, log'); }
    else if FailPc(pc) { FailingGrows(pc, s, n, log, log'); }
    else if AbortPc(pc) { AbortGrows(pc, s, n, log, log'); }
  }
}
