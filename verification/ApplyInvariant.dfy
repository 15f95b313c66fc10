/**
 * What every serial section keeps about the durable state and the history, and what it only
 * ever lets grow: the rely/guarantee part of the apply protocol's safety proof.
 */
module ApplyInvariant {
  import opened Wrappers
  import opened Operation
  import opened Agent
  import opened AgentGuard
  import opened ApplyMachine

  // ------------------------------------------------------------------ facts about the history

  ghost predicate Occurred(log: seq<Event>, e: Event) {
    exists i :: 0 <= i < |log| && log[i] == e
  }

  /** A commit really moved this plane of this transition, on proof. */
  ghost predicate Proven(log: seq<Event>, t: Tuple) {
    exists c :: 0 <= c < |log| && log[c].MovedPlane? && log[c].tuple == t
  }

  ghost predicate ProvenBoth(log: seq<Event>, op: Op) {
    Proven(log, TupleFor(op, Http)) && Proven(log, TupleFor(op, Stream))
  }

  /** No abort mark for `id` among the first `head` events. */
  ghost predicate Unmarked(log: seq<Event>, head: nat, id: Identity) {
    forall i :: 0 <= i < |log| && i < head ==> log[i] != MarkedAborted(id)
  }

  /** Each move was proven after a look that named the operation; each look came after a passed preflight. */
  ghost predicate MoveOk(log: seq<Event>, c: nat)
    requires c < |log| && log[c].MovedPlane?
  {
    var e := log[c];
    && ProvesActivation(Some(e.proof), e.tuple.generation)
    && e.saw < c && log[e.saw].SawMine? && TupleFor(log[e.saw].op, e.tuple.plane) == e.tuple
  }

  ghost predicate LookOk(log: seq<Event>, c: nat)
    requires c < |log| && log[c].SawMine?
  {
    && log[c].seen == OwnedBy(RecordOf(log[c].op))
    && exists f :: 0 <= f < c && log[f] == PassedPreflight(log[c].op)
  }

  ghost predicate MovesOk(log: seq<Event>) {
    && (forall c :: 0 <= c < |log| && log[c].MovedPlane? ==> MoveOk(log, c))
    && (forall c :: 0 <= c < |log| && log[c].SawMine? ==> LookOk(log, c))
  }

  // ------------------------------------------------------------------ idempotency records

  predicate Reserved(done: map<StepKey, Tuple>, t: Tuple) {
    var k := StepKey(t.id, t.plane, Reserve);
    k in done && done[k] == t
  }

  predicate ReservedOp(done: map<StepKey, Tuple>, op: Op) {
    Reserved(done, TupleFor(op, Http)) && Reserved(done, TupleFor(op, Stream))
  }

  /** Both planes of one identity were reserved by one operation. */
  predicate Paired(done: map<StepKey, Tuple>, id: Identity) {
    var h, t := StepKey(id, Http, Reserve), StepKey(id, Stream, Reserve);
    h in done && t in done && done[h].generation == done[t].generation && done[h].digest == done[t].digest
  }

  ghost predicate RecordOk(done: map<StepKey, Tuple>, log: seq<Event>, k: StepKey)
    requires k in done
  {
    && done[k].id == k.id && done[k].plane == k.plane
    && (k.step == Reserve ==> Paired(done, k.id))
    && (k.step == Stage || k.step == Commit ==> Reserved(done, done[k]))
    && (k.step == Commit ==> Proven(log, done[k]))
  }

  ghost predicate DoneOk(done: map<StepKey, Tuple>, log: seq<Event>) {
    forall k | k in done :: RecordOk(done, log, k)
  }

  /** The identity moved this plane, and by the very tuple it reserved. */
  ghost predicate ProvenOn(done: map<StepKey, Tuple>, log: seq<Event>, id: Identity, p: Plane) {
    StepKey(id, p, Reserve) in done && Proven(log, done[StepKey(id, p, Reserve)])
  }

  // ------------------------------------------------------------------ the parts of the durable state

  ghost predicate SlotsOk(slots: map<SlotKey, Slot>, done: map<StepKey, Tuple>) {
    forall k | k in slots :: Reserved(done, slots[k].owner)
  }

  /** A signature on a plane is backed by a proven move to exactly that epoch. */
  ghost predicate PlaneOk(at: PlaneState, p: Plane, done: map<StepKey, Tuple>, log: seq<Event>) {
    at.author.Some? ==>
      && ProvenOn(done, log, at.author.value, p)
      && done[StepKey(at.author.value, p, Reserve)].move.target.epoch == at.at.epoch
  }

  ghost predicate EndedOk(ended: map<EndKey, Ended>, done: map<StepKey, Tuple>, log: seq<Event>) {
    forall k | k in ended :: ended[k] == EndActivated ==> ProvenOn(done, log, k.id, k.plane)
  }

  predicate IsAborted(ended: map<EndKey, Ended>, id: Identity) {
    || (EndKey(id, Http) in ended && ended[EndKey(id, Http)] == EndAborted)
    || (EndKey(id, Stream) in ended && ended[EndKey(id, Stream)] == EndAborted)
  }

  predicate IsActivated(ended: map<EndKey, Ended>, k: EndKey) { k in ended && ended[k] == EndActivated }

  /** The ledger's abort marks and the history agree, and every move is on record. */
  ghost predicate MarksOk(ended: map<EndKey, Ended>, log: seq<Event>) {
    && (forall i :: 0 <= i < |log| && log[i].MarkedAborted? ==> IsAborted(ended, log[i].id))
    && (forall k | k in ended :: ended[k] == EndAborted ==> Occurred(log, MarkedAborted(k.id)))
    && (forall i :: 0 <= i < |log| && log[i].MovedPlane? ==> IsActivated(ended, EndKeyOf(log[i].tuple)))
  }

  ghost predicate CandidateOk(r: Option<Record>, done: map<StepKey, Tuple>) {
    r.Some? ==> Paired(done, r.value.id)
                && done[StepKey(r.value.id, Http, Reserve)].generation == r.value.generation
                && done[StepKey(r.value.id, Http, Reserve)].digest == r.value.digest
  }

  /** A baseline was moved to on both planes by its own operation. */
  ghost predicate BaselineOk(r: Option<Record>, done: map<StepKey, Tuple>, log: seq<Event>) {
    CandidateOk(r, done)
    && (r.Some? ==> ProvenOn(done, log, r.value.id, Http) && ProvenOn(done, log, r.value.id, Stream))
  }

  ghost predicate ProgressOk(progress: PerPlane<Progress>, op: Op, log: seq<Event>) {
    && (progress.http == PlaneCommitted ==> Proven(log, TupleFor(op, Http)))
    && (progress.stream == PlaneCommitted ==> Proven(log, TupleFor(op, Stream)))
  }

  /** An abort closed this opening of the journal without both activations on record. */
  ghost predicate WasClosedOver(log: seq<Event>, id: Identity, opening: nat) {
    exists i :: 0 <= i < |log| && log[i].ClosedOver? && log[i].id == id && log[i].opening == opening
  }

  /** What `activated` stands for: both planes proven, or a close that claimed more than the ledger showed. */
  ghost predicate ActivatedTrue(j: Journal, log: seq<Event>) {
    ProvenBoth(log, j.op) || WasClosedOver(log, j.op.id, j.opening)
  }

  predicate PastPreflight(p: Phase) { p != Preflight && !IsTerminal(p) }

  /** What a journal entry may claim. */
  ghost predicate EntryTrue(j: Journal, done: map<StepKey, Tuple>, log: seq<Event>) {
    && ReservedOp(done, j.op)
    && 1 <= j.opening <= j.number
    && (PastPreflight(j.phase) ==> Occurred(log, PassedPreflight(j.op)))
    && ProgressOk(j.progress, j.op, log)
    && (j.phase == Activated ==> ActivatedTrue(j, log))
  }

  ghost predicate JournalOk(j: Option<Journal>, done: map<StepKey, Tuple>, log: seq<Event>) {
    j.Some? ==> EntryTrue(j.value, done, log)
  }

  /** Everything together: kept by every saved section. */
  ghost predicate Kept(s: State, log: seq<Event>) {
    && Sound(s)
    && DoneOk(s.done, log)
    && SlotsOk(s.slots, s.done)
    && PlaneOk(s.planes.http, Http, s.done, log) && PlaneOk(s.planes.stream, Stream, s.done, log)
    && EndedOk(s.ended, s.done, log)
    && MarksOk(s.ended, log)
    && CandidateOk(s.pending, s.done)
    && BaselineOk(s.baseline, s.done, log)
    && JournalOk(s.journal, s.done, log)
  }

  // ------------------------------------------------------------------ growth

  ghost predicate DoneGrows(a: map<StepKey, Tuple>, b: map<StepKey, Tuple>) {
    forall k | k in a :: k in b && b[k] == a[k]
  }

  /** A journal follows another of the same opening. */
  predicate Follows(j: Journal, e: Journal) {
    e.op == j.op && e.opening == j.opening && j.attempts <= e.attempts && (j.evidence.Some? ==> e.evidence.Some?)
  }

  /** The journal stays, follows, or is opened anew for an operation that nobody gave up. */
  ghost predicate JournalGrows(s: State, n: State) {
    && JournalSeq(s) <= JournalSeq(n)
    && (s.journal == n.journal
        || (JournalSeq(s) < JournalSeq(n) && n.journal.Some?
            && ((s.journal.Some? && Follows(s.journal.value, n.journal.value)) || Reopened(s, n))))
  }

  /** Neither aborted nor failed on this plane. */
  predicate NotGivenUp(s: State, id: Identity, p: Plane) {
    EndKey(id, p) in s.ended ==> s.ended[EndKey(id, p)].EndActivated?
  }

  ghost predicate Reopened(s: State, n: State)
    requires n.journal.Some?
  {
    var j := n.journal.value;
    && JournalSeq(s) < j.opening
    && j.op.id.token == n.maxToken
    && NotGivenUp(n, j.op.id, Http) && NotGivenUp(n, j.op.id, Stream)
  }

  /** What any saved section guarantees to everybody else. */
  ghost predicate Grows(s: State, n: State) {
    && s.maxToken <= n.maxToken
    && DoneGrows(s.done, n.done)
    && EndedGrows(s, n)
    && JournalGrows(s, n)
  }

  // ------------------------------------------------------------------ everything survives growth

  lemma ProvenGrows(log: seq<Event>, log': seq<Event>, t: Tuple)
    requires log <= log' && Proven(log, t)
    ensures Proven(log', t)
  {
    var c :| 0 <= c < |log| && log[c].MovedPlane? && log[c].tuple == t;
    assert log'[c] == log[c];
  }

  lemma OccurredGrows(log: seq<Event>, log': seq<Event>, e: Event)
    requires log <= log' && Occurred(log, e)
    ensures Occurred(log', e)
  {
    var i :| 0 <= i < |log| && log[i] == e;
    assert log'[i] == e;
  }

  lemma ProgressGrows(progress: PerPlane<Progress>, op: Op, log: seq<Event>, log': seq<Event>)
    requires log <= log' && ProgressOk(progress, op, log)
    ensures ProgressOk(progress, op, log')
  {
    if progress.http == PlaneCommitted { ProvenGrows(log, log', TupleFor(op, Http)); }
    if progress.stream == PlaneCommitted { ProvenGrows(log, log', TupleFor(op, Stream)); }
  }

  lemma EntryGrows(j: Journal, done: map<StepKey, Tuple>, done': map<StepKey, Tuple>, log: seq<Event>, log': seq<Event>)
    requires DoneGrows(done, done') && log <= log' && EntryTrue(j, done, log)
    ensures EntryTrue(j, done', log')
  {
    ProgressGrows(j.progress, j.op, log, log');
    if PastPreflight(j.phase) { OccurredGrows(log, log', PassedPreflight(j.op)); }
    if j.phase == Activated { ActivatedGrows(j, log, log'); }
  }

  lemma ActivatedGrows(j: Journal, log: seq<Event>, log': seq<Event>)
    requires log <= log' && ActivatedTrue(j, log)
    ensures ActivatedTrue(j, log')
  {
    if ProvenBoth(log, j.op) {
      ProvenGrows(log, log', TupleFor(j.op, Http));
      ProvenGrows(log, log', TupleFor(j.op, Stream));
    } else {
      var i :| 0 <= i < |log| && log[i].ClosedOver? && log[i].id == j.op.id && log[i].opening == j.opening;
      assert log'[i] == log[i];
    }
  }

  lemma ProvenOnGrows(done: map<StepKey, Tuple>, done': map<StepKey, Tuple>, log: seq<Event>, log': seq<Event>, id: Identity, p: Plane)
    requires DoneGrows(done, done') && log <= log' && ProvenOn(done, log, id, p)
    ensures ProvenOn(done', log', id, p)
  {
    ProvenGrows(log, log', done[StepKey(id, p, Reserve)]);
  }

  /** The parts of the state that a section left alone stay good under more records and more history. */
  lemma PartsGrow(s: State, log: seq<Event>, done': map<StepKey, Tuple>, log': seq<Event>)
    requires Kept(s, log) && DoneGrows(s.done, done') && log <= log'
    ensures SlotsOk(s.slots, done')
    ensures PlaneOk(s.planes.http, Http, done', log') && PlaneOk(s.planes.stream, Stream, done', log')
    ensures EndedOk(s.ended, done', log')
    ensures CandidateOk(s.pending, done') && BaselineOk(s.baseline, done', log')
    ensures JournalOk(s.journal, done', log')
  {
    if s.planes.http.author.Some? { ProvenOnGrows(s.done, done', log, log', s.planes.http.author.value, Http); }
    if s.planes.stream.author.Some? { ProvenOnGrows(s.done, done', log, log', s.planes.stream.author.value, Stream); }
    forall k | k in s.ended && s.ended[k] == EndActivated ensures ProvenOn(done', log', k.id, k.plane) {
      ProvenOnGrows(s.done, done', log, log', k.id, k.plane);
    }
    if s.baseline.Some? {
      ProvenOnGrows(s.done, done', log, log', s.baseline.value.id, Http);
      ProvenOnGrows(s.done, done', log, log', s.baseline.value.id, Stream);
    }
    if s.journal.Some? { EntryGrows(s.journal.value, s.done, done', log, log'); }
  }

  lemma DoneLogGrows(done: map<StepKey, Tuple>, log: seq<Event>, log': seq<Event>)
    requires DoneOk(done, log) && log <= log'
    ensures DoneOk(done, log')
  {
    forall k | k in done ensures RecordOk(done, log', k) {
      if k.step == Commit { ProvenGrows(log, log', done[k]); }
    }
  }

  // ------------------------------------------------------------------ each section keeps the invariant

  /** What the caller must bring along for the section to keep the invariant. */
  ghost predicate CallOk(s: State, log: seq<Event>, c: Call) {
    match c
    case StageCall(t) => Reserved(s.done, t)
    case CommitCall(t, _) => Reserved(s.done, t)
    case WriteCall(entry) => EntryOk(s, log, entry)
    case CloseCall(op, how) =>
      IsTerminal(how) &&
      (how == Activated && OwnsJournal(s.journal, op) && !IsTerminal(s.journal.value.phase) ==> ActivatedTrue(s.journal.value, log))
    case _ => true
  }

  /** An entry that either continues the current journal truthfully or will lose its CAS. */
  ghost predicate EntryOk(s: State, log: seq<Event>, entry: Journal) {
    && entry.number <= JournalSeq(s) + 1
    && (entry.number == JournalSeq(s) + 1 ==>
          s.journal.Some? && Follows(s.journal.value, entry) && EntryTrue(entry, s.done, log))
  }

  ghost predicate Submap(a: map<SlotKey, Slot>, b: map<SlotKey, Slot>) {
    forall k | k in a :: k in b && a[k] == b[k]
  }

  lemma MarksGrow(s: State, n: State, log: seq<Event>, log': seq<Event>)
    requires MarksOk(s.ended, log) && EndedGrows(s, n) && log <= log'
    requires forall i :: |log| <= i < |log'| && log'[i].MarkedAborted? ==> IsAborted(n.ended, log'[i].id)
    requires forall k | k in n.ended && k !in s.ended :: n.ended[k] == EndAborted ==> Occurred(log', MarkedAborted(k.id))
    requires forall i :: |log| <= i < |log'| && log'[i].MovedPlane? ==> IsActivated(n.ended, EndKeyOf(log'[i].tuple))
    ensures MarksOk(n.ended, log')
  {
    forall i | 0 <= i < |log'| && log'[i].MovedPlane? ensures IsActivated(n.ended, EndKeyOf(log'[i].tuple)) {
      if i < |log| { assert IsActivated(s.ended, EndKeyOf(log[i].tuple)); }
    }
    forall i | 0 <= i < |log'| && log'[i].MarkedAborted? ensures IsAborted(n.ended, log'[i].id) {
      if i < |log| { assert IsAborted(s.ended, log[i].id); }
    }
    forall k | k in n.ended && n.ended[k] == EndAborted ensures Occurred(log', MarkedAborted(k.id)) {
      if k in s.ended { OccurredGrows(log, log', MarkedAborted(k.id)); }
    }
  }

  lemma KeepControl(s: State, n: State, log: seq<Event>)
    requires Kept(s, log) && Sound(n)
    requires n == s.(slots := n.slots, journal := n.journal, holder := n.holder)
    requires Submap(n.slots, s.slots) && JournalOk(n.journal, s.done, log)
    ensures Kept(n, log)
  {
  }

  lemma KeepWrite(s: State, log: seq<Event>, entry: Journal)
    requires Kept(s, log) && EntryOk(s, log, entry) && WriteJournal(s, entry).Accepted? && Sound(WriteJournal(s, entry).state)
    ensures var n := WriteJournal(s, entry).state; Kept(n, log) && Grows(s, n)
  {
    KeepControl(s, WriteJournal(s, entry).state, log);
  }

  lemma KeepClose(s: State, log: seq<Event>, op: Op, how: Phase)
    requires Kept(s, log) && CallOk(s, log, CloseCall(op, how)) && Sound(CloseJournal(s, op, how)) && IsTerminal(how)
    ensures var n := CloseJournal(s, op, how); Kept(n, log) && Grows(s, n)
  {
    var n := CloseJournal(s, op, how);
    if n != s {
      assert EntryTrue(s.journal.value, s.done, log);
      assert Follows(s.journal.value, n.journal.value);
      KeepControl(s, n, log);
    }
  }

  /** Sections that only give slots back or move the execution right. */
  lemma KeepRelease(s: State, log: seq<Event>, c: Call)
    requires Kept(s, log) && (c.ReclaimCall? || c.ReleaseStaleCall? || c.ReleaseIdleCall? || c.ReleaseHolderCall?)
    requires Mutate(s, c).Accepted? && Sound(Mutate(s, c).state)
    ensures var n := Mutate(s, c).state; Kept(n, log) && Grows(s, n)
  {
    var n := Mutate(s, c).state;
    ReleaseFrame(s, c);
    KeepControl(s, n, log);
    SameRecordsGrow(s, n);
  }

  lemma ReleaseFrame(s: State, c: Call)
    requires c.ReclaimCall? || c.ReleaseStaleCall? || c.ReleaseIdleCall? || c.ReleaseHolderCall?
    requires Mutate(s, c).Accepted?
    ensures var n := Mutate(s, c).state; n == s.(slots := n.slots, holder := n.holder) && Submap(n.slots, s.slots)
  {
  }

  lemma SameRecordsGrow(s: State, n: State)
    requires n == s.(slots := n.slots, holder := n.holder)
    ensures Grows(s, n)
  {
  }

  lemma KeepSlotWork(s: State, n: State, log: seq<Event>, t: Tuple)
    requires Kept(s, log) && Sound(n) && SlotWork(s, n, n.maxToken)
    requires DoneGrows(s.done, n.done) && DoneOk(n.done, log)
    requires forall k | k in n.slots :: (k in s.slots && n.slots[k].owner == s.slots[k].owner) || n.slots[k].owner == t
    requires Reserved(n.done, t)
    ensures Kept(n, log) && Grows(s, n)
  {
    PartsGrow(s, log, n.done, log);
  }

  lemma KeepStage(s: State, log: seq<Event>, t: Tuple)
    requires Kept(s, log) && Reserved(s.done, t) && StageSlot(s, t).Accepted? && Sound(StageSlot(s, t).state)
    ensures var n := StageSlot(s, t).state; Kept(n, log) && Grows(s, n)
  {
    var n := StageSlot(s, t).state;
    StageFrame(s, t);
    StageDetail(s, t);
    StepRecorded(s.done, n.done, log, t, Stage);
    KeepSlotWork(s, n, log, t);
  }

  lemma StageDetail(s: State, t: Tuple)
    requires StageSlot(s, t).Accepted?
    ensures var n := StageSlot(s, t).state;
      && (n.done == s.done || (n.done == s.done[StepKey(t.id, t.plane, Stage) := t])) && DoneGrows(s.done, n.done)
      && (forall k | k in n.slots :: (k in s.slots && n.slots[k].owner == s.slots[k].owner) || n.slots[k].owner == t)
  {
  }

  /** Recording a stage or commit of a reserved tuple (or nothing new) keeps the records good. */
  lemma StepRecorded(done: map<StepKey, Tuple>, done': map<StepKey, Tuple>, log: seq<Event>, t: Tuple, step: Step)
    requires DoneOk(done, log) && Reserved(done, t) && DoneGrows(done, done') && step != Reserve
    requires done' == done || done' == done[StepKey(t.id, t.plane, step) := t]
    requires step == Commit ==> Proven(log, t)
    ensures DoneOk(done', log)
  {
    forall k | k in done' ensures RecordOk(done', log, k) {
      if k in done { assert RecordOk(done, log, k); }
    }
  }

  lemma KeepCommitReplay(s: State, log: seq<Event>, t: Tuple, e: Evidence)
    requires Kept(s, log) && Reserved(s.done, t) && CommitPlane(s, t, e).Accepted? && !CommitMoves(s, t, e)
    requires Sound(CommitPlane(s, t, e).state)
    ensures var n := CommitPlane(s, t, e).state; Kept(n, log) && Grows(s, n) && Proven(log, t)
  {
    var n := CommitPlane(s, t, e).state;
    var k := StepKey(t.id, t.plane, Commit);
    CommitFrame(s, t, e);
    assert Proven(log, t) by {
      if k in s.done { assert RecordOk(s.done, log, k); }
      else { assert AlreadyThere(s, t); assert PlaneOk(s.planes.At(t.plane), t.plane, s.done, log); }
    }
    assert n.done == s.done || n.done == s.done[k := t];
    assert n.slots == s.slots;
    StepRecorded(s.done, n.done, log, t, Commit);
    KeepSlotWork(s, n, log, t);
  }

  lemma KeepMoved(s: State, log: seq<Event>, t: Tuple, e: Evidence, saw: nat)
    requires Kept(s, log) && Reserved(s.done, t) && CommitMoves(s, t, e) && Sound(CommitPlane(s, t, e).state)
    ensures var n := CommitPlane(s, t, e).state; Kept(n, log + [MovedPlane(t, e, saw)]) && Grows(s, n)
  {
    var n, log' := CommitPlane(s, t, e).state, log + [MovedPlane(t, e, saw)];
    assert Proven(log', t) by { assert log'[|log|] == MovedPlane(t, e, saw); }
    CommitFrame(s, t, e);
    MovedRecords(s, n, log, log', t, e);
    PartsGrow(s, log, n.done, log');
    MovedParts(s, n, log', t, e);
    MovedCandidate(s, n, log', t, e);
    assert n.journal == s.journal;
  }

  lemma MovedRecords(s: State, n: State, log: seq<Event>, log': seq<Event>, t: Tuple, e: Evidence)
    requires DoneOk(s.done, log) && MarksOk(s.ended, log) && log <= log' && Reserved(s.done, t) && Proven(log', t)
    requires n == Moved(s.(maxToken := t.id.token), t, e) && EndKeyOf(t) !in s.ended && StepKey(t.id, t.plane, Commit) !in s.done
    requires forall i :: |log| <= i < |log'| ==> log'[i].MovedPlane? && log'[i].tuple == t
    ensures DoneOk(n.done, log') && DoneGrows(s.done, n.done) && EndedGrows(s, n) && MarksOk(n.ended, log')
  {
    DoneLogGrows(s.done, log, log');
    StepRecorded(s.done, n.done, log', t, Commit);
    MarksGrow(s, n, log, log');
  }

  lemma MovedCandidate(s: State, n: State, log': seq<Event>, t: Tuple, e: Evidence)
    requires n == Moved(s.(maxToken := t.id.token), t, e) && Reserved(n.done, t) && DoneOk(n.done, log')
    ensures CandidateOk(n.pending, n.done)
  {
    assert RecordOk(n.done, log', StepKey(t.id, t.plane, Reserve));
  }

  lemma MovedParts(s: State, n: State, log': seq<Event>, t: Tuple, e: Evidence)
    requires n == Moved(s.(maxToken := t.id.token), t, e) && DoneGrows(s.done, n.done)
    requires SlotsOk(s.slots, n.done) && EndedOk(s.ended, n.done, log')
    requires PlaneOk(s.planes.http, Http, n.done, log') && PlaneOk(s.planes.stream, Stream, n.done, log')
    requires Reserved(n.done, t) && Proven(log', t)
    ensures SlotsOk(n.slots, n.done) && EndedOk(n.ended, n.done, log')
    ensures PlaneOk(n.planes.http, Http, n.done, log') && PlaneOk(n.planes.stream, Stream, n.done, log')
  {
  }

  lemma KeepEnd(s: State, log: seq<Event>, t: Tuple, how: Ended)
    requires Kept(s, log) && EndPlane(s, t, how).Accepted? && Sound(EndPlane(s, t, how).state)
    requires how == EndFailed || how == EndAborted
    ensures var n := EndPlane(s, t, how).state;
      Grows(s, n) && Kept(n, log + Marks(s, if how == EndFailed then FailCall(t) else AbortCall(t)))
  {
    hide JournalOk, BaselineOk, CandidateOk, PlaneOk, DoneOk, MarksOk, Marks, ProvenOn, EndedOk, SlotsOk, EndedGrows;
    var n := EndPlane(s, t, how).state;
    var log' := log + Marks(s, if how == EndFailed then FailCall(t) else AbortCall(t));
    EndFrame(s, t, how);
    EndMarks(s, n, log, log', t, how);
    assert Submap(n.slots, s.slots);
    EndedKept(s, n, log, log', EndKeyOf(t), how);
  }

  lemma EndedKept(s: State, n: State, log: seq<Event>, log': seq<Event>, key: EndKey, how: Ended)
    requires Kept(s, log) && Sound(n) && log <= log' && how != EndActivated
    requires n == s.(maxToken := n.maxToken, slots := n.slots, ended := n.ended) && s.maxToken <= n.maxToken
    requires Submap(n.slots, s.slots) && EndedGrows(s, n) && MarksOk(n.ended, log')
    requires n.ended == s.ended || n.ended == s.ended[key := how]
    ensures Grows(s, n) && Kept(n, log')
  {
    hide JournalOk, BaselineOk, CandidateOk, PlaneOk, DoneOk, MarksOk, ProvenOn, Sound, EndedGrows;
    PartsGrow(s, log, s.done, log');
    DoneLogGrows(s.done, log, log');
    forall k | k in n.ended && n.ended[k] == EndActivated ensures ProvenOn(n.done, log', k.id, k.plane) {
      assert k in s.ended;
    }
  }

  lemma EndMarks(s: State, n: State, log: seq<Event>, log': seq<Event>, t: Tuple, how: Ended)
    requires MarksOk(s.ended, log) && EndPlane(s, t, how) == Accepted(n) && (how == EndFailed || how == EndAborted)
    requires log' == log + Marks(s, if how == EndFailed then FailCall(t) else AbortCall(t))
    ensures n.ended == s.ended || n.ended == s.ended[EndKeyOf(t) := how]
    ensures EndedGrows(s, n) && MarksOk(n.ended, log')
  {
    if EndedHow(s, t.id, t.plane).None? && how == EndAborted {
      assert log'[|log|] == MarkedAborted(t.id);
      assert Occurred(log', MarkedAborted(t.id));
      assert IsAborted(n.ended, t.id) by { assert t.plane == Http || t.plane == Stream; }
    }
    MarksGrow(s, n, log, log');
  }

  lemma KeepHealth(s: State, log: seq<Event>, t: Tuple)
    requires Kept(s, log) && ApplyHealth(s, t).Accepted? && Sound(ApplyHealth(s, t).state)
    ensures var n := ApplyHealth(s, t).state; Kept(n, log) && Grows(s, n)
  {
    var n := ApplyHealth(s, t).state;
    HealthFrame(s, t);
    HealthRecorded(s.done, n.done, log, t);
    PartsGrow(s, log, n.done, log);
    assert PlaneOk(n.planes.http, Http, n.done, log) && PlaneOk(n.planes.stream, Stream, n.done, log);
  }

  lemma HealthFrame(s: State, t: Tuple)
    requires ApplyHealth(s, t).Accepted?
    ensures var n, k := ApplyHealth(s, t).state, StepKey(t.id, t.plane, Health);
      && n == s.(maxToken := n.maxToken, planes := n.planes, done := n.done) && s.maxToken <= n.maxToken
      && n.planes.http.author == s.planes.http.author && n.planes.http.at.epoch == s.planes.http.at.epoch
      && n.planes.stream.author == s.planes.stream.author && n.planes.stream.at.epoch == s.planes.stream.at.epoch
      && (n.done == s.done || (n.done == s.done[k := t] && k !in s.done))
  {
  }

  lemma HealthRecorded(done: map<StepKey, Tuple>, done': map<StepKey, Tuple>, log: seq<Event>, t: Tuple)
    requires DoneOk(done, log)
    requires var k := StepKey(t.id, t.plane, Health); done' == done || (done' == done[k := t] && k !in done)
    ensures DoneOk(done', log) && DoneGrows(done, done')
  {
    forall q | q in done' ensures RecordOk(done', log, q) {
      if q in done { assert RecordOk(done, log, q); }
    }
  }

  /** A candidate that arrived was moved to on both planes by its own operation. */
  lemma ArrivedIsProven(s: State, log: seq<Event>, id: Identity)
    requires Kept(s, log)
    ensures var n := FinalizeCandidate(s, id); CandidateOk(n.pending, s.done) && BaselineOk(n.baseline, s.done, log)
  {
    if Judges(s, id) && CandidateArrived(s, s.pending.value, DeclaredEpochs(s, id)) {
      var r := s.pending.value;
      if s.planes.http.author.None? { assert EndKey(r.id, Http) in s.ended; }
      if s.planes.stream.author.None? { assert EndKey(r.id, Stream) in s.ended; }
    }
  }

  lemma KeepFinish(s: State, log: seq<Event>, op: Op, release: set<Plane>)
    requires Kept(s, log) && Sound(FinishOperation(s, op, release))
    ensures var n := FinishOperation(s, op, release); Kept(n, log) && Grows(s, n)
  {
    FinishFrame(s, op, release);
    ArrivedIsProven(s, log, op.id);
    assert Submap(FinishOperation(s, op, release).slots, s.slots);
  }

  /** Closing a superseded operation, seen from the parts the invariant reads. */
  lemma SupersedeParts(s: State, log: seq<Event>, h: Holder)
    requires SlotsOk(s.slots, s.done) && JournalOk(s.journal, s.done, log)
    ensures var n := Supersede(s, h);
      && SlotsOk(n.slots, n.done) && JournalOk(n.journal, s.done, log)
      && (n.journal == s.journal
          || (s.journal.Some? && n.journal.Some? && JournalSeq(s) < JournalSeq(n) && Follows(s.journal.value, n.journal.value)))
  {
  }

  lemma KeepFence(s: State, log: seq<Event>, token: nat)
    requires Kept(s, log) && Fence(s, token).Accepted? && Sound(Fence(s, token).state)
    ensures var n := Fence(s, token).state; Kept(n, log) && Grows(s, n)
  {
    if s.holder.Some? && s.holder.value.id.token < token { KeepSuccession(s, log, token); }
  }

  lemma KeepSuccession(s: State, log: seq<Event>, token: nat)
    requires Kept(s, log) && s.maxToken <= token && s.holder.Some? && s.holder.value.id.token < token
    requires Sound(Fence(s, token).state)
    ensures var n := Fence(s, token).state; Kept(n, log) && Grows(s, n)
  {
    var s1, n, h := s.(maxToken := token), Fence(s, token).state, s.holder.value;
    SupersedeFrame(s1, h);
    SupersedeParts(s1, log, h);
    ArrivedIsProven(s, log, h.id);
    FenceFrame(s, token);
    Compose(s, n, log);
  }

  /** Reassemble the invariant when only slots, journal, token, right and candidate changed. */
  lemma Compose(s: State, n: State, log: seq<Event>)
    requires Kept(s, log) && Sound(n) && s.maxToken <= n.maxToken
    requires n.done == s.done && n.ended == s.ended && n.planes == s.planes
    requires SlotsOk(n.slots, n.done) && JournalOk(n.journal, s.done, log)
    requires CandidateOk(n.pending, s.done) && BaselineOk(n.baseline, s.done, log)
    ensures Kept(n, log)
    ensures JournalGrows(s, n) ==> Grows(s, n)
  {
  }

  // ------------------------------------------------------------------ reservation

  lemma ReserveOneDetail(s: State, t: Tuple)
    requires ReserveOne(s, t).Accepted?
    ensures var n, k := ReserveOne(s, t).state, StepKey(t.id, t.plane, Reserve);
      && n.done == s.done[k := t] && (k in s.done ==> s.done[k] == t)
      && NotGivenUp(s, t.id, t.plane)
      && n.ended == s.ended
      && (forall q | q in n.slots :: (q in s.slots && n.slots[q] == s.slots[q]) || n.slots[q].owner == t)
  {
    var k := StepKey(t.id, t.plane, Reserve);
    var a := Admit(s, t, Reserve);
    if a.Replay? {
      assert s.done[k] == t && s.done == s.done[k := t];
    } else {
      assert a.Fresh? && k !in s.done;
    }
  }

  /** The orphan's closing keeps the parts, and its marks are noted. */
  lemma SweepParts(s: State, log: seq<Event>, op: Op)
    requires Kept(s, log)
    ensures var n, log' := SweepOrphan(s, op), log + Marks(s, ReserveAllCall(op));
      && SlotsOk(n.slots, n.done) && EndedOk(n.ended, n.done, log') && MarksOk(n.ended, log')
      && CandidateOk(n.pending, n.done) && BaselineOk(n.baseline, n.done, log')
  {
    hide MarksOk, EndedOk, SlotsOk, CandidateOk, BaselineOk, JournalOk, PlaneOk, DoneOk, StampAborted, Supersede;
    var n, log' := SweepOrphan(s, op), log + Marks(s, ReserveAllCall(op));
    if s.journal.None? || OwnsJournal(s.journal, op) || IsTerminal(s.journal.value.phase) {
      assert n == s && log' == log;
      PartsGrow(s, log, s.done, log');
    } else {
      SweptParts(s, log, log', s.journal.value.op);
    }
  }

  lemma SweptParts(s: State, log: seq<Event>, log': seq<Event>, stale: Op)
    requires Kept(s, log) && s.journal.Some? && s.journal.value.op == stale
    requires var marks := if EndedHow(s, stale.id, Http).None? || EndedHow(s, stale.id, Stream).None? then [MarkedAborted(stale.id)] else [];
      log' == log + marks
    ensures var n := Supersede(StampAborted(StampAborted(s, TupleFor(stale, Http)), TupleFor(stale, Stream)), HolderOf(stale));
      && SlotsOk(n.slots, n.done) && EndedOk(n.ended, n.done, log') && MarksOk(n.ended, log')
      && CandidateOk(n.pending, n.done) && BaselineOk(n.baseline, n.done, log')
  {
    var s2 := StampAborted(StampAborted(s, TupleFor(stale, Http)), TupleFor(stale, Stream));
    PartsGrow(s, log, s.done, log');
    StampMarks(s, log, stale);
    hide MarksOk, EndedOk, SlotsOk, CandidateOk, BaselineOk, JournalOk, PlaneOk, DoneOk, StampAborted;
    SupersedeParts(s2, log, HolderOf(stale));
    StampedCandidate(s, s2, log', HolderOf(stale));
  }

  lemma StampMarks(s: State, log: seq<Event>, stale: Op)
    requires Kept(s, log) && s.journal.Some? && s.journal.value.op == stale
    ensures var n := StampAborted(StampAborted(s, TupleFor(stale, Http)), TupleFor(stale, Stream));
      var marks := if EndedHow(s, stale.id, Http).None? || EndedHow(s, stale.id, Stream).None? then [MarkedAborted(stale.id)] else [];
      n == s.(ended := n.ended) && MarksOk(n.ended, log + marks) && EndedOk(n.ended, n.done, log + marks)
  {
    var n := StampAborted(StampAborted(s, TupleFor(stale, Http)), TupleFor(stale, Stream));
    var marks := if EndedHow(s, stale.id, Http).None? || EndedHow(s, stale.id, Stream).None? then [MarkedAborted(stale.id)] else [];
    var log' := log + marks;
    StampedBoth(s, stale);
    PartsGrow(s, log, s.done, log');
    if marks != [] { assert log'[|log|] == MarkedAborted(stale.id); assert Occurred(log', MarkedAborted(stale.id)); }
    MarksGrow(s, n, log, log');
  }

  lemma StampedBoth(s: State, stale: Op)
    ensures var n := StampAborted(StampAborted(s, TupleFor(stale, Http)), TupleFor(stale, Stream));
      && n == s.(ended := n.ended) && EndedGrows(s, n)
      && (forall k | k in n.ended && k !in s.ended :: n.ended[k] == EndAborted && k.id == stale.id
            && EndedHow(s, stale.id, k.plane).None?)
      && (EndedHow(s, stale.id, Http).None? || EndedHow(s, stale.id, Stream).None? ==> IsAborted(n.ended, stale.id))
  {
  }

  /** Judging the candidate after the stamps: an abort mark never makes a plane arrive. */
  lemma StampedCandidate(s: State, s2: State, log': seq<Event>, h: Holder)
    requires s2 == s.(ended := s2.ended) && EndedOk(s2.ended, s2.done, log')
    requires PlaneOk(s.planes.http, Http, s.done, log') && PlaneOk(s.planes.stream, Stream, s.done, log')
    requires CandidateOk(s.pending, s.done) && BaselineOk(s.baseline, s.done, log')
    ensures CandidateOk(Supersede(s2, h).pending, s.done) && BaselineOk(Supersede(s2, h).baseline, s.done, log')
  {
    if Judges(s2, h.id) && CandidateArrived(s2, s2.pending.value, DeclaredEpochs(s2, h.id)) {
      var r := s.pending.value;
      if s.planes.http.author.None? { assert EndKey(r.id, Http) in s2.ended; }
      if s.planes.stream.author.None? { assert EndKey(r.id, Stream) in s2.ended; }
    }
  }

  lemma ReserveDone(done: map<StepKey, Tuple>, log: seq<Event>, op: Op)
    requires DoneOk(done, log)
    requires var k := StepKey(op.id, Http, Reserve); k in done ==> done[k] == TupleFor(op, Http)
    requires var k := StepKey(op.id, Stream, Reserve); k in done ==> done[k] == TupleFor(op, Stream)
    ensures var n := done[StepKey(op.id, Http, Reserve) := TupleFor(op, Http)][StepKey(op.id, Stream, Reserve) := TupleFor(op, Stream)];
      DoneOk(n, log) && DoneGrows(done, n) && ReservedOp(n, op)
  {
    var n := done[StepKey(op.id, Http, Reserve) := TupleFor(op, Http)][StepKey(op.id, Stream, Reserve) := TupleFor(op, Stream)];
    forall k | k in n ensures RecordOk(n, log, k) {
      if k in done { assert RecordOk(done, log, k); }
    }
  }

  lemma KeepReserve(s: State, log: seq<Event>, op: Op)
    requires Kept(s, log) && ReserveAll(s, op).Accepted? && Sound(ReserveAll(s, op).state)
    ensures var n := ReserveAll(s, op).state; Kept(n, log + Marks(s, ReserveAllCall(op))) && Grows(s, n)
  {
    hide ReserveAll, SweepOrphan, Marks, Grows, DoneOk, SlotsOk, EndedOk, MarksOk, CandidateOk, BaselineOk, JournalOk,
         PlaneOk, ReservedOp;
    var n, s0, log' := ReserveAll(s, op).state, SweepOrphan(s, op), log + Marks(s, ReserveAllCall(op));
    ReserveFrame(s, op);
    SweepParts(s, log, op);
    ReserveRecords(s, s0, n, log, log', op);
    PartsGrow(s, log, n.done, log');
    ReserveAssembles(s, s0, n, log', op);
  }

  lemma ReserveAssembles(s: State, s0: State, n: State, log': seq<Event>, op: Op)
    requires SweepWork(s, s0) && (OwnsJournal(s0.journal, op) ==> s0 == s) && Sound(n) && s.maxToken <= op.id.token
    requires n == s0.(maxToken := op.id.token, slots := n.slots, done := n.done, holder := Some(HolderOf(op)), journal := n.journal)
    requires n.journal == if OwnsJournal(s0.journal, op) then s0.journal else Some(OpeningEntry(op, JournalSeq(s0) + 1))
    requires SlotsOk(s0.slots, s0.done) && EndedOk(s0.ended, s0.done, log') && MarksOk(s0.ended, log')
    requires CandidateOk(s0.pending, s0.done) && BaselineOk(s0.baseline, s0.done, log')
    requires PlaneOk(s.planes.http, Http, n.done, log') && PlaneOk(s.planes.stream, Stream, n.done, log')
    requires JournalOk(s.journal, n.done, log')
    requires DoneOk(n.done, log') && DoneGrows(s.done, n.done) && ReservedOp(n.done, op)
    requires NotGivenUp(s0, op.id, Http) && NotGivenUp(s0, op.id, Stream)
    requires forall q | q in n.slots ::
      (q in s0.slots && n.slots[q] == s0.slots[q]) || n.slots[q].owner == TupleFor(op, Http) || n.slots[q].owner == TupleFor(op, Stream)
    ensures Kept(n, log') && Grows(s, n)
  {
    ReserveParts(s0, n, log', op);
    ReserveGrows(s, s0, n, op);
    ReserveJournal(s, s0, n, log', op);
  }

  lemma ReserveRecords(s: State, s0: State, n: State, log: seq<Event>, log': seq<Event>, op: Op)
    requires DoneOk(s.done, log) && log <= log' && s0.done == s.done && s0 == SweepOrphan(s, op) && ReserveAll(s, op) == Accepted(n)
    ensures DoneOk(n.done, log') && DoneGrows(s.done, n.done) && ReservedOp(n.done, op) && n.ended == s0.ended
    ensures NotGivenUp(s0, op.id, Http)
    ensures NotGivenUp(s0, op.id, Stream)
    ensures forall q | q in n.slots ::
      (q in s0.slots && n.slots[q] == s0.slots[q]) || n.slots[q].owner == TupleFor(op, Http) || n.slots[q].owner == TupleFor(op, Stream)
  {
    var s1 := ReserveOne(s0, TupleFor(op, Http)).state;
    ReserveOneDetail(s0, TupleFor(op, Http));
    ReserveOneDetail(s1, TupleFor(op, Stream));
    DoneLogGrows(s.done, log, log');
    ReserveDone(s.done, log', op);
  }

  lemma ReserveJournal(s: State, s0: State, n: State, log': seq<Event>, op: Op)
    requires OwnsJournal(s0.journal, op) ==> s0 == s
    requires JournalOk(s.journal, n.done, log') && ReservedOp(n.done, op)
    requires n.journal == if OwnsJournal(s0.journal, op) then s0.journal else Some(OpeningEntry(op, JournalSeq(s0) + 1))
    ensures JournalOk(n.journal, n.done, log')
  {
  }

  lemma ReserveParts(s0: State, n: State, log': seq<Event>, op: Op)
    requires DoneGrows(s0.done, n.done) && ReservedOp(n.done, op) && n.ended == s0.ended
    requires n.pending == s0.pending && n.baseline == s0.baseline
    requires SlotsOk(s0.slots, s0.done) && EndedOk(s0.ended, s0.done, log')
    requires CandidateOk(s0.pending, s0.done) && BaselineOk(s0.baseline, s0.done, log')
    requires forall q | q in n.slots ::
      (q in s0.slots && n.slots[q] == s0.slots[q]) || n.slots[q].owner == TupleFor(op, Http) || n.slots[q].owner == TupleFor(op, Stream)
    ensures SlotsOk(n.slots, n.done) && EndedOk(n.ended, n.done, log')
    ensures CandidateOk(n.pending, n.done) && BaselineOk(n.baseline, n.done, log')
  {
    forall k | k in n.ended && n.ended[k] == EndActivated ensures ProvenOn(n.done, log', k.id, k.plane) {
      ProvenOnGrows(s0.done, n.done, log', log', k.id, k.plane);
    }
  }

  lemma ReserveGrows(s: State, s0: State, n: State, op: Op)
    requires SweepWork(s, s0) && (OwnsJournal(s0.journal, op) ==> s0 == s)
    requires n.maxToken == op.id.token && s.maxToken <= n.maxToken && DoneGrows(s.done, n.done) && n.ended == s0.ended
    requires n.journal == if OwnsJournal(s0.journal, op) then s0.journal else Some(OpeningEntry(op, JournalSeq(s0) + 1))
    requires NotGivenUp(s0, op.id, Http)
    requires NotGivenUp(s0, op.id, Stream)
    ensures Grows(s, n)
  {
    if !OwnsJournal(s0.journal, op) {
      assert Reopened(s, n);
    }
  }

  lemma KeptIsSound(s: State, log: seq<Event>)
    requires Kept(s, log)
    ensures Sound(s)
  {
  }

  lemma KeepIntent(s: State, log: seq<Event>, r: Record)
    requires Kept(s, log) && RecordIntent(s, r).Accepted? && Sound(RecordIntent(s, r).state)
    ensures var n := RecordIntent(s, r).state; Kept(n, log) && Grows(s, n)
  {
  }

  /** Every saved section but a moving commit keeps the invariant, and only lets the state grow. */
  lemma SaveKeeps(s: State, log: seq<Event>, c: Call)
    requires Kept(s, log) && CallOk(s, log, c) && Durable(s, c).Saved?
    requires c.CommitCall? ==> !CommitMoves(s, c.tuple, c.proof)
    ensures Kept(Durable(s, c).state, log + Marks(s, c)) && Grows(s, Durable(s, c).state)
  {
    hide Kept, Grows, GuardHolds, ReserveAll, StageSlot, CommitPlane, EndPlane, ApplyHealth, FinishOperation, Fence, EntryOk;
    var n := Durable(s, c).state;
    KeptIsSound(s, log);
    GuardFiresExactly(s, c);
    assert IsControl(c) || c.StageCall? || c.CommitCall? || c.HealthCall? || c.FinishCall? || c.FenceCall? || c.IntentCall?
      ==> log + Marks(s, c) == log;
    if c.ReclaimCall? || c.ReleaseStaleCall? || c.ReleaseIdleCall? || c.ReleaseHolderCall? {
      KeepRelease(s, log, c);
    } else {
      match c
      case WriteCall(entry) => KeepWrite(s, log, entry);
      case CloseCall(op, how) => KeepClose(s, log, op, how);
      case StageCall(t) => KeepStage(s, log, t);
      case CommitCall(t, e) => KeepCommitReplay(s, log, t, e);
      case FailCall(t) => KeepEnd(s, log, t, EndFailed);
      case AbortCall(t) => KeepEnd(s, log, t, EndAborted);
      case HealthCall(t) => KeepHealth(s, log, t);
      case FinishCall(op, release) => KeepFinish(s, log, op, release);
      case FenceCall(token) => KeepFence(s, log, token);
      case IntentCall(r) => KeepIntent(s, log, r);
      case ReserveAllCall(op) => KeepReserve(s, log, op);
      case _ =>
    }
  }
}
