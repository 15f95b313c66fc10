/**
 * The apply envelope, the activation evidence and the publication records that the
 * data-plane agent and the apply runner exchange (src/dp/operation.ts).
 *
 * Leader tokens, epochs and revisions are decimal strings in the source, normalised on
 * entry; here they are naturals.
 */
module Operation {
  import opened Wrappers

  /**
   * Operation ids, transition ids, generation names and digests.  The source only ever
   * compares them for equality, so a number stands for each string.
   */
  type Name = nat

  datatype Plane = Http | Stream

  /** A value for each of the two planes. */
  datatype PerPlane<+T> = PerPlane(http: T, stream: T) {
    function At(p: Plane): T {
      match p case Http => http case Stream => stream
    }
  }

  function Put<T>(m: PerPlane<T>, p: Plane, v: T): PerPlane<T> {
    match p case Http => m.(http := v) case Stream => m.(stream := v)
  }

  function Both<T>(v: T): PerPlane<T> { PerPlane(v, v) }

  /** Operation id, transition id and leader token: the identity every ownership test compares. */
  datatype Identity = Identity(operation: Name, transition: Name, token: nat)

  /** Same operation and transition, whatever the token: the test that lets a new leader succeed. */
  predicate SameName(a: Identity, b: Identity) {
    a.operation == b.operation && a.transition == b.transition
  }

  datatype Coordinate = Coordinate(epoch: nat, revision: nat)

  datatype Target = Target(expected: Coordinate, target: Coordinate, payload: Name)

  /** A configuration operation: it always moves both planes (see AssertEnvelope). */
  datatype Op = Op(id: Identity, targets: PerPlane<Target>, generation: Name, digest: Name)

  /** One plane of an operation, the unit of every coordinate CAS. */
  datatype Tuple = Tuple(id: Identity, plane: Plane, move: Target, generation: Name, digest: Name)

  function TupleFor(op: Op, p: Plane): Tuple {
    Tuple(op.id, p, op.targets.At(p), op.generation, op.digest)
  }

  const PLANES: seq<Plane> := [Http, Stream]

  // ------------------------------------------------------------------ envelope

  datatype EnvelopeFault = EmptyEnvelope | EnvelopeMismatch

  /** The envelope check in front of `run`: both planes must be declared, and both targets carried. */
  function AssertEnvelope(declared: seq<Plane>, carried: set<Plane>): (r: Result<(), EnvelopeFault>)
    ensures r.Ok? <==> (Http in declared && Stream in declared && Http in carried && Stream in carried)
    ensures r == Err(EmptyEnvelope) <==> declared == []
  {
    if declared == [] then Err(EmptyEnvelope)
    else if Http !in declared || Stream !in declared then Err(EnvelopeMismatch)
    else if Http !in carried || Stream !in carried then Err(EnvelopeMismatch)
    else Ok(())
  }

  // ------------------------------------------------------------------ evidence

  /** What was observed of the engine; only the accepting generation is mandatory. */
  datatype Evidence = Evidence(
    accepting: Option<Name>,
    configTestPassed: Option<bool>,
    errorLogGrowth: Option<int>,
    workersReported: Option<nat>,
    workersExpected: Option<nat>)

  /** Does this evidence prove that `generation` is active?  An unobserved field refutes nothing. */
  predicate ProvesActivation(seen: Option<Evidence>, generation: Name) {
    match seen
    case None => false
    case Some(e) =>
      && e.accepting == Some(generation)
      && e.configTestPassed != Some(false)
      && !(e.errorLogGrowth.Some? && e.errorLogGrowth.value > 0)
      && !(e.workersExpected.Some? && e.workersReported.Some? && e.workersReported.value < e.workersExpected.value)
  }

  // ------------------------------------------------------------------ publication

  datatype Record = Record(generation: Name, id: Identity, digest: Name)

  function RecordOf(op: Op): Record { Record(op.generation, op.id, op.digest) }

  datatype PublishedState =
    | NothingPublished
    | OwnedBy(record: Record)
    /** the current link and the ownership note disagree */
    | Inconsistent

  predicate PublishedByMe(seen: PublishedState, op: Op) {
    seen == OwnedBy(RecordOf(op))
  }

  // ------------------------------------------------------------------ journal

  datatype Phase =
    | Preflight | PublishIntent | Published | MembershipStaged | ReloadIntent | ReloadObserved
    | PartiallyActivated
    | Activated | PartialExhausted | Failed | Superseded

  /** The runner goes no further from these. */
  predicate IsTerminal(p: Phase) {
    p in {Activated, PartialExhausted, Failed, Superseded}
  }

  datatype Progress = PlaneReserved | PlaneStaged | PlaneCommitted | PlaneFailed

  /**
   * The durable journal entry.  `number` is the source's `seq`, the base of the phase CAS.
   * `opening` is an auxiliary number the source does not store:
   * the `number` under which `reserveAll` opened the journal this entry descends from.
   */
  datatype Journal = Journal(
    op: Op, phase: Phase, attempts: nat, number: nat,
    progress: PerPlane<Progress>, evidence: Option<Evidence>, opening: nat)

  /** Is this journal the one of exactly this operation, token included? */
  predicate OwnsJournal(j: Option<Journal>, op: Op) {
    j.Some? && j.value.op.id == op.id
  }

  /** How often a reload may be signalled, and how often a partial activation is pushed again. */
  const RELOAD_ATTEMPT_LIMIT: nat := 2
  const PARTIAL_RETRY_LIMIT: nat := 2
}
