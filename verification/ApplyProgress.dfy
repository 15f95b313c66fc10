/**
 * Why the driver loop ends: the measure every iteration lowers (src/dp/apply.ts).
 */
module ApplyProgress {
  import opened Wrappers
  import opened Operation
  import opened Agent
  import opened AgentGuard
  import opened ApplyMachine
  import opened ApplyInvariant
  import opened ApplyEngine

  const HARD_LIMIT: nat := 64

  // ------------------------------------------------------------------ the measure

  function Rank(p: Phase): nat {
    if p == Preflight then 8 else if p == PublishIntent then 7 else if p == Published then 6
    else if p == MembershipStaged then 5 else if p == ReloadIntent then 4 else if p == ReloadObserved then 3
    else if p == PartiallyActivated then 2 else 1
  }

  /** The phases that rest on the publication being ours. */
  predicate RestsOnPublication(p: Phase) {
    p == Published || p == MembershipStaged || p == ReloadIntent || p == ReloadObserved || p == PartiallyActivated
  }

  /** Publications still to be covered: those to come, and the one that already covers ours. */
  function Uncovered(j: Journal, published: PublishedState, foreign: nat): nat {
    foreign + if RestsOnPublication(j.phase) && !PublishedByMe(published, j.op) then 1 else 0
  }

  /** Fallbacks of the engine still to come, and the one a fresh look would already show. */
  function Fallbacks(j: Journal, last: Reading, flips: nat): nat {
    flips + if (j.phase == ReloadObserved || j.phase == PartiallyActivated) && !Proves(last, j.op.generation) then 1 else 0
  }

  function Pushes(j: Journal): nat {
    var most := RELOAD_ATTEMPT_LIMIT + PARTIAL_RETRY_LIMIT;
    if j.attempts < most then most - j.attempts else 0
  }

  /** An upper bound on the iterations a lone runner still needs. */
  function Measure(j: Journal, published: PublishedState, foreign: nat, last: Reading, flips: nat): nat {
    5 * Uncovered(j, published, foreign) + 2 * Fallbacks(j, last, flips) + 2 * Pushes(j) + Rank(j.phase)
  }

  /** The measure starts low: a quiet engine needs at most 23 iterations. */
  lemma MeasureIsLow(j: Journal, published: PublishedState, foreign: nat, last: Reading, flips: nat)
    ensures 1 <= Measure(j, published, foreign, last, flips) <= 5 * foreign + 2 * flips + 23
  {
  }

  /** Waiting never raises the measure: what lands or falls back was already counted. */
  lemma WaitingIsCounted(j: Journal, published: PublishedState, published': PublishedState, foreign: nat, foreign': nat,
                         last: Reading, last': Reading, flips: nat, flips': nat)
    requires foreign' <= foreign && (foreign' == foreign ==> published' == published)
    requires flips' <= flips && (flips' == flips ==> (Proves(last, j.op.generation) ==> Proves(last', j.op.generation)))
    ensures Uncovered(j, published', foreign') <= Uncovered(j, published, foreign)
    ensures Fallbacks(j, last', flips') <= Fallbacks(j, last, flips)
    ensures Measure(j, published', foreign', last', flips') <= Measure(j, published, foreign, last, flips)
  {
    hide PublishedByMe, Proves;
  }

  /** Closing the journal lowers the measure, whatever the engine did meanwhile. */
  lemma ClosingLowers(j: Journal, e: Journal, published: PublishedState, published': PublishedState,
                      foreign: nat, foreign': nat, last: Reading, last': Reading, flips: nat, flips': nat)
    requires !IsTerminal(j.phase) && IsTerminal(e.phase) && e.attempts >= j.attempts
    requires foreign' <= foreign && flips' <= flips
    ensures Measure(e, published', foreign', last', flips') < Measure(j, published, foreign, last, flips)
  {
  }

  /** So does a step forward while the publication stays as uncovered as it was. */
  lemma ForwardLowers(j: Journal, e: Journal, published: PublishedState, published': PublishedState,
                      foreign: nat, foreign': nat, last: Reading, last': Reading, flips: nat, flips': nat)
    requires e.op == j.op && e.attempts == j.attempts && Rank(e.phase) < Rank(j.phase)
    requires Uncovered(e, published', foreign') <= Uncovered(j, published, foreign)
    requires Fallbacks(e, last', flips') <= Fallbacks(j, last, flips)
    ensures Measure(e, published', foreign', last', flips') < Measure(j, published, foreign, last, flips)
  {
  }

  /** A counted signal lowers it. */
  lemma PushLowers(j: Journal, e: Journal, published: PublishedState, published': PublishedState,
                   foreign: nat, foreign': nat, last: Reading, last': Reading, flips: nat, flips': nat)
    requires j.phase == ReloadIntent && j.attempts < RELOAD_ATTEMPT_LIMIT + PARTIAL_RETRY_LIMIT
    requires e == j.(attempts := j.attempts + 1, number := e.number, evidence := e.evidence)
    requires foreign' <= foreign && (foreign' == foreign ==> published' == published) && flips' <= flips
    ensures Measure(e, published', foreign', last', flips') < Measure(j, published, foreign, last, flips)
  {
  }

  /** Going back to publish lowers it: the publication that covers ours is counted off. */
  lemma RepublishLowers(j: Journal, e: Journal, published: PublishedState, published': PublishedState,
                        foreign: nat, foreign': nat, last: Reading, flips: nat)
    requires j.phase == ReloadObserved && e == Stepped(j, PublishIntent) && !PublishedByMe(published', j.op)
    requires foreign' <= foreign && (foreign' == foreign ==> published' == published)
    ensures Measure(e, published', foreign', last, flips) < Measure(j, published, foreign, last, flips)
  {
  }

  /** Going back to the signal lowers it: the engine fell back, or never showed the target. */
  lemma UnprovenLowers(j: Journal, e: Journal, published: PublishedState, foreign: nat, last: Reading, last': Reading, flips: nat, flips': nat)
    requires j.phase == ReloadObserved && e == Stepped(j, ReloadIntent)
    requires flips' <= flips && (Proves(last, j.op.generation) ==> flips' < flips)
    ensures Measure(e, published, foreign, last', flips') < Measure(j, published, foreign, last, flips)
  {
  }

  lemma CommittedLowers(j: Journal, e: Journal, published: PublishedState, foreign: nat, last: Reading, flips: nat)
    requires j.phase == ReloadObserved && Proves(last, j.op.generation)
    requires e.op == j.op && e.attempts == j.attempts && (IsTerminal(e.phase) || e.phase == PartiallyActivated)
    ensures Measure(e, published, foreign, last, flips) < Measure(j, published, foreign, last, flips)
  {
  }

  /** Pushing a partial activation again spends one of the retries. */
  lemma PartialLowers(j: Journal, e: Journal, published: PublishedState, foreign: nat, last: Reading, flips: nat)
    requires j.phase == PartiallyActivated && j.attempts < RELOAD_ATTEMPT_LIMIT + PARTIAL_RETRY_LIMIT
    requires e == Stepped(j, Activated) || e == Stepped(j, ReloadObserved).(attempts := j.attempts + 1)
    ensures Measure(e, published, foreign, last, flips) < Measure(j, published, foreign, last, flips)
  {
  }
}
