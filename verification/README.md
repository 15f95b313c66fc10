# Verification of the control and data plane

A Dafny model of the parts of the repository where a mistake would be hardest to see: the
crash-tolerant apply protocol of the data plane, the weighted slot list with the wire format that
carries it and the balancer that reads it, the configuration printer, the health reducer, the
canonical forms and codecs, and the account operations that decide who administers.

`dafny verify dfyconfig.toml` checks everything.

## How it is built

**The apply protocol.** `Operation` and `Agent` state the durable state of the data-plane agent and
each of its serial sections as a function from state to outcome, branch by branch. `ApplyMachine`
is the protocol as a state machine: an actor is one call of `run`, `recover` or `abortConfig`,
between two of its awaits it is one step, any number of actors interleave, any of them may crash
at any step, the published record may become anything at any time (`Drift`), fences and health
moves come from outside, and what the engine answers is arbitrary. The machine also writes down a
history of what happened. `ApplyInvariant`, `ApplySafety` and `ApplySteps` carry the invariant
over every section, over everybody else's steps and over every step of an actor; `ApplyTheorems`
draws the conclusions for every run, `ApplyFencing` adds what a fence is for, and `ApplyQuiet` shows
the other half: an undisturbed run does activate. `ApplyTidy` and `ApplyCrash` show the shape every
run, crashed anywhere, leaves the durable state in, and `ApplyBooks` that its ledger, its records and
its signatures agree; `ApplyPartial` follows a commit that is refused through the retries;
`ApplyReopening`, `ApplyPolls`, `ApplyNarrowAborts` and `ApplyExhausted` settle four questions that the
code leaves open, and `ApplyNarrowRun` is the run that the third one turns on. `AgentAnswers` and
`ApplyGates` say what single sections and the head of an iteration answer, in terms of the stored
fields alone. `AgentStore`, `ApplyEngine`, `ApplyProgress` and `ApplyRunner` are the imperative side:
the agent's compare-and-swap loop, and the runner with its driver loop and one method per journal
phase. The engine remembers every question it was asked and what it answered. Every runner method
states which steps of the state machine it takes, on exactly those answers (`Reaches`), and by how
much it lowers the measure that makes the driver loop end; `ApplyAnswers` shows that nothing counts
as passed, staged, published or signalled but on an answer that allowed it. `ApplyRecovery` joins
both: a runner that starts on the store any run left, with that run's history, continues the run
(`RecoverAfter`), so the theorems over all runs hold of it.

**Assumptions of the protocol model.** One serial section is one atomic step: `AgentStore` shows
why (what is saved was judged on the state it follows). One await is one point of interleaving.
Engine effects are arbitrary answers. A `Runner` works with nobody else at the journal, and with a
bounded number of foreign publications still to land (`foreign`) and of readings that may still
fall back (`flips`); the safety theorems need no such bound. What a runner requires of the state it
starts on (`Tidy`, `Neat`, `Booked`, and `Sound` for the state guard) is proved of every reachable state
(`ApplyCrash.EveryRunIsTidy`, `ApplyRecovery.ReachedIsSound`).

**Balancing.** `Apportion` and `WeightedSlots` are `weightedSlots`: reduction, cap, leftovers,
interleaving; the float keys `(k + 0.5) / w` are compared as cross-multiplied integers.
`MembershipWire` writes, stages, reads and removes the membership of an epoch at the level of
characters. `Balancer` is the peer choice of the emitted Lua, with `Rotation` for how a counter goes
round a list, `InFlight` its counters at the granularity of single operations on the shared dict.
`ServedPeers` joins them: what was staged is what the balancer sees, and what it serves are the shares.

**Printer and rules.** `ConfWords` is a reader with nginx's word rules, `ConfPrinter` the printer
read back by it, `ConfLua` what it does to the body of a Lua block, `SourceRules` the compiler of route source rules against an executor of the
emitted location.

**The rest.** `Health`, `CanonicalJson`, `CertificateIntent`, `Der` (with a reader for sections
8.1.3, 8.19 and 10.1 of ITU-T X.690), `Base32` (section 6 of RFC 4648) and `LastAdmin`. `Sorting`,
`Text` and `Wrappers` are shared helpers.

Identifiers that the source only compares (operation ids, digests, generation names, peers in
`WeightedSlots`, account ids, issuers) are numbers.

## What the proofs found

- **The state guard.** The invariant check in front of every save fires exactly for a call that
  speaks for a leader newer than any the agent has been fenced for and finds somebody to overrule;
  no other accepted section ever trips it (`GuardFiresExactly`).
- **Narrow aborts.** `abortConfig` takes any envelope (src/dp/wire.ts:175-212 checks its shape only,
  src/dp/driver.ts:334-376 nothing), and closes the journal as what it read from whatever journal was
  there a moment before. So `activated` is not always proven. In every run an `activated` journal is
  proven or was closed by an abort that left out a plane (`ActivatedOnlyAfterProof`). When an abort is
  about to close its own open journal as `activated`, that is true if and only if the ledger has an
  activation of this operation for every plane the envelope leaves out (`ClosesTrulyExactly`); on the
  planes it names it is always true. If every abort names each plane that is not over when it is
  called, no race can make it false (`CarefulAbortsKeepProof`). `NarrowAbortActivates` is a run in which
  it is false: an abort of http alone reads `activated` from another operation's journal, its own
  operation is run again in between, and the close writes `activated` over a stream plane that never
  moved. The ledger tells the truth in every run (`LedgerTells`).
- **Second recovery.** A second recovery has a result whenever the first one had, and changes nothing
  exactly unless the first one found an open journal of an older leader whose candidate still waited
  to be judged (`Runner.RecoverTwice`, `LeavesCandidate`): closing such an orphan gives its slots back
  but judges nothing. The state is reached (`OrphanWithCandidate`): one plane committed, an abort that
  crashed after letting go of the right, a new leader fenced in. There the second recovery clears the
  candidate (`OrphanNeedsTwo`).
- **A closed journal can be opened again.** A runner that waits behind its signal notes what it sees
  in the journal it finds then. In every run a closed entry is opened again by two turns of an actor
  if and only if that actor waits behind its signal for the same operation and the right has not
  been given back yet (`ReopensExactly`); the single step that does it is the turn of a late note and
  nothing else (`ReopenedOnlyByNote`). `LateReopening` is a run in which it happens, from `failed` to
  `reload_observed`. It takes no second process: only the driver loop takes turns (src/dp/apply.ts:378),
  `abortConfig` and the reclaiming in `recover` do not, and `ReopeningInOneProcess` is the run of one
  waiting runner, one abort and one recovery whose drive has not begun. The safety theorems hold with it.
- **Partially exhausted, yet both planes moved?** The source leaves this open after six attempts to
  reproduce it (src/dp/apply.ts:788-807). While the driver loops take turns, which
  `exclusiveApply` sees to within a process, it cannot happen: in every run, with any crashes,
  recoveries, aborts, fences and membership updates, an open partial activation has exactly one
  activated plane, and so it has when it is closed as partially exhausted (`ExhaustedIsHalf`).
- **A refused commit is pushed again to no end.** A commit that is refused because a membership update
  moved the plane's revision meanwhile stays refused; the operation goes round until the retries are
  spent and ends partially exhausted, with one plane on the new generation (`RefusedRunGivesUp`;
  `HealthStopsSecondPlane` is such a run).
- **Waiting must read at least once.** On an engine that shows the target at every reading an
  undisturbed run ends if and only if `poll.attempts` is at least one (`PollsDecide`); with none the
  loop goes from `reload_observed` to `reload_intent` and back, lowering no measure
  (`RoundKeepsMeasure`), and only HARD_LIMIT stops it.
- **In-flight counters.** Reading 0 means drained only while nothing is lost and phases are atomic.
  The reset to 0 arms an expiry that later counts do not take back, so a key that was drained once
  can expire under a running request and read 0 with the request open (`ExactStep`,
  `OnlyResetKeysExpire`, `ExpiredWhileInFlight`).
- **Wire order.** The text that is read back equals the text that was written exactly when no
  upstream has one peer that is a proper prefix of another; the content is the same in any case.
- **Regexes.** A pattern is read back unchanged exactly when it holds no pair the reader unescapes;
  an empty pattern is accepted and prints no word at all.
- **Source rules.** The rewrite of a proxy rule is the prefix replacement exactly unless a line feed
  in the decoded path meets the pattern's `(.*)$` (`RewriteReplacesExactly`).
- **OIDs.** `oid` is inverted exactly for a first octet below 128 that its reader splits the same
  way and later arcs below 2^32.
- **Last admin.** The guarded operations keep an active effective admin in every run.
  `#settleLocal` is unguarded: it keeps one exactly when some active account is an admin by role, or
  is an effective admin that stays governed by a provider; a store with one admin by a provider's
  grant shows it failing (`EndingARuleCanLeaveNobody`).
- **`undefined` in an array.** The canonical form tells all values apart up to key order and
  undefined fields, with one exception: an array of a single undefined item prints like the empty
  array (`ArraysCollideExactly`).

## Model

| member | source | states |
|---|---|---|
| Operation.AssertEnvelope | src/dp/apply.ts:888-915 | an envelope passes exactly when both planes are declared and both targets carried; an empty one has its own error |
| AgentGuard.GuardFiresExactly | src/dp/agent.ts:794-1025 | for every modelled serial section that accepts, on every sound state, the invariant check lets it through exactly unless it speaks for a leader that skipped its fence; what is saved is sound again |
| AgentStore.DpAgent.Serial | src/dp/agent.ts:1649-1688 | load, judge, check, compare-and-swap with at most eight retries: what is saved directly follows the state it was judged on, so no other save is lost or judged on stale ground; it gives up only after losing to somebody else's save nine times; alone it is exactly one `Durable` step |
| AgentStore.DpAgent.Save | src/dp/agent.ts:378-405 | only the next version is accepted; a refused save leaves every durable state as it was |
| AgentAnswers.SectionsAreIdempotent | src/dp/agent.ts:1690-1925 | asking again for a stage, commit, fail, abort, health update, fence or intent that was saved gets the same answer and changes nothing |
| AgentAnswers.HealthMovesForward | src/dp/agent.ts:1890-1919 | a membership update moves one plane, from the coordinate it expects to a later revision of the same epoch, and leaves its signature, or was recorded before and moves none |
| AgentAnswers.CandidateIsJudged | src/dp/agent.ts:553-661 | a candidate becomes the baseline exactly when both planes came to the declared epochs with it, and brings the baseline down exactly when both are there without it |
| AgentAnswers.FenceCloses | src/dp/agent.ts:1696-1708 | a fence by a newer leader closes the holder's open journal as superseded, gives back its right and its slots, and judges its candidate |
| AgentAnswers.BusyIsRefusedExactly | src/dp/agent.ts:1214-1246 | a reservation is refused as busy exactly when another transition holds the right and no newer leader was seen |
| AgentAnswers.OverIsRefusedExactly | src/dp/agent.ts:2404-2470 | a step on a plane with a verdict is refused with that verdict exactly unless the plane was activated and the step was recorded |
| AgentAnswers.MovesExactly | src/dp/agent.ts:1740-1846 | on a sound state a commit moves its plane exactly if no newer leader was seen, the step is new and the plane without verdict, its slot is its own and holds just its payload, the plane stands where it is expected and not there already, and the evidence proves the generation |
| AgentAnswers.RecordsAreCompared | src/dp/agent.ts:2440-2470 | a repeated stage is answered from its record, or refused for other contents or for another tuple |
| AgentAnswers.HolderSlotsGo | src/dp/agent.ts:1124-1157 | an abort gives back the right and exactly the holder's two slots if the right is this very operation's, and nothing otherwise |
| ApplyInvariant.SaveKeeps | src/dp/agent.ts:1214-1925 | every saved section keeps the durable invariant (records, slots, planes, marks, baseline, journal) and only grows fences, records and verdicts |
| ApplyInvariant.KeepMoved | src/dp/agent.ts:1740-1846 | a commit that moves a plane keeps the invariant, given the evidence and the publication reading behind it |
| ApplySafety.PcGrows | src/dp/apply.ts:417-825 | what an actor relies on at any of its await points survives any growth of the shared state by others |
| ApplySteps.EveryStep | src/dp/apply.ts:417-825 | every single step of every actor, from every point of the protocol and for every answer, keeps the world good and the actor's own claims true |
| ApplyTheorems.EveryRunIsGood | src/dp/apply.ts:227-877 | every run of any number of interleaved, crashing and restarted actors, aborts of any envelope among them, keeps the system invariant |
| ApplyTheorems.HistoryOnlyGrows | src/dp/apply.ts:417-825 | whatever happens later only adds to the history |
| ApplyTheorems.ActivatedOnlyAfterProof | src/dp/apply.ts:572-785 | in every run the journal says `activated` only if each plane was moved by this operation on evidence proving its generation, after the published record was read back naming the operation, after its preflight passed, or if an abort whose envelope leaves out a plane closed this very opening of it |
| ApplyNarrowAborts.ClosesTrulyExactly | src/dp/driver.ts:334-372 | in every run, an abort that is about to close its own open journal as `activated` does so, and both planes were moved on proof if and only if the ledger has this operation's activation of every plane the envelope leaves out; the history notes it exactly otherwise |
| ApplyNarrowAborts.CarefulAbortsKeepProof | src/dp/driver.ts:334-372 | if each abort of a run names every plane that has no verdict yet when it is called (and its caller is not out of date), `activated` means that both planes were moved on proof, whatever races it |
| ApplyNarrowAborts.LedgerTells | src/dp/agent.ts:1740-1846 | in every run, at every phase, the journal's operation moved both planes on proof if and only if the ledger shows both as activated |
| ApplyNarrowRun.NarrowAbortActivates | src/dp/driver.ts:334-372 | a run in which an abort of http alone closes the journal as `activated` while stream has no verdict and was never moved by the operation |
| ApplyNarrowRun.DriverJudgesOwn | src/dp/apply.ts:417-825 | a call of `run` that finds no open journal, left alone, changes no verdict of any other transition |
| ApplyTheorems.SignedOnlyAfterProof | src/dp/agent.ts:1740-1846 | a plane carries an operation's signature only if that operation moved it to that epoch on such proof |
| ApplyTheorems.BaselineWasReached | src/dp/agent.ts:527-660 | the baseline a rollback returns to was itself moved to on both planes, on proof, with its own generation and digest |
| ApplyTheorems.SignalsAreBounded | src/dp/apply.ts:641-723 | over any crashes, recoveries and races one opening of the journal is signalled at most twice |
| ApplyTheorems.RepeatNeedsAReading | src/dp/apply.ts:641-694 | once an attempt is recorded, a signal that spends a later attempt was preceded by a successful read that did not show the target |
| ApplyTheorems.EffectsAfterPreflight | src/dp/apply.ts:572-640 | nothing is published, staged or signalled before a preflight of that operation passed |
| ApplyTheorems.MarkedHasNoEffects | src/dp/apply.ts:486-558 | an iteration that began after an `aborted` mark on any plane, even half an abort, has no effects for that operation |
| ApplyTheorems.AbortedStaysUntouched | src/dp/apply.ts:254-294 | once every process stopped with an abort mark in the ledger, nothing started afterwards publishes, stages or signals for that operation |
| ApplyTheorems.NothingGoesBack | src/dp/agent.ts:794-1025 | fences, verdicts and journal numbers never go back and no step record is rewritten, over every continuation of every run |
| ApplyTheorems.OpeningOnlyGrows | src/dp/agent.ts:1606-1640 | over every continuation of every run, while one opening of the journal lasts its operation stays, attempts are only added and evidence once noted stays noted |
| ApplyTheorems.GuardFiresInRunsExactly | src/dp/agent.ts:794-1025 | in every reachable state the check in front of the save trips exactly for the unfenced calls |
| ApplyFencing.StaleIsRefusedExactly | src/dp/agent.ts:2083-2092 | every section that speaks for a leader is refused as stale exactly when a newer leader was seen, whatever else is wrong with it |
| ApplyFencing.CleanUpOnlyReleases | src/dp/agent.ts:1124-1562 | the sections that check no token move no plane, record and judge nothing; they only give back slots, let go of the right, close their own open journal and settle their own candidate |
| ApplyFencing.FencedLeaderMovesNothing | src/dp/agent.ts:1696-1708 | in every continuation of every run, a plane that moves after a fence is moved by an operation of that leader or a newer one |
| ApplyQuiet.QuietRunActivates | src/dp/apply.ts:227-825 | the partner of the safety theorems: from any sound state in which nobody is at work, an undisturbed run by the fenced leader for planes where it expects them ends with both planes at their targets under its own signature, the journal `activated`, the published record its own, the right given back and its record as the baseline, after one signal, or none when the engine shows the target before |
| ApplyQuiet.LoadsBoth | src/dp/apply.ts:600-636 | undisturbed, the published phase stages exactly the operation's payload in both slots and moves on |
| ApplyQuiet.Reloads | src/dp/apply.ts:641-723 | undisturbed, the reload phase sends one signal exactly when the engine does not show the target yet, and notes the evidence |
| ApplyQuiet.Finishes | src/dp/apply.ts:724-785 | undisturbed, the observed phase commits both planes, closes the journal and promotes the baseline |
| ApplyPartial.RefusedRunGivesUp | src/dp/apply.ts:769-815 | with everything ready and one plane refused, an undisturbed operation goes through a partial activation, is pushed again until four attempts are spent, and ends partially exhausted, the other plane moved and this one never |
| ApplyPartial.PushedAgain | src/dp/apply.ts:786-815 | from any partial activation: the next round activates it if the other plane fits and a retry is left, and otherwise it is pushed until the retries are spent |
| ApplyPartial.RoundFails | src/dp/apply.ts:748-785 | with both planes refused it is closed as failed, nothing moved and everything given back |
| ApplyPartial.HealthStopsSecondPlane | src/dp/apply.ts:769-815 | a run in which a membership update of the second plane, in front of the commits, makes it end so |
| ApplyExhausted.ExhaustedIsHalf | src/dp/apply.ts:786-818 | in every run in which the driver loops take turns, an open partial activation has exactly one activated plane, and the operation has not moved both, also after whatever closes it as partially exhausted |
| ApplyEngine.AloneIsARun | src/dp/apply.ts:417-825 | the steps of one actor alone, with late landings, are a run of the whole system, so the theorems over runs hold of the runner |
| ApplyAnswers.RepliesBackEffects | src/dp/apply.ts:572-723 | along any steps taken on the engine's replies, each passed preflight, publication, staging and signal added to the history is backed by a reply to that very question: a yes for a preflight, a yes or a time-out for a staging, anything but a refusal for a publication or a signal |
| ApplyGates.HeadGoesOnExactly | src/dp/apply.ts:425-560 | an iteration goes on exactly if the journal is its own and open, nobody gave the transition up, no newer leader was seen and the right is held under its name; a given-up one is closed |
| ApplyGates.IntentComesFirst | src/dp/apply.ts:586-599 | nothing is published but by an actor whose last step saved the intent with this very record |
| ApplyProgress.MeasureIsLow | src/dp/apply.ts:417-425 | the measure starts at no more than 5 per foreign publication, 2 per fallback and 23, so a quiet engine needs far fewer turns than HARD_LIMIT |
| ApplyRunner.Runner.Run | src/dp/apply.ts:227-249 | takes steps of the machine from `Reserving`, on the answers the engine really gave, and nothing is published, staged or signalled that it did not allow; a bad envelope changes nothing; reading at least once and under the bound on trouble the guard never fires; a result is its own journal as it stands, or none if there is none of its own: that journal is closed, the execution right given back and nothing left for a recovery |
| ApplyRunner.Runner.Recover | src/dp/apply.ts:254-294 | takes steps of the machine from `Recovering`, on the answers the engine really gave; the result is the journal left behind, closed, whose operation holds nothing (or no journal and no holder), with nothing left for a second recovery exactly unless an orphan with a waiting candidate was closed; for a given-up transition nothing is published, staged or signalled; a closed journal, or none, costs one clean-up that always succeeds, and no effects |
| ApplyRunner.Runner.RecoverTwice | src/dp/apply.ts:254-294 | after a result a second recovery has a result too, and it changes nothing if and only if the state before the first was not an open journal of an older leader with a candidate of its name waiting |
| ApplyRunner.Runner.DriveLoop | src/dp/apply.ts:417-825 | reading at least once, the loop ends by itself before HARD_LIMIT whenever 5 per foreign publication plus 2 per fallback plus 23 fit in it; returning on our own journal leaves it closed, without the right and with nothing left to finish; no effects for a given-up transition |
| ApplyRunner.Runner.Drive | src/dp/apply.ts:389-415 | the same with the budget cut-off: out of time means the machine's time-out path, with the same guarantees |
| ApplyRunner.Runner.Iterate | src/dp/apply.ts:425-825 | one iteration: machine steps from `Head`; continuing lowers the measure when activation is read at all, and leaves a journal that is open, still to be finished by its holder, or finished |
| ApplyRunner.Runner.OnPreflight | src/dp/apply.ts:572-585 | asks the engine once: on a yes it moves on to publishing, on a refusal the journal is closed and nothing was published, staged or signalled; it never raises trouble and lowers the measure |
| ApplyRunner.Runner.OnPublishIntent | src/dp/apply.ts:586-599 | publishes unless already ours, under the lease; continuing lowers the measure |
| ApplyRunner.Runner.OnPublished | src/dp/apply.ts:600-636 | stages plane by plane: goes on if the engine loaded one, with exactly the loaded planes reported as staged, and is closed if it loaded none |
| ApplyRunner.Runner.OnReloadIntent | src/dp/apply.ts:641-723 | looks first, spends an attempt by a won journal write, signals, awaits and notes the evidence, in this order; an entry that says observed carries evidence that proves the target |
| ApplyRunner.Runner.AwaitActivation | src/dp/apply.ts:297-305 | reads at most `polls` times; with at least one the result proves the target exactly when the last reading did, with none there is no result and nothing was read |
| ApplyRunner.Runner.OnReloadObserved | src/dp/apply.ts:724-785 | confirms the publication, proves the generation and only then commits; otherwise goes back, paid for by the measure |
| ApplyRunner.Runner.CommitAll | src/dp/apply.ts:748-785 | after a round of commits the entry carries the evidence and says of each plane whether the ledger has its activation; both make it activated, none failed, and one leaves it open as partially activated |
| ApplyRunner.Runner.OnPartial | src/dp/apply.ts:786-818 | retries a partial activation within the limit or closes it |
| ApplyRunner.Runner.FailAll | src/dp/apply.ts:829-871 | fails the planes that did not move and writes the closing entry: activated if both planes stand where the operation put them under its signature, failed if none does, partially exhausted if one; gives back the right; no slot of an unmoved plane and no candidate is left |
| ApplyRunner.Runner.Write | src/dp/apply.ts:874-877 | a journal write either is the machine's won write or leaves the state as it was |
| ApplyRunner.SecondRecoveryIsIdle | src/dp/apply.ts:267-280 | the clean-up of a settled state changes nothing exactly when nothing is left to judge or release; whatever it changes, one more changes nothing |
| ApplyRunner.StaleLeavesCandidate | src/dp/apply.ts:281-288 | closing an orphan leaves work behind exactly when its candidate was waiting before |
| ApplyRunner.ReachedStands | src/dp/agent.ts:1453-1470 | how far an operation got, read from coordinates and signatures plane by plane |
| ApplyTidy.NeatSection | src/dp/agent.ts:1214-1925 | every accepted section in its place keeps slots filed under their keys, owned by reservations, and by none whose plane failed or was activated |
| ApplyCrash.ActSaves | src/dp/apply.ts:417-877 | one step of an actor saves at most the one section of its place in the protocol; only a recovery comes to take the right back |
| ApplyCrash.EveryRunIsTidy | src/dp/apply.ts:227-877 | in every reachable state, whoever crashed wherever, the right is only held by the latest leader for a journal of its time, no slot is kept by a plane that is over, and the books agree |
| ApplyBooks.BookedSection | src/dp/agent.ts:1740-1846 | every accepted section keeps the books: an activation has its records, a commit its activation, and a signed plane its activation and the evidence that proved its generation |
| ApplyBooks.CommitAnswers | src/dp/agent.ts:1740-1846 | to the leader of the day a commit of a reserved plane is accepted only if the plane is activated afterwards, and refused only if it is not |
| ApplyRecovery.RecoverAfter | src/dp/apply.ts:254-294 | a process that starts on the store any run left and recovers continues that run, on what the engine really answers; a result is the journal left behind, in a settled state, with the exact condition for work left |
| ApplyRecovery.OrphanWithCandidate | src/dp/apply.ts:281-288 | a run whose end, with every process stopped, is an orphan with a waiting candidate |
| ApplyRecovery.OrphanNeedsTwo | src/dp/apply.ts:254-294 | at such a state both sections of the first recovery are saved and keep the candidate, and the section of the second one is saved and clears it |
| ApplyReopening.ReopenedOnlyByNote | src/dp/apply.ts:694-722 | in every run the next thing that happens opens a closed journal again if and only if it is the turn of an actor about to write a note on it while the right is held |
| ApplyReopening.ReopensExactly | src/dp/apply.ts:694-722 | in every run two turns of an actor open a closed journal again, for some answers, if and only if it waits behind its signal for the same operation and the right has not been given back |
| ApplyReopening.LateReopening | src/dp/apply.ts:641-722 | a run that ends with the journal `failed` and a waiting actor whose next two turns open it again |
| ApplyReopening.ReopeningInOneProcess | src/dp/driver.ts:334-372 | the same with one process: a run in which one runner waits, an abort gives up and closes, a recovery that took the right back has not begun to drive, and the wait opens the journal again |
| ApplyPolls.PollsDecide | src/dp/apply.ts:297-305 | from any sound state with nobody at work, on an engine that shows the target at every reading, the undisturbed run ends if and only if waiting reads at least once |
| ApplyPolls.NeverDone | src/dp/apply.ts:724-745 | without a reading the round from the observed phase to the signal and back never ends |
| ApplyPolls.RoundKeepsMeasure | src/dp/apply.ts:724-745 | and every such round comes back with the measure it started with |
| Apportion.ReducedIsExact | src/control/membership.ts:113-116 | dividing by the greatest common divisor loses nothing |
| Apportion.ReducedIgnoresScale | src/control/membership.ts:113-116 | multiplying every weight by a factor gives the same reduced weights |
| Apportion.LeftoversAreFew | src/control/membership.ts:128-141 | rounding down leaves at least zero slots and fewer than one per peer, so handing out one each suffices |
| Apportion.ListLength | src/control/membership.ts:128-144 | the counts sum to the reduced total up to the cap, to exactly 256 above it, and to one per peer when the peers alone reach the cap |
| Apportion.WithinOneOfQuota | src/control/membership.ts:130-141 | above the cap each count is within one of its exact quota |
| Apportion.HeavierNeverFewer | src/control/membership.ts:130-141 | a strictly heavier peer never gets fewer slots |
| WeightedSlots.CountSlots | src/control/membership.ts:114-144 | the loops over weights, excess and leftovers compute exactly the apportionment |
| WeightedSlots.HandOut | src/control/membership.ts:130-141 | the leftover loop gives one slot each to the heaviest, ties by position |
| WeightedSlots.SpreadSlots | src/control/membership.ts:146-154 | marking all copies and sorting the marks computes the spread |
| WeightedSlots.ListSlots | src/control/membership.ts:112-155 | the whole function computes `SlotList` |
| WeightedSlots.OrderOfInputIsIrrelevant | src/control/membership.ts:112-113 | a permutation of distinct peers gives the same list |
| WeightedSlots.ScaleIsIrrelevant | src/control/membership.ts:114-116 | scaling all weights gives the same list |
| WeightedSlots.ListHoldsTheShares | src/control/membership.ts:146-154 | every peer occurs exactly as often as it has shares, at least once |
| WeightedSlots.ListLengthIs | src/control/membership.ts:128-154 | the length of the list in terms of the reduced weights and the cap |
| WeightedSlots.HeavierPeerNeverFewer | src/control/membership.ts:112-144 | end to end: heavier peers never occur less often |
| WeightedSlots.ListIsEven | src/control/membership.ts:146-154 | in every prefix any two peers have occurred in proportion to their shares, to within half a copy of each |
| WeightedSlots.EqualWeightsChangeNothing | src/control/membership.ts:107-109 | with equal weights of one the list is the sorted peers |
| WeightedSlots.RoundRobinServesShares | src/conf/render.ts:758-761 | so every such window serves each peer exactly by its shares |
| Rotation.WindowIsFair | src/conf/render.ts:758-761 | whatever the counter starts from, one list length of its values takes every entry once |
| ServedPeers.AttrReads | src/conf/render.ts:643-649 | the balancer's pattern reads of an attribute exactly the limit and the backup flag that were written into it, digits as their number |
| ServedPeers.StagedIsSeen | src/control/membership.ts:304-311 | after staging the balancer sees the sent slot, each peer a backup and limited exactly as sent, and a peer without attributes an unlimited primary |
| ServedPeers.SharesAreServed | src/conf/render.ts:758-761 | over the slot list of a weighted pool, one list length of fresh requests is served by each peer by its shares |
| MembershipWire.StagingIsExact | src/control/membership.ts:460-489 | staging the text, in either order, writes exactly the sent slots and attributes of that epoch and touches no other key |
| MembershipWire.NamelessIsSkipped | src/control/membership.ts:459-489 | a line without `=`, or with no name in front of it, stages nothing |
| MembershipWire.ReadTextStagesAlike | src/control/membership.ts:304-320 | staging what was read leaves the same dict as staging what was written |
| MembershipWire.RoundTrip | src/control/membership.ts:542-569 | reading an epoch staged into a dict without keys of that epoch prints the reader's text of the same content |
| MembershipWire.ReadIsOneText | src/control/membership.ts:542-569 | whatever order the dict lists its keys in, there is only one answer |
| MembershipWire.LineOrders | src/control/membership.ts:306-309 | one attribute line is written as it is read exactly when no peer is a proper prefix of another |
| MembershipWire.TextsAreEqualExactly | src/control/membership.ts:304-320 | the whole texts are equal exactly when no upstream has nested peers |
| MembershipWire.RemovesExactly | src/control/membership.ts:437-456 | a `slot:` or `attr:` key goes exactly with its own epoch; `in:` and `rr:` keys never do |
| MembershipWire.StageThenRemove | src/control/membership.ts:437-489 | staging an epoch and retiring it leaves the dict as it was |
| MembershipWire.AdminDict.StageBody | src/control/membership.ts:459-489 | the loop over the lines leaves the dict that `Stage` says |
| MembershipWire.AdminDict.RemoveEpoch | src/control/membership.ts:437-456 | the walk over the keys, in any order, deletes exactly the epoch's keys and counts them |
| MembershipWire.AdminDict.Post | src/control/membership.ts:425-491 | the request handler: no epoch changes nothing, removal and staging as above |
| Balancer.PickSucceedsExactly | src/conf/render.ts:602-687 | a choice is made exactly when the slot still holds an untried peer |
| Balancer.PickIsFair | src/conf/render.ts:602-687 | the choice is an untried peer of the slot; a backup only when every primary was tried; one at its cap only when its whole tier is |
| Balancer.LeastConnIsLeast | src/conf/render.ts:746-757 | `least_conn` takes a candidate nobody undercuts |
| Balancer.TurnsAreFair | src/conf/render.ts:746-766 | over as many fresh requests as there are entries to turn over, each finding the counter as the one before left it, every entry is taken once: every candidate with round robin, each of the least loaded with `least_conn` |
| Balancer.RoundRobinServesSlot | src/conf/render.ts:758-761 | with everybody free, round robin serves in one slot length of requests exactly the slot |
| Balancer.HashCoversCandidates | src/conf/render.ts:762-766 | consecutive checksums reach every candidate, and checksums one list length apart the same one |
| Balancer.FirstTurns | src/conf/render.ts:746-766 | on a fresh counter three free peers are taken from the second on; a counter that cannot count sticks to the second |
| Balancer.RetriesAreDistinct | src/conf/render.ts:602-687 | the picks of one request are pairwise distinct even if slot, attributes and load change between them |
| Balancer.EveryPeerIsReached | src/conf/render.ts:602-687 | on a stable slot as many tries as it has different peers reach every one of them |
| Balancer.Context.Choose | src/conf/render.ts:620-687 | the narrowing loops and the algorithm compute `Pick` |
| Balancer.Context.ScanLeast | src/conf/render.ts:746-757 | the walk over the candidates finds the least count |
| Balancer.Context.Balance | src/conf/render.ts:602-687 | the block remembers the pick, counts it in, advances the turn, and changes nothing when it refuses |
| InFlight.CounterNeverExceeds | src/conf/render.ts:1939-1953 | for any interleaving of single dict operations and any expiry, a counter is at most the open picks of its peer |
| InFlight.ExactStep | src/conf/render.ts:1939-1953 | from an exact state the next one is exact if and only if the step is not one of the losing ones: a pick without room, a reset over a fresh count, a count whose armed key expires, a count that is evicted |
| InFlight.AtomicCountersAreExact | src/conf/render.ts:1939-1953 | with atomic phases and nothing lost every counter equals the open picks: 0 means drained, in both directions |
| InFlight.OnlyResetKeysExpire | src/conf/render.ts:1951-1951 | in every run a key that can expire was reset to 0 before |
| InFlight.ExpiredWhileInFlight | src/conf/render.ts:1939-1953 | the concrete run in which a key armed by an earlier drain expires and reads 0 while a request is open |
| InFlight.LogPhaseLowers | src/conf/render.ts:1939-1953 | the log phase lowers each counter by the picks of its peer and never below 0 |
| InFlight.SharedCounters.LogPhase | src/conf/render.ts:1939-1953 | the decrement loop leaves what `LoggedAll` says |
| ConfWords.UnescapeUndoesEscape | src/conf/ast.ts:96-109 | quoting any text is undone exactly by the reader |
| ConfWords.TrailingTellsHangs | src/conf/ast.ts:65-76 | counting trailing backslashes tells exactly whether the next character is swallowed |
| ConfWords.HangingWordSwallows | src/conf/ast.ts:65-76 | a pattern with an odd run at the end would swallow its terminator: the refusal is needed |
| ConfWords.ValueIsOneWord | src/conf/ast.ts:41-109 | every printable value in front of a blank or semicolon is read as exactly one word, its own |
| ConfWords.RegexIsKeptExactly | src/conf/ast.ts:65-76 | a pattern is read back unchanged exactly when it holds no pair the reader unescapes |
| ConfWords.EmptyRegexIsLost | src/conf/ast.ts:65-76 | the empty pattern is accepted and prints no word |
| ConfPrinter.RoundTrip | src/conf/ast.ts:133-163 | parsing the serialization of any tree at any depth gives back the same tree of words |
| ConfPrinter.LuaEndsExactly | src/conf/ast.ts:119-131 | the brace counter stops at the brace behind the printed Lua body, not before and not after |
| ConfPrinter.LuaTextIsBalanced | src/conf/ast.ts:133-163 | re-indenting a Lua body keeps its braces balanced |
| ConfLua.LuaKeepsText | src/conf/ast.ts:141-153 | printing a Lua body, at any depth, touches nothing but white space |
| ConfLua.LeastIndentIs | src/conf/ast.ts:144-145 | the common indentation is the smallest one of a line that is not blank, and there is none exactly if all are blank |
| ConfLua.LuaShiftsLines | src/conf/ast.ts:141-153 | line by line the body is moved as a whole: its leftmost line to four places per level of depth, every other line by as much, blank lines empty |
| ConfPrinter.CountBraces | src/conf/ast.ts:119-131 | the counting loop accepts exactly the bodies that are balanced and never go negative |
| ConfPrinter.SerializeNodes | src/conf/ast.ts:133-163 | the recursive loop computes the text `Serialize` |
| SourceRules.GeoTellsTheRule | src/conf/render.ts:262-270 | the rule's variable is 1 exactly for the requests whose address on the rule's side, visitor or connection, is in its ranges |
| SourceRules.LiteralMatchesItself | src/conf/render.ts:280-280 | the escaped path matches exactly itself as a prefix |
| SourceRules.RewriteReplacesExactly | src/conf/render.ts:314-320 | the rewrite is the prefix replacement exactly unless a line feed gets in the way |
| SourceRules.LocationDoesWhatRulesSay | src/conf/render.ts:292-326 | executing the emitted location does what the first matching rule says, else the route's action, for every pair of addresses, each rule looking at its own, and every URI, exactly unless that line feed defeats the rule's rewrite |
| SourceRules.NoRulesNoChange | src/conf/render.ts:296-297 | without rules the location is the route's own |
| SourceRules.PatternSurvivesPrinting | src/conf/render.ts:280-320 | the pattern passes the printer and its reader unchanged |
| Health.RowIsTheFold | src/control/health.ts:451-503 | for any arrivals in any order the stored row is the fold over the strictly fresh ones alone |
| Health.RowMeans | src/control/health.ts:451-503 | start number, streak, outcome and verdict of a row in terms of the fresh probes |
| Health.RunLengthIs | src/control/health.ts:470-490 | the streak is the length of the trailing run |
| Health.DecidedIs | src/control/health.ts:470-490 | the verdict is that of the latest run that reached its threshold; unknown only if none did |
| Health.ReplayReproducesVerdicts | src/control/health.ts:331-348 | the event log is gap-free and replaying it reproduces every verdict |
| Health.LogShowsTheDecision | src/control/health.ts:331-348 | log, row and fresh probes agree on every verdict |
| Health.NewNumbersAreFresh | src/control/health.ts:374-381 | numbering on from the stored maximum is never mistaken for a late probe |
| Health.HealthProber.MaxStart | src/control/health.ts:374-381 | finds the largest stored start, and one row that has it |
| Health.HealthProber.Number | src/control/health.ts:386-410 | start numbers are consecutive and given out before any probe |
| Health.HealthProber.Record | src/control/health.ts:440-505 | one transaction per result: the new store is the fold, the flips returned are the events appended |
| Health.HealthProber.Sweep | src/control/health.ts:369-505 | a sweep numbers, records and returns; every number is new even to a process that just started |
| Health.FoldedContinues | src/control/health.ts:451-503 | recording results continues whatever arrived before, so the laws above hold across sweeps and restarts |
| CanonicalJson.CanonicalPrintsNorm | src/control/plane.ts:1253-1261 | the canonical text is the printed normal form (sorted keys, no undefined fields) |
| CanonicalJson.CanonicalIsInjective | src/control/plane.ts:1253-1261 | equal canonical texts mean equal values up to key order, undefined fields and lone undefined items, and nothing else |
| CanonicalJson.ArraysCollideExactly | src/control/plane.ts:1253-1261 | two arrays print alike exactly when their items do one by one, or when each has no item or a single undefined one |
| CertificateIntent.BareComparesExactly | src/control/plane.ts:1284-1287 | two certificates have the same text without `acme` exactly when nothing else differs |
| CertificateIntent.IntentOnlyIsSameMaterial | src/control/plane.ts:1263-1290 | the verdict holds exactly when both models are equal after dropping certificates without material and all `acme` fields |
| CertificateIntent.IntentOnlyIsEquivalence | src/control/plane.ts:1263-1290 | hence it is reflexive, symmetric and transitive |
| CertificateIntent.CertificateIntentOnly | src/control/plane.ts:1271-1290 | the loop that leaves at the first disagreeing key computes the verdict |
| Der.LenReads | src/acme/der.ts:40-46 | a length below 2^24 is read back, and the reader stops right behind it |
| Der.LenIsMinimal | src/acme/der.ts:40-46 | no definite form of the same length is shorter |
| Der.TlvReads | src/acme/der.ts:48-49 | one tag-length-value is read back with its rest |
| Der.NestingReads | src/acme/der.ts:48-51 | whole sequences of nested values are read back as they were |
| Der.DocumentReads | src/acme/der.ts:48-51 | one nested value is read back as the only top-level value |
| Der.IntegerReads | src/acme/der.ts:57-62 | a magnitude is read back as its value, never as a negative number |
| Der.IntegerIsMinimalExactly | src/acme/der.ts:57-62 | the contents of an integer are minimal, as section 8.3.2 of ITU-T X.690 asks, exactly unless the magnitude itself starts with a zero octet it does not need |
| Der.BitStringReads | src/acme/der.ts:86-87 | a bit string is read back with no unused bits |
| Der.ArcIsMinimal | src/acme/der.ts:71-81 | an arc never starts with a padding octet |
| Der.OidReadsExactly | src/acme/der.ts:65-83 | an object identifier is read back exactly when the writer can express it |
| Der.WriteArc | src/acme/der.ts:71-81 | the do-while loop and the continuation bits compute the octets of the arc |
| Base32.Encode | src/accounts/totp.ts:15-29 | with a 32-bit accumulator that is never masked, the digits hold exactly the bits of the bytes and fewer than five zero bits of padding |
| Base32.AlphabetIsTheTable | src/accounts/totp.ts:13-13 | the digits are the letters and figures of the table in section 6 of RFC 4648, in its order |
| Base32.Decode | src/accounts/service.ts:1818-1836 | refuses exactly texts with a foreign character, then short results; otherwise the bytes are the whole octets of the digits |
| Base32.DecodingInverts | src/accounts/service.ts:1818-1836 | what was encoded is the only thing those digits decode to |
| Base32.RoundTrip | src/accounts/service.ts:1818-1836 | decoding an encoded secret gives it back from sixteen bytes on and refuses shorter ones |
| Base32.CleanForgives | src/accounts/service.ts:1818-1821 | white space and padding anywhere and the case of letters make no difference to decoding |
| LastAdmin.ScopesAreExact | src/accounts/idp-roles/mapper.ts:56-60 | effective scopes are role scopes and grants less denials |
| LastAdmin.RolesGrantExactly | src/api/auth.ts:40-44 | everybody reads, operators also write, admins do everything |
| LastAdmin.RowScopesAreExact | src/accounts/service.ts:144-150 | order and repetition in the stored lists do not change the effective scopes |
| LastAdmin.AdminSqlAgrees | src/accounts/service.ts:120-120 | the SQL condition agrees on every row with the scopes the program computes |
| LastAdmin.GuardedKeepsAnAdmin | src/accounts/service.ts:1671-1779 | one call of update, delete or apply keeps an active effective admin, whatever it answers |
| LastAdmin.GuardedRunsKeepAnAdmin | src/accounts/service.ts:1671-1779 | so does every run of them |
| LastAdmin.LastAdminIsRefusedExactly | src/accounts/service.ts:1769-1779 | an otherwise permitted call is refused as the last admin's exactly when it would leave nobody |
| LastAdmin.NewAdminsHaveAFactor | src/accounts/service.ts:756-761 | these calls make nobody an admin who has no second factor |
| LastAdmin.UpdateLeaves | src/accounts/service.ts:1671-1735 | what an accepted update leaves in each field, in the words of the patch, and everybody else as they were |
| LastAdmin.DeleteLeaves | src/accounts/service.ts:1742-1767 | a deleted account is out of reach of every later update and deletion and keeps no second factor; nobody else changes |
| LastAdmin.IdpLeaves | src/accounts/service.ts:739-772 | a mapped authority leaves exactly the scopes it maps to, changes nothing else, and the same again changes nothing |
| LastAdmin.UnlinkLeaves | src/accounts/service.ts:863-882 | exactly this link is gone; its account keeps only its role unless it is still governed by a provider, and whoever was an admin keeps a second factor |
| LastAdmin.ProviderLeaves | src/accounts/service.ts:971-988 | exactly this provider's rule is set; roles stay, and after turning it off whoever is governed by nobody has neither grants nor denials |
| LastAdmin.SettleKeepsExactly | src/accounts/service.ts:889-900 | after `#settleLocal` there is an admin exactly when an active account is admin by role, or an effective admin it does not touch |
| LastAdmin.RunsKeepAnAdminExactly | src/accounts/service.ts:739-900 | a run that also unlinks and ends provider rules has an admin at every moment exactly when each such call left one |
| LastAdmin.EndingARuleCanLeaveNobody | src/accounts/service.ts:971-988 | a concrete store in which ending a provider's rule leaves no admin |
| LastAdmin.CallKeepsRoleAlone | src/accounts/service.ts:883-900 | no call leaves a grant or denial on an account under local rule |
| LastAdmin.LocalScopesAreTheRoles | src/accounts/service.ts:883-900 | after any run the scopes of a locally governed account are exactly its role's |
| LastAdmin.Accounts.UpdateUser | src/accounts/service.ts:1671-1735 | the method's refusals and writes, in the source's order, are exactly `Update` |
| LastAdmin.Accounts.DeleteUser | src/accounts/service.ts:1742-1767 | likewise for deletion |
| LastAdmin.Accounts.ApplyIdp | src/accounts/service.ts:739-772 | likewise for an authority mapped from a provider |
| LastAdmin.Accounts.CountOthers | src/accounts/service.ts:1770-1776 | the count is zero exactly when no other active effective admin exists |
| LastAdmin.Accounts.SettleLocal | src/accounts/service.ts:889-900 | clears the lists of exactly the locally governed accounts in question |
| LastAdmin.Accounts.UnlinkIdentity | src/accounts/service.ts:863-882 | removes the link and settles its account, or rolls back |
| LastAdmin.Accounts.SetProviderAuthority | src/accounts/service.ts:971-988 | turning a rule off settles every account that became local |

## Left out

- ApplyExhausted.ExhaustedIsHalf: for loops that take turns, as within one process; nothing is claimed for several processes that drive the same store at once.
- Fields of a result derived from the journal (`partialTransition`, the text of a failure): the journal stands for them.
- AgentGuard.GuardFiresExactly: not about `reserve` and `release` of one plane (src/dp/agent.ts:1710-1718, 1866-1876), which nothing in src calls; `run` reserves both planes in one section.
- AgentStore.DpAgent.Serial: without the pruning between judging and saving (src/dp/agent.ts:2199-2330), which drops evidence, records and verdicts of old transitions.
- ApplyTheorems.NothingGoesBack: without pruning and without `release`, the two that delete step records.
- Ledger keys written before tokens were part of them.
- Normalisation of decimal strings in coordinates and tokens, and the text of failures: numbers and error kinds stand for them.
- Duplicate planes in the `affectedPlanes` of a `run`: its planes are taken in their order, once each. An abort takes any list in any order.
- Reserving both planes without opening the journal: `reserveAll` is only modelled as `run` calls it.
- Driver loops of one process that take turns (`exclusiveApply`): all actors may interleave, which allows more runs.
- `reconcileConfig` and its own signals; the signal bound is about journal openings.
- A deployment without a membership plane, which stages nothing.
- Engine effects (files, processes, sockets): arbitrary answers; the lease is checked where the source checks it.
- Timeouts as durations: running out of budget is an arbitrary answer at every await.
- MembershipWire.RoundTrip: the dict never fails a `set` and evicts nothing, hosts hold no `:`, epochs are numbers, as the source assumes of its own peers and epochs.
- Attributes on the stream plane: its admin stores `!` lines as plain slots (src/control/membership.ts:677-688).
- ServedPeers.AttrReads: `tonumber` of the texts the writer produces, decimal digits only.
- The `host:port` split and DNS resolution of peers; the checksum of `hash` is a parameter.
- InFlight.AtomicCountersAreExact: expiry and eviction are steps of the model and are excluded only in this lemma.
- Lua as a language: the emitted blocks are modelled as the loops they are, bodies of other Lua blocks only as texts with braces and lines.
- The full renderer (TLS, limits, ACME locations), names derived by hashing, and the route compiler; rule variables and named locations are numbered instead.
- CanonicalJson.CanonicalIsInjective: numbers are opaque texts of number characters; a value that is undefined as a whole prints as nothing.
- MembershipWire.AdminDict.Post: the reply to a staging does not say how many keys were set, and a `set` that fails is not modelled.
- Der.NestingReads: bodies of 2^24 octets and more, for which the writer throws.
- Base32.Decode: upper-casing and blanks are those of ASCII.
- Health probes themselves, their batching and timers; a sweep takes the outcomes as they came back.
- Account operations that change no authority (passwords, sessions, tokens, invitations), and the order of role-change messages by their transaction number.
- LastAdmin.NewAdminsHaveAFactor: about update, delete and apply; unlinking and ending a provider's rule are not covered by it.
- The ACME order ledger: its `fail` and `putChallenge` are unconditional, so it has no law to prove.
