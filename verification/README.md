# Campaign erasure, publication and account lifecycle: a verified model

The repository's campaign workers share one key/value table and coordinate only through conditional
transactions. A cluster writer adds contributions to candidates, a sweeper erases one contributor's
rows through owned locators behind a tombstone, a paged recomputation repairs the candidates it
touched, a publisher freezes candidates and publishes thresholded aggregates, and a completion step
writes a once-only receipt. This project models that protocol and the smaller machines beside it, and
proves what they promise over every interleaving.

## How the protocol is modelled

- `Candidate`, `Metadata`, `Dimensions` hold the records and reference values; `CandidateSteps` the
  changes single transactions make to a candidate, its invariant, and what any state of it says about
  every later one; `Table` does the same for the whole table.
- `ClusterWriter`, `Traversal`, `Repair`, `Publisher`, `Completion`, `Surroundings` give every
  transaction as a guarded step. A step names the moments at which it read, as indices into the
  history so far, so any interference may lie between two reads and before the commit. A crash is a
  step that never comes; a lost acknowledgement is a step that was taken.
- `Protocol` defines runs of all workers together. `Snapshot`, `Conservation`, `Phases`, `Anonymity`,
  `Erasure`, `RepairedRuns`, `ExactlyOnce`, `RetainedPeriods` prove the results over every run.
- `Store` is the table as one worker meets it. The `...Worker` modules and `AggregateBuilder` are the
  workers' own code, read by read and write by write. `Store.Interfere` has a body that does nothing,
  but callers know only its contract, which allows any continuation of the run, so what they prove
  holds for every interference. Each conditional transaction is a condition and a write evaluated on
  one state, and is proved to be a protocol step whatever happened since the worker's reads.
- `SweepTermination` follows one undisturbed sweeper through crashes anywhere while time passes;
  `SweepClock` says what the passing of deadlines does to it, `SweepSchedule` exactly by which schedules
  it can go on for ever. `RankedRuns` holds the argument about weights and setbacks, `RestartExample` a
  reachable example, `SweepRuns` the link to the protocol's runs.
- A stray is a row in a candidate's partition that no worker of the protocol wrote. Strays appear at
  any time while the candidate's summary exists. A recomputation or publication page that meets one is
  not taken further, a summary is retired only after a read that shows none, an owned pair is erased
  with it, and orphan recovery must not erase one that is live, malformed or of another period.
- `Export` and `TokenLength`, `Drains`, `Minimization` and `Outbox`, `Reconciliation`, `BudgetLedger`,
  `Attestation`, `Centroid` are the smaller machines. Their `Interfere` methods are to be read like
  the store's.

Contributor tokens, candidate, event and operation identifiers are natural numbers in the order in
which the table sorts them; a contributor's token stands for the account and period it is derived
from. A digest is the body it covers. `dafny verify dfyconfig.toml` checks the whole project.

## What the proofs found

- The publication machine also lets an open or repairing candidate disappear when a recomputation
  finds no unexpired contribution.
- A publication checks one tombstone per contributor in one transaction of at most 100 actions, so it
  has at most 96 contributors, and the bands "100-249" and "250+" of contributors are never published.
- The sweep's restart from the beginning never finds anything: under a tombstone every locator up to
  the cursor is gone for good (`Erasure.PassEndIsFinal`).
- A sweep can be kept from its end in one way only, and only for a time. A crash after the last
  recomputation page of an open candidate and before the traversal moves on forgets that the
  recomputation is finished, and the next sweep starts it again. Every other commit makes progress
  wherever the sweeper crashes. Each new recomputation skips the rows that have expired by then, so once
  the deadlines have passed it removes the summary, and the crash costs nothing any more: repeated
  sweeps reach their end at the latest after the period's horizon (`SweepClock.HorizonSweepEnds`), and
  before that they need not exactly as long as another contributor's row outlives the clock
  (`SweepSchedule.EndlessIffLasting`).
- The version fence of a recomputation watches the summary only. A row that appears without a new summary
  version after the last page was read is neither counted nor noticed; the summary can be removed beside
  it (`OrphanExample.Reachable`).
- One row that is malformed, of another period or still live stops the recovery of its orphan for as
  long as it is there, and so does size: an orphan of 100 rows, or of 99 beside a checkpoint, does not
  fit the four pages and is refused by every call that nobody disturbs.
- Empty metadata resembles nothing, not even itself: a feature without words or without signals is
  never matched, and each of its kind founds a candidate of its own (`Similarity.MatchNeedsAll`,
  `Similarity.LikeMatchesExactly`).
- The split caps of the evaluation ledger imply both other caps: 660 attempts and 3,260,928,000 of
  5,000,000,000 nanodollars, so a reservation is refused exactly when its bucket is full.
- The fourth round of the export's byte count is needed and always enough.
- A skipped command counts as clean, but a command is skipped only once it is completed, so every
  command pending throughout a reported pass succeeded. The skip leaves the durable failure marker set
  until the next write, which can only withhold a completed pass, never report one.
- A legacy analysis request cannot be recognised once it is minimized; only the progress row remembers.

## Model

| member | source | states |
|---|---|---|
| Metadata.SmallestSize | src/shared_campaign_contracts/metadata.py:24-27 | truncation keeps exactly `limit` identifiers whenever there are that many |
| Metadata.SmallestIsFirst | src/shared_campaign_contracts/metadata.py:24-27 | what truncation keeps are the first identifiers in sorted order: all of them, or exactly the limit, and every one of them before every one left out |
| Metadata.LessByFirstDifference | src/shared_campaign_contracts/metadata.py:24-27 | identifiers are sorted by the first character in which they differ, and a prefix comes first |
| Metadata.TruncatedUnion | src/shared_campaign_contracts/metadata.py:24-27 | truncating early loses nothing that a later truncation would have kept: the smallest bounded union is associative |
| Metadata.MergeTruncates | src/shared_campaign_contracts/metadata.py:24-27 | merging a row into a truncated running union truncates the full union of all three fields |
| Candidate.AddRowSums | src/campaign_deletion_bridge/progress.py:142-159 | adding one row to the totals of a set of contributions gives the totals of the set with that row: count, capped sum, vector sums, metadata |
| CandidateSteps.PageCovers | src/campaign_deletion_bridge/progress.py:131-140 | a page adds exactly the unexpired contributions between the old and the new cursor; the last page adds all that are left |
| CandidateSteps.PageExtendsFold | src/campaign_deletion_bridge/progress.py:131-162 | folding a page turns the totals up to the old cursor into the totals up to the new one, or of the whole partition |
| CandidateSteps.InvKept | src/campaign_deletion_bridge/progress.py:115-189 | every change any transaction makes to a candidate keeps its invariant, above all: while checkpoint and summary versions agree, the saved totals are the fold up to the cursor |
| CandidateSteps.Fence | src/campaign_deletion_bridge/progress.py:115-189 | version fence: between two states with the same summary version before publication, neither the summary nor any contribution has changed |
| CandidateSteps.PhaseEdges | src/campaign_lifecycle/publication.py:109-131 | each change takes only the edges of the publication state machine |
| Table.LocatedKept | src/shared_campaign_locators/core.py:152-163 | every contribution keeps its owned locator with the same deadline |
| Table.EventsOwnedKept | src/campaign_cluster_aggregator/service.py:77-84 | event records exist only beside their locator; a counted event that owns its locator is marked as counted |
| Table.ConservedKept | src/campaign_cluster_aggregator/service.py:105-184 | each contribution's submission count stays the number of events counted for it |
| Table.NewRowNeverCounted | src/campaign_cluster_aggregator/service.py:146-184 | a contribution that is being created has never been counted before, not even under a row erased since |
| Table.InvKept | src/campaign_deletion_bridge/progress.py:59-76 | every sound transaction keeps the whole invariant of the table and leads to a state that keeps what every earlier state promised |
| Observations.VersionFence | src/campaign_deletion_bridge/progress.py:115-135 | a summary still at the version a worker read is the one it read, and the contributions at any read in between are the present ones |
| ClusterWriter.StepSound | src/campaign_cluster_aggregator/service.py:105-184 | the capped, repeat, match and new-candidate transactions are sound whatever happened since their reads |
| Traversal.StepSound | src/campaign_deletion_bridge/locator_progress.py:8-91 | every sweep transaction, with its compare-and-set on the revision, is sound whatever happened since its reads |
| Repair.StepSound | src/campaign_deletion_bridge/progress.py:79-189 | every recomputation and published-cleanup transaction is sound whatever happened since its reads |
| Repair.PageStillCurrent | src/campaign_deletion_bridge/progress.py:115-189 | the rows a page was folded from are still the present rows when the fold is committed |
| Publisher.StepSound | src/campaign_lifecycle/publication.py:89-300 | freeze, publish, suppress, cleanup, expiry and orphan transactions are sound whatever happened since their reads |
| Publisher.CollectedAll | src/campaign_lifecycle/publication.py:155-172 | the contributions collected over several pages, each read at its own time, are exactly those present at the commit |
| Completion.StepSound | src/campaign_deletion_bridge/completion.py:105-175 | the mutating completion transaction is sound whatever happened since its reads |
| Surroundings.StepSound | src/shared_campaign_recovery/jobs.py:13-29 | job insertion and the rest of the environment respect the tombstone and the control row |
| Protocol.GuardSuffices | src/campaign_deletion_bridge/progress.py:59-76 | whatever was read, a transaction whose condition holds can be applied and keeps the invariant |
| Protocol.RunCoherent | src/campaign_deletion_bridge/progress.py:59-76 | along every interleaving of all workers the invariant holds and every state keeps what every earlier state promised |
| Snapshot.FinishSnapshot | src/campaign_deletion_bridge/progress.py:163-189 | the last page's commit gives a summary that describes exactly the unexpired contributions, or removes it exactly when there are none |
| Snapshot.RecomputationIsSnapshot | src/campaign_deletion_bridge/progress.py:115-189 | snapshot fence over runs: when the last page commits, count, capped submissions, metadata and centroid are those of exactly the contributions then present that outlive the cutoff |
| RepairedRuns.OpenAndRepaired | src/campaign_deletion_bridge/progress.py:163-189 | along every run an open candidate loses its checkpoint only to a snapshot by that checkpoint's cutoff |
| RepairedRuns.EveryErasureRepaired | src/campaign_deletion_bridge/locator_progress.py:60-90 | along every run: whenever a contribution to a live candidate goes, its contributor's traversal is at the recomputation of that candidate until the candidate has been repaired since: the contributor has no row there, no checkpoint is left, and the summary is gone, frozen, or exactly the snapshot of the rows that are left |
| RepairedRuns.SeekingMeansRepaired | src/campaign_deletion_bridge/locator_progress.py:88-90 | so a traversal that looks for its next locator, as every one does at the end of its pass, has left no such candidate unrepaired |
| Conservation.CappedSumCounts | src/campaign_cluster_aggregator/service.py:105-184 | the capped sum over contributions is the number of distinct events counted for them |
| Conservation.CountedAtMostOnce | src/campaign_cluster_aggregator/service.py:273-277 | an event once counted stays counted for the same contribution and is never counted again |
| Conservation.ExactKept | src/campaign_cluster_aggregator/service.py:116-184 | everything but an erasure, or a recount that leaves expired rows out, keeps the summary counts exact, and a recount without expired rows restores them |
| Conservation.ClusterConservation | src/campaign_cluster_aggregator/service.py:77-184 | over every interleaving of deliveries and redeliveries the contributor count is the number of rows and the submission count the number of events counted for the candidate |
| Conservation.SubmissionsAreEvents | src/campaign_cluster_aggregator/service.py:105-184 | in every reachable state a row holds one to three submissions, one for each event counted for it |
| Phases.PhaseMachine | src/campaign_lifecycle/publication.py:109-131 | along every run a candidate is created open and then takes only the machine's edges |
| Phases.PhaseEvidence | src/shared_campaign_locators/publication.py:33-44 | in every reachable state an aggregate stands beside a summary exactly when the candidate is published, and it is what the digest names |
| Phases.FrozenBefore | src/campaign_lifecycle/publication.py:109-120 | a candidate that is not open was frozen by a freeze whose operation and time it still carries |
| Phases.FrozenOnce | src/campaign_deletion_bridge/publication_recovery.py:36-44 | however many repairs follow, a candidate is frozen at most once |
| Dimensions.BodyAggregates | src/campaign_lifecycle/publication.py:185-205 | in the contributions' own terms: the body counts the eligible contributions and their capped submissions and gives both as the band of their count; a stable identifier is a published language exactly if ten of them have it as their language, a tactic exactly if ten carry it behind "tactic." among their signals, a channel exactly if ten carry it behind "channel." |
| Anonymity.PublishStep | src/campaign_lifecycle/publication.py:174-233 | a publication commits only without an earlier aggregate, over at least ten and at most 96 contributors none of whom ever had a tombstone |
| Anonymity.EveryAggregateAnonymous | src/campaign_lifecycle/publication.py:174-233 | anonymity over whole runs: whatever aggregate exists stems from such a publication, lists exactly the languages, tactics and channels that ten of its contributors carry, and expires 400 days after the candidate's only freeze |
| Anonymity.PublishedOnce | src/campaign_lifecycle/publication.py:225-233 | a candidate is published at most once |
| Anonymity.AggregateStays | src/campaign_deletion_bridge/publication_recovery.py:17-34 | what was published is never changed or removed by any worker |
| Erasure.FencedLocatorsShrink | src/campaign_cluster_aggregator/service.py:188-191 | once a partition has its tombstone its locators only disappear |
| Erasure.FencedRowsShrink | src/campaign_cluster_aggregator/service.py:155-191 | no contribution of a fenced contributor appears after the tombstone: one that is there was there then, in the same candidate and with the same deadline |
| Erasure.RowGoesWithLocator | src/shared_campaign_locators/core.py:152-163 | when an owned locator of a candidate goes, the row it names is gone with it, even if the protocol did not write it |
| Erasure.NoResurrection | src/campaign_deletion_bridge/locator_progress.py:47-58 | when the locators behind a tombstone are gone, every contribution and event record that the protocol wrote for that contributor and period is gone, then and ever after |
| Erasure.RunSwept | src/campaign_deletion_bridge/locator_progress.py:25-91 | in every reachable state the traversal has passed only locators that are gone |
| Erasure.PassEndIsFinal | src/campaign_deletion_bridge/locator_progress.py:47-58 | a traversal that finds nothing behind its cursor has an empty partition: the restart never finds a locator inserted behind the cursor, and nothing the protocol wrote for the contributor exists from then on |
| ExactlyOnce.RequestKeeps | src/shared_campaign_recovery/jobs.py:13-29 | a new command adds its job and one to the count, and disturbs no finished command |
| ExactlyOnce.CompletionKeeps | src/campaign_deletion_bridge/completion.py:155-219 | a completion removes exactly one job, lowers the count by one or deletes or seals the control row, and writes exactly its receipt or audit |
| ExactlyOnce.RunLedger | src/shared_campaign_recovery/jobs.py:13-29 | in every reachable state the control row agrees with the jobs, the receipt and the audits |
| ExactlyOnce.CompletionEffect | src/campaign_deletion_bridge/completion.py:140-175 | the one mutating transaction removes the command's job and leaves the command no longer live |
| ExactlyOnce.CompletedOnce | src/campaign_deletion_bridge/completion.py:168-175 | however many completions race and whatever answers are lost, a command completes at most once |
| ExactlyOnce.NothingAfterCompletion | src/campaign_deletion_bridge/orchestration.py:8-25 | after its completion no cleanup of the command commits, however late it was begun |
| Completion.NewestHasBegun | src/campaign_deletion_bridge/completion.py:94-94 | the newest period a command covers is the last one that has begun when it occurs |
| ExactlyOnce.CompletedOverNothing | src/campaign_deletion_bridge/completion.py:105-120 | a command completes only when, in every period from the minimum on that has begun when it occurred, the tombstone is idle for this operation, every candidate that lost the contributor's row while it was live has been repaired since, and nothing the protocol wrote for the contributor is left, then or later |
| Store.Store.Commit | src/campaign_deletion_bridge/progress.py:59-76 | one conditional transaction: condition and writes are evaluated on one state after any interference, the run grows by exactly the intended step, the answer may be lost |
| RecomputeWorker.FoldRows | src/campaign_deletion_bridge/progress.py:142-159 | the loop over a page computes the page's fold or stops at an unusable row |
| RecomputeWorker.FinishRefines | src/campaign_deletion_bridge/progress.py:115-189 | the final transaction's condition, whatever happened since the reads, makes it the protocol's finishing step |
| RecomputeWorker.StartOver | src/campaign_deletion_bridge/progress.py:117-130 | a restart that is committed left a checkpoint without a cursor whose cutoff is the clock reading of this call, and no restart has another |
| RecomputeWorker.FinishRepair | src/campaign_deletion_bridge/progress.py:163-189 | a final transaction reported done took away the very checkpoint that was read and left a summary that describes exactly the rows that outlive that checkpoint's cutoff, or none |
| RecomputeWorker.RepairPage | src/campaign_deletion_bridge/progress.py:114-189 | one page of an open or repairing candidate; finished means that at a moment of the call the commit left the snapshot by the cutoff of the checkpoint it consumed; a restart has this call's clock reading as cutoff |
| RecomputeWorker.CleanPublished | src/campaign_deletion_bridge/publication_recovery.py:46-61 | at most ten owned pairs, then the summary only after an empty read in which any other row would show |
| RecomputeWorker.RecomputePage | src/campaign_deletion_bridge/progress.py:79-189 | a finished call means that at a moment of it the candidate needed no repair: summary gone, or frozen, or just recomputed; the call commits only pieces of this recomputation, and starts over only with its own clock reading, as the sweeper of the termination results does |
| SweepWorker.NextLocator | src/shared_campaign_locators/core.py:166-180 | a one-row page is the first owned locator behind the cursor, or there is none |
| SweepWorker.EraseRefines | src/campaign_deletion_bridge/locator_progress.py:60-87 | the delete transaction with its summary guard is the protocol's erasure, whatever happened since the reads |
| SweepWorker.SeekStep | src/campaign_deletion_bridge/locator_progress.py:47-59 | a pass is reported ended only after the fenced partition was seen empty |
| SweepWorker.DeleteStep | src/campaign_deletion_bridge/locator_progress.py:60-87 | a reported deletion is the committed erasure of the very locator the tombstone names |
| SweepWorker.RecomputeStep | src/campaign_deletion_bridge/locator_progress.py:88-90 | a recomputation is reported done only if at a moment of this call the contributor had no row in the named candidate and the candidate was gone, frozen, or exactly the snapshot of its rows |
| SweepWorker.Sweep | src/campaign_deletion_bridge/locator_progress.py:22-91 | when a sweep reports its pass ended, nothing the protocol wrote for the contributor's period exists, and every candidate that lost a contribution of theirs while it was live has been repaired since; its recomputations start over only with this call's clock reading |
| SweepTermination.SweepDecreases | src/campaign_deletion_bridge/locator_progress.py:22-91 | every commit of an undisturbed sweeper decreases a lexicographic measure unless it crashes between finishing a recomputation and moving on |
| SweepTermination.TurnCosts | src/campaign_deletion_bridge/locator_progress.py:22-91 | in numbers: a commit lowers the weight of the state by at least one wherever the sweeper crashes, except a setback, a crash right after a finished recomputation that leaves its candidate open, which raises it by less than a fixed amount |
| SweepTermination.NextCommit | src/campaign_deletion_bridge/locator_progress.py:22-91 | on well-formed rows an undisturbed sweeper always has a next commit until its pass ends |
| SweepTermination.NeverStuck | src/campaign_deletion_bridge/locator_progress.py:22-91 | so a run that cannot go on has reached the end of its pass |
| SweepTermination.SweepReachesPassEnd | src/campaign_deletion_bridge/locator_progress.py:22-91 | every run, whatever its crashes and its clock, that is longer than the weight of its first state and a fixed number of commits for each setback has reached the end of its pass for good, with nothing the protocol wrote for the contributor left |
| SweepTermination.EndsIffSetbacksCease | src/campaign_deletion_bridge/locator_progress.py:22-91 | a sweep going on for ever reaches the end of its pass if and only if its setbacks cease |
| SweepClock.LateFinish | src/campaign_deletion_bridge/progress.py:143-166 | a recomputation whose cutoff is at or past every deadline in its candidate finds nobody and removes the summary, so a crash right after it is no setback |
| SweepClock.LateSweepEnds | src/campaign_deletion_bridge/progress.py:117-130 | once a call reads the clock after the deadlines that matter, the sweep ends wherever it crashes, within its weight and a fixed number of commits for each recomputation begun before |
| SweepClock.OverdueSweepEnds | src/campaign_deletion_bridge/progress.py:117-130 | once the clock has passed those deadlines, even with an older reading still in use, a fixed number of commits is enough |
| SweepClock.HorizonSweepEnds | src/campaign_deletion_bridge/locator_progress.py:22-91 | repeated sweeps, crashing wherever they like, reach the end of the pass within a fixed number of commits after the period's horizon |
| SweepSchedule.LastingGoesOn | src/campaign_deletion_bridge/locator_progress.py:88-90 | before that, crashes right after finished recomputations are enough to keep a sweep from its end: a row that outlives every clock reading, in an open candidate still to be recomputed, lets it go on for ever |
| SweepSchedule.EndlessIffLasting | src/campaign_deletion_bridge/locator_progress.py:22-91 | the exact condition over runs with time: by a given schedule a sweep can go on for ever if and only if there is such a row |
| RestartExample.NotOnceTheRowsExpire | src/campaign_deletion_bridge/locator_progress.py:88-90 | a reachable example: two contributors join one candidate, one withdraws, and the sweep of that withdrawal can go on by exactly those schedules that never reach the deadline of the other's row |
| SweepRuns.SweepIsRun | src/campaign_deletion_bridge/locator_progress.py:22-91 | every state of a sweep that starts in a reachable state is reachable: its turns are protocol steps with time passing before them, and what the sweeper remembers of a finished recomputation has happened |
| ClusterWorker.JoinRefines | src/campaign_cluster_aggregator/service.py:139-184 | the match transaction is the protocol's step whatever happened since the candidate was read |
| ClusterWorker.NewRefines | src/campaign_cluster_aggregator/service.py:139-184 | the new-candidate transaction is the protocol's step |
| ClusterWorker.RepeatRefines | src/campaign_cluster_aggregator/service.py:116-137 | the repeat transaction is the protocol's step whatever happened since the row was read |
| ClusterWorker.CapRefines | src/campaign_cluster_aggregator/service.py:105-115 | the capped transaction is the protocol's step whatever happened since the row was read |
| ClusterWorker.JoinStores | src/campaign_cluster_aggregator/service.py:139-184 | a committed match adds exactly the new row, and the summary counts one contributor and one submission more, takes the vector into the incremental centroid and keeps the first identifiers of both in each metadata field |
| ClusterWorker.RepeatStores | src/campaign_cluster_aggregator/service.py:116-137 | a committed repeat adds one submission to the row and to the summary, and nothing else to either |
| Similarity.JaccardBounds | src/campaign_cluster_aggregator/scoring.py:23-25 | the overlap of two identifier sets is a fraction, nothing exactly for disjoint sets and everything exactly for equal sets that are not empty |
| Similarity.DotUnit | src/campaign_cluster_aggregator/scoring.py:14-20 | the product of a vector with a unit vector is its coordinate |
| Similarity.DotLinear | src/campaign_cluster_aggregator/scoring.py:14-20 | the product is linear, so it is the sum of the products of the coordinates |
| Similarity.MatchNeedsAll | src/campaign_cluster_aggregator/scoring.py:4-25 | a score is a fraction, and one that reaches the threshold needs common words, common signals and near vectors, whatever the rest |
| Similarity.LikeMatchesExactly | src/campaign_cluster_aggregator/scoring.py:4-25 | a candidate exactly like the feature is matched if and only if there are words and signals to compare |
| ClusterWorker.LoadCandidates | src/campaign_cluster_aggregator/service.py:242-256 | every listed candidate is read once, each at its own time: it is loaded, or at that moment there was none |
| ClusterWorker.Choose | src/campaign_cluster_aggregator/service.py:82-84 | the choice is the first of the highest scores, if it reaches the threshold |
| ClusterWorker.ProcessMessage | src/campaign_cluster_aggregator/service.py:36-184 | a delivery that reports counting left the event counted for its own contributor, in the candidate that resembles it most, or in a new one exactly when none listed resembles it enough; a new row has one submission, exactly the feature's language, vector and metadata, and the earliest of the three deadlines; a new candidate has it alone and its vector and metadata as summary; a repeat adds one submission and nothing else |
| AggregateBuilder.ThresholdedIds | src/campaign_lifecycle/service.py:156-171 | the counting loop yields exactly the identifiers carried by ten contributions |
| AggregateBuilder.CappedSubmissions | src/campaign_lifecycle/publication.py:186-186 | the loop sums the capped submissions |
| AggregateBuilder.BuildBody | src/campaign_lifecycle/publication.py:185-205 | the loops build the body of the publication: counts, bands, and exactly the languages, tactics and channels that ten of the unexpired contributions carry |
| PublisherWorker.CollectPages | src/campaign_lifecycle/publication.py:155-172 | at most five pages, each read at its own time, free of strays and together all there is, or nothing |
| PublisherWorker.PublishRefines | src/campaign_lifecycle/publication.py:174-233 | the publication transaction is the protocol's step whatever happened since the pages were read |
| PublisherWorker.PublishFrozen | src/campaign_lifecycle/publication.py:174-233 | a reported publication left digest and aggregate equal, over at least ten present contributions: their number, capped submissions and bands, the languages, tactics and channels that ten of them carry, and an expiry 400 days after the freeze; a suppression left none |
| PublisherWorker.CleanFinal | src/campaign_lifecycle/publication.py:241-261 | at most ten pairs per call; completion follows an empty read in which any other row would show, and means the summary, checkpoint and contributions are gone |
| PublisherWorker.Process | src/campaign_lifecycle/publication.py:89-131 | what each phase reports is what its last transaction left |
| CompletionWorker.CompleteRefines | src/campaign_deletion_bridge/completion.py:105-175 | the per-period evidence and exact tombstones make the transaction the protocol's completion |
| CompletionWorker.ReadPeriods | src/campaign_deletion_bridge/completion.py:105-120 | the loop collects idle, empty evidence for every required period or fails |
| CompletionWorker.Attempt | src/campaign_deletion_bridge/completion.py:64-175 | a proof reported means durable evidence, and nothing left in any period from the minimum on that had begun when the command occurred; a call commits no step or one completion, which carries its clock reading, a replay commits none, and the recursion is at most one deep |
| RetainedPeriods.TombstoneShared | src/campaign_deletion_bridge/retained_periods.py:60-70 | a rotation moves only the period cursor and a traversal step only the traversal state: neither loses the other's update |
| RetainedPeriods.EachPeriodOnce | src/campaign_deletion_bridge/retained_periods.py:126-148 | any full round of consecutive committed rotations attempts each retained period exactly once |
| RetainedPeriods.EveryDuePeriod | src/campaign_deletion_bridge/retained_periods.py:105-148 | a full round attempts exactly the periods from the minimum on that have begun when the command occurred |
| RetainedWorker.Ensure | src/campaign_deletion_bridge/tombstone.py:26-43 | an existing tombstone is returned as it is, otherwise one is put where none is |
| RetainedWorker.DeleteRetained | src/campaign_deletion_bridge/retained_periods.py:81-167 | whatever comes of an attempt, the rotation behind its period committed before it, after nothing but the tombstone; the period tried is not before the minimum and had begun when the command occurred; a pass reported ended left it empty and its candidates repaired |
| OrphanWorker.ReadPartition | src/campaign_lifecycle/orphan.py:46-61 | a read in at most four pages that reports all covers every row still there; undisturbed it reports all exactly if the partition fits, and returns exactly its rows |
| OrphanWorker.Validate | src/campaign_lifecycle/orphan.py:46-83 | validation commits nothing, and accepts only after it has read every row of some moment and found each expired, well formed and of the period |
| OrphanWorker.EraseSome | src/campaign_lifecycle/orphan.py:88-96 | the first ten rows read are gone, and what is left and what was erased together are no more than what was read |
| OrphanWorker.Recover | src/campaign_lifecycle/orphan.py:20-101 | a call erases nothing but rows it read, and nothing at all unless every row of the partition was acceptable: a live, foreign or malformed row makes it refuse without a step; it never finds more rows than there were when it started; undisturbed it refuses exactly the orphans that are not recoverable |
| OrphanWorker.Drain | src/campaign_lifecycle/orphan.py:20-101 | over successive calls: whatever others do, an orphan of n rows takes at most ceil(n/10) calls and one more that finds it empty or refuses; a recoverable one left alone takes exactly that many and is found empty |
| OrphanExample.Reachable | src/campaign_lifecycle/orphan.py:63-67 | an orphan with a live row in its partition is reachable, and recovery refuses it: the row appears when the recomputation that removes the summary has read its last page, which the version fence does not notice |
| OrphanWorker.EmptyForGood | src/campaign_lifecycle/orphan.py:97-101 | an orphan observed empty stays empty |
| Centroid.DriftBound | src/campaign_cluster_aggregator/scoring.py:28-32 | after n contributors each coordinate is within (n+1)/2 - 1/n half units of the exact mean |
| Centroid.JoiningIsIncremental | src/campaign_cluster_aggregator/service.py:142-144 | one more contributor turns the centroid of those before into the centroid of all |
| CentroidRuns.CentroidOfRun | src/campaign_cluster_aggregator/service.py:142-144 | along every run, between two recomputations of a candidate, its centroid and contributor count are those of joining the new contributors one by one, whatever else happens to it |
| CentroidRuns.DriftOfRun | src/campaign_cluster_aggregator/scoring.py:28-32 | so in every reachable state a candidate never recomputed is within the drift bound of the exact mean of all the vectors ever added to it |
| Centroid.RecomputedBound | src/campaign_deletion_bridge/progress.py:174-174 | the recomputed centroid is within half a unit of the exact mean |
| Rounding.TiesToEven | src/campaign_deletion_bridge/progress.py:174-174 | halfway between two numbers rounding takes the even one |
| TokenLength.Base64IsTight | src/account_export_api/cursor.py:41-47 | the encoding has the fewest characters of six bits that hold the bytes |
| TokenLength.SealedGrowth | src/account_export_api/cursor.py:41-47 | each plaintext byte lengthens the sealed token by one or two characters |
| TokenLength.FourRoundsSuffice | src/account_export_api/service.py:96-106 | four rounds always reach the fixed point, for every input |
| TokenLength.ThreeRoundsFallShort | src/account_export_api/service.py:96-106 | three rounds would not |
| Export.ChargedForEncoding | src/account_export_api/reader.py:196-200 | what a page is charged for its items is their encoded length and one more, unless it is empty |
| Export.Read | src/account_export_api/reader.py:172-202 | a page delivers the projection of a run of rows behind its position and a continuation behind them, within 25 rows and 48000 bytes; it fails only for a single oversized item or a misplaced position |
| Export.SealNext | src/account_export_api/service.py:94-106 | the sealed counter counts the response that contains it; the failure after the loop is unreachable, so sealing fails only where a cursor is too long |
| Export.Page | src/account_export_api/service.py:60-124 | a call answers with the next rows, the cursor behind them and its exact length; within the limits it always answers, and a cursor is invalid only if it names nothing in the plan |
| Export.ExportIsFullRead | src/account_export_api/service.py:78-109 | a completed export read every plan entry to its end, and its pages are exactly the projection of each partition in key order |
| Export.CounterExact | src/account_export_api/service.py:96-112 | every cursor's counter is the exact sum of all encoded responses before it |
| Minimization.KeptExactly | src/account_data_api/service.py:1337-1434 | exactly what is kept, erased and refused, and as what: consent audits are kept; evidence until it expires if its life is at most 7 or 90 days; a request whose expiry is its time to live, until fifteen minutes after it was made or, completed and erased, up to 120 days |
| Minimization.RetainedIsMinimal | src/account_data_api/service.py:1337-1434 | what is retained is minimal, identifies the same thing and expires no later |
| Minimization.MinimizationIdempotent | src/account_data_api/service.py:1337-1434 | minimizing a minimized record changes nothing until it expires |
| Minimization.RequestRetentionBounded | src/account_data_api/service.py:1352-1374 | a retained request lives at most to the history boundary, an unfinished one to the ordinary boundary |
| Minimization.LegacyClassForgotten | src/account_data_api/service.py:1357-1369 | a minimized legacy request reads as history afterwards |
| Drains.Drain.TreatRow | src/account_data_api/service.py:360-390 | one row is erased, or replaced by its minimal form if it still is what was read; a row that is kept identifies the same thing, is needed as long and never expires later; a row goes only where rows are erased whole, or when it is not needed any more |
| Drains.Drain.DrainPage | src/account_data_api/service.py:250-275 | a continuation has only finished rows behind it, and a last page a finished family |
| Drains.Drain.Call | src/account_data_api/service.py:228-310 | one invocation, beside any others and cut off anywhere: receipts cover every family, the profile's comes after its prerequisites'; no consent audit and no record still needed ever goes |
| Drains.Drain.ReadPrerequisites | src/account_data_api/service.py:765-781 | the profile drain goes on only if every prerequisite component has its receipt |
| Drains.Drain.Save | src/account_data_api/service.py:523-570 | the next family or continuation is saved only behind finished work; the receipt only after the last family and its policies |
| Outbox.Outbox.DeletePair | src/account_data_api/service.py:640-690 | the event goes before its locator, so a crash leaves the locator |
| Outbox.Outbox.Call | src/account_data_api/service.py:592-728 | no event loses its locator while it exists; the receipt means that both are gone |
| Reconciliation.Reconciler.Begin | src/account_data_api/service.py:959-968 | the durable cursor passes a command before any work on it, marked as failed |
| Reconciliation.Reconciler.AttendPage | src/account_data_api/service.py:955-1067 | after a page every command still pending up to its end was visited |
| Reconciliation.Reconciler.SavePage | src/account_data_api/service.py:1068-1078 | a wrap reports a pass complete if and only if it saw no failure |
| Reconciliation.Reconciler.Reconcile | src/account_data_api/service.py:882-1082 | over any split into cut-off invocations, a reported pass visited every command pending throughout it with success, and no visit in it failed; an invocation that comes to the end of the scan reports the pass exactly if nothing has failed since the scan began; only a command completed meanwhile may be skipped |
| BudgetLedger.SplitCapsSuffice | evaluation/message_ai/profile.py:11-23 | the split caps alone imply the 660-attempt cap and a cost far below the budget |
| BudgetLedger.ReserveCosts | evaluation/message_ai/profile.py:11-23 | what a dispatched case reserves with each model, in nanodollars |
| BudgetLedger.ReservationLedger.Validate | evaluation/message_ai/ledger.py:93-118 | the recount accepts exactly the ledgers whose rows and caps are sound |
| BudgetLedger.ReservationLedger.Reserve | evaluation/message_ai/ledger.py:125-143 | a new key reserves its full cost once; it is refused exactly when its model has 20 smoke or 200 development cases |
| BudgetLedger.ReservationLedger.Finish | evaluation/message_ai/ledger.py:145-157 | a reservation is settled once and never released |
| BudgetLedger.ReservationLedger.SimulateCase | evaluation/message_ai/runner.py:78-122 | a case is dispatched at most once, across crashes and other processes |
| Attestation.AttestedAccount.Write | src/age_attestation/app.py:329-385 | profile and receipt are written together, from the exact profile seen and without a deletion fence; behind the fence no receipt appears and no time is written |
| Attestation.AttestedAccount.Replay | src/age_attestation/app.py:388-455 | a replay commits only against an active profile with the receipt's own time and no fence |
| Attestation.AttestedAccount.Process | src/age_attestation/app.py:266-326 | whatever the interleaving, an answer carries the one time the profile and the receipt carry; a time that is written is the clock reading, and a new answer leaves a receipt of the request's hash for seven days |

## Left out

- The AWS SDK, key management, Cognito, queues, metrics, logging and HTTP shaping: a failed call is "not committed" or "committed, answer lost".
- Field-by-field record validation, inventories, key registries and consent guards: pinned checks that only make a transaction fail. The period's closing state is modelled.
- The branches for the enabled work-tracking configuration and sealed-period proofs.
- Time to live and index staleness: rows disappear only through the workers. The listing of the candidate index is a parameter of `ClusterWorker.ProcessMessage`, and need not be current.
- Similarity.MatchNeedsAll: exact reals stand for floats, and the length of a vector, a square root, is a parameter.
- The bucket creation control row: it only makes concurrent creations conflict.
- The exact comparison of job and control rows by `CleanupGuard`: the model's guard requires only the pending command and the missing receipt, so it allows more interleavings than the code.
- Coverage assessment beyond the idle-tombstone predicate, which `Completion.Idle` states: it is a diagnostic that changes nothing.
- Centroid.DriftBound: floats and decimals are reals, rounded half to even at seven decimals; binary floating-point error is not modelled.
- SweepTermination.SweepReachesPassEnd: assumes rows whose vectors are applied and of one length, as the code's own `require`s do, no strays, no other worker acting, and clock readings that never go back.
- Strays on pages: where a recomputation or publication meets a stray, the code fails if it is malformed, skips it if it has expired, and counts it if it is live, well formed and, for a publication, owned. The model takes no step on such a page, so runs in which a stray is skipped or counted are not covered; strays that appear between a page's read and its commit are. A cluster writer whose contributor has a stray in the chosen candidate is refused.
- RepairedRuns.EveryErasureRepaired: of a frozen candidate it says that nothing is outstanding, not that its summary was recomputed: the code does not recompute one that was frozen before its recomputation began, and the publication counts the rows themselves.
- Erasure.NoResurrection: an unowned stray of the contributor is not the protocol's and may remain; one whose locator is erased goes with it (`Erasure.RowGoesWithLocator`).
- OrphanWorker.Recover: how a row is malformed is one flag; a candidate named under another period than its own, or never created, is refused even where the partition holds nothing.
- ClusterWorker.ProcessMessage: the notice and policy versions of existing rows are not represented.
- Export.Read: the projection of a row is fixed for the export; families read through other services (identity, purchases, research contributions, play verification) are not modelled separately, nor are authentication, inventory rechecks and the export window.
- Export.SealNext: encoded lengths other than the byte counter's are parameters.
- Drains.Drain.Call: one deletion command per account; `_delete_demographic_authority`, session revocation and entitlement deletion are not modelled. The account is fenced, so producers add no rows.
- Minimization.MinimizationIdempotent: speaks of the record; the retention class is not idempotent, as `Minimization.LegacyClassForgotten` states.
- Reconciliation.Reconciler.Reconcile: one reconciler at a time; its checkpoint is an unconditional put, so two overlapping invocations could overwrite each other's failure marker. All its clock readings are one parameter.
- Attestation.AttestedAccount.Process: other writers of the profile never clear or change an attestation that is in force; the eligibility lookups before it are not modelled.
- BudgetLedger.ReservationLedger.Validate: file permissions, the run identity and digests are not represented.
- `AccountDeletionService.request`, history deletion, finalization details and everything under `scripts/`.
- `evaluation/message_ai/runner.py` `aggregate`: counters over a snapshot.
