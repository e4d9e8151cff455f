# Verified model of the OWM coordinator

This project models the Go coordinator of the OWM network in Dafny and proves what its hardest parts
guarantee: the aggregation of federated-learning rounds, the protocol that runs a round, payment
dispatch, stake and slashing, the node registry, scheduling, and the texts that are signed.
`dafny verify dfyconfig.toml` checks all of it.

## How the model is laid out

| module | models |
|---|---|
| `Sums`, `Options` | finite sums, filtering and mapping with their permutation lemmas; optional values |
| `Gradients`, `Averaging`, `AggregateBounds` | decoded blobs, norms, in-place clipping, the weighted average, and its norm, influence and order bounds |
| `Statistics`, `Anomaly`, `FedAvg` | median by exchange sort, deviation, the outlier filter, and the averaging pipeline end to end |
| `RoundProtocol`, `RoundSafety`, `RoundExpiry`, `RoundFinality`, `RoundScenarios`, `RoundOutlook` | the round as a machine of SQL statements under any interleaving, its safety, the expiry pass, the steps that undo an ending, the runs that go wrong, and exactly which rounds can still change |
| `RoundTraces`, `RoundListing`, `RoundAttempt`, `RoundDriver` | the program that runs a round, with failing statements, and the theorem that its executions are runs of the machine |
| `Payments`, `PaymentSafety`, `PaymentSends` | queue, workers, retries, crashes and recovery; settlement, accounting and how often a task is paid, over every run |
| `Registry`, `RegistryRaces`, `RegistryRuns`, `RegistryStories` | nodes and the node gauge, one operation at a time and step by step, and the races that leave the gauge wrong |
| `StakeSweep`, `Admission` | stake verification, the periodic sweep, and the admission of a node |
| `Slashing`, `SlashDriver`, `SlashStories` | signals, slashing and degradation statement by statement, the program that refines them, and what interleaving does to automatic slashing |
| `Scheduling` | reliability, eligibility, jittered selection, rewards |
| `HexCodec`, `Messages`, `Receipts` | the hexadecimal codec, the signed messages, the canonical receipt |

Three forms recur. Loops and objects of the source are methods and classes whose `ensures` give the
result or the new state as a specification function of the old one; lemmas prove properties of those
functions, and state what the operation computes without them: the median by the values it divides, the
average by the equation every entry meets, a row field by field. Concurrent code is a transition relation in which one SQL statement is one atomic step, each
call has a program counter, and a run is any sequence of steps; lemmas speak of every state of every
run. The driver classes and `PaymentSafety.ProcessIsWorkerRun` connect the two: what a call does is a
sequence of steps of the machine, and `RoundTraces.TraceContinuesRun` and `SlashDriver.StepsContinueRun`
show that such a sequence continues whatever run it starts in.

## Assumptions

- Floating point is idealised to reals. `math.Sqrt` is a parameter `sqrt` with `IsSqrt(sqrt)`: the
  non-negative root of every non-negative number.
- Go visits map keys in an unspecified order. Loops over maps pick any remaining key; sums over keys are
  sums over finite sets.
- Lightning, object storage, the message decoder, the clock, random numbers and the outcome of each SQL
  statement are parameters or nondeterministic choices. A statement that fails changes nothing. A statement
  is atomic, except where it reads a snapshot beside the rows it writes: the count returned with an inserted
  signal may or may not include it, and the prior row a registration returns may not be the row it overwrites.
- Participants are distinct per round because `(round_id, node_id)` is the primary key
  (`owm-coordinator/migrations/000003_create_fl.up.sql:24`).

## Where a property one might expect is false

Each has a run or an input at which it fails and the exact condition under which it holds.

- 'complete' and 'failed' are not final, and 'aggregating' can be. Under every configuration an expiry pass
  that lost the CAS can fail a round another call completed (`RoundScenarios.CompleteCanFail`) or is about to
  complete (`RoundScenarios.FailedCanComplete`). In every reachable state a complete round is final exactly
  when no expiry pass under way lists it, a failed one exactly when no call under way can still complete it,
  and an aggregating one is stuck exactly when no call holds it and no pass under way lists it
  (`RoundOutlook.FinalIffSettled`). A recorded checkpoint is final always (`RoundFinality.CheckpointIsFinal`).
- The outlier filter can leave fewer than m of m records, and a round that requires m participants can fail
  for it, exactly when the threshold k does not suffice for m: for three or more when k^2 < m - 1, for two
  when 2 k^2 < 1, for one never (`Anomaly.KeepsEnoughIff`, `RoundScenarios.TooManyAnomalousIff`). At the
  default of three deviations it rejects nothing among ten or fewer measured gradients
  (`Anomaly.DefaultKeepsTen`).
- The order in which participants' rows arrive matters to the average exactly when two of them send arrays
  of different lengths under one key (`AggregateBounds.OrderIrrelevantIffAligned`): the first one fixes the
  length.
- A failing statement can leave a round 'aggregating'; `RoundAttempt.AttemptVerdict` says exactly when.
- A record with an empty URL is not measured, yet it is averaged if storage has an object under the empty
  key (`FedAvg.AveragedWereMeasured`).
- An active node need not have a qualifying stake: registration persists and activates on any verdict
  (`Admission.ActiveWithoutStake`). `Admission.ActiveQualifiesIff` says exactly when it has one.
- The node gauge drifts. Degradation and slashing bypass it (`Registry.BypassBreaksCells`); two suspensions
  of one node move it twice (`RegistryStories.SuspensionRace`); two registrations of one new key count the
  node twice, in its tier as well (`RegistryStories.RegistrationRace`). A status update shifts no cell exactly
  when its read was fresh (`RegistryRaces.UpdateKeepsCellsIffFresh`), a registration no tier exactly when the
  row it overwrites is of the tier it read (`RegistryRaces.UpsertKeepsIffCurrent`), and no sound step makes a
  shift good (`RegistryRuns.DriftIsForGood`).
- Automatic slashes times the threshold can exceed the signals recorded when calls interleave, exactly when
  the threshold exceeds one (`SlashStories.EarnedUnderRacesIff`).
- A task can be paid more than once: twice when its result is submitted twice (`PaymentSends.PaidTwice`),
  and from a single submission by every one of the four attempts, since one that reports no success may have
  paid (`PaymentSends.PaidByEveryAttempt`), or again after a crash between sending and marking
  (`PaymentSends.PaidAgainAfterCrash`). `PaymentSends.PaymentsBounded` bounds it in every run by four times
  the jobs for it that entered the queue, and by those jobs plus the payments that were not reported.

## Model

| member | source | states |
|---|---|---|
| Gradients.MeasuredIsAveraged | owm-coordinator/internal/fl/rounds.go:443-470 | For every decoded blob, the sum of squares the norm loop reads off the raw values is the squared norm of the gradient that will be averaged. |
| Gradients.L2NormFromMap | owm-coordinator/internal/fl/rounds.go:443-455 | The measured norm is the non-negative root of that gradient's squared norm, whatever order keys are visited in and whatever non-numeric values are mixed in. |
| Gradients.ToGradMap | owm-coordinator/internal/fl/rounds.go:504-518 | Allocates fresh, unshared arrays for exactly the blob's array entries, of the same lengths; every float32, float64, int and int32 keeps its value and any other element is zero. |
| Gradients.ClipL2 | owm-coordinator/internal/fl/rounds.go:520-538 | Clipping in place leaves the arrays within the bound alone, and otherwise scales every entry by the bound over the norm. |
| Gradients.ClippedIsClipping | owm-coordinator/internal/fl/rounds.go:520-538 | Clipping leaves a gradient within the bound as it is and otherwise scales every entry by the bound over the norm. |
| Gradients.ClippedInside | owm-coordinator/internal/fl/rounds.go:527-530 | A gradient within the bound is left alone. |
| Gradients.ClippedOutside | owm-coordinator/internal/fl/rounds.go:531-537 | A longer one is scaled along its own direction exactly onto the bound. |
| Gradients.ClippedBound | owm-coordinator/internal/fl/rounds.go:520-538 | A clipped gradient is within the bound, no longer than before, and clipping is idempotent. |
| Averaging.AverageKey | owm-coordinator/internal/fl/rounds.go:551-570 | The buffer allocated at the first participant with a key ends holding, position by position, the weighted sum over all participants, with missing positions as zero. |
| Averaging.WeightedAverage | owm-coordinator/internal/fl/rounds.go:540-573 | The loops compute the position-wise average over exactly the keys some participant has. |
| Averaging.AverageIsMean | owm-coordinator/internal/fl/rounds.go:421-429 | The result has exactly the participants' keys, arrays as long as the first holder's, and every entry times the sum of the weights (or 1, where that is not positive) is the weighted sum of the participants' entries. |
| Averaging.MeanUnique | owm-coordinator/internal/fl/rounds.go:540-573 | Nothing else has that property. |
| AggregateBounds.AverageWithinClip | owm-coordinator/internal/fl/rounds.go:421-429 | Gradients within norm c, with any non-negative weights, any keys and any lengths, average to a gradient within norm c. |
| AggregateBounds.OneParticipantInfluence | owm-coordinator/internal/fl/rounds.go:540-573 | Replacing one participant's gradient by another of the same shape moves the average by at most 2 c times its share of the weight. |
| AggregateBounds.OrderIrrelevantIffAligned | owm-coordinator/internal/fl/rounds.go:551-570 | The average is the same for every order of participants if and only if they agree on the length of every array they share. |
| AggregateBounds.TotalWeightReordered | owm-coordinator/internal/fl/rounds.go:421-427 | The divisor does not depend on the order. |
| Statistics.ExchangeSort | owm-coordinator/internal/fl/rounds.go:478-484 | Sorts the array in place into a permutation of what it held. |
| Statistics.MedianFloat64 | owm-coordinator/internal/fl/rounds.go:472-490 | The result is the median: of an odd number of values one that half of them or more do not exceed and half or more do not fall below, of an even number the mean of two such, zero of none; the argument is unchanged. |
| Statistics.MedianReordered | owm-coordinator/internal/fl/rounds.go:472-490 | The median depends only on the multiset of values. |
| Statistics.MedianCoversHalf | owm-coordinator/internal/fl/rounds.go:485-489 | At least half of the values are at or below the median. |
| Statistics.StddevFloat64 | owm-coordinator/internal/fl/rounds.go:492-502 | Zero below two values; otherwise non-negative, and its square times n - 1 is the sum of the squared distances from the centre. |
| Statistics.VarianceReordered | owm-coordinator/internal/fl/rounds.go:496-501 | The deviation depends only on the multiset of values. |
| Statistics.FewFarValues | owm-coordinator/internal/fl/rounds.go:492-502 | About any centre, if r of n values lie more than k deviations above it and r is at least 1, then r k^2 < n - 1. |
| Anomaly.MeasureAll | owm-coordinator/internal/fl/rounds.go:343-362 | Collects, in row order, the norms of exactly the records that can be fetched and decoded, and tabulates them by node. |
| Anomaly.AcceptAll | owm-coordinator/internal/fl/rounds.go:369-385 | Splits the records into those kept and those flagged, each in row order. |
| Anomaly.AnomalyFilter | owm-coordinator/internal/fl/rounds.go:338-386 | Without storage, or with fewer than two norms, everything is accepted; otherwise exactly the records that were not measured or lie at most k deviations above the median. |
| Anomaly.AcceptedIsCut | owm-coordinator/internal/fl/rounds.go:366-385 | The accepted records are those not measured and those at most k deviations, about the median, above the median. |
| Anomaly.FilterPartitions | owm-coordinator/internal/fl/rounds.go:369-385 | Every record is accepted or rejected, never both, and every record that was not measured is accepted. |
| Anomaly.AcceptedInRowOrder | owm-coordinator/internal/fl/rounds.go:369-385 | Accepted records are a subsequence of the rows. |
| Anomaly.FewRejected | owm-coordinator/internal/fl/rounds.go:363-385 | Of n measured gradients the number r rejected satisfies r k^2 < n - 1 whenever r is at least 1. |
| Anomaly.DefaultKeepsTen | owm-coordinator/internal/fl/rounds.go:366-385 | At three deviations, ten or fewer measured gradients are all kept. |
| Anomaly.KeepsHalf | owm-coordinator/internal/fl/rounds.go:366-385 | For every non-negative threshold at most half of the measured gradients are rejected. |
| Anomaly.KeepsEnough | owm-coordinator/internal/fl/rounds.go:233-236 | A threshold that suffices for m leaves m or more of any m or more records. |
| Anomaly.KeepsEnoughIff | owm-coordinator/internal/fl/rounds.go:233-236 | For every m, the filter leaves m of any m or more participants' rows, for all contents of storage, if and only if k suffices: always for one, 2 k^2 >= 1 for two, k^2 >= m - 1 for more. |
| Anomaly.AcceptedReordered | owm-coordinator/internal/fl/rounds.go:338-386 | The accepted records, as a multiset, do not depend on the order of the rows. |
| FedAvg.FedAverage | owm-coordinator/internal/fl/rounds.go:389-441 | A placeholder without storage; otherwise a checkpoint if and only if every gradient was fetched and the upload succeeded, holding the weighted mean of the uploads, each clipped to the configured norm or to 1 if that is not positive, and its hash. |
| FedAvg.AgreeingUploads | owm-coordinator/internal/fl/rounds.go:399-429 | Where all uploads are of one gradient and their weights sum to something positive, the checkpoint is that gradient clipped. |
| FedAvg.AggregateWithinClip | owm-coordinator/internal/fl/rounds.go:389-429 | Whatever was uploaded, the aggregate of a round is within the effective clip norm. |
| FedAvg.UploadInfluence | owm-coordinator/internal/fl/rounds.go:401-429 | One participant uploading a different blob of the same shape moves the aggregate by at most 2 c times its share of the weight. |
| FedAvg.AggregateReordered | owm-coordinator/internal/fl/rounds.go:399-429 | The aggregate does not depend on the order of the accepted records when they agree on shared lengths. |
| FedAvg.AveragedWereMeasured | owm-coordinator/internal/fl/rounds.go:345-412 | When storage answers both passes alike, a record averaged was measured if and only if it names an object, every measured one lies within the threshold, and two or more that name objects suffice for there to be a threshold. |
| RoundSafety.ActionInv | owm-coordinator/internal/fl/rounds.go:123-294 | Every step of every call keeps the protocol's invariant. |
| RoundSafety.RoundSafety | owm-coordinator/internal/fl/rounds.go:145-265 | In every interleaving a round has at most one CAS winner, its checkpoint is written at most once and by that winner, and a complete round carries that hash, over at least minParticipants records of distinct participants of that round. |
| RoundSafety.NeverReopens | owm-coordinator/internal/fl/rounds.go:204-217 | A round that left 'open' never returns to it, and no participant row disappears. |
| RoundSafety.NeverTooManyAnomalous | owm-coordinator/internal/fl/rounds.go:193-236 | With a threshold that suffices for the participants required (k^2 >= 2 for three), no call in any interleaving takes the "too many anomalous gradients" failure. |
| RoundScenarios.TooManyAnomalousIff | owm-coordinator/internal/fl/rounds.go:233-236 | With storage, for every number of required participants, no run fails a round for too many outliers if and only if the threshold suffices for that number. |
| RoundSafety.CheckpointWithinClip | owm-coordinator/internal/fl/rounds.go:389-441 | In every state of every run with storage, a recorded checkpoint, which every complete round has, is the hash of an aggregate within the clip norm over at least minParticipants participants of that round. |
| RoundFinality.StepFinality | owm-coordinator/internal/fl/rounds.go:575-586 | In every reachable state a step keeps a recorded checkpoint, undoes 'complete' if and only if it is an expiry pass failing that round, and undoes 'failed' only as the winner's completion. |
| RoundFinality.CheckpointIsFinal | owm-coordinator/internal/fl/rounds.go:575-586 | In every run a recorded checkpoint stays, and a complete round stays complete until an expiry pass fails it. |
| RoundFinality.FailedUndone | owm-coordinator/internal/fl/rounds.go:689-704 | In every run a failed round that does not stay failed is completed by its winner, after an expiry pass had failed it. |
| RoundOutlook.FinalIffSettled | owm-coordinator/internal/fl/rounds.go:186-294 | In every reachable state and for every continuation: a complete round stays complete if and only if no expiry pass under way lists it, a failed one stays failed if and only if no call under way can still complete it, and an aggregating one stays aggregating if and only if no call holds it and no pass under way lists it. |
| RoundScenarios.CompleteCanFail | owm-coordinator/internal/fl/rounds.go:286-291 | Under every configuration a run in which a complete round becomes failed. |
| RoundScenarios.FailedCanComplete | owm-coordinator/internal/fl/rounds.go:286-291 | Under every configuration a run in which a failed round becomes complete. |
| RoundExpiry.ExpiredAreClosed | owm-coordinator/internal/fl/rounds.go:267-294 | One finished pass, with submissions and new rounds interleaved but no other aggregator and no failing statement, leaves every round that was open and expired complete or failed, every other round's status, checkpoint and start as they were, and returns how many of them failed. |
| RoundTraces.TraceContinuesRun | owm-coordinator/internal/fl/rounds.go:145-294 | What one call does undisturbed, from where a run stands, is a continuation of that run with the same rows, so what is proved of all runs holds of it. |
| RoundListing.ListingsReorder | owm-coordinator/internal/fl/rounds.go:316-335 | Two listings of the same participant rows are rearrangements of one another. |
| RoundAttempt.AttemptVerdict | owm-coordinator/internal/fl/rounds.go:186-265 | A call that does not win leaves its round alone; one that wins ends it complete exactly when it returns a summary, and leaves it aggregating exactly when the statement that was to end it failed. |
| RoundAttempt.RecordedCheckpoint | owm-coordinator/internal/fl/rounds.go:238-248 | The checkpoint a summary records is the hash of the weighted mean of the accepted uploads, each clipped to the configured norm, or the placeholder naming the round. |
| RoundAttempt.ChosenIsCut | owm-coordinator/internal/fl/rounds.go:227-236 | The records averaged are those not measured and those within k deviations of the median. |
| RoundAttempt.FaultlessAttemptEnds | owm-coordinator/internal/fl/rounds.go:186-265 | Without failing statements an open round with enough participants ends complete or failed. |
| RoundAttempt.CheckpointIgnoresRowOrder | owm-coordinator/internal/fl/rounds.go:316-441 | From rows to recorded hash, the order in which the database returns the rows is irrelevant when accepted gradients agree on shared lengths. |
| RoundDriver.Orchestrator.Claim | owm-coordinator/internal/fl/rounds.go:186-216 | Wins if and only if the round exists, is open, has enough participants and no statement fails; otherwise changes nothing and returns what the source does. |
| RoundDriver.Orchestrator.FetchRecords | owm-coordinator/internal/fl/rounds.go:316-335 | Returns each participant row of the round once. |
| RoundDriver.Orchestrator.FlagAll | owm-coordinator/internal/fl/rounds.go:376-382 | Flags exactly the rejected participants' rows whose statement succeeds. |
| RoundDriver.Orchestrator.Select | owm-coordinator/internal/fl/rounds.go:220-232 | From some listing of the rows to the accepted records, with the outliers flagged. |
| RoundDriver.Orchestrator.FailRound | owm-coordinator/internal/fl/rounds.go:689-704 | Marks the round failed unless the statement fails. |
| RoundDriver.Orchestrator.FailFetch | owm-coordinator/internal/fl/rounds.go:220-225 | Rows that cannot be fetched fail the round. |
| RoundDriver.Orchestrator.CompleteRound | owm-coordinator/internal/fl/rounds.go:575-586 | Marks the round complete with its checkpoint unless the statement fails. |
| RoundDriver.Orchestrator.Publish | owm-coordinator/internal/fl/rounds.go:233-265 | Enough records accepted, fetched and uploaded complete the round with that checkpoint if the statement succeeds; anything else fails it if that statement does. |
| RoundDriver.Orchestrator.TryAggregate | owm-coordinator/internal/fl/rounds.go:182-265 | With any statements failing, a whole call is a trace of the step machine, touches no other round, and leaves of its round exactly what an attempt over some listing of its rows should. |
| RoundDriver.Orchestrator.SubmitGradient | owm-coordinator/internal/fl/rounds.go:143-180 | Accepted exactly when the round is open at the check and both statements succeed; adds or replaces the node's own row and nothing else; a trace of the step machine, in which other calls may come between check and upsert. |
| RoundDriver.Orchestrator.ListExpired | owm-coordinator/internal/fl/rounds.go:270-274 | Lists each open round past its deadline once. |
| RoundDriver.Orchestrator.Close | owm-coordinator/internal/fl/rounds.go:281-292 | One expired round is attempted, and failed and counted unless that gave a summary; a row that cannot be scanned is passed over. |
| RoundDriver.Orchestrator.CloseExpired | owm-coordinator/internal/fl/rounds.go:269-294 | With any statements failing, a trace of the step machine that visits every expired open round once, changes no other, and returns the number of visits that gave no summary. |
| RoundDriver.FaultlessPass | owm-coordinator/internal/fl/rounds.go:269-294 | Without failing statements the pass ends every round that was open and expired and returns exactly the number it failed. |
| Payments.OfferAllPrefix | owm-coordinator/internal/payment/dispatcher.go:64-75 | Non-blocking sends append the longest prefix of the rows that fits. |
| Payments.Dispatcher.Enqueue | owm-coordinator/internal/payment/dispatcher.go:83-91 | Appends the job, or drops it when 1000 are queued. |
| Payments.Dispatcher.Recover | owm-coordinator/internal/payment/dispatcher.go:57-76 | The recovery loop appends as many of the rows that could be read as fit, in order. |
| Payments.Dispatcher.Process | owm-coordinator/internal/payment/dispatcher.go:104-163 | The first reported success pays a row still pending, with its preimage, and adds the amount to the counter; four attempts without success fail such a row and change nothing else; a cancelled retry, a failing statement or a row no longer pending leaves the rows alone. |
| Payments.FirstSuccess | owm-coordinator/internal/payment/dispatcher.go:114-151 | The attempt whose outcome counts is a success and no earlier one is. |
| PaymentSafety.ActionInv | owm-coordinator/internal/payment/dispatcher.go:57-163 | Every step of workers, results, scheduling, crash and restart keeps jobs true to their rows, preimages exactly on paid rows, the queue bounded, and the books balanced. |
| PaymentSafety.SettledForever | owm-coordinator/internal/payment/dispatcher.go:127-156 | In every run a task leaves 'pending' at most once and keeps its outcome and preimage ever after; URI and reward never change. |
| PaymentSafety.GivenUpForGood | owm-coordinator/internal/payment/dispatcher.go:153-156 | In every run a task that was given up, with the statement succeeding, is not pending again, is failed if it was pending, and is in no later recovery listing. |
| PaymentSafety.PaymentAccounting | owm-coordinator/internal/payment/dispatcher.go:93-163 | In every reachable state a row has a preimage exactly when paid, and whenever no worker is between marking and counting, the counter equals the rewards paid plus the amounts of successes that found their row settled, less what had been marked before this process started. |
| PaymentSafety.NothingCarried | owm-coordinator/internal/payment/dispatcher.go:140-141 | Until the first crash the last term is zero. |
| PaymentSafety.RecoveryIsComplete | owm-coordinator/internal/payment/dispatcher.go:57-81 | After any run and crash, start-up queues exactly one job with the row's own URI and reward for every completed task pending payment whose row could be read if there are at most 1000, and otherwise fills the queue exactly. |
| PaymentSafety.ProcessIsWorkerRun | owm-coordinator/internal/payment/dispatcher.go:93-163 | What the sequential job computes is a run of a worker of the concurrent machine, with the same rows and counter. |
| PaymentSends.PaymentsBounded | owm-coordinator/internal/payment/dispatcher.go:93-151 | In every run, with attempts that pay without reporting it, a task is paid at most four times the jobs for it that entered the queue, and at most those jobs plus the unreported payments. |
| PaymentSends.PaidTwice | owm-coordinator/internal/payment/dispatcher.go:122-141 | For every task, a run in which its result is submitted twice, both jobs are sent, its row is marked once and the counter shows both. |
| PaymentSends.PaidByEveryAttempt | owm-coordinator/internal/payment/dispatcher.go:112-151 | For every task, a run in which one submission and one job pay four times, while row and counter show one payment. |
| PaymentSends.PaidAgainAfterCrash | owm-coordinator/internal/payment/dispatcher.go:57-141 | For every task, a run in which one submission and a crash between sending and marking pay twice. |
| Registry.Registry.Register | owm-coordinator/internal/registry/registry.go:78-162 | Refused exactly when the checks or the statement fail, the tier is unlisted, or the new id is taken; otherwise the node with that key is pending, every other row is as it was, and a re-registration moves the gauge from the prior cell. |
| Registry.Registry.Activate | owm-coordinator/internal/registry/registry.go:164-181 | Exactly a pending node becomes active, and exactly one node moves from its tier's pending cell to its active cell. |
| Registry.Registry.UpdateStatus | owm-coordinator/internal/registry/registry.go:252-267 | Sets exactly that node's status, and moves one node between the two cells unless the preceding read failed; a rejected update changes nothing. |
| Registry.GaugeMatchesNodes | owm-coordinator/internal/registry/registry.go:115-267 | Runs of registrations, activations and status updates keep every gauge cell equal to the number of nodes with that tier and status. |
| Registry.BypassBreaksCells | owm-coordinator/internal/stake/verifier.go:266-268 | A status change that bypasses the gauge keeps the cells right if and only if it changes nothing. |
| Registry.TierTotalsMatchNodes | owm-coordinator/internal/stake/verifier.go:295-299 | Adding degradations, slashes and failed reads, every tier's total still equals its number of nodes. |
| RegistryRaces.UpdateKeepsCellsIffFresh | owm-coordinator/internal/registry/registry.go:253-267 | With other calls between its statements, a status update shifts no gauge cell if and only if its read was fresh. |
| RegistryRaces.UpsertKeepsIffCurrent | owm-coordinator/internal/registry/registry.go:115-159 | With other calls between the snapshot and the write of a registration, it shifts no tier if and only if the row it read and the row it overwrites are of one tier or both absent, and no cell if and only if they carry the same label. |
| RegistryRuns.TierTotalsSurviveRaces | owm-coordinator/internal/registry/registry.go:115-267 | In every interleaving, with stale status reads and bypassing updates, in which each registration overwrites a row of the tier it read, tier totals are right whenever no call is between its row and the gauge. |
| RegistryRuns.CellsSurviveFreshRaces | owm-coordinator/internal/registry/registry.go:115-267 | In every interleaving whose registrations and updates act on what they read and where nothing bypasses the gauge, every cell is right whenever no call is between its row and the gauge. |
| RegistryRuns.DriftIsForGood | owm-coordinator/internal/registry/registry.go:115-267 | A cell or tier that has drifted is never right again at rest, however sound the rest of the run. |
| RegistryStories.SuspensionRace | owm-coordinator/internal/registry/registry.go:253-267 | From every table and node not yet suspended, a run of two suspensions, from no call under way to none, that leaves the node's old cell one short and its new one over by one. |
| RegistryStories.RegistrationRace | owm-coordinator/internal/registry/registry.go:117-159 | From every table without a key, a run of two registrations of it that leaves one node counted twice in its cell and its tier. |
| StakeSweep.ComputeBonus | owm-coordinator/internal/stake/verifier.go:311-322 | The bonus lies between 1 and 2. |
| StakeSweep.ComputesBonus | owm-coordinator/internal/stake/verifier.go:311-322 | The bonus is 1 up to the minimum, 2 from three times the minimum on, and in between 1 plus half the excess over the minimum, relative to the minimum. |
| StakeSweep.StoredBonus | owm-coordinator/internal/stake/verifier.go:311-322 | The stored bonus never falls as the stake grows, stays between 1 and 2, and is that bonus to the nearest thousandth. |
| StakeSweep.BestIsLargest | owm-coordinator/internal/stake/verifier.go:91-100 | A channel is found if and only if one meets the minimum, and it is then the first of the largest balance of all. |
| StakeSweep.VerifyStake | owm-coordinator/internal/stake/verifier.go:71-121 | An error exactly for an unlisted tier or a failing client, insufficient exactly without a client or a channel meeting the tier's 100 000, 500 000 or 2 000 000 satoshis, and otherwise the first channel of largest balance with the bonus of that balance. |
| StakeSweep.Verifier.PersistStake | owm-coordinator/internal/stake/verifier.go:124-144 | Upserts the row, for any verdict, unless the statement fails or another node holds the channel: active, verified now, degraded_since unset, the verdict's channel and amounts, its bonus in thousandths, an existing tier minimum kept. |
| StakeSweep.Verifier.MarkDegraded | owm-coordinator/internal/stake/verifier.go:295-309 | Degrades only an active node, then stamps only a stake not yet stamped, and stops at a failing statement. |
| StakeSweep.Verifier.VerifyAllActive | owm-coordinator/internal/stake/verifier.go:149-194 | Whatever the client lists or fails to list, whichever rows cannot be scanned and whichever statements fail: exactly the active staked nodes found insufficient whose update succeeds are degraded, and the stake rows are those of re-verifying the rows in order; nothing without a client. |
| StakeSweep.SweepIsSimultaneous | owm-coordinator/internal/stake/verifier.go:149-194 | When channel ids are distinct, that is the sweep of all rows at once, in whatever order the query returned them. |
| StakeSweep.SweepKeepsChannelsUnique | owm-coordinator/internal/stake/verifier.go:149-194 | Whatever is listed, no sweep stores one channel under two nodes. |
| StakeSweep.SweepVerdict | owm-coordinator/internal/stake/verifier.go:149-194 | Where no error meets it, a swept node stays active if and only if its largest local balance meets its tier's minimum; its row then stores that channel, balance and bonus, and otherwise is degraded from now on unless it was before. |
| StakeSweep.SweepIdempotent | owm-coordinator/internal/stake/verifier.go:149-194 | Two sweeps row after row, over the same distinct listings and with the same errors, each in any order, differ in verification times only. |
| Admission.Server.RegisterNode | owm-coordinator/internal/rpc/server.go:80-133 | Register, verify, persist, activate: the node's key, tier and status, the stake rows, the gauge and the response, with every error path. |
| Admission.ActiveQualifiesIff | owm-coordinator/internal/rpc/server.go:103-119 | A registered node ends active if and only if its stake could be verified, whatever the verdict, and the activation succeeded; and has a qualifying stake row then if and only if a listed channel meets the minimum and the largest one could be stored, or nothing could be stored and it had one already. |
| Admission.ActiveWithoutStake | owm-coordinator/internal/rpc/server.go:103-119 | A new node with no channel at all ends active with a stake row of no channel. |
| Slashing.SlashLeavesEvidence | owm-coordinator/internal/stake/verifier.go:199-309 | With calls interleaved and stopped at any statement: a force-closed stake or a linked signal has an event for its node, every event's channel close succeeded, degraded stakes have degraded_since set and active ones unset. |
| Slashing.DegradingIs | owm-coordinator/internal/stake/verifier.go:295-309 | Of the two statements, the first degrades exactly an active node and the second exactly a stake not yet stamped, from then on. |
| Slashing.LinksNeverChange | owm-coordinator/internal/stake/verifier.go:277-282 | No signal is lost, and a link once made never changes. |
| Slashing.SlashesAreEarned | owm-coordinator/internal/stake/verifier.go:199-291 | One call at a time, for every node, finished automatic slashes times the threshold never exceed the signals recorded against that node, whether or not the count sees the row just inserted. |
| Slashing.AllSlashesAreEarned | owm-coordinator/internal/stake/verifier.go:199-291 | The same in total, and for all automatic events when every automatic slash finished. |
| SlashStories.OneSignalEach | owm-coordinator/internal/stake/verifier.go:199-222 | In every interleaving, with calls stopped anywhere, there are at least as many signals as automatic events. |
| SlashStories.EarnedUnderRacesIff | owm-coordinator/internal/stake/verifier.go:199-291 | Over all interleavings finished automatic slashes times the threshold stay within the signals if and only if the threshold is at most one. |
| SlashDriver.StepsContinueRun | owm-coordinator/internal/stake/verifier.go:199-291 | What a call does undisturbed, from where a run stands, is a continuation of that run. |
| SlashDriver.Enforcer.Slash | owm-coordinator/internal/stake/verifier.go:224-291 | Makes its five changes in order and stops at the first failure: the node is suspended, its stake force-closed and its unlinked signals linked exactly when that change was reached, and every other row is as it was; it succeeds exactly when all were. |
| SlashDriver.Enforcer.RecordMisbehaviorSignal | owm-coordinator/internal/stake/verifier.go:196-222 | Records the signal if the insert succeeds, and slashes exactly a t1 node whose unlinked signals reach the threshold; the result and the rows are exact for every failure. |
| SlashDriver.SlashClearsCount | owm-coordinator/internal/stake/verifier.go:277-282 | A finished slash leaves its node no unlinked signal and every other node's untouched; one that stops short leaves all signals open. |
| Scheduling.ComputeReliability | owm-coordinator/internal/registry/registry.go:323-357 | The score lies between 0 and 1 for all counts and windows. |
| Scheduling.ReliabilityRewards | owm-coordinator/internal/registry/registry.go:323-357 | A completed task or a heartbeat more never lowers the score, and it is 1 exactly when all tasks were completed and all due heartbeats received. |
| Scheduling.ReliabilityIs | owm-coordinator/internal/registry/registry.go:323-357 | With tasks and heartbeats within what was due, the score is completed over total times heartbeats over those due. |
| Scheduling.SupportsTaskType | owm-coordinator/internal/scheduler/scheduler.go:198-210 | True exactly for an empty list or one that names the type. |
| Scheduling.FilterEligible | owm-coordinator/internal/scheduler/scheduler.go:180-196 | Keeps in order exactly the nodes that name the type of work or none and are of t2 or t3 for aggregating gradients and ingesting data, of a listed tier for the other types. |
| Scheduling.ListActive | owm-coordinator/internal/registry/registry.go:223-250 | Exactly the active nodes, the most reliable first. |
| Scheduling.SelectNode | owm-coordinator/internal/scheduler/scheduler.go:212-230 | For every jitter the choice has the largest jittered score, and its plain score, its reliability times 1, 2.5 or 8 for its tier, is at least 19/21 of the best. |
| Scheduling.RewardIs | owm-coordinator/internal/scheduler/scheduler.go:232-247 | The reward is ten satoshis times 1, 2.5 or 8 for the tier, the weight of its type of work and the bonus, with the fraction dropped. |
| Scheduling.RewardFollowsStake | owm-coordinator/internal/scheduler/scheduler.go:232-247 | Through bonus, stored thousandths and truncation, a larger stake never earns less, and rewards lie between those for multipliers 1 and 2. |
| Scheduling.Schedule | owm-coordinator/internal/scheduler/scheduler.go:91-128 | Each error exactly when its cause holds; otherwise assigns, out of all nodes, an active eligible one within 19/21 of the best such, with its reward, if the assignment can be stored. |
| HexCodec.HexEncodeMacaroon | owm-coordinator/internal/lightning/lnd_client.go:76-84 | Each byte becomes the digit of its high four bits and then that of its low four. |
| HexCodec.DecodeHex | owm-coordinator/internal/lightning/lnd_client.go:237-267 | Succeeds exactly on an even number of hexadecimal digits, and each byte's high and low four bits are the values of its two digits. |
| HexCodec.DecodeEncode | owm-coordinator/internal/lightning/lnd_client.go:76-84 | Decoding inverts encoding for all bytes. |
| HexCodec.EncodeDecode | owm-coordinator/internal/lightning/lnd_client.go:237-267 | Exactly the even-length hexadecimal texts are accepted, and re-encoding one gives its lowercase. |
| Messages.RegisterInjective | owm-coordinator/internal/registry/registry.go:372-374 | A register message determines key, URI, tier and timestamp, for a bar-free key, a listed tier and any URI. |
| Messages.RegisterFormat | owm-coordinator/internal/registry/registry.go:372-374 | The message is the prefix, key, URI, tier and timestamp, in this order, joined by bars. |
| Messages.DecimalReads | owm-coordinator/internal/registry/registry.go:372-374 | A timestamp's decimal text reads back as the timestamp and has no leading zero. |
| Messages.BarMakesRegisterAmbiguous | owm-coordinator/internal/registry/registry.go:372-374 | With a bar in the key two registrations would share a message. |
| Messages.TaskResultInjective | owm-coordinator/internal/rpc/server.go:465-484 | A task-result message determines its task id and the bytes of the output hash. |
| Messages.TaskResultFormat | owm-coordinator/internal/rpc/server.go:465-484 | The message is the prefix, task id and hash in hexadecimal, in this order, joined by bars. |
| Messages.MessagesDistinct | owm-coordinator/internal/rpc/server.go:480-484 | No register message is a task-result message. |
| Receipts.QuoteDelimits | owm-coordinator/internal/observer/receipt.go:131-134 | A quoted string and whatever follows it are both determined. |
| Receipts.MarshalMapSorted | owm-coordinator/internal/observer/receipt.go:104-129 | Visiting the keys in any order, the builder writes the entries in key order, strings quoted and other values as the encoder gives them. |
| Receipts.RenderedPair | owm-coordinator/internal/observer/receipt.go:110-129 | Two entries are written as quoted key, colon, quoted value, with a comma between and braces around. |
| Receipts.LessIsLexicographic | owm-coordinator/internal/observer/receipt.go:104-109 | The order of keys is the lexicographic one. |
| Receipts.CanonicalIsDeterministic | owm-coordinator/internal/observer/receipt.go:83-129 | A map has one canonical text. |
| Receipts.CanonicalIsInjective | owm-coordinator/internal/observer/receipt.go:104-134 | The text of a map of strings determines the map. |
| Receipts.ReceiptTextIsInjective | owm-coordinator/internal/observer/receipt.go:58-81 | Receipts with the same canonical text agree on every hashed field. |

## Left out

- IEEE rounding, NaN, infinities, the narrowing to float32 and int32 sequence overflow: numbers are reals and integers.
- SHA-256, Ed25519 and the msgpack and JSON decoders: the checkpoint hash is a parameter, whether a registration's timestamp, key and signature check out is a parameter, decoding is a partial function of the stored object.
- Lightning, S3, Redis, gRPC streaming, TLS and Tor: each is an outcome where a step needs one.
- An SQL statement that takes effect and then reports an error (a lost acknowledgement) is not modelled; a payment that does is.
- The gradients of a round are held in arrays while they are clipped and as values afterwards.
- The weight query of the average is a function of the node; the norm bounds ask it to be non-negative, as every bonus the coordinator stores is.
- RoundExpiry.ExpiredAreClosed: speaks of a pass that finishes with no failing statement and no other aggregator; `RoundOutlook` says what another aggregator can do, and `RoundDriver.Orchestrator.CloseExpired` what failing statements do.
- Registry.Registry.Register: keeps of a node its key, tier and status; the other columns are written through.
- Receipts.MarshalMapSorted: `sort.Strings` is modelled by insertion; the text of values that are not strings comes from the encoder.
- Listings that change during a stake sweep.
- `stampOTS` and the submission of observer receipts: detached, best-effort writes.
- `UpdateReliability`'s queries, heartbeats, deregistration and cooldown queries.
- `config.go`, `pool_api.go`, model-version listing, and metrics other than the node gauge and the satoshi counter: flat checks and plumbing.
- Resetting of the in-memory gauge when the process restarts.
- The Rust pool, generated protobuf code and Kubernetes manifests hold no logic to model.
