# A verified model of Gemini's scheduling core

Gemini shares a GPU among clients by handing out a token. The *scheduler* keeps a history of token
grants, derives each client's usage in a sliding window from it, and decides who gets the token next
and for how long. A *pod manager* forwards the requests of the processes in a pod and enforces their
memory limit. The *hook library* inside each process keeps its own memory accounts and predicts how
long the next burst of kernels will be.

This project models these parts in Dafny and proves what they are meant to guarantee. `dafny verify
dfyconfig.toml` covers the whole project.

| file | content |
|---|---|
| `Options.dfy`, `Reals.dfy`, `StepIntegral.dfy`, `MapTotals.dfy` | optional values, integrals of step functions, sums over maps |
| `UsageModel.dfy`, `UsageLaws.dfy` | usage as an integral over a window, and its laws |
| `Sweep.dfy`, `SweepLaws.dfy`, `ZeroLength.dfy` | the overlap sweep, exactly when it computes the usage, and what entries of length zero do to it |
| `StdSort.dfy`, `Priority.dfy`, `Selection.dfy` | sorting, the comparator, choosing a candidate |
| `Quota.dfy` | `ClientInfo` and the self-adaptive quota |
| `SchedulerSpec.dfy`, `SchedulerInvariant.dfy`, `SchedulerRuns.dfy` | the scheduler as a state machine, and statements over all runs |
| `Scheduler.dfy` | the scheduler's code, proved against the steps of the state machine |
| `SchedulerExamples.dfy` | concrete runs and scenes in which the scheduler misses a guarantee |
| `RecordKeeper.dfy`, `Predictor.dfy` | the sliding-window maximum and the period predictor |
| `RequestProtocol.dfy`, `EndToEnd.dfy` | quota requests between pod managers and scheduler, and both composed with the scheduler's state machine |
| `MemoryAccounting.dfy`, `DistributedMemory.dfy` | memory accounts of pod manager and hooks |
| `Wire.dfy` | the message format |

## Reading the model

- Times, quotas and usages are `real`; every clock reading is an input. A handler, or a turn of the
  daemon, is one atomic step. A run is any sequence of steps.
- Declared usage (`UsageModel.Usage`) is the integral over a window of a client's share of the
  running entries. It knows nothing of stamps, sorting or vectors. `Sweep.Swept` is what the code
  leaves in its usage map.
- A scheduler run assumes of its clients what the protocol asks of them (`SchedulerSpec.Enabled`):
  one outstanding quota request per name, a nonnegative overuse, and a request read strictly later
  than the sender's own latest grant. Settings are assumed positive. Times start above zero, since
  the code encodes a start by a negative sign.
- Sorting promises a permutation and, if the comparator is a strict weak order on the elements, no
  inversion. Callers see nothing else, so every statement holds for every order of ties.
- The code as it is, where it differs from what one would expect:
  - An entry that ended exactly at the window start survives pruning, and the prefix loop then takes
    its end for a start. Such a *phantom* counts twice until the end of the sweep, so running clients
    are undercharged next to another client's. `SweptExactly`, `NeverUndercharged`,
    `UnderchargedExactly`, `PrefixExact`, `SweptConservation` and `PhantomCharged` say exactly when this
    matters and `UsageAtMostSwept` how much; in the run of `OvershootRun` a client exceeds limit, quota
    and overuse together because of it.
  - A candidate exactly at a positive minimum can break the comparator's order (`RankableExactly`,
    `OrderedExactly`), and a client under its minimum may then be passed over (`PassedOverExactly`,
    `UnorderedCandidates`).
  - The quick exit ignores the limit; it agrees with the full path exactly when the limit is positive.
  - A limit fraction that puts the largest quota below the smallest one makes every adaptive grant
    the largest quota (`GrantWithinBounds`).
  - Overuse reported for an entry that was already pruned is lost (`PruningInvisible`,
    `LateReportRun`).
  - The memory check adds in 64 bits, so a request that wraps the sum is accepted (`VerdictExact`,
    `MemoryAccounted`, `WrappingRun`).
  - The resource file admits names of up to 62 characters, but from 48 on a quota request is longer
    than its buffer (`RequestFits`).

## Model

| member | source | states |
|---|---|---|
| UsageLaws.Conservation | src/scheduler.cpp:339-365 | Splitting shared time equally conserves it: over any duplicate-free list of clients covering the history, the usages add up to the measure of the union of the entries in the window |
| UsageLaws.DisjointUsage | src/scheduler.cpp:339-365 | If no two entries overlap, a client's usage is the plain sum of its entries clipped to the window |
| SweepLaws.EqualSplit | src/scheduler.cpp:342-345 | Of entries that all run throughout a window, each is charged the same part of it |
| UsageLaws.PruneInvisible | src/scheduler.cpp:296-297 | Removing entries that ended before the window changes no usage in this or any later window |
| Sweep.CollectStamps | src/scheduler.cpp:298-306 | The stamps are one negative start and one positive end per entry, and exactly the clients in the history get a zero usage |
| Sweep.TakePrefix | src/scheduler.cpp:327-337 | After the prefix loop the counter equals the vector's length, the vector holds each name's balance of the stamps taken, and the remaining stamps are exactly those after the window start |
| Sweep.ChargeSlice | src/scheduler.cpp:343-345 | Every running name is charged one equal portion per occurrence and nobody else is charged; the divisor is the vector's length |
| Sweep.EraseFirst | src/scheduler.cpp:354-359 | Exactly the first occurrence of the name goes; without one the vector is unchanged |
| Sweep.EndFindsName | src/scheduler.cpp:351-361 | In any order of ties, an end stamp finds its name in the vector |
| Sweep.TakeStamp | src/scheduler.cpp:340-365 | One turn of the main loop keeps counter and vector in step and extends the integral by exactly one slice |
| Sweep.Run | src/scheduler.cpp:321-365 | For every history of proper entries and every order of equal stamps, the final usage of every client is the integral of its share over the window, of the history as the prefix loop sees it |
| SweepLaws.SweptIsUsage | src/scheduler.cpp:327-365 | If no entry ended at or before the window start, the swept value is the declared usage in every window from there past the last end |
| SweepLaws.SweptExactly | src/scheduler.cpp:327-365 | The exact condition: whatever later entries join the history, every client's swept value is its declared usage, if and only if no entry had ended by the window start |
| SweepLaws.UnderchargedExactly | src/scheduler.cpp:327-365 | A client without ended entries is never overcharged, and is charged its usage if and only if nobody's entry had ended or it did not run |
| SweepLaws.UsageAtMostSwept | src/scheduler.cpp:327-365 | Whatever the history, a client's usage is at most its swept value times one plus twice the number of other clients' ended entries |
| SweepLaws.NeverUndercharged | src/scheduler.cpp:327-365 | The exact condition for one client: whatever later entries join the history, it is never charged less than its usage, if and only if no entry of another client had ended by the window start |
| SweepLaws.PrefixExact | src/scheduler.cpp:328-337 | The prefix loop leaves exactly the running entries in the vector if and only if no entry it saw had ended |
| SweepLaws.SweptConservation | src/scheduler.cpp:296-365 | The swept total is the union's length, or the whole span if an ended entry slipped in; it is the union's length exactly when none did or there is no idle moment |
| SweepLaws.SweptWithinWindow | src/scheduler.cpp:288-294 | With all ends in the past, the swept usages together never exceed the window size, also before a whole window has elapsed |
| SweepLaws.PhantomCharged | src/scheduler.cpp:296-337 | A client whose entries all ended has usage zero; the sweep agrees if and only if it has no entry left or nothing ended after the window start |
| SweepLaws.BoundaryEntryMischarged | src/scheduler.cpp:296-333 | A concrete history, unchanged by pruning, on which an ended client is charged |
| ZeroLength.BalancedExactly | src/scheduler.cpp:322-361 | With entries of length zero, no order of equal stamps lets the counter or a client's number of occurrences drop below zero, if and only if at no moment after the window start they outnumber the entries running through it, ended ones counted twice |
| ZeroLength.LengthsSuffice | src/scheduler.cpp:322-361 | That condition holds if no entry after the window start has length zero |
| ZeroLength.HiddenInstant | src/scheduler.cpp:322-361 | A concrete history with an entry of length zero for which it holds all the same |
| ZeroLength.ZeroLengthUnbalanced | src/scheduler.cpp:322-361 | A concrete arrangement that sorting may give to an entry of length zero, in which the counter drops to minus one |
| StdSort.Sort | src/scheduler.cpp:325-325 | A permutation, without inversions if the comparator is a strict weak order on the elements |
| Priority.BeforeIsKeyOrder | src/schd-priority.cpp:19-26 | The comparator puts clients under their minimum first, the relatively most starved in front, and orders the others by usage |
| Priority.RankableOrdered | src/schd-priority.cpp:19-26 | It is a strict weak order on candidates with plausible values of which none sits exactly at a positive minimum |
| Priority.RankableExactly | src/schd-priority.cpp:19-26 | That condition is exact: a plausible candidate can be sorted with any two rankable candidates below their limits without breaking the order if and only if it is rankable itself |
| Priority.OrderedExactly | src/schd-priority.cpp:19-26 | The comparator is a strict weak order on any list of candidates if and only if the usage of every client at its minimum agrees with the rank of every under-minimum client before each client ranked after it, and treats equally starved ones alike |
| Selection.ScoresExactly | src/scheduler.cpp:288-378 | Usage, missing and remaining refer to the window, or to the time since the start if that is shorter |
| Selection.EligibleExactly | src/scheduler.cpp:372-377 | A client is eligible if and only if its swept usage is below its limit fraction of that time |
| Selection.StarvedFirst | src/schd-priority.cpp:19-23 | Of two clients under their minimums the one that got the smaller part of its minimum is ahead, and one under its minimum is ahead of one over it |
| Selection.EligibleOrdered | src/scheduler.cpp:367-379 | If no eligible candidate sits exactly at a positive minimum, the scores are consistent and the comparator is a strict weak order on the eligible candidates |
| Selection.FullPickBest | src/scheduler.cpp:367-395 | The full path returns an eligible candidate and, if the scores are consistent in that sense, none is ahead of it |
| Selection.SelectOrSleep | src/scheduler.cpp:310-395 | In every round some candidate can be returned, or the daemon has to sleep, never both |
| Selection.MustSleepExactly | src/scheduler.cpp:308-388 | A round ends in a sleep if and only if the first candidate's client is in the history and every candidate's swept usage has reached its limit |
| Selection.QuickExitRefinesFullPath | src/scheduler.cpp:310-319 | For a front client absent from the history the full computation gives usage zero and nobody ahead of it, and the full path could pick it if and only if its limit is positive |
| Selection.MinimumFirst | src/scheduler.cpp:367-395 | A client over its minimum is never chosen while an eligible one is under its minimum, on the quick exit always, on the full path if the scores are consistent |
| Selection.PassedOverExactly | src/scheduler.cpp:310-395 | A client under its minimum may be passed over for one over its own if and only if the full path is taken, both kinds are eligible, and some client at its minimum has a usage that does not agree with the order of the others |
| SchedulerExamples.UnorderedCandidates | src/scheduler.cpp:288-395 | A run with settings as the scheduler makes them, after which it selects from three clients below their limits that the comparator puts in a cycle, and a client under its minimum may be passed over |
| SchedulerExamples.MistimedSelection | src/scheduler.cpp:296-378 | A run with settings as the scheduler makes them, and the state it reaches, in which a client over its limit may be selected because another one ended exactly at the window start |
| Quota.ClientInfo.constructor | src/scheduler.cpp:110-116 | A client starts with the base quota and no burst or usage data |
| Quota.ClientInfo.SetBurst | src/scheduler.cpp:120-120 | Only the burst changes |
| Quota.ClientInfo.GetQuota | src/scheduler.cpp:159-173 | Returns and stores the next quota; nothing else changes |
| Quota.GrantWithinBounds | src/scheduler.cpp:166-169 | Every burst-based grant lies within the bounds if and only if the bounds are in order; otherwise it is the upper bound |
| Quota.BaseWithoutBurst | src/scheduler.cpp:162-165 | Below a burst of 1e-9 the grant is the base quota, from every quota |
| Quota.HalfwayOrBound | src/scheduler.cpp:160-169 | A burst-based grant is exactly halfway between quota and burst, or the bound in the way; within the bounds the distance to the burst is halved |
| Quota.QuotaCourse | src/scheduler.cpp:159-173 | The exact quota after n grants under a constant burst: the burst plus the initial distance divided by 2 to the n, cut off at the bounds |
| Quota.QuotaCourseFromAny | src/scheduler.cpp:159-173 | From a quota outside the bounds the same course begins with the first grant |
| Quota.Converges | src/scheduler.cpp:159-173 | Under a constant burst the distance to the bounded burst after n grants is at most the initial one divided by 2 to the n, from any starting quota |
| SchedulerInvariant.CloseIsReturn | src/scheduler.cpp:122-132 | Closing the latest entry found from the back is exactly marking the client's latest grant as returned |
| SchedulerInvariant.StepKeeps | src/scheduler.cpp:399-501 | Every handler and daemon step keeps the invariant that relates history, candidates, phase and the log of all grants |
| SchedulerInvariant.TokenSafety | src/scheduler.cpp:451-493 | In every run: when the daemon selects, every recorded end is in the past; token periods are disjoint and in order; recorded entries overlap by at most the overuse reported for the earlier one, so not at all without overuse |
| SchedulerRuns.RequestUsage | src/scheduler.cpp:122-132 | A request raises its sender's usage in any window by at most the reported overuse and nobody else's |
| SchedulerRuns.ReturnExactly | src/scheduler.cpp:122-132 | In every reachable state a return ends the client's entry at the return or with quota plus overuse, whichever is earlier, records that length, the overuse and the burst, and changes no other entry; without an entry the history stays |
| SchedulerSpec.NoPhantomsSeen | src/scheduler.cpp:296-333 | A selection counts no ended entry of another client as running exactly on the quick exit, or when none of their recorded ends is the window start |
| SchedulerRuns.BoundedOvershoot | src/scheduler.cpp:370-379 | In every run, from a grant to the client's next one, its usage in any current or later window is at most limit plus granted quota plus reported overuse, where the limit counts one plus twice the other clients' phantoms at the selection, so once if there were none |
| SchedulerExamples.OvershootRun | src/scheduler.cpp:296-378 | A run with settings as the scheduler makes them and one such phantom, in which a client's usage exceeds limit plus quota plus overuse |
| SchedulerRuns.ComputedUsages | src/scheduler.cpp:288-365 | In every run, whenever the daemon selects, the computed usages together never exceed the window size; each is at least the usage in the trailing window divided by one plus twice the other clients' phantoms, and equal to it if no recorded end is the window start |
| SchedulerRuns.SleepsExactly | src/scheduler.cpp:288-388 | In every run, when no recorded end is the window start, a free daemon has to sleep if and only if the first candidate's client ran in the trailing window and every candidate's usage in it has reached the limit |
| SchedulerRuns.PruningInvisible | src/scheduler.cpp:296-297 | The pruned list accounts like the complete history, in the current and all later windows, if and only if no dropped entry was extended past the window start |
| SchedulerRuns.TimelyStep | src/scheduler.cpp:122-141 | Exactly the steps that do not report such a late overuse keep pruning invisible |
| SchedulerRuns.PruningInvisibleOverRuns | src/scheduler.cpp:122-141 | In every run without such reports the pruned list and the full history give the same usages |
| SchedulerExamples.LateReportRun | src/scheduler.cpp:122-132 | A run with settings as the scheduler makes them, in which overuse is reported for a pruned entry: the complete history charges the client in the current window, the pruned list does not |
| SchedulerCode.Scheduler.constructor | src/scheduler.cpp:100-100 | Starts in the initial state of the state machine |
| SchedulerCode.Scheduler.UpdateReturnTime | src/scheduler.cpp:122-132 | The backward search closes the client's latest entry at the earlier of now and end plus overuse, and records overuse and actual usage |
| SchedulerCode.Scheduler.HandleQuotaRequest | src/scheduler.cpp:400-427 | A request step of the state machine; unknown clients are ignored |
| SchedulerCode.Scheduler.Prune | src/scheduler.cpp:296-297 | Exactly the entries that ended before the window start go, in order |
| SchedulerCode.Scheduler.FrontAppears | src/scheduler.cpp:311-315 | Whether the first candidate's client occurs in the history |
| SchedulerCode.Scheduler.ComputeUsage | src/scheduler.cpp:298-365 | Stamps, sort and sweep together yield the swept usage of every client |
| SchedulerCode.Scheduler.CollectValid | src/scheduler.cpp:367-379 | Exactly the candidates below their limit, in list order, with their scores |
| SchedulerCode.Scheduler.Decide | src/scheduler.cpp:308-395 | The place of a candidate that may be selected, or nothing exactly when all must wait |
| SchedulerCode.Scheduler.SelectRound | src/scheduler.cpp:273-395 | One round: prune, then decide on the pruned history |
| SchedulerCode.FirstLeaves | src/scheduler.cpp:296-297 | The first entry is kept exactly until one window after its end |
| SchedulerCode.Scheduler.SleepAndRetry | src/scheduler.cpp:381-388 | Sleeps until exactly that moment, which removes at least one entry, and then goes through a round |
| SchedulerCode.Scheduler.SelectCandidate | src/scheduler.cpp:272-397 | Without new requests it returns after at most as many sleeps as the history has entries, at once or at a wake-up one window after some entry's end, takes off exactly the candidate it returns, and never reads an empty list |
| SchedulerCode.Scheduler.GrantToken | src/scheduler.cpp:459-463 | Computes the quota, appends the entry and passes the token, changing nothing else |
| SchedulerCode.Scheduler.ScheduleOnce | src/scheduler.cpp:451-474 | A whole turn of the daemon is an enabled select step of the state machine, with the deadline one quota after the hand-over |
| SchedulerCode.Scheduler.HolderIsBack | src/scheduler.cpp:484-490 | True exactly when the holder is waiting among the candidates |
| RecordKeeping.RecordKeeper.constructor | src/predictor.cpp:37-37 | An empty deque |
| RecordKeeping.RecordKeeper.Add | src/predictor.cpp:40-43 | Pops the smaller records from the back and pushes the new one; every pop is counted |
| RecordKeeping.RecordKeeper.DropOutdated | src/predictor.cpp:46-50 | Pops exactly the outdated prefix |
| RecordKeeping.RecordKeeper.GetMax | src/predictor.cpp:52-57 | The front, or zero |
| RecordKeeping.RecordKeeper.Clear | src/predictor.cpp:59-59 | Forgets everything |
| RecordKeeping.OutdatedExactly | src/predictor.cpp:46-50 | A record is outdated exactly from VALID_TIME plus one milliseconds on, in nanoseconds |
| RecordKeeping.KeeperRefinesLog | src/predictor.cpp:40-57 | For every run of add, drop and clear on a nondecreasing clock, the value read after dropping is the maximum of all records since the last clear younger than that, or zero |
| RecordKeeping.NaiveMaxUnique | src/predictor.cpp:52-57 | That specification determines the value |
| RecordKeeping.PopsAtMostAdds | src/predictor.cpp:39-50 | Over every run all loops together pop at most once per add |
| Prediction.ChainIsMaximal | src/predictor.cpp:105-123 | The chain a long period measures is linked throughout and not linked to anything before it |
| Prediction.MergingMatchesTrace | src/predictor.cpp:83-123 | For every sequence of events, each long record is the time from the start of the maximal chain since the last interrupt or reset; an ongoing period implies an ongoing long one |
| Prediction.DecisionIgnoresSentinels | src/predictor.cpp:109-117 | In every reachable state the merge decision rests on real readings, never on an extreme time point |
| Prediction.MsExactly | src/predictor.cpp:91-95 | Durations are in milliseconds, cut to whole microseconds |
| Prediction.PredictionsAreRecentMaxima | src/predictor.cpp:139-163 | In every reachable state the predictions are the maxima of the recent period durations and of the recent chain durations |
| Prediction.InterruptForgets | src/predictor.cpp:127-136 | After an interrupt periods are measured as by a new predictor, and the earlier records stay |
| Prediction.ResetForgets | src/predictor.cpp:174-184 | After a reset the predictor measures and predicts as a new one |
| Prediction.MergedPredictsMore | src/predictor.cpp:139-163 | In every reachable state the merged prediction is at least the unmerged one at the same instant |
| Prediction.Predictor.constructor | src/predictor.cpp:63-72 | Starts with unset time points and empty keepers |
| Prediction.Predictor.RecordStop | src/predictor.cpp:83-102 | A stop event of the value model |
| Prediction.Predictor.RecordStart | src/predictor.cpp:105-123 | A start event of the value model |
| Prediction.Predictor.InterruptPeriod | src/predictor.cpp:127-136 | An interrupt event of the value model |
| Prediction.Predictor.PredictUnmergedAt | src/predictor.cpp:139-150 | Drops outdated normal records and returns the front |
| Prediction.Predictor.PredictMergedAt | src/predictor.cpp:153-163 | Drops outdated long records and returns the front |
| Prediction.Predictor.ResetAll | src/predictor.cpp:174-184 | A reset event of the value model |
| RequestProtocol.ReplyIsNew | src/pod-manager.cpp:486-490 | An answer on its way is never in the response map already, so the non-overwriting insert loses nothing |
| RequestProtocol.GrantIsFirst | src/scheduler.cpp:392-395 | A candidate's request was issued and not granted before |
| RequestProtocol.StepKeeps | src/pod-manager.cpp:344-372 | Every thread's step keeps requests in exactly one place, answers equal to grants, and waiting threads matched with their requests |
| RequestProtocol.RequestsConserved | src/pod-manager.cpp:344-491 | In every run with any number of pods and threads: each issued request is in exactly one place and other ids nowhere; it is granted and picked up at most once, by the thread that issued it, with the granted value |
| RequestProtocol.LineAfter | src/pod-manager.cpp:450-465 | A new request joins the end of its pod's line, a granted one leaves it, and no other step changes it |
| RequestProtocol.RequestsInOrder | src/pod-manager.cpp:344-465 | In every run a pod's requests are numbered from 1 on and reach the scheduler in issuing order |
| EndToEnd.EventKeeps | src/scheduler.cpp:400-474 | Every step of the pod managers and the scheduler together keeps both candidate lists equal, and grants and answered requests in one-to-one correspondence with equal quotas |
| EndToEnd.AnswersAreGrants | src/scheduler.cpp:400-474 | In every run, what a thread picks up is the quota recorded for exactly one grant to its client, in answer to its own request; the tokens of different answers, picked up anywhere, never overlap |
| RequestProtocol.PodManager.constructor | src/pod-manager.cpp:75-83 | Empty queue and map; ids start after the start-up request |
| RequestProtocol.PodManager.PlaceRequest | src/pod-manager.cpp:344-352 | Queues a request under a fresh id |
| RequestProtocol.PodManager.ForwardOne | src/pod-manager.cpp:450-465 | Forwards the oldest request, if any |
| RequestProtocol.PodManager.StoreOne | src/pod-manager.cpp:475-491 | Stores one answer under its id without overwriting |
| RequestProtocol.PodManager.TryTake | src/pod-manager.cpp:355-372 | Takes the answer with the thread's id if it is there and changes nothing otherwise |
| MemoryAccounting.VerdictExact | src/pod-manager.cpp:284-290 | The verdict on an allocation is right if and only if the sum fits in 64 bits; a wrapping one is accepted |
| MemoryAccounting.PodTotalsBalanced | src/pod-manager.cpp:281-298 | After any sequence of connects, updates and disconnects the total equals the sum of the entries modulo 2 to the 64 |
| MemoryAccounting.DisconnectExactly | src/pod-manager.cpp:430-434 | A disconnect removes the connection's entry and no other, and a total that was the sum of the entries is the sum of the remaining ones |
| MemoryAccounting.PodMemory.constructor | src/pod-manager.cpp:134-140 | Nothing used, limit set |
| MemoryAccounting.PodMemory.Accept | src/pod-manager.cpp:253-254 | A connection gets a zero entry unless it has one |
| MemoryAccounting.PodMemory.UpdateMemoryUsage | src/pod-manager.cpp:281-298 | Verdict, total and entry after an update |
| MemoryAccounting.PodMemory.Close | src/pod-manager.cpp:430-434 | The entry comes off the total and goes |
| DistributedMemory.StepKeeps | src/hook.cpp:592-642 | A hook or pod step keeps the accounts balanced if and only if it is not an allocation whose sum with the pod's total exceeds 64 bits |
| DistributedMemory.ExitBalanced | src/pod-manager.cpp:427-434 | When a process ends, closing its connections gives back exactly what it held, although single entries may have wrapped |
| DistributedMemory.ExitInAnyOrder | src/pod-manager.cpp:427-434 | A process's exit is the pod manager's own disconnect of exactly its connections, in any order |
| DistributedMemory.StepIsPodRun | src/pod-manager.cpp:253-298 | Every step of the system does to the pod manager what its connects, updates and disconnects do, and nothing else |
| DistributedMemory.RunIsPodRun | src/pod-manager.cpp:253-434 | In every run, also when a sum wraps, the pod manager went through a run of its own operations |
| DistributedMemory.AlwaysCongruent | src/pod-manager.cpp:253-434 | So in every run its total is the sum of its entries modulo 2 to the 64 |
| DistributedMemory.MemoryAccounted | src/pod-manager.cpp:281-298 | In every run: the pod's total is at all times exactly the hooks' totals plus the bytes in flight and within the limit, if and only if no allocation wraps the sum; then each hook's total is the sum of its live allocations and each process's entries match its share modulo 2 to the 64 |
| DistributedMemory.WrappingRun | src/pod-manager.cpp:284-290 | A run in which a wrapping request is granted and the pod then counts no byte |
| DistributedMemory.HookMemory.constructor | src/hook.cpp:207-208 | Empty accounts for every device |
| DistributedMemory.HookMemory.BeginFree | src/hook.cpp:592-599 | The bytes of a known pointer come off the device's total; unknown pointers and other devices are untouched |
| DistributedMemory.HookMemory.CompleteFree | src/hook.cpp:599-603 | The pointer is forgotten, on its device only |
| DistributedMemory.HookMemory.CompleteAlloc | src/hook.cpp:628-642 | An accepted allocation is booked on its device only; a rejected one changes nothing |
| Wire.Append | src/comm.h:51-55 | The value's bytes are at the cursor, the cursor is past them, and no other byte changed |
| Wire.Get | src/comm.h:42-48 | The bytes at the cursor, and the cursor past them |
| Wire.Sender.constructor | src/comm.cpp:26-30 | Ids start at zero |
| Wire.Sender.Prepare | src/comm.cpp:26-63 | The buffer starts with exactly the bytes of the request, the rest is untouched, and ids count up |
| Wire.Parse | src/comm.cpp:66-84 | Name, length, id, type and attached bytes at their places |
| Wire.PrepareResponse | src/comm.cpp:86-109 | The buffer starts with exactly the bytes of the response; returns their number |
| Wire.ParseResponse | src/comm.cpp:111-120 | The id, and where the payload starts |
| Wire.RequestFits | src/comm.cpp:42-60 | Exact lengths, and the exact name lengths for which a request fits its buffer |
| Wire.RequestLayout | src/comm.cpp:42-46 | Length, name, terminator, id, type and payload are at their places in a request |
| Wire.AskLayout | src/comm.cpp:48-60 | The numbers of the request types, and the places of what they carry |
| Wire.LittleEndian | src/comm.h:42-55 | Later bytes of a number weigh more |
| Wire.ResponseFits | src/comm.cpp:90-106 | Every response fits its buffer |
| Wire.RequestRoundTrip | src/comm.cpp:26-84 | Parsing undoes preparing: id, type, payload and name length come back, and the name if and only if it is free of terminators |
| Wire.ResponseRoundTrip | src/comm.cpp:86-120 | Id and payload of every response come back |

## Left out

- MinimumFirst: does not cover a full path with inconsistent scores, where the property can fail; PassedOverExactly gives the exact condition.
- SelectCandidate: models timed-out sleeps without new requests; wake-ups by new requests are the request steps of the state machine.
- MemoryAccounted: assumes fresh pointers, reliable calls and sizes that are 64-bit numbers.
- RequestsConserved: assumes reliable channels and known clients, and ids that do not exceed 32 bits.
- AnswersAreGrants: assumes one connection and one client name per pod, and what a scheduler run assumes of its clients.
- Prepare: requires the request to fit its buffer, since the source writes past the end otherwise; RequestFits gives the exact name lengths.
- Parse: requires the name's length field to stay inside the buffer, since the source reads unchecked.
- Zero-length entries: a return read at the very clock value of the grant, or a quota of zero, is outside the correctness of the sweep; BalancedExactly says exactly when it upsets the counter.
- Interleavings inside a handler: the return time is updated outside the candidate lock, and the quota state of the pod manager is tested and set in separate critical sections.
- The hook's token request path and overuse measurement, which consist of device events and condition variables.
- The upper bound stored by the predictor, which nothing reads.
- The pod manager's aggregation of its hooks' overuse and bursts and the reuse of remaining quota, which would only add maxima and a subtraction.
- Liveness of the pod manager's condition waits.
- Interception of device calls, symbol lookup, array-size formulas.
- Sockets, retries, partial reads, argument and configuration parsing, file monitoring, signal handlers, logging, launch scripts.
- Floating-point rounding, 32-bit wrap of request ids, the random quota and no-prediction builds, replacement of client settings while running.
