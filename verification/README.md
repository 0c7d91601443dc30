# Verified model of the Bifrost worker daemon

The daemon elects one leader per Lease, evaluates delta hedges under a chain of
guards, mirrors broker accounts into tables, and runs all of it in a supervised
state loop. This project models those four components in Dafny and proves what
holds over every run of them.

| files | component |
|---|---|
| `Lease.dfy` | the versioned Lease record, the in-memory store and the elector: one tick, its callbacks, the standby and renew loops |
| `LeaseProtocol.dfy`, `LeaseExclusion.dfy`, `LeaseTightness.dfy`, `LeaseFailover.dfy` | any number of pods over one Lease as a transition system: untimed invariants, exclusion under a timing budget, the budget shown to be exact, bounded failover |
| `GammaScalper.dfy` | which order brings delta back, and how rounding decides whether that ends |
| `TradingFsm.dfy`, `HedgeFsm.dfy`, `ExecutionGuard.dfy` | the two trading state machines with their guards, and the order gate |
| `HedgeFlow.dfy`, `HedgeDecision.dfy`, `HedgeLog.dfy`, `FaultLatch.dfy` | one hedge tick over all of these, its decision as one checklist, the log of every run, and latched faults |
| `AccountWriter.dfy`, `PushListener.dfy` | the change-only account writer and the notification listener that drives it |
| `DaemonFsm.dfy`, `DaemonRun.dfy` | the lifecycle state machine and the `run` loop against an adversarial environment |

Each stateful component appears twice: as a specification on values, about which
the theorems are proved, and as a class in the code's own form, whose methods are
proved to compute that specification. `dafny verify dfyconfig.toml` checks it all.

## What the model takes as given

- **Lease.** A store is the sequence of records it has committed; a record's
  version is its position. A tick is four interleavable steps: read the clock, read
  the record, write, look at the deadline. A read may fail. A write may fail, commit
  while it is reported failed, or land at any later time. A pod may be killed at any
  step, its last write perhaps still on the way, and come back under its identity as
  a fresh standby with the same settings and a clock that has not gone back.
  Exclusion assumes clocks within epsilon of true time, every tick of a live pod done
  within L (scheduling included), a leader's wait no longer than its retry period,
  and a service unwound within U. How long a standby sleeps is not bounded.
- **The budget** of a pod is its patience (its renew deadline, or L if that is longer)
  plus its retry period, L and twice epsilon, and U where unwinding counts; it must
  not exceed the lease duration the pod writes. `ExclusionExactlyWhen` proves that
  exclusion holds over all timed runs if and only if every pod meets it.
- **The flag outlives leadership.** `is_leader` is cleared by a lost or expired
  lease, but not when the pod leaves because of a stop or a crashed service
  (`lease.py:364-378`, `432-446`). So `AtMostOneLeader` speaks of pods still in
  their loops, and `AtMostOneService`, with a budget that pays for the unwinding as
  well, of every pod `run_with_leadership` has not returned from.
  The bare statement, at most one flag among all pods in every phase, is
  `AtMostOneFlag`: it holds as long as no leader leaves its loop by a stop or the end
  of its service, and `OneFlagExactlyWhen` proves it equivalent to the budget over
  such runs. Otherwise `StoppedLeaderKeepsItsFlag` shows that no budget saves it, and
  `FlaggedPodsAreGone` what is left of it.
- **Failover** is counted to the end of the taking tick: expiry, one retry period
  and two ticks (one that began just before the expiry, and the one that succeeds).
  The old holder may die, freeze or be cut off, and only the one standby that keeps
  time need be answered by the store.
- **Hedging.** Prices, deltas and clocks are real numbers. Snapshots, the composite
  state, trading hours and the earnings calendar are arbitrary inputs of a tick, so
  every theorem holds whatever they are. `HedgeLog` and `FaultLatch` keep one
  configuration throughout, and let the clock and the date move between the gate
  and the record. The status reports inside a tick (`hedge_flow.py:90`, `147`) are
  taken not to raise. A raise at the second one comes after the fill and before
  HEDGE_DONE, and `RaiseEndsHedgingForGood` proves its price: HEDGING has no way out
  but SAFE, and no run after it records another hedge.
- **The daily count has no date until one is set.** `_daily_hedge_date` starts as
  None and recording never sets it (`execution_guard.py:46`, `68-72`, `146-151`), so
  as the daemon runs today the daily cap is a cap on the life of the process.
  `DailyCap` proves both readings. A count set for a date still to come is forgotten
  at the first question asked before that date (`FutureCountIsForgotten`).
- **Mock mode.** `mock_hedging` is hard-wired on, so today's heartbeat skips the
  hedge step (`control_heartbeat.py:282-291`). The model is of the step itself.
- **Accounts.** The table is a map from account id to row, and a write is atomic:
  what fails is rolled back. A row and its fingerprint are both the pair (summary,
  positions), so the digest is taken to be injective. An account without an id
  writes no row. The theorems over sequences let calls of `write` follow one another;
  the listener and the heartbeat start them on threads with no lock
  (`account_push.py:221`). `OverlapMirrorsExactlyWhen` says when two overlapping calls
  keep the memory true, and `OverlapBreaksMirror` gives two that do not.
- **Daemon.** During any handler the environment may ask for a stop and flip the
  suspension any number of times, and may make the handler raise or cancel it. The
  two waits that swallow a cancellation (the running handler's and the ones of
  `handle_stopping`) do so in the model. Interpreter-level exceptions other than
  cancellation are not modelled.

## Where the code and its documentation differ

- `lease.py:424` promises at most one live connection per Lease. That needs the
  timing budget of `AtMostOneService`, and `OverBudgetShares` breaks it for any pod
  that misses the budget. With no timing at all, `SilentLeaderKeepsItsFlag` shows two
  flags set at once, the situation of `tests/test_daemon_lease.py:118-127`.
- `gamma_scalper.py:66` and `91` say that an intent is returned at |need| equal to
  the threshold; the code requires strictly more (`IntentMeaning`).
- `account_push.py:125` says a degraded read is never stored as a flat book. An
  explicit null for `positions` is not looked at and is stored
  (`BookFlattenedExactlyWhen` gives the exact condition).
- With one account id twice in a push the change-only writer and the one that
  writes everything can part ways (`DuplicatesBreakIt`).
  `FilterIsInvisibleExactlyWhen` says exactly when they do not, and the refinement is
  proved for all sequences of such pushes, which those with distinct ids always are.
- A plan that is skipped keeps its `need_shares` (`SkippedPlanKeepsNeed`). No tick
  that starts at rest takes that branch (`TickFromRest`).
- `daemon_handlers.py:204-211`: a handler that raises after a stop request ends in
  STOPPED without `handle_stopping`. `CleanupRunsOnce` says exactly when, and that it
  never happens once the background tasks exist.

## Model

| member | source | states |
|---|---|---|
| Lease.GrantedUpdateReplacesWhatItRead | src/bifrost_worker/daemon/lease.py:112-123 | An update is granted if and only if the record it was prepared from is still current, and then appends exactly one new version |
| Lease.RaceHasOneWinner | src/bifrost_worker/daemon/lease.py:104-123 | Of requests prepared from one observation at most one is ever granted, at any later time |
| Lease.AttemptMeaning | src/bifrost_worker/daemon/lease.py:268-340 | FAILED moves no field, HELD_BY_OTHER always leaves a standby, RENEWED only if already leading; success means one's own record, stamped now, is on top |
| Lease.TickComesToItsOutcome | src/bifrost_worker/daemon/lease.py:268-340 | The tick, reading first and writing under a version, comes to exactly the outcome its circumstances call for: attempt, flag, time, callbacks and every field of the record it leaves |
| Lease.CallbacksAlternate | src/bifrost_worker/daemon/lease.py:324-351 | Over every history of ticks and deadlines the callbacks alternate, started first, and the flag is set exactly between a start and its stop |
| Lease.InMemoryLeaseBackend.Get | src/bifrost_worker/daemon/lease.py:101-102 | Returns the record last committed, if any |
| Lease.InMemoryLeaseBackend.Create | src/bifrost_worker/daemon/lease.py:104-110 | Succeeds if and only if nothing was ever stored; the new state either way |
| Lease.InMemoryLeaseBackend.Update | src/bifrost_worker/daemon/lease.py:112-123 | Succeeds if and only if the version offered is the current one; the new state either way |
| Lease.LeaderElector.TryAcquireOrRenew | src/bifrost_worker/daemon/lease.py:268-322 | The tick as code, with other writers between its read and its write and every fate of the write, computes the specified flag, callbacks, store and outcome |
| Lease.LeaderElector.BecomeLeader | src/bifrost_worker/daemon/lease.py:324-331 | Sets the flag and the success time, fires started only on a rise, reports ACQUIRED or RENEWED |
| Lease.LeaderElector.BecomeStandby | src/bifrost_worker/daemon/lease.py:333-340 | Clears the flag and fires stopped only on a fall |
| Lease.LeaderElector.ExpireSelf | src/bifrost_worker/daemon/lease.py:342-351 | As a standby, after the deadline |
| Lease.LeaderElector.Acquire | src/bifrost_worker/daemon/lease.py:355-362 | Ticks in every pass, from what the last pass and the other pods left, and returns leading with the first tick that succeeds and only then, its own record on top and one started callback; otherwise untouched |
| Lease.LeaderElector.RenewUntilLost | src/bifrost_worker/daemon/lease.py:364-378 | Ticks in every pass and goes on exactly while the tick succeeds or fails within the deadline; gives the flag up on a refused tick or a failed one past the deadline, with one stopped callback; keeps it on a stop |
| LeaseProtocol.CommitIsAtomic | src/bifrost_worker/daemon/lease.py:274-322 | A granted write of a divided tick is what an undivided tick would do to the record current at the write, and the expiry test on the earlier reading still holds of it |
| LeaseProtocol.TickIsDivided | src/bifrost_worker/daemon/lease.py:268-322 | The pod's clock, read and write steps with others in between move flag, callbacks and store as the elector class's tick |
| LeaseProtocol.EveryCommitIsAtomic | src/bifrost_worker/daemon/lease.py:274-322 | In every reachable world a step that changes the store is some pod's undivided read, decision and write |
| LeaseProtocol.HistoryGrows | src/bifrost_worker/daemon/lease.py:281-313 | One more record that follows the last keeps the whole history sound |
| LeaseProtocol.StepKeepsInv | src/bifrost_worker/daemon/lease.py:268-378 | Every step of every pod keeps the protocol invariant, and the log only grows |
| LeaseProtocol.RunKeepsInv | src/bifrost_worker/daemon/lease.py:268-378 | So does every run |
| LeaseProtocol.HistoryIsSound | src/bifrost_worker/daemon/lease.py:281-313 | Under arbitrary skew: renew times never go back, acquire is when the holder's tenure began and at most renew, transitions equals the changes of holder, versions are consecutive |
| LeaseExclusion.NoForeignCommit | src/bifrost_worker/daemon/lease.py:298-322 | While a pod occupies the Lease and nobody is late, no other pod's request is granted, however long ago it was prepared |
| LeaseExclusion.CommitTimed | src/bifrost_worker/daemon/lease.py:315-331 | A commit leaves every occupant in possession, and only the committing pod can be one |
| LeaseExclusion.StepTimed | src/bifrost_worker/daemon/lease.py:355-378 | Every timely step keeps the timed invariant |
| LeaseExclusion.AtMostOneLeader | src/bifrost_worker/daemon/lease.py:268-378 | Under the per-pod budget at most one pod still in its loops has the flag set, and it is the holder of record, pods killed and restarted at any step included |
| LeaseExclusion.AtMostOneFlag | src/bifrost_worker/daemon/lease.py:268-446 | Of all pods in every phase, gone ones included, at most one has the flag set, as long as no leader leaves its loop by a stop or the end of its service |
| LeaseExclusion.CalmMeansNobodyLeaves | src/bifrost_worker/daemon/lease.py:366-369 | No leader so leaves in a run in which no pod is asked to stop and a service ends only by being unwound |
| LeaseExclusion.AtMostOneService | src/bifrost_worker/daemon/lease.py:412-446 | With unwinding in the budget no two pods not yet gone run the service or carry the flag at once, through loss, stop, crash, restart and takeover |
| LeaseExclusion.FlaggedPodsAreGone | src/bifrost_worker/daemon/lease.py:364-446 | Of any two pods whose flags are set one has returned |
| LeaseTightness.OverBudgetShares | src/bifrost_worker/daemon/lease.py:364-378 | A pod that misses the budget can, from every start and within all timing bounds, be made to lead or serve beside another, with no stop and no service ending of itself |
| LeaseTightness.ExclusionExactlyWhen | src/bifrost_worker/daemon/lease.py:268-446 | Exclusion holds over all timed runs if and only if every pod's settings meet the budget |
| LeaseTightness.OneFlagExactlyWhen | src/bifrost_worker/daemon/lease.py:268-446 | Over all such timed runs at most one flag is ever set if and only if every pod's settings meet the budget |
| LeaseTightness.StoppedLeaderKeepsItsFlag | src/bifrost_worker/daemon/lease.py:366-369 | Within any budget a stopped leader is gone with its flag set while another leads |
| LeaseExclusion.StoppedStandbyNeverServes | src/bifrost_worker/daemon/lease.py:426-429 | A pod stopped before it leads never starts the service, in any run that does not restart it |
| LeaseExclusion.SilentLeaderKeepsItsFlag | tests/test_daemon_lease.py:118-127 | Without a bound on ticks two flags can be set, whatever the settings |
| LeaseFailover.TakeoverLeads | src/bifrost_worker/daemon/lease.py:315-331 | The step that replaces the record is another pod's answered write, and its writer leads at once |
| LeaseFailover.BoundedFailover | src/bifrost_worker/daemon/lease.py:355-362 | If a holder writes no more, dead, frozen or cut off, and one standby keeps time and is answered, some other pod leads by expiry on every clock plus one retry period plus two ticks |
| LeaseFailover.OneTakeoverPerRecord | src/bifrost_worker/daemon/lease.py:112-118 | In every run a pod whose write is still to come when another write has gone in is refused, changes nothing and stays what it was |
| GammaScalper.RoundIsNearestEven | src/bifrost_worker/daemon/strategy/gamma_scalper.py:38 | The rounding is the nearest integer, at a tie the even one, and nothing else is |
| GammaScalper.IntentMeaning | src/bifrost_worker/daemon/strategy/gamma_scalper.py:94-113 | An order exists if and only if the excess exceeds the threshold and rounds to a share; its side opposes delta and its size is the rounded excess or the cap |
| GammaScalper.OneOrder | src/bifrost_worker/daemon/strategy/gamma_scalper.py:99-112 | A capped order shortens delta by the cap without changing its sign; an uncapped one leaves at most half a share |
| GammaScalper.LoopSettles | src/bifrost_worker/daemon/strategy/gamma_scalper.py:83-113 | Feeding orders back, the scalper is silent after at most ceil(delta / cap) of them, for every nonnegative threshold, and delta is then within the threshold or half a share |
| GammaScalper.BoundIsTight | src/bifrost_worker/daemon/strategy/gamma_scalper.py:100-106 | The bound is met from whole deltas |
| GammaScalper.TiesAwayNeverSettles | src/bifrost_worker/daemon/strategy/gamma_scalper.py:100-107 | With ties rounded away from zero the loop would never end |
| GammaScalper.RoundedNeedStallsExactlyWhen | src/bifrost_worker/daemon/strategy/gamma_scalper.py:100-106 | A capped order lowers the rounded need except exactly at a cap of one share and a delta half-way above an even integer |
| GammaScalper.PlanAgreesWithOrder | src/bifrost_worker/daemon/strategy/gamma_scalper.py:35-38 | The target less the position has the order's sign, is at least a capped order, equals an uncapped one except off by one exactly at a half-integer delta with an odd position |
| HedgeFsm.RefusedCallChangesNothing | src/bifrost_worker/daemon/fsm/hedge_fsm.py:105-256 | A call that returns False has changed no field |
| HedgeFsm.TargetExactlyWhileWorking | src/bifrost_worker/daemon/fsm/hedge_fsm.py:105-256 | Over every sequence of calls a target is set exactly when the state is neither EXEC_IDLE nor FILLED, and a fill leaves no need |
| HedgeFsm.NeedStaysCurrent | src/bifrost_worker/daemon/fsm/hedge_fsm.py:134-189 | An idle machine's need stays zero exactly unless a plan with a need is skipped |
| HedgeFsm.NoDeadEnd | src/bifrost_worker/daemon/fsm/hedge_fsm.py:105-256 | From every state at most three calls, none refused, free the machine and drop its target |
| HedgeFsm.TroubleBeginsWhen | src/bifrost_worker/daemon/fsm/hedge_fsm.py:205-256 | Exactly which calls fail an order that is out or have it cancelled |
| HedgeFsm.OnlyAResyncRecovers | src/bifrost_worker/daemon/fsm/hedge_fsm.py:126-189 | From a cancel or a failure no sequence of calls without a position resync frees the machine or touches its target |
| HedgeFsm.HedgeFsmObject.TakeTarget | src/bifrost_worker/daemon/fsm/hedge_fsm.py:134-145 | on_target as code has the specified effect on all four fields |
| HedgeFsm.HedgeFsmObject.DecidePlan | src/bifrost_worker/daemon/fsm/hedge_fsm.py:155-164 | So has on_plan_decide |
| HedgeFsm.HedgeFsmObject.FilledInFull | src/bifrost_worker/daemon/fsm/hedge_fsm.py:238-244 | So has on_full_fill |
| TradingFsm.TicksSettle | src/bifrost_worker/daemon/fsm/trading_fsm.py:182-199 | From every state and under every combination of guards, repeated ticks settle within four and then change nothing |
| TradingFsm.TradingFsmObject.ApplyTransition | src/bifrost_worker/daemon/fsm/trading_fsm.py:228-240 | Moves to the computed state if there is one and reports whether it did |
| ExecutionGuard.ReasonIsTheFirst | src/bifrost_worker/daemon/guards/execution_guard.py:114-144 | The reason given is that of the first gate, in the source's order, that refuses |
| ExecutionGuard.ExecutionGuardObject.AllowHedge | src/bifrost_worker/daemon/guards/execution_guard.py:97-144 | The gate as code gives the specified verdict, after rolling the count over |
| ExecutionGuard.ExecutionGuardObject.RecordHedgeSent | src/bifrost_worker/daemon/guards/execution_guard.py:146-151 | Rolls over, counts one, stamps the time; sets no date |
| ExecutionGuard.ExecutionGuardObject.SetDailyPnl | src/bifrost_worker/daemon/guards/execution_guard.py:62-66 | A loss at the limit latches the breaker and no P&L clears it |
| HedgeFlow.PlanSends | src/bifrost_worker/daemon/app/hedge_flow.py:114-141 | From a free machine a planned order of at least the minimum size is sent, filled, and leaves nothing behind |
| HedgeFlow.NeedAgreesWithIntent | src/bifrost_worker/daemon/app/hedge_flow.py:106-117 | The execution machine's need agrees with the intent that caused it in sign and size, up to the one exact exception |
| HedgeFlow.TickFromRest | src/bifrost_worker/daemon/app/hedge_flow.py:23-148 | A tick from rest ends at rest, records a hedge if and only if one is wanted and approved, takes neither skip branch, and moves every counter by one or none |
| HedgeFlow.TradingWithoutHedge | src/bifrost_worker/daemon/app/hedge_flow.py:38-76 | A tick that records nothing moves the trading state by TICK alone |
| HedgeFlow.App.Gates | src/bifrost_worker/daemon/strategy/hedge_gate.py:37-68 | The gates as code: too small never asks the guard; otherwise its verdict and its rollover |
| HedgeFlow.App.RunHedge | src/bifrost_worker/daemon/app/hedge_flow.py:97-148 | The simulated order as code has the specified effect on both machines, guard, store and metrics |
| HedgeFlow.App.Eval | src/bifrost_worker/daemon/app/hedge_flow.py:23-94 | The tick as code computes the specified state and record, and keeps the pipeline at rest |
| HedgeDecision.HedgesExactlyWhen | src/bifrost_worker/daemon/app/hedge_flow.py:23-148 | From rest a tick records exactly the hedge that one checklist over the raw inputs decides on, with its side, size, price, force and times, and none otherwise |
| HedgeDecision.CooldownHolds | src/bifrost_worker/daemon/strategy/hedge_gate.py:51-68 | What the composite state does not force is not recorded as forced and not hedged inside the cooldown |
| HedgeDecision.WalkEndsExactlyWhen | src/bifrost_worker/daemon/fsm/trading_fsm.py:22-65 | Three ticks over one snapshot lead from SYNC to MONITOR if and only if it is sound, unhalted, has options, and the configuration allows |
| HedgeDecision.WatchingSettlesWhere | src/bifrost_worker/daemon/fsm/trading_fsm.py:68-108 | The state in which a watching machine comes to rest, from the raw numbers |
| HedgeDecision.PauseSettlesWhere | src/bifrost_worker/daemon/fsm/trading_fsm.py:111-124 | The state in which a paused one does |
| HedgeLog.EveryLogIsAdmissible | src/bifrost_worker/daemon/app/hedge_flow.py:42-94 | In every run each recorded hedge is within size and position limits, an unforced one at least the cooldown after its predecessor, each price moved enough; the pipeline ends at rest |
| HedgeLog.DailyCap | src/bifrost_worker/daemon/guards/execution_guard.py:68-72 | No date carries more than the cap across rollovers, counting what was already held for it; with no date ever set the cap binds the whole run |
| HedgeLog.CountersAgree | src/bifrost_worker/daemon/app/hedge_flow.py:136-140 | Store and metrics counters both grow by exactly the number of recorded hedges |
| HedgeLog.ExecutionIsIdleBetweenTicks | src/bifrost_worker/daemon/fsm/hedge_fsm.py:39-59 | Over every run, connection changes included, the execution state reported between ticks is idle exactly while the connection is up, so hedging itself never faults the trading machine |
| HedgeLog.NoHedgeWhileLatched | src/bifrost_worker/daemon/guards/execution_guard.py:116-117 | Nothing is recorded while the breaker is latched, and nothing but a reset unlatches it |
| HedgeLog.LossEndsHedging | src/bifrost_worker/daemon/guards/execution_guard.py:62-66 | A daily loss at the limit ends hedging until an explicit reset over every run; a smaller one changes nothing |
| HedgeLog.WindowBound | src/bifrost_worker/daemon/guards/execution_guard.py:125-126 | Any window of length w holds at most floor(w / cooldown) + 1 unforced hedges, however many forced ones are mixed in |
| FaultLatch.NoHedgeBeforeTheWalk | src/bifrost_worker/daemon/fsm/trading_fsm.py:182-224 | After SAFE a hedge is recorded only behind a resume with a sound snapshot and then, strictly in turn, the steps into IDLE, ARMED and MONITOR, with no relapse |
| FaultLatch.HedgingIsADeadEnd | src/bifrost_worker/daemon/fsm/trading_fsm.py:182-207 | With the events fired between ticks no run leaves HEDGING but for SAFE, and none records a hedge |
| FaultLatch.RaiseEndsHedgingForGood | src/bifrost_worker/daemon/app/hedge_flow.py:136-148 | A report that raises after the fill leaves the hedge counted and no run after it records another |
| FaultLatch.SafeIsAbsorbing | src/bifrost_worker/daemon/app/daemon_handlers.py:55-56 | With only the events the daemon fires itself, SAFE is never left and nothing is recorded |
| AccountWriter.MemoryMirrorsTable | src/bifrost_worker/daemon/app/account_push.py:158-178 | Over every sequence of pushes the remembered fingerprints are the committed rows, and the non-empty flags are theirs |
| AccountWriter.RefinesWhereFiltersAreInvisible | src/bifrost_worker/daemon/app/account_push.py:97-103 | The two writers agree after every sequence of pushes whose filters are invisible one by one, repeated ids or not |
| AccountWriter.RefinesWriteEverything | src/bifrost_worker/daemon/app/account_push.py:97-103 | With distinct ids the change-only writer and the one that writes everything have the same table and memory after every sequence of pushes, through failures and refusals |
| AccountWriter.FilterIsInvisibleExactlyWhen | src/bifrost_worker/daemon/app/account_push.py:97-103 | A committed push and its forced form leave the same state if and only if, of each id with a changed accepted account, the last accepted one is changed |
| AccountWriter.DuplicatesBreakIt | src/bifrost_worker/daemon/app/account_push.py:97-103 | A family of pushes with one id twice that fails the condition, and the two tables it leaves |
| AccountWriter.OverlapMirrorsExactlyWhen | src/bifrost_worker/daemon/app/account_push.py:162-178 | Two overlapping calls keep the memory true always if remembered in the order of their commits, and if crossed if and only if they agree on every account both write |
| AccountWriter.OverlapBreaksMirror | src/bifrost_worker/daemon/app/account_push.py:155-178 | Two calls that both decide to write one account with different rows, crossed, leave the table unlike the memory and the account taken for unchanged |
| AccountWriter.PushMeetsSnapshot | src/bifrost_worker/daemon/app/account_push.py:137-181 | After a push that did not fail the table is the snapshot on every accepted account and untouched on refused ones; a failed push changes nothing |
| AccountWriter.RowIsTheSnapshot | src/bifrost_worker/daemon/app/account_push.py:162-178 | The row then holds the account's summary and list of positions, and the writer knows whether that list is non-empty |
| AccountWriter.OfferedExactlyWhen | src/bifrost_worker/daemon/app/account_push.py:97-155 | Who is written, from the raw account and the table: exactly the accepted accounts that are new or differ in summary or positions, and what makes one accepted |
| AccountWriter.ReportsWhatItWrote | src/bifrost_worker/daemon/app/account_push.py:179-181 | The number reported is that of the accounts written, and none unless the push commits |
| AccountWriter.FailedAccountIsRetried | src/bifrost_worker/daemon/app/account_push.py:155-172 | A failed account that still differs is among those of the next push that accepts it |
| AccountWriter.ForcedPushHeals | src/bifrost_worker/daemon/app/account_push.py:155-178 | A forced push sets the table right on every account it accepts, whatever the memory holds |
| AccountWriter.UnforcedPushIsRightExactlyWhen | src/bifrost_worker/daemon/app/account_push.py:155-172 | From any memory an unforced push leaves an accepted account's row in the table if and only if the memory took it for changed or the row was there already |
| AccountWriter.UnreportedCommitGoesStale | src/bifrost_worker/daemon/app/account_push.py:162-172 | After a commit that lands and is reported failed, going back to the last written row leaves a stale row under an unforced push and not under a forced one |
| AccountWriter.BookFlattenedExactlyWhen | src/bifrost_worker/daemon/app/account_push.py:124-178 | A committed non-empty book is emptied by a push, repeated ids or not, if and only if it commits and the last account of the id it writes has none; such an account vouches for the empty read or says null |
| AccountWriter.BookFlattenedByReadExactlyWhen | src/bifrost_worker/daemon/app/account_push.py:124-135 | With distinct ids: if and only if it commits and some account of the id vouches for the empty read or says null |
| AccountWriter.BookSurvives | src/bifrost_worker/daemon/app/account_push.py:124-178 | Without such an account it survives every sequence of pushes, repeated ids included, in the memory and in the table |
| AccountWriter.AccountTablesWriter.ChangedOnly | src/bifrost_worker/daemon/app/account_push.py:97-103 | The filter loop computes the changed accounts, in order |
| AccountWriter.AccountTablesWriter.RefuseDegraded | src/bifrost_worker/daemon/app/account_push.py:144-154 | The refusal loop computes the accepted accounts, in order |
| AccountWriter.AccountTablesWriter.Remember | src/bifrost_worker/daemon/app/account_push.py:173-178 | The loop after a commit records every written account |
| AccountWriter.AccountTablesWriter.Write | src/bifrost_worker/daemon/app/account_push.py:137-181 | The whole call computes the specified state and count, and keeps the memory mirroring the table |
| PushListener.RunLosesNothing | src/bifrost_worker/daemon/app/account_push.py:235-257 | The no-loss invariant holds through every history, errors and re-subscriptions included |
| PushListener.NoLostNotification | src/bifrost_worker/daemon/app/account_push.py:235-252 | At every moment, through errors and re-subscription, with nothing pending every received message predates the start of the latest sync; while listening every version ever announced is covered, queued or pending |
| PushListener.DueSyncHappens | src/bifrost_worker/daemon/app/account_push.py:246-252 | In every history a pass with work that reads its clock a second or more after the last sync syncs, and leaves nothing pending and everything received covered; an earlier one leaves the work pending |
| PushListener.SubscriptionCatchesUp | src/bifrost_worker/daemon/app/account_push.py:238-244 | The first sync of every subscription covers all that was ever announced before it, heard or not |
| PushListener.SyncsAreSpaced | src/bifrost_worker/daemon/app/account_push.py:243-252 | The syncs of one subscription start at least the minimum interval apart |
| PushListener.Listener.OnePass | src/bifrost_worker/daemon/app/account_push.py:246-252 | One pass as code is the specified step, and syncs if and only if there is work and the last sync is a second old |
| PushListener.Listener.Session | src/bifrost_worker/daemon/app/account_push.py:242-252 | A whole subscription as code, among any publications, loses nothing and spaces its syncs |
| DaemonFsm.DaemonFsmObject.Transition | src/bifrost_worker/daemon/fsm/daemon_fsm.py:72-93 | Moves if and only if the table allows it |
| DaemonFsm.DaemonFsmObject.RequestStop | src/bifrost_worker/daemon/fsm/daemon_fsm.py:103-114 | STOPPED from IDLE, STOPPING from any later live state, otherwise refused |
| DaemonFsm.DaemonFsmObject.ApplyRunStatus | src/bifrost_worker/daemon/app/control_heartbeat.py:107-128 | Flips RUNNING and RUNNING_SUSPENDED to match the polled status and moves nothing else |
| DaemonRun.SuspensionFollowsTheStatus | src/bifrost_worker/daemon/app/control_heartbeat.py:107-128 | Until a stop is asked for, a running daemon is suspended exactly when the status polled last said so |
| DaemonRun.RunEndsStopped | src/bifrost_worker/daemon/app/daemon_handlers.py:177-220 | Whatever the environment does, `run` ends in STOPPED |
| DaemonRun.RunIsSafe | src/bifrost_worker/daemon/app/daemon_handlers.py:184-220 | At most five handlers are dispatched, and from the first stop request on the state is never RUNNING or RUNNING_SUSPENDED |
| DaemonRun.CleanupRunsOnce | src/bifrost_worker/daemon/app/daemon_handlers.py:204-220 | `handle_stopping` runs at most once: unless the first k handlers are clear (k up to 3) and the next leaves IDLE for STOPPED or raises after a stop request; always once the background tasks exist |
| DaemonRun.RaiseAfterStopSkipsCleanup | src/bifrost_worker/daemon/app/daemon_handlers.py:204-211 | One such run: the connecting handler is asked to stop and raises |
| DaemonRun.TasksExistExactlyWhen | src/bifrost_worker/daemon/app/daemon_handlers.py:104-114 | The background tasks are created if and only if the first three handlers return with no stop asked for and the running handler returns |
| DaemonRun.SkipsExactly | src/bifrost_worker/daemon/app/daemon_handlers.py:193-211 | One turn ends in STOPPED uncleaned if and only if that condition on its state and ending holds |
| DaemonRun.Daemon.HandleCurrent | src/bifrost_worker/daemon/app/daemon_handlers.py:71-114 | A handler call as code: its nudges, the tasks it creates, the state it names |
| DaemonRun.Daemon.Turn | src/bifrost_worker/daemon/app/daemon_handlers.py:185-211 | One turn of the loop as code, its raising, refused and cancelled paths included |
| DaemonRun.Daemon.CleanUp | src/bifrost_worker/daemon/app/daemon_handlers.py:212-220 | The way out as code |
| DaemonRun.Daemon.Run | src/bifrost_worker/daemon/app/daemon_handlers.py:177-220 | The loop as code is the specified run; it ends in STOPPED after at most five dispatches, with one cleanup if there were tasks |

## Left out

- The Kubernetes Lease backend, configuration and environment resolution, signal handling and the threaded `run_with_leadership_sync`: foreign interfaces; the in-memory store specifies the Lease.
- LeaseExclusion.AtMostOneLeader: says nothing about a pod that has left its loops on a stop or a crash of its service, because the code leaves its flag set; `AtMostOneService` covers it until it returns.
- A restarted pod whose settings changed, or whose new node's clock reads earlier than the old one's last reading.
- AccountWriter.OverlapMirrorsExactlyWhen: is about two overlapping calls, not more.
- LeaseFailover.BoundedFailover: excludes writes reported failed that commit after all during the wait; each of those would itself be a takeover or a renewal and start the wait again.
- asyncio itself: tasks are interleaved steps, and cancellation of a service is a bounded unwinding time.
- HedgeFsm.HedgeFsmObject: has the calls the hedge flow makes; the other event methods are specified by `Do` and covered by the lemmas, not written out as methods.
- Hot reload of the configuration during a run, and `set_daily_hedge_count` after the start of one: the log theorems start from any count and date and keep one configuration.
- The zero-time fallback of `apply_hedge_gates` (`now_ts or time.time()`): the epoch second zero is not a reading of the clock.
- NaN and infinities in prices, deltas and spreads: numbers are real.
- AccountWriter.MemoryMirrorsTable: assumes that a failed commit is rolled back; `UnreportedCommitGoesStale` shows what happens otherwise, and `ForcedPushHeals` what mends it.
- `fresh_accounts`, the reading of the plugin snapshot and the swallowed read failure of `sync_once`: a sync that finds nothing to read counts as a sync.
- The heartbeat loop, its control commands other than stop and suspend, `sleep_until_heartbeat_or_stop`, `should_output_target` (which the hedge flow does not call), the HTTP endpoint, metrics text, status dictionaries and ticker callbacks: plumbing or easy members.
- Redis, Postgres and everything in bifrost_core are not part of this model.
