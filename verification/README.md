# A verified model of the prop-firm account engine

The engine evaluates trading accounts of an evaluation program. Events arrive one at a time: fills, broker ticks,
estimates, day rollovers, payout requests, overrides. Each event moves an account, a set of rules reports on the
account it leaves, the reports are arbitrated into one decision, and the decision may mark a target, promote the
account to its next phase or end it. Around this core stand an event log from which accounts are rebuilt, a store
that answers retried requests with their first response, a rule registry that is pruned and cached per plan, and
helpers that compute floors, drawdowns and exposure.

## How the model is built

- Values are datatypes. Money is `real`, time is `int` seconds in UTC, ids are integers. The clock, the next unused
  position id and, in `Pipelines.Step`, the reports of the rules are inputs, so a theorem about `Step` holds for every
  rule set.
- Code that assigns fields, pushes to vectors or loops is a class or a method with the same steps, tied by its
  `ensures` to a function on values: `States.AccountState`, `Engines.Pipeline`, `Registries.RuleRegistry`,
  `RegistryCaches.RegistryCache`, `EventStores.InMemoryEventStore`, `Idempotency.IdempotencyStore`, and the loops of
  `Decisions` and `Risk`. The theorems over runs are about those functions.
- A run is a sequence of inputs. `Runs.After` folds `Step` over it; a rejected input leaves the account as it was.
  The proofs go stage by stage: days caught up (`Ready`), event applied (`Transition`), fill consumed and decision
  carried out (`Conclude`).
- Every lemma carries `{:induction false}`: each induction is written out in its body.
- A lock-protected section is one atomic operation, so an interleaving of request handlers is a sequence of operations.

| file | content |
|---|---|
| `Common.dfy`, `Plan.dfy`, `Account.dfy`, `Verdict.dfy`, `Events.dfy` | values, trading-day calendar |
| `State.dfy`, `Payout.dfy`, `Pipeline.dfy`, `Engine.dfy` | transitions, payouts, the step, the step as the engine performs it |
| `Runs.dfy`, `Payments.dfy`, `Ledger.dfy`, `Liquidation.dfy`, `Funded.dfy` | theorems over runs |
| `EventStore.dfy`, `Replay.dfy`, `ReplayStatus.dfy`, `ReplayRecord.dfy` | the log, and replay against the pipeline |
| `Decision.dfy`, `Evaluators.dfy`, `Hints.dfy`, `HintTicks.dfy` | arbitration, money rules, floor hints |
| `Registry.dfy`, `RegistryCache.dfy` | registry, pruning, cache |
| `Idempotency.dfy` | the store of first responses |
| `Risk.dfy` | equity curves and exposure |

## Where the code and its comments differ

The model follows the code. Each point is a lemma named in the table.

- Among equal priorities the report seen last wins, not the first (`Decisions.TiesGoToTheLast`).
- The response store evicts by insertion; a lookup never moves a key (`Idempotency.FullStoreEvictsTheOldest`).
- The registry cache key omits three fields that pruning reads. A cached registry is right exactly when the plan it
  was built for covers the plan at hand on those fields (`RegistryCaches.CachedDecidesAlikeIff`,
  `RegistryCaches.CallDecidesAlikeIff`, `RegistryCaches.CacheMisleads`).
- Under a daily limit on the initial balance the floor hint misses the rule's breach point by the day's opening gain
  (`Hints.InitialHintIsOffByTheDayStart`, `Hints.InitialHintBracketsIff`, `Hints.InitialHintMisses`).
- In the trailing mode a tick that raises the balance peak is judged by a floor the hint does not know
  (`Hints.TotalHintBracketsIff`, `Hints.TrailingHintMisses`).
- Hints do not survive the trading day: the engine catches up days before it applies a tick, which moves the end-of-day
  floor and every daily floor (`HintTicks.EngineTotalHintIff`, `HintTicks.EngineDailyHintIff` and their failing ticks).
- The handler that issues the hints raises the peaks but not the intraday one (`Hints.HandlerForgetsTheHigh`).
- The early warning of the maximum-drawdown rule comes at 20% use of the limit under the default setting of 80%
  (`Evaluators.WarnsFromTheComplement`).
- A money-valued limit does not keep its dollar meaning in the end-of-day mode once the day-start balance has moved
  (`Evaluators.MoneyUnitKeepsItsDollars`, `Evaluators.EndOfDayMoneyDrifts`).
- Of the two consistency denominators the total is the stricter one (`Ledgers.ConsistencyOrder`).
- There is no phase after the funded one, and the branch for it is not unreachable: a funded, active account with its
  days has every input refused that would mark its target (`Runs.FundedRefusalIff`), so at or above the target a healthy
  account loses every tick (`FundedPhase.FundedTicksAtTarget`). It is never left due (`Runs.NeverStuck`).
- A promotion keeps balance and target, so the profit that passed one phase passes the next
  (`FundedPhase.SameProfitHitsAgain`). It does not make an account live: from a new account that takes two overrides
  (`Payments.NoPayoutBeforeTwoOverrides`, `Payments.SecondOverrideGoesLive`).
- A promotion forgets the day start, so days are no longer caught up until an explicit rollover
  (`Runs.UndatedUntilRollover`, `Runs.NextPromotionNeedsRollover`).
- A second terminating decision overwrites the remembered status, so one override no longer revives the account
  (`Runs.SecondTerminationDefeatsOverride`).
- With the default rules only a broker tick leads to a liquidation request: neither an emergency stop nor a fill with
  an excessive loss does (`Liquidations.OnlyBrokerTicksLiquidate`).
- Plan validation lets negative payout tiers pass, and a payout under one can lift the balance above its peak
  (`Ledgers.ApprovalPeaks`, `Ledgers.NegativeTierBreaksCover`).
- Replay loses a tick that changes the balance or its peak, a fee refund, and what a promotion resets
  (`Replays.ReplayDivergesExactly`). It also turns a mere warning of a drawdown rule into a failed account
  (`ReplayStatuses.WarningReplaysAsFailure`), counts no active trading day (`ReplayRecords.ReplayKeepsTheRecord`) and
  stamps the watermark after the payout (`ReplayRecords.WatermarkReplaysExactly`).
- An on-demand request evaluates more rules than the published list for that kind
  (`Registries.OnDemandExceedsApplicable`).

## Model

| member | source | states |
|---|---|---|
| `Runs.NoEarlyPromotion` | src/engine/pipeline.rs:185-229 | In every run from a new account a promotion comes only after at least `minTradingDays - 1` days were closed in the phase, and with exactly that many only if the current day was already counted |
| `Runs.RunDays` | src/engine/state.rs:174-191 | In every reachable account the active days are at most the day index, plus one when today is counted; the index is the number of days closed in the phase; a stored day start is a reset boundary |
| `Runs.StepDays` | src/engine/pipeline.rs:323-445 | One accepted input keeps those three facts and moves the index by exactly the days it closes, or to zero on promotion |
| `Runs.CatchUpIsExact` | src/engine/pipeline.rs:333-374 | On every reachable account that is behind, catching up ends on the event's own trading day, moves the index by the whole days between the two boundaries, leaves the money alone and books the day's profit once |
| `Pipelines.CatchUpDays` | src/engine/pipeline.rs:333-374 | The rollover loop terminates, never meets a missing day start, and equals one booking of the day plus one jump of index and boundary |
| `Pipelines.CrossingsFromBoundary` | src/config/plan.rs:633-656 | From a boundary the number of resets passed is the number of days between, and that many days lead exactly to the target |
| `Plans.TradingDayStartIsBoundary` | src/config/plan.rs:596-626 | The trading day of any time starts at a reset boundary at or before it, less than a day back |
| `Plans.NextOfBoundary` | src/config/plan.rs:633-656 | From a boundary the next one is a day later, and a boundary is the start of its own trading day |
| `Plans.NextAhead` | src/config/plan.rs:633-656 | From any time the next boundary is a boundary and strictly later |
| `Runs.PromotionsCountPhases` | src/engine/state.rs:231-248 | Over every run the phase rank rises by exactly the number of promotions, so there are at most two |
| `Runs.TargetIsSticky` | src/engine/state.rs:256-265 | Once the target time is set, every run without a promotion keeps the same value |
| `Runs.RunsKeepThePlan` | src/engine/state.rs:231-248 | Over every run the plan changes in its phase only and the account id never |
| `Runs.NeverStuck` | src/engine/pipeline.rs:185-205 | Over every run from an account that is not funded and due, such as a new one, no such account is reached: the input that would make it is refused |
| `Runs.FundedRefusalIff` | src/engine/pipeline.rs:185-205 | On a funded account an input whose event applies is refused if and only if it makes the account due |
| `Runs.FundedHitIsRefused` | src/engine/pipeline.rs:312-321 | On every funded, active account with its days and no target time, an order on which a rule reports the target hit is refused, and the same order without the report goes through |
| `FundedPhase.FundedTicksAtTarget` | src/rules/evaluators/profit_target.rs:75-142 | Under any selection of the default rules with the target rule, such an account at or above its target has an applicable tick accepted if and only if some rule reports more than a target hit |
| `FundedPhase.SameProfitHitsAgain` | src/engine/pipeline.rs:206-220 | After a promotion every applicable tick that reports a balance at or above the target is a target hit again, under any selection of the default rules with the target rule |
| `Runs.StuckStaysStuck` | src/engine/pipeline.rs:312-321 | An account supplied already funded and due rejects every input but an emergency stop: over every such run it stays the same and logs nothing |
| `Runs.RunsRemember` | src/engine/state.rs:271-307 | Over every run from a new account a status is remembered only while the account is failed or stopped |
| `Runs.UndatedUntilRollover` | src/engine/pipeline.rs:206-220 | Over every run without explicit rollovers from an account that is underway and has no day start, such as a promoted one, no day is opened again and the day index never rises |
| `Runs.NextPromotionNeedsRollover` | src/engine/pipeline.rs:206-220 | Over every run from a new account that asks for two or more trading days, after a promotion no further one comes without an explicit rollover |
| `Runs.BreachIsAbsorbing` | src/engine/pipeline.rs:164-287 | From a failed or stopped account no run without an override reaches another status |
| `Runs.EmergencyStopStops` | src/engine/state.rs:271-278 | An emergency stop succeeds on every account and ends in a breach status whatever the rules report |
| `Runs.OverrideUndoesTermination` | src/engine/state.rs:285-307 | A terminating decision followed by an override gives back the account, except for the remembered status, if and only if the account was not due for promotion |
| `Runs.SecondTerminationDefeatsOverride` | src/engine/pipeline.rs:230-240 | After a terminating decision on an already terminated account an override leaves it terminated |
| `Runs.ConclusionFrame` | src/engine/pipeline.rs:185-245 | The end of a step is the account before the promotion test, renewed for the next phase if and only if it was due, and then changed at most in status, remembered status and tick time |
| `Payments.WatermarkTelescopes` | src/payout.rs:185-259 | Over every run from any account the approved profit bases add up to the rise of the watermark, each is positive, and each is counted once |
| `Payments.CashIsBounded` | src/payout.rs:185-259 | With shares between zero and one and a fee that is not negative, all cash paid in any run is at most the rise of the watermark plus one fee refund |
| `Payments.BalanceIsConserved` | src/payout.rs:238-259 | In every run without broker ticks the balance moves by the realized result less the profit shares paid, and by nothing else |
| `Payments.ApprovalStep` | src/engine/pipeline.rs:822-862 | An approval pays on exactly the gain over the watermark, counts one payout, takes the share but not the refund from the balance and lifts the watermark to the balance before it |
| `Payments.ApprovalKeepsWatermark` | src/payout.rs:238-259 | An approval leaves the balance at or above the previous watermark if and only if the tier's share is at most one |
| `Payments.OtherStep` | src/engine/pipeline.rs:447-864 | Any other input leaves the watermark and the payout count alone and, unless it is a broker tick, keeps balance less realized result |
| `Payments.NoPayoutBeforeTwoOverrides` | src/engine/state.rs:285-307 | Over every run from a new account with at most one accepted override no payout is approved and the account is neither live nor remembers a live status |
| `Payments.SecondOverrideGoesLive` | src/engine/state.rs:285-307 | Two overrides of a funded account that was terminated twice make it live |
| `Payouts.RecordPayout` | src/payout.rs:238-259 | Field by field, a payout on a live or pending funded account yields the paid account; any other status is refused unchanged |
| `Ledgers.PeakCoversRuns` | src/engine/state.rs:45-49 | In every run from a new account whose tiers are not negative the balance peak is at least the balance and the day-start balance |
| `Ledgers.PeakCoversBeforePayouts` | src/engine/state.rs:45-49 | The same whatever the tiers, in every run with at most one accepted override |
| `Ledgers.ApprovalPeaks` | src/payout.rs:238-259 | An approval keeps that cover if and only if the balance, less the tier's share of its gain over the watermark, does not exceed the peak; so always for a share that is not negative |
| `Ledgers.NegativeTierBreaksCover` | src/config/plan.rs:476-512 | A plan that passes validation, with a tier of minus one half, on which an approved payout lifts the balance above its peak |
| `Ledgers.PeaksNeverFall` | src/engine/state.rs:64-98 | In every run without a promotion neither the balance peak nor the equity peak falls |
| `Ledgers.TrailingFloorsNeverFall` | src/rules/evaluators/max_drawdown.rs:189-246 | In every run without a promotion both trailing floors never fall and the static floor stays, for any fraction up to one |
| `Ledgers.StaticIsTheMildest` | src/rules/evaluators/max_drawdown.rs:189-246 | In every first-phase run of a validated plan whatever breaches the static floor breaches both trailing floors |
| `Ledgers.LockSpares` | src/rules/evaluators/max_drawdown.rs:199-228 | The locked end-of-day floor never exceeds the unlocked one and is lower if and only if the day opened more than one buffer above the initial balance |
| `Ledgers.BooksBalance` | src/engine/state.rs:111-131 | In every first-phase run with honestly flagged rollovers the total result is the closed days plus today, and the positive-days sum, best day, worst day and profitable-day count are those of the list of closed days |
| `Ledgers.ConsistencyOrder` | src/rules/evaluators/consistency.rs:117-176 | In every such run at a day boundary with a positive total, a warning against the positive days implies a warning against the total |
| `Evaluators.TotalIsTheStricterDenominator` | src/rules/evaluators/consistency.rs:117-176 | With positive denominators that implication holds for every cap that is not negative if and only if the total does not exceed the positive-days sum |
| `Replays.ReplayRebuildsRuns` | src/events/store.rs:64-221 | For every run that starts a new account and stays within what the log can carry, replaying the whole log succeeds with the pipeline's balance, realized result, balance peak, day index and day-start balance |
| `Replays.QuietRunsReplay` | src/events/store.rs:64-221 | In particular every run that starts a new account and has no broker tick, payout approval or promotion is rebuilt from its log |
| `Replays.ReplayDivergesExactly` | src/events/store.rs:64-221 | After any such run one more accepted input makes the replayed fields differ if and only if it is a tick that changes the balance or exceeds its peak, an approval with a fee refund, or a promotion with something to reset |
| `Replays.StepReplay` | src/engine/pipeline.rs:323-445 | From agreeing accounts, replaying the events of one accepted input never fails and agrees again if and only if the log can carry the input |
| `ReplayStatuses.StatusReplaysExactly` | src/events/store.rs:80-218 | Replaying one accepted input from the account's status gives the new status if and only if: the decision is no emergency; on a failing decision the last status-bearing violation, if any, is not a target's; otherwise there is no promotion, and the last such violation, if any, bears the account's own status, while without one a target hit is taken up and an override leads back to active |
| `ReplayStatuses.EquityReplaysExactly` | src/events/store.rs:80-120 | Replaying one accepted input from the account's equity gives the new equity if and only if the balance after a fill equals the equity before it, and an estimate equals the reported equity |
| `ReplayRecords.StartedRunsKeepStatus` | src/events/store.rs:64-221 | Every run of such inputs that starts a new account is rebuilt from its log with the pipeline's status and equity |
| `ReplayRecords.StartedRunsReplay` | src/events/store.rs:64-221 | Every run that starts a new account, whatever its inputs, leaves a log that replays without error |
| `ReplayRecords.ReplayKeepsTheRecord` | src/events/store.rs:64-221 | Over every started run, whatever its inputs, the rebuilt account has the pipeline's payout count, last payout time, refund flag and account type, and has counted no active trading day |
| `ReplayRecords.WatermarkReplaysExactly` | src/events/store.rs:199-210 | From equal balance and watermark the replayed watermark falls short of the pipeline's by exactly the cash that the input pays |
| `ReplayRecords.PeakReplaysExactly` | src/events/store.rs:106-112 | From equal equity peaks, replaying one accepted input agrees again if and only if an estimate does not exceed the peak and a promotion finds the equity at the peak the log knows |
| `ReplayStatuses.WarningReplaysAsFailure` | src/events/store.rs:165-188 | Every accepted input but an override, on an account that is not failed, whose decision ends nothing and whose last status-bearing violation is a drawdown rule's is replayed as failed, while the account is not |
| `EventStores.InMemoryEventStore.Append` | src/events/store.rs:44-48 | An event ends its own account's log and no other log changes |
| `EventStores.InMemoryEventStore.Recent` | src/events/store.rs:54-62 | The result is the suffix of the log of the requested length, or the whole log when that is shorter |
| `EventStores.InMemoryEventStore.Replay` | src/events/store.rs:64-221 | The loop is the fold of the log from a new account, with a missing or misplaced start as an error and the first refused event ending it |
| `EventStores.ReplayErrorStays` | src/events/store.rs:64-221 | Once an event is refused no later event repairs the replay |
| `EventStores.ReplayConcat` | src/events/store.rs:64-221 | Replaying two stretches of a log one after the other is replaying their concatenation |
| `Liquidations.OnlyBrokerTicksLiquidate` | src/engine/pipeline.rs:246-284 | Under any selection of the default rules an input other than a broker tick emits no liquidation request, from any account |
| `Liquidations.StepAsks` | src/engine/pipeline.rs:246-284 | An accepted input emits a liquidation request if and only if the arbitrated decision is a liquidation or an emergency |
| `Liquidations.DecisionAsks` | src/liquidation.rs:109-151 | Such a decision asks for exactly the open positions of the account and gives its reason; any other asks for nothing |
| `Registries.EstimatesNeverLiquidate` | src/rules/registry.rs:420-516 | On estimated equity any selection of the default rules, errors mapped by policy included, never decides for liquidation, and never for emergency on any equity |
| `Engines.Pipeline.Process` | src/engine/pipeline.rs:323-445 | Processing an event in place, with rule evaluation between the two halves, is the step function under the registered rules, errors included |
| `Engines.Pipeline.Prepare` | src/engine/pipeline.rs:333-374 | Days are caught up, with one event for the whole catch-up, and fills of earlier days are dropped |
| `Engines.Pipeline.Finish` | src/engine/pipeline.rs:395-445 | The fill enters the lists after the rules, then the decision is carried out, the tick stamped and the closing events follow in order |
| `Engines.ExecuteDecision` | src/engine/pipeline.rs:164-287 | The assignments in order give target mark, then promotion, then termination, with their events in that order; a failed phase change is an error |
| `Engines.Promote` | src/engine/pipeline.rs:185-229 | A due account becomes a fresh account of the next phase with both events, or an error where there is no next phase |
| `Engines.ApplyEvent` | src/engine/pipeline.rs:447-864 | Each kind of event gives the account, events or error of the transition function |
| `Engines.ApplyPayout` | src/engine/pipeline.rs:774-862 | Payout requests and approvals give those of the transition function, with every refusal as an error |
| `Engines.ApplyFill` | src/engine/pipeline.rs:398-407 | A fill replaces the position of its id, kept only while open, and joins today's trades |
| `Engines.RetainTrades` | src/engine/pipeline.rs:456-462 | Exactly the trades at or after the start remain, in order |
| `Engines.CollectClosing` | src/engine/pipeline.rs:427-438 | A failing decision adds a status event, then one event per violation in order of the reports |
| `States.AccountState.ApplyRealizedPnl` | src/engine/state.rs:37-60 | A realized result enters balance, equity, balance peak, day and total results and costs in one step, and nothing else changes |
| `States.AccountState.UpdateEquity` | src/engine/state.rs:64-77 | Reported equity is taken over and both equity peaks become their maximum with it |
| `States.AccountState.UpdateBalance` | src/engine/state.rs:92-98 | A reported balance is taken over and the balance peak becomes its maximum with it |
| `States.AccountState.FreezeDay` | src/engine/state.rs:114-179 | A day with trades is booked into extremes, positive sum, profitable, qualifying and active day counts, the last only if not already counted |
| `States.AccountState.Rollover` | src/engine/state.rs:111-203 | A rollover books the day if it had trades and opens the next from current balance and equity at the chosen boundary |
| `States.AccountState.TryUpgradePhase` | src/engine/state.rs:231-248 | A phase change succeeds if and only if it goes one phase up, and otherwise changes nothing |
| `States.AccountState.StampTargetReached` | src/engine/state.rs:256-265 | The target time is set once, and only an active account turns pending |
| `States.AccountState.TryClearBreach` | src/engine/state.rs:285-307 | An override works only on a breach status and restores the remembered one, or the fallback of the account type |
| `States.AccountState.TryMarkPayoutPending` | src/engine/state.rs:321-333 | Only a live or already pending funded account turns pending |
| `States.ValueAtQuote` | src/engine/state.rs:382-393 | The loop is the balance plus the valuation of every open position |
| `Decisions.FromReports` | src/engine/decision.rs:170-310 | Filling the lists and testing them in turn gives the decision defined by the join of the reported kinds |
| `Decisions.Select` | src/engine/decision.rs:226-310 | The chain of tests picks the kind of greatest weight, its winner and the collected violations |
| `Decisions.Collect` | src/engine/decision.rs:187-224 | Each report goes to the list of its kind, in order, and to no other |
| `Decisions.DecisionMeaning` | src/engine/decision.rs:170-310 | No report outweighs the decision, it is a pass if and only if all reports are, and otherwise some report of its kind has the winning priority and none a higher one |
| `Decisions.KindOfConcat` | src/engine/decision.rs:170-310 | The kind of two batches together is the stronger of their kinds |
| `Decisions.OrderIndependent` | src/engine/decision.rs:170-310 | Any permutation of the reports leaves kind, winning priority and the multiset of violations as they are |
| `Decisions.TiesGoToTheLast` | src/engine/decision.rs:227-232 | The winner is the last of the entries with the highest priority |
| `Decisions.JoinIsStrongest` | src/engine/decision.rs:109-121 | The decided kind is a reported one, or a pass, and no nonempty list has a greater weight |
| `Evaluators.WarnsFromTheComplement` | src/rules/evaluators/max_drawdown.rs:267-287 | Short of a breach, with a floor at or below its anchor, the rule warns early if and only if the loss has used at least one less the configured share of the limit |
| `Evaluators.MoneyUnitKeepsItsDollars` | src/rules/evaluators/max_drawdown.rs:54-92 | A money limit is the dollar distance of the floor from its anchor if and only if: outside the end-of-day mode, the limit is zero or the anchor is not; in it, while the lock holds the floor, the day opened exactly that far above the initial balance, and otherwise the limit is zero or the initial balance equals the day-start balance, or equals one when that is zero |
| `Evaluators.EndOfDayMoneyDrifts` | src/rules/evaluators/max_drawdown.rs:54-92 | A limit of 500 dollars in the end-of-day mode that is not 500 dollars on a day that opened at 11000 |
| `Hints.TotalHintBrackets` | src/api/handlers.rs:494-574 | In all four modes the next whole-cent broker tick of the same trading day liquidates if and only if it is two or more cents below the hint, or one cent below a floor that is not in whole cents; a tick that raises the balance peak of a trailing floor, if and only if it is more than a cent below the raised floor |
| `Hints.TotalHintBracketsIff` | src/api/handlers.rs:494-574 | At a reported balance no tick of the same trading day at or above the hint liquidates and every tick two cents below does, in every mode, except if and only if the trailing floor raised by that balance exceeds the hint by more than a cent |
| `HintTicks.EngineTotalHintIff` | src/engine/pipeline.rs:333-374 | For the ticks of any later time that the engine accepts, days caught up first, the hint brackets the rule in all four modes if and only if the floor they meet lies within a cent of it: in the end-of-day mode on a later day the one drawn from the account's balance, in the trailing mode the raised one, and otherwise the hint's own |
| `HintTicks.SteadyHintBrackets` | src/engine/pipeline.rs:333-374 | In the static and intraday modes always, and in the end-of-day mode while the day lasts, the hint brackets every tick that the engine accepts |
| `HintTicks.NextDayHintMisses` | src/engine/pipeline.rs:333-374 | An end-of-day account that stands at 12000 and a tick of the next day, 1500 above its hint, that liquidates |
| `HintTicks.EngineDailyHintIff` | src/rules/evaluators/daily_drawdown.rs:112-189 | For the ticks of any later time that the engine accepts, the daily hint brackets the hard rule in all three modes if and only if the floor they meet, on a later day measured from the equity it opens with, lies within a cent of it |
| `HintTicks.NextDayDailyHintMisses` | src/rules/evaluators/daily_drawdown.rs:112-189 | An account with an equity of 12000 and a tick of the next day, 1500 above its daily hint, that liquidates |
| `Hints.HandlerForgetsTheHigh` | src/api/handlers.rs:416-425 | Against the intraday high, handler and engine differ on the second of two reports if and only if the first set a new high and the second lies more than a cent below its floor but not below the old one |
| `Hints.TrailingHintMisses` | src/api/handlers.rs:494-574 | A tick of the default plan's account exactly at its hint that liquidates, because it also reports a higher balance |
| `Hints.DailyHintBrackets` | src/api/handlers.rs:494-574 | The same for the hard daily rule on the prior day and on the intraday high, on the same trading day |
| `Hints.InitialHintIsOffByTheDayStart` | src/rules/evaluators/daily_drawdown.rs:112-189 | Under a limit on the initial balance the hint and the breach point differ by day-start equity less initial balance |
| `Hints.InitialHintBracketsIff` | src/api/handlers.rs:494-574 | There, on the same trading day, the computed hint brackets the rule if and only if the day's opening gain in cents plus the fraction of a cent that the hint dropped lies above minus one and at most at one |
| `Hints.InitialHintMisses` | src/api/handlers.rs:494-574 | An account whose day opened 1000 above the initial balance and a tick 500 above its hint that liquidates |
| `Hints.CentsAgainstFloor` | src/api/handlers.rs:494-574 | A whole-cent amount lies more than a cent below a floor exactly in the cases that bracket the truncated floor |
| `Registries.RegistryIsItsHistory` | src/rules/registry.rs:323-344 | After any sequence of registrations and removals ids are distinct and each lookup gives the last registration not removed since |
| `Registries.RegisterLaws` | src/rules/registry.rs:323-332 | A registration keeps ids distinct, a replacement keeps every position, and other lookups are untouched |
| `Registries.UnregisterLaws` | src/rules/registry.rs:335-344 | A removal makes its id unknown, keeps ids distinct and leaves other lookups untouched |
| `Registries.RuleRegistry.Add` | src/rules/registry.rs:323-332 | Registering updates list and index together, and the index stays the exact inverse of the ids |
| `Registries.RuleRegistry.Remove` | src/rules/registry.rs:335-344 | Removing rebuilds the index, and it is again the exact inverse |
| `Registries.RuleRegistry.Reindex` | src/rules/registry.rs:335-344 | For distinct ids the rebuilding loop gives the exact inverse |
| `Registries.RuleRegistry.Get` | src/rules/registry.rs:383-385 | The indexed lookup is the lookup in the list |
| `Registries.RuleRegistry.Evaluate` | src/rules/registry.rs:420-502 | The loop reports exactly the enabled rules in scope, in order, with errors mapped by policy |
| `Registries.EvaluationFollowsApplicable` | src/rules/registry.rs:395-409 | For every kind but on-demand the reports are those of the enabled rules of the published list, in order |
| `Registries.OnDemandExceedsApplicable` | src/rules/registry.rs:420-502 | On demand the two agree if every enabled rule is an on-demand rule, and otherwise evaluation reports strictly more |
| `Registries.BuildRegistry` | src/rules/registry.rs:254-319 | Building registers exactly the default rules the plan keeps, in order |
| `Registries.PruningPreservesReports` | src/rules/registry.rs:254-319 | In every context of an account that carries the plan the pruned registry gives the report sequence of the full one |
| `RegistryCaches.RegistryCache.GetOrBuild` | src/registry_cache.rs:40-56 | A call without another caller between its sections: a hit hands out the stored registry object itself, a miss builds a fresh one for the plan and stores it, and every cached registry keeps a valid index and the rules it stands for |
| `RegistryCaches.RegistryCache.Insert` | src/registry_cache.rs:51-55 | An insertion after a miss replaces what the key holds by then and keeps every cached registry valid |
| `RegistryCaches.FoundWasInserted` | src/registry_cache.rs:40-56 | After any history of insertions a key is present if and only if a plan of that key was inserted, and its registry was built for one of them |
| `RegistryCaches.CachedDecidesAlikeIff` | src/registry_cache.rs:63-133 | Under equal keys the cached registry gives the plan's own reports in every context if and only if it covers the plan on the three omitted fields |
| `RegistryCaches.CallDecidesAlikeIff` | src/registry_cache.rs:40-133 | After every history of calls the returned registry gives the plan's own reports in every context if and only if the first call of the same key, or the call itself, covers the plan |
| `RegistryCaches.CacheMisleads` | src/registry_cache.rs:63-133 | After a call with the default plan, the same plan with a minimum of profitable days gets a registry that reports otherwise |
| `RegistryCaches.StoredDecidesAlikeIff` | src/registry_cache.rs:40-133 | Whatever concurrent callers stored, in any interleaving of the locked sections, a call returns a registry with the plan's own reports in every context if and only if the last stored plan of its key, if any, covers the plan |
| `RegistryCaches.CachePreservesReports` | src/registry_cache.rs:40-133 | When all stored plans of equal key cover the plan, a call returns on a hit or a miss a registry with the reports of the full default library |
| `Idempotency.RetryWindow` | src/api/idempotency.rs:267-305 | After any history and a fresh answer, and any operations within the lifetime that write fewer other keys than the capacity, a retry gets exactly the first response, another body a conflict, and neither stores anything |
| `Idempotency.RacingHandlersAgree` | src/api/handlers.rs:149-193 | Two handlers that evaluate the same request side by side send the same response, even when their evaluations differ |
| `Idempotency.StoreRepresents` | src/api/idempotency.rs:184-305 | After every operation sequence with a clock that never runs back, the order lists each stored key once, at most the capacity, oldest insertion first |
| `Idempotency.WindowCloses` | src/api/idempotency.rs:184-305 | The window is sharp and retries do not stretch it: after any history, once at least the capacity of new keys were written and a given one was not, however often it was looked up or retried meanwhile, its next request is answered as fresh |
| `Idempotency.FullStoreEvictsTheOldest` | src/api/idempotency.rs:238-264 | A new key in a full store evicts exactly the oldest key and keeps all others |
| `Idempotency.TenantsNeverShare` | src/api/idempotency.rs:309-314 | With tenants and endpoints free of NUL, composite keys are equal if and only if tenant, endpoint and key are |
| `Idempotency.UnscopedKeysMeet` | src/api/idempotency.rs:309-314 | A request without a tenant shares the key of a tenant's request whenever its endpoint is the tenant and its key part is that endpoint, NUL and key: unscoped keys are not isolated |
| `Idempotency.IdempotencyStore.Prune` | src/api/idempotency.rs:184-196 | Pruning drops exactly the expired keys from map and order |
| `Idempotency.IdempotencyStore.Insert` | src/api/idempotency.rs:249-262 | Inserting puts the key last, writes its entry and evicts from the front down to the capacity |
| `Idempotency.IdempotencyStore.Check` | src/api/idempotency.rs:215-236 | A check prunes and answers without storing |
| `Idempotency.IdempotencyStore.Remember` | src/api/idempotency.rs:238-264 | Remembering writes without pruning or looking |
| `Idempotency.IdempotencyStore.CheckAndRemember` | src/api/idempotency.rs:267-305 | The combined operation answers like a check and writes only when the answer is fresh |
| `Risk.MaxDrawdown` | src/risk/drawdown.rs:7-20 | The result bounds every drop from a value to a later one, is measured from the running peak, and on a nonempty curve without negative values is such a drop |
| `Risk.MaxDrawdownDuration` | src/risk/drawdown.rs:24-49 | The result is the longest gap of at least two samples between a positive record and the next record or the end, or zero; the index never underflows |
| `Risk.ComputeExposure` | src/risk/exposure.rs:25-69 | The accumulating loop is the fold of the counted positions |
| `Risk.ConcentrationLaws` | src/risk/exposure.rs:25-69 | What is held per symbol is the notional of that symbol's open quoted positions, and adds up to the gross |
| `Risk.SideLaws` | src/risk/exposure.rs:25-69 | Gross and net are the sum and the difference of the two sides, and the net volume is long less short |
| `Risk.NetWithinGross` | src/risk/exposure.rs:25-69 | With mid prices that are not negative the net lies within the gross on both sides |

## Left out

- HTTP routing, middleware, serialization, metrics, notifier and the command line: input and output around the engine.
- Notifier errors, the rule context's recent events, pending order and instrument data, and the actor of a liquidation: no rule modelled in detail reads them.
- Hash functions and random ids: a body hash is a given string, the plan key is the tuple of hashed fields (an injective hash), a new position id is an input.
- The clock: one `now` per step, although the engine reads it several times within one.
- Time zones other than UTC and daylight saving: they rest on a calendar library.
- Decimal rounding and overflow, 32-bit and 64-bit widths of counters (only the cent conversion of the hints models its range), and saturation of the payout count.
- Sharpe, Sortino, value at risk and the other statistics of `src/risk/metrics.rs`: library square roots and exponentials.
- The rules outside drawdown, per-trade loss, consistency and profit target: each is its enabling condition and the range of its verdicts; the theorems hold for every behaviour within it.
- Violation texts and timestamps, and the display notional of a liquidation.
- Rule packs: parameters of a rule are modelled, building a registry from a pack is not.
- The target part of the floor hints, and the snapshot helpers of `src/core/account.rs` (limits and utilizations) and `top_symbol`: they feed no decision.
- Replays.ReplayRebuildsRuns: the agreement is on the five money and day fields. The other fields have exact conditions of their own in `ReplayStatuses` and `ReplayRecords`; the position list, day tallies and target time, which replay does not rebuild, are not compared.
- RegistryCaches.RegistryCache.GetOrBuild: the contract is for a call without another caller between its two locked sections; interleavings are covered through `RegistryCaches.RegistryCache.Insert` and `RegistryCaches.StoredDecidesAlikeIff`.
