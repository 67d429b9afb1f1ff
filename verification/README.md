# Verification of the portfolio replay core

This Dafny project models the parts of the trading repository in which a wrong step is hard to see in a
test: the adaptive drawdown breaker and its daily clock, the replay of a position's protections, the
incremental cash ledger, the fills that open a position, and four small ordering and arithmetic cores.
Run `dafny verify dfyconfig.toml`.

Code that updates fields in place is a class here, and each of its methods is proved against a function
on values (`Session`, `Evaluated`, `BeginDay`, `CloseResolved`, `RecordFill`, ...). What the repository
promises is then proved about those functions, for every input and over every run.

| files | what they hold |
|---|---|
| `AdaptiveBreaker`, `BreakerRuns` | one drawdown episode under the policies b0 to b4a; what whole runs of sessions keep |
| `ProductionRisk`, `RiskClockRuns`, `ForceClose` | the daily risk controller, its accepted call sequences, the choice of positions to close |
| `Microstructure`, `ProtectionReplay`, `ReplayMeaning`, `IncrementalReplay`, `OpeningReplay`, `ObservedProtections` | intrabar resolution, watcher and exit scan, what they mean in prices, the daily re-run on masked history, the opening phase, all positions of the ledger together |
| `OrderBook` | the order rows the watcher, the exits and the end of the window rewrite |
| `Ledger`, `LedgerRuns`, `SettlementLeak`, `StrandedCash` | cash, positions, settlement and interest; what runs conserve; a run that does not reconcile, a run whose sale never settles |
| `Fills` | retry chains that fill an order, and their aggregation per intent |
| `PortfolioSession` | decisions and the exactly-once log of fills |
| `ShareSelection`, `AvailableAt`, `BrinsonFachler` | point-in-time share counts, next-close resolution, sector attribution |

Money, prices and fractions are reals. Share quantities of fills are whole numbers of 1e-9 shares, the
precision at which the code normalises them. Trading days are indices into a calendar. What the engine
works out from prices, budgets and cost models (is the order accepted, for how much, at which rates)
enters the ledger as the `answer` of a row.

## Where the code and its descriptions differ

- One production session is trip or recover, then allocate (also outside an episode), then update the
  streak if an episode is open: `risk_management/circuit_breaker.py:126-154` and `:196-207`, called in
  that order at `backtesting/production_risk_replay.py:71-74`. So the streak an allocation sees is the
  one of the previous sessions, and re-arming through the streak takes three favourable sessions before
  the favourable session that re-arms (`BreakerRuns.RearmThroughStreak`).
- `b2_allocation` is described as never re-arming on the regime alone. The code gives 25% in a favourable
  regime with nothing recovered (`AdaptiveBreaker.SpeedLadders`).
- The breaker's money tolerance makes some promises depend on the size of the episode. Each has its exact
  condition: `BreakerRuns.TripDayFloor` (a B4 episode starts at 10%), `BreakerRuns.ClosureAfterTripIff` (no
  closure on the session after the trip), `BreakerRuns.BoundedRelease` (release at the next session) and
  `BreakerRuns.RearmedAboveBoundary` (above the relapse line while re-armed). Episodes of a few microdollars
  that break them are `BreakerRuns.TinyEpisodeClosesNextDay`, `BreakerRuns.TinyReleaseFails` and
  `BreakerRuns.TinyTripKeepsMemory`.
- Settlement floors unsettled cash at zero (`backtesting/simulator.py:1443`), so a settlement larger than
  the unsettled cash creates cash. The reconciliation error of a flat ledger is exactly the sum of what
  was created so (`LedgerRuns.ReconciliationErrorIsLeak`), which is zero if and only if no accepted session
  settled more than was unsettled (`LedgerRuns.LeakedIff`). No leg charged at most its notional leads there
  (`LedgerRuns.NoLeakBelowFullFees`; fixed fees are zero in every preset the engine resolves,
  `backtesting/trading_constraints.py:115-129`). `SettlementLeak.LeakingRun` ends one dollar off: its stress
  configuration forces `cost_round_trip_bps` to 40000, so each leg costs twice its notional
  (`backtesting/simulator.py:563-565` and `:2460-2462`).
- A settlement delay of zero days is accepted (`backtesting/trading_constraints.py:31-34`), but the settlement
  of a day is released before its exits, so their proceeds never settle: `LedgerRuns.ZeroDelayNeverSettles`,
  and `StrandedCash.SaleNeverSettles` for a run. With any other delay they settle on time
  (`LedgerRuns.SettledExactlyWhenDue`).
- A canceled order row can become filled. `OrderBook.TerminalRewrittenIff` says which row,
  `OrderBook.CanceledThenFilledIff` gives the exact condition on the protection and the bars, and
  `OrderBook.CanceledThenFilled` is a replay that does so.
- With `swing_only` on, the opening phase and the intraday scan can disagree
  (`OpeningReplay.SwingOnlyBreaksAgreement`): `OpeningReplay.OpeningAgreesIff` gives exactly when they agree,
  and they do whenever the entry day does not set the running extreme (`OpeningReplay.OpeningAgreesWithScan`).

## Model

| member | source | states |
|---|---|---|
| AdaptiveBreaker.OneMicrodollar | backtesting/adaptive_breaker.py:60-73 | the money comparisons forgive one microdollar and no more |
| AdaptiveBreaker.RecoveredShares | backtesting/adaptive_breaker.py:76-80 | a quarter, half or nine tenths of the loss is back exactly at that line above the trough, to one microdollar |
| AdaptiveBreaker.RatioIsShare | backtesting/adaptive_breaker.py:96-104 | the recovery ratio is the recovered share of the loss, 0 at the trough and 1 at the peak |
| AdaptiveBreaker.RelapseIff | backtesting/adaptive_breaker.py:246-258 | exactly when a re-armed episode relapses, in dollars |
| AdaptiveBreaker.B4Ladder | backtesting/adaptive_breaker.py:193-236 | the documented allocation ladder of B4/B4a, decided by relapse, regime, recovered half or quarter and streak |
| AdaptiveBreaker.TierHoldsRatio | backtesting/adaptive_breaker.py:107-113 | the scan over the tiers selects the one whose interval holds the recovery ratio |
| AdaptiveBreaker.RecoveryLadders | backtesting/adaptive_breaker.py:117-183 | B1 and B3 never allocate less for more equity; defensive B3 is B1 and favourable B3 is never below; exactly when each reaches 100% |
| AdaptiveBreaker.RecoveryTable | backtesting/adaptive_breaker.py:117-183 | the whole tables of B1 and of favourable and defensive B3 |
| AdaptiveBreaker.SpeedLadders | backtesting/adaptive_breaker.py:133-165 | the allocations of B2 and of favourable B0 for every streak, and where B2 starts |
| AdaptiveBreaker.TiersFromRatio | backtesting/adaptive_breaker.py:107-113 | the loop over the tiers ends on the last reached one |
| AdaptiveBreaker.BreakerEpisode.constructor | backtesting/adaptive_breaker.py:84-93 | a fresh episode is untripped with full allocation and no memory |
| AdaptiveBreaker.BreakerEpisode.CheckRelapseOf | backtesting/adaptive_breaker.py:246-262 | the whole episode after a relapse check |
| AdaptiveBreaker.BreakerEpisode.AllocateB4 | backtesting/adaptive_breaker.py:186-236 | the returned fraction and the re-arming memory left behind |
| AdaptiveBreaker.BreakerEpisode.AllocateFor | backtesting/adaptive_breaker.py:265-281 | allocation and episode of every policy |
| AdaptiveBreaker.BreakerEpisode.TripOrRecoverAt | backtesting/adaptive_breaker.py:284-330 | the whole episode after trip, trough tracking, relapse and closure |
| AdaptiveBreaker.BreakerEpisode.UpdateStreakWith | backtesting/adaptive_breaker.py:333-339 | the streak grows by one up to three or falls to zero, nothing else moves |
| AdaptiveBreaker.CircuitBreaker.Update | risk_management/circuit_breaker.py:126-154 | one adaptive update: trip or recover, then the day's allocation is stored |
| AdaptiveBreaker.CircuitBreaker.UpdateRegimeStreak | risk_management/circuit_breaker.py:196-207 | the streak moves only inside an episode |
| AdaptiveBreaker.CircuitBreaker.Scale | risk_management/circuit_breaker.py:183-185 | the entry scale is one outside an episode and the stored allocation inside |
| BreakerRuns.LockstepRun | backtesting/adaptive_breaker.py:186-330 | on any ticks, B4 and B4a agree forever on everything but the allocation, B4a never allocates less, and both reach 100% and close together |
| BreakerRuns.AlwaysQuiet | backtesting/adaptive_breaker.py:213-216 | in every run a relapse never outlives its session, the streak stays within 0 and 3 and is 0 outside an episode |
| BreakerRuns.TripIff | backtesting/adaptive_breaker.py:296-308 | a session trips exactly when the loss from the rolling peak reaches the trip fraction of it (less the tolerance for B4) |
| BreakerRuns.TripDayFloor | backtesting/adaptive_breaker.py:213-236 | a B4 episode starts at the 10% floor exactly when the regime is unfavourable or a quarter of the loss exceeds the tolerance |
| BreakerRuns.TripDayFloorWhenMaterial | backtesting/adaptive_breaker.py:213-236 | a trip distance of five tolerances always starts at the floor |
| BreakerRuns.TroughTracksMinimum | backtesting/adaptive_breaker.py:304-313 | the peak stays the trip's; the trough is an observed equity and the exact minimum (b0 to b3) or within one tolerance above it however many declines add up (b4) |
| BreakerRuns.RearmedIffAboveFloor | backtesting/adaptive_breaker.py:231-236 | after any B4 session, allocation exceeds 10% exactly when a re-arming start is remembered |
| BreakerRuns.TripMemory | backtesting/adaptive_breaker.py:231-236 | the re-arming memory a trip session leaves, given the one it found |
| BreakerRuns.RearmedAboveBoundary | backtesting/adaptive_breaker.py:253-262 | while re-armed, equity is strictly above peak times (1 - start - 3 points), except exactly on a trip session that keeps an older memory it stands below; by more than the tolerance once three points exceed it |
| BreakerRuns.RearmedAboveBoundaryWhenMaterial | backtesting/adaptive_breaker.py:253-262 | on every re-armed session of an open episode equity is strictly above the line; a trip session worth five tolerances is never re-armed |
| BreakerRuns.TinyTripKeepsMemory | backtesting/adaptive_breaker.py:231-236 | such a trip session |
| BreakerRuns.PeakOfOpenEpisode | backtesting/adaptive_breaker.py:306 | the frozen peak of an open episode is one an earlier tick carried |
| BreakerRuns.RelapseEffect | backtesting/adaptive_breaker.py:246-262 | a relapse in any run leaves exactly 10%, a streak of at most one, the episode open and its peak unmoved |
| BreakerRuns.StreakCertifies | backtesting/adaptive_breaker.py:333-339 | a streak of n certifies n favourable sessions of the same episode with no relapse after the first |
| BreakerRuns.CertifiedCounts | backtesting/adaptive_breaker.py:333-339 | conversely, up to three such sessions are all in the streak |
| BreakerRuns.CountedSession | backtesting/adaptive_breaker.py:333-339 | a favourable session that neither relapses nor closes adds one to the streak, up to three |
| BreakerRuns.RearmedIff | backtesting/adaptive_breaker.py:213-236 | a B4 session allocates more than 10% exactly when it is favourable, does not relapse, and has a quarter of the loss back or three certified sessions behind it |
| BreakerRuns.ThreeFavourableSessionsRearm | backtesting/adaptive_breaker.py:219-226 | after three favourable sessions in a row, a further one allocates at least 50% (75% under B4a) on BULL and 25% on REBOUND |
| BreakerRuns.RearmThroughStreak | backtesting/adaptive_breaker.py:219-236 | without a quarter of the loss back, more than 10% takes three such sessions before a fourth favourable one |
| BreakerRuns.ReboundCap | backtesting/adaptive_breaker.py:219-223 | a REBOUND session inside an episode never allocates more than 50% |
| BreakerRuns.FullAllocationIff | backtesting/adaptive_breaker.py:224-236 | 100% exactly after a BULL session without relapse and with half the loss back |
| BreakerRuns.ClosureIff | backtesting/adaptive_breaker.py:310-326 | a B4 episode closes at a session exactly when the one before was a full BULL re-arming and this one holds 90% of the loss without relapse |
| BreakerRuns.ClosureAfterTripIff | backtesting/adaptive_breaker.py:318-326 | exactly when the session after the trip already closes: a BULL trip day worth at most two tolerances |
| BreakerRuns.TinyEpisodeClosesNextDay | backtesting/adaptive_breaker.py:213-326 | an episode of 1.5 microdollars that starts at 100% and closes at the next session |
| BreakerRuns.ClosureTakesTwoSessions | backtesting/adaptive_breaker.py:318-326 | no episode closes sooner than two sessions after a trip worth more than that |
| BreakerRuns.RecoveryClosureIff | backtesting/adaptive_breaker.py:318-326 | exactly when B1 and B3 close: full allocation the session before and 90% back today |
| BreakerRuns.SpeedClosureIff | backtesting/adaptive_breaker.py:327-330 | B0 and B2 close exactly when equity is back to the recovery share of the peak |
| BreakerRuns.ClosureStartsOver | backtesting/adaptive_breaker.py:321-330 | what a closing session leaves: no streak, no relapse, an entry scale of one, no memory older than the day |
| BreakerRuns.EntryScale | risk_management/circuit_breaker.py:183-185 | entries are scaled by the allocation inside an episode and not at all outside |
| BreakerRuns.B0StaysDegraded | risk_management/circuit_breaker.py:196-207 | b0 through the adaptive session never counts a streak and stays degraded |
| BreakerRuns.BoundedRelease | backtesting/adaptive_breaker.py:224-326 | after a BULL session with 90% of the loss back and no relapse, if equity does not fall, the episode closes at the next session in any regime exactly when equity clears the relapse line by the tolerance, which it does once three points exceed it |
| BreakerRuns.TinyReleaseFails | backtesting/adaptive_breaker.py:253-326 | an episode of six microdollars that relapses at an unchanged equity instead of closing |
| BreakerRuns.ResidualAtClosure | backtesting/adaptive_breaker.py:318-330 | every closing session stands at or above the closure line of its policy |
| BreakerRuns.NoChattering | backtesting/adaptive_breaker.py:284-330 | after a closure, with no higher rolling peak and no lower equity, the next session does not trip, for every policy |
| BreakerRuns.ProductionLinesApart | backtesting/adaptive_breaker.py:284-330 | with the 15% trip and 92% recovery the closure line is above the trip line exactly for peaks above forty tolerances (any peak without tolerance) |
| ProductionRisk.MaxOf | backtesting/production_risk_replay.py:64 | a maximum of a window: a member not below any other |
| ProductionRisk.TrimKeepsLast | backtesting/production_risk_replay.py:55 | the deque keeps everything up to its window, then exactly the last window values |
| ProductionRisk.ProductionRiskController.constructor | backtesting/production_risk_replay.py:45-58 | a fresh clock whose window holds the initial equity |
| ProductionRisk.ProductionRiskController.DriveBreaker | backtesting/production_risk_replay.py:69-75 | the calls of one evaluation amount to exactly one breaker session |
| ProductionRisk.DrawdownPct | backtesting/production_risk_replay.py:79 | a non-negative percentage of the reference peak |
| ProductionRisk.DailyLossIff | risk_management/circuit_breaker.py:378-398 | the daily-loss status is on exactly when the loss since the previous close reaches its fraction of equity |
| ProductionRisk.ProductionRiskController.Evaluate | backtesting/production_risk_replay.py:60-83 | refusals and their order, the tick handed over, and the whole report |
| ProductionRisk.ProductionRiskController.Finish | backtesting/production_risk_replay.py:85-89 | only a well-placed close feeds the window; the episode is untouched |
| RiskClockRuns.AcceptedIffWellOrdered | backtesting/production_risk_replay.py:45-89 | a call sequence is accepted exactly when evaluations and closes alternate on increasing days with positive equity; the deque then holds the last window closes |
| RiskClockRuns.RefusalReason | backtesting/production_risk_replay.py:61-87 | for each call after accepted ones, which error refuses it, in order, or that it is accepted |
| RiskClockRuns.ReferencePeakIsMaximum | backtesting/production_risk_replay.py:55-64 | the reference peak is the maximum of the remembered closes and of the evaluated equity |
| RiskClockRuns.BreakerSeesObservedTicks | backtesting/production_risk_replay.py:63-71 | every tick handed over has a positive equity not above its peak |
| RiskClockRuns.StepFollows | backtesting/production_risk_replay.py:60-89 | an accepted call keeps clock and episode those of the accepted calls, the episode being the breaker run of the evaluations' ticks |
| RiskClockRuns.Take | backtesting/production_risk_replay.py:60-89 | a call on a real controller succeeds exactly when the clock accepts it, and a refused call changes neither clock nor episode |
| RiskClockRuns.RunController | backtesting/production_risk_replay.py:45-89 | a fresh controller taken through any calls stops at the first refusal, and until then its episode is the breaker run of the ticks handed over, so the run theorems apply to it |
| RiskClockRuns.RefusalEndsTheRun | backtesting/production_risk_replay.py:61-63 | a refused evaluation hands over no tick, and nothing after it does |
| ForceClose.CloseCount | backtesting/production_risk_replay.py:32 | between one and all positions, the fraction rounded half up |
| ForceClose.ProfitBySide | backtesting/production_risk_replay.py:31 | a long gains with a rising mark, a short with a falling one |
| ForceClose.SortedUpTo | backtesting/production_risk_replay.py:31 | a permutation of the held positions by increasing unrealised profit, ties in held order |
| ForceClose.PlaceIsRank | backtesting/production_risk_replay.py:31 | a position's place is the number of positions worse than it |
| ForceClose.SelectionIsWorst | backtesting/production_risk_replay.py:23-33 | the selection is exactly the n positions with fewer than n worse ones, each at its rank |
| ForceClose.SelectedBeforeSpared | backtesting/production_risk_replay.py:31-33 | every selected position has a smaller profit than every spared one, or the same and is held earlier |
| Microstructure.ResolutionMeaning | backtesting/microstructure.py:199-241 | which protection wins a bar and at which level, from what the bar touched |
| Microstructure.LongBar | backtesting/microstructure.py:199-241 | the whole resolution of a long bar in prices, priority by priority |
| Microstructure.ShortBar | backtesting/microstructure.py:199-241 | the whole resolution of a short bar in prices, priority by priority |
| Microstructure.DisabledLevels | backtesting/microstructure.py:199-241 | a switched-off take-profit or trailing stop never exits, nor moves the initial stop's price |
| Microstructure.ShortMirrorsLong | backtesting/microstructure.py:199-241 | a short resolves exactly as a long with every price negated |
| ProtectionReplay.FindTriggerDate | backtesting/protection_watcher_replay.py:30-56 | the first day on or after the entry that triggers, or none when no day does |
| ProtectionReplay.RunWatcher | backtesting/protection_watcher_replay.py:95-138 | the watcher state and its trigger and effective days |
| ProtectionReplay.RunScan | backtesting/exit_lifecycle_replay.py:96-164 | the loop with running extremes returns the first resolving day of the specification |
| ProtectionReplay.ExitMatchesProtection | backtesting/exit_lifecycle_replay.py:121-164 | an exit lies inside the scanned days and its reason and price match the protection in force |
| ProtectionReplay.HandOff | backtesting/exit_lifecycle_replay.py:131-152 | trailing exits on or after the transition day, initial-stop exits before it |
| ProtectionReplay.InitialStopExitIff | backtesting/exit_lifecycle_replay.py:112-164 | a position exits on its initial stop exactly when a scanned day touches it with no trailing stop in force, before any touched it or the take-profit |
| ReplayMeaning.WatcherMeaning | backtesting/protection_watcher_replay.py:95-138 | each watcher state in prices: the first session reaching the activation, effective the session after |
| ReplayMeaning.DayIff | backtesting/exit_lifecycle_replay.py:131-164 | a scanned bar exits exactly when it touches the stop of the day or the enabled take-profit, for the reason and price stated in prices |
| ReplayMeaning.ReplayMeaning | backtesting/exit_lifecycle_replay.py:96-164 | the whole replay: it ends on the first scanned bar touching the stop in force (the trailing percentage off the best earlier price, or the initial stop) or the take-profit, at that price, and otherwise not |
| ReplayMeaning.ConservativeProfit | backtesting/microstructure.py:240-241 | under the conservative priority a take-profit exit never touched the stop that day |
| IncrementalReplay.TriggerOnFrame | backtesting/oracle_portfolio_ledger.py:202-211 | the watcher finds on a masked frame exactly the triggers before the hidden days |
| IncrementalReplay.IncrementalEqualsBatch | backtesting/oracle_portfolio_ledger.py:202-249 | on the frame of a day, an exit is reported exactly when the full history exits by that day, with the same day, price and reason |
| IncrementalReplay.ObserveIntraday | backtesting/oracle_portfolio_ledger.py:202-246 | one position's intraday observation from the masked frame reaches the verdict of the full history |
| IncrementalReplay.TradableIff | backtesting/oracle_portfolio_ledger.py:231-234 | an observed bar is usable exactly when both prices are present and positive |
| IncrementalReplay.DailyReplay | backtesting/oracle_portfolio_ledger.py:198-246 | observing every day and stopping at the first exit is the batch replay; only an unusable bar stops it |
| OpeningReplay.ExtremeIsBest | backtesting/oracle_portfolio_ledger.py:218-220 | the running extreme is the best observed price or the fill |
| OpeningReplay.TrailingNeverLoosens | backtesting/exit_lifecycle_replay.py:136-151 | a trailing stop only tightens from day to day |
| OpeningReplay.ExitPricePositive | backtesting/simulator.py:922-936 | booked protections on usable bars always exit at a positive price |
| OpeningReplay.ObserveOpening | backtesting/oracle_portfolio_ledger.py:207-229 | the opening comparison computed from the masked frame and the best prior price |
| OpeningReplay.OpeningMeaning | backtesting/oracle_portfolio_ledger.py:218-229 | the opening phase in prices: exactly when it fires; a stop gap fills at the open, a take-profit gap at the take-profit |
| OpeningReplay.ScanResolvesDay | backtesting/exit_lifecycle_replay.py:112-164 | a position still held has exactly that bar resolved by the scan, with the protection the opening phase sees |
| OpeningReplay.OpeningAgreesIff | backtesting/oracle_portfolio_ledger.py:213-246 | when the opening phase fires, with or without swing_only, the scan exits that day exactly when it looks at it and the initial stop is in force, or its own trailing level or the take-profit is touched |
| OpeningReplay.ExtremeWithoutEntryDay | backtesting/exit_lifecycle_replay.py:112-119 | skipping the entry day keeps the running extreme when that day does not set it |
| OpeningReplay.OpeningAgreesWithScan | backtesting/oracle_portfolio_ledger.py:213-229 | with swing_only off, or an entry day that does not set the extreme, a position closed at the open exits in that day's scan; a gapped stop is the scan's level and is never filled better than it |
| OpeningReplay.SwingOnlyBreaksAgreement | backtesting/exit_lifecycle_replay.py:112-114 | with swing_only on, a history on which the opening phase exits and the scan never does |
| ObservedProtections.ProtectedPositions.CloseByCaller | backtesting/oracle_portfolio_ledger.py:305-323 | the positions closed in full leave, the others keep their order |
| ObservedProtections.ProtectedPositions.Opening | backtesting/oracle_portfolio_ledger.py:197-229 | the opening loop collects the gap exits in order and leaves the other positions |
| ObservedProtections.ProtectedPositions.Enter | backtesting/oracle_portfolio_ledger.py:131-153 | entries follow in order up to the first symbol already held |
| ObservedProtections.EnteredIff | backtesting/oracle_portfolio_ledger.py:133-134 | entries are all accepted exactly when none repeats a held or entered symbol |
| ObservedProtections.ProtectedPositions.Intraday | backtesting/oracle_portfolio_ledger.py:197-250 | the loop over positions collects the exits of the day; one failed observation closes nothing |
| ObservedProtections.HeldIff | backtesting/oracle_portfolio_ledger.py:183-250 | observing both phases of every accepted session, what is held is exactly what entered, was not closed by the caller and has no batch exit yet |
| ObservedProtections.GapsIff | backtesting/oracle_portfolio_ledger.py:213-229 | the opening exits of a session are exactly those of the positions still protected, each on its batch exit day |
| ObservedProtections.LeavesOnBatchDay | backtesting/oracle_portfolio_ledger.py:183-250 | each position leaves on exactly its batch exit day, in one of the two phases and never in both |
| ObservedProtections.InsideOpensAgree | backtesting/oracle_portfolio_ledger.py:213-229 | with swing_only off, opening prices inside their bars satisfy what these theorems ask of the opens |
| ObservedProtections.ExitsIff | backtesting/oracle_portfolio_ledger.py:230-250 | the intraday exits of a session are exactly that day's batch exits, price and reason included, of the positions the opening phase left |
| ObservedProtections.ObservationFailsIff | backtesting/oracle_portfolio_ledger.py:231-241 | a session fails exactly on an unusable bar of an open position, never on an exit missed earlier |
| ObservedProtections.HeldOneEach | backtesting/oracle_portfolio_ledger.py:133-134 | no symbol is ever held twice |
| ObservedProtections.ObservedExitsAreBookable | backtesting/oracle_portfolio_ledger.py:242-282 | the intraday exits pass the guard of the ledger's close |
| ObservedProtections.OpeningExitsAreBookable | backtesting/oracle_portfolio_ledger.py:223-282 | so do the exits of the opening phase, at positive opening prices |
| OrderBook.LifecycleFrame.ReplayWatcher | backtesting/protection_watcher_replay.py:138-185 | the pass rewrites the frame as specified, signal after signal |
| OrderBook.LifecycleFrame.CancelSibling | backtesting/exit_lifecycle_replay.py:234-257 | a sibling is canceled only if present and not terminal |
| OrderBook.LifecycleFrame.ReplayExits | backtesting/exit_lifecycle_replay.py:187-311 | fill, sibling cancellation and end-of-window expiry rewrite the frame as specified |
| OrderBook.AfterWatcher | backtesting/protection_watcher_replay.py:138-185 | after the watcher, a transitioned group has its initial stop canceled and its trailing stop working, everything else as emitted |
| OrderBook.ExpiryByStatus | backtesting/exit_lifecycle_replay.py:293-311 | status by status, what the end of the window expires and keeps |
| OrderBook.ChildEndsInOutcome | backtesting/exit_lifecycle_replay.py:187-311 | every child ends in the outcome of its own group: none open, at most the exit's child filled, siblings of an exit canceled |
| OrderBook.UnrelatedRowsKept | backtesting/exit_lifecycle_replay.py:293-311 | a row outside every group changes only if it is an open child at the end of the window |
| OrderBook.TerminalRewrittenIff | backtesting/exit_lifecycle_replay.py:187-206 | of all rows, only the initial stop of a transitioned group that exits on it is terminal and then rewritten |
| OrderBook.CanceledThenFilledIff | backtesting/exit_lifecycle_replay.py:112-206 | that initial stop is canceled and then filled exactly when, on the bars, the activation is reached with a session to spare and a scanned day without trailing stop in force touches it before any touched it or the take-profit |
| OrderBook.CanceledThenFilled | backtesting/exit_lifecycle_replay.py:187-206 | a three-day replay whose initial stop is canceled by the watcher and then filled |
| OrderBook.FilledChildMatchesHandOff | backtesting/exit_lifecycle_replay.py:131-206 | a filled trailing child belongs to a transitioned group on or after its effective day, a filled initial stop of one to an earlier day |
| Fills.PlanFillsTarget | backtesting/execution_replay.py:130-313 | every target the code accepts gets a plan whose fills sum to it, numbered, chained, time-ordered, only the last attempt leaving nothing |
| Fills.PlanTimeline | backtesting/execution_replay.py:137-313 | one, two or four attempts by order size, with their statuses and times |
| Fills.FirstFillBounds | backtesting/execution_replay.py:171-177 | the first fill is sixty percent to within one unit, at least a share, and leaves something |
| Fills.FillsFromAttempts | backtesting/execution_replay.py:316-348 | the loop keeps exactly the attempts that filled, in order |
| Fills.FillsTimeline | backtesting/execution_replay.py:316-348 | the fills of a plan, with their quantities and times |
| Fills.AggregateByIntent | backtesting/execution_lifecycle_replay.py:40-59 | the bucket map is the fold of each intent's own fills, for every intent |
| Fills.AggregationIsFaithful | backtesting/execution_lifecycle_replay.py:40-59 | a bucket exists exactly for filled intents, totals their fills and carries the latest timestamp |
| Fills.AverageBetween | backtesting/execution_lifecycle_replay.py:56-58 | the average price lies between any bounds on the intent's fill prices |
| Fills.AverageIsWeighted | backtesting/execution_lifecycle_replay.py:51-58 | the average price times the quantity is the value of the fills |
| Fills.FillsConserveTargets | backtesting/execution_replay.py:458-471 | from targets to aggregates: each intent ends with exactly its target at exactly its price |
| Fills.ChildIntentsByParent | backtesting/execution_lifecycle_replay.py:30-37 | each parent maps to exactly its children in order; no entry for an empty parent or a childless one |
| Ledger.RoundTripProfit | backtesting/simulator.py:2013-2035 | the booked position and its cash flow for either side, and the recorded profit: price gain less both legs' costs and the borrow |
| Ledger.InterestOnDebit | backtesting/simulator.py:2575-2595 | interest is owed exactly on a debit, at the annual rate over 252 sessions |
| Ledger.EntryGuardIff | backtesting/oracle_portfolio_ledger.py:107-113 | entries pass exactly when all were decided on the previous session, on the ledger's side |
| Ledger.EntriesAcceptedIff | backtesting/oracle_portfolio_ledger.py:103-149 | entries are accepted exactly in the opening phase, decided on the previous session, on the ledger's side, each finding its symbol free and a slot left and booked as approved |
| Ledger.ExitGuardAt | backtesting/oracle_portfolio_ledger.py:269-282 | rows that pass close distinct held positions, today, by no more than is held |
| Ledger.ExitGuardIff | backtesting/oracle_portfolio_ledger.py:269-282 | exits pass the guard exactly when each names a held position once, for part or all of it, today, at a positive price and for a reason |
| Ledger.ExitsAcceptedIff | backtesting/oracle_portfolio_ledger.py:264-315 | exits are accepted exactly when moreover no phase goes back and the engine charges every row |
| Ledger.RefusedExitLeaves | backtesting/oracle_portfolio_ledger.py:306-324 | an engine refusal moves no cash and leaves the requested part of the position |
| Ledger.StillClosable | backtesting/oracle_portfolio_ledger.py:287-324 | booking earlier rows leaves a later row's position as it was |
| Ledger.OraclePortfolioLedger.constructor | backtesting/oracle_portfolio_ledger.py:26-59 | the initial books and clock |
| Ledger.OraclePortfolioLedger.ApplySettlements | backtesting/simulator.py:1438-1443 | the whole account after the settlement of a day |
| Ledger.OraclePortfolioLedger.Begin | backtesting/oracle_portfolio_ledger.py:80-93 | refusals and the whole state after a session begins |
| Ledger.SessionAcceptedIff | backtesting/oracle_portfolio_ledger.py:80-374 | exactly when a session begins, is marked and is finished |
| Ledger.OraclePortfolioLedger.TryOpen | backtesting/oracle_portfolio_ledger.py:131-157 | one candidate row: refusals, the booked position, its cash flow and its log entry |
| Ledger.OraclePortfolioLedger.Execute | backtesting/oracle_portfolio_ledger.py:96-177 | all rows in order; an error leaves the ledger failed |
| Ledger.OraclePortfolioLedger.CreditCash | backtesting/simulator.py:2464-2507 | where the cash of an exit goes on a margin and on a cash account |
| Ledger.OraclePortfolioLedger.TryClose | backtesting/oracle_portfolio_ledger.py:288-324 | one exit row: part closed, remainder kept, engine refusal |
| Ledger.OraclePortfolioLedger.Close | backtesting/oracle_portfolio_ledger.py:257-325 | refusals, the phase left behind and the whole account |
| Ledger.OraclePortfolioLedger.Mark | backtesting/oracle_portfolio_ledger.py:327-336 | the close is observed and interest charged once |
| Ledger.OraclePortfolioLedger.Finish | backtesting/oracle_portfolio_ledger.py:363-375 | a session finishes only after its close, leaving its row |
| Ledger.OraclePortfolioLedger.Reconcile | backtesting/oracle_portfolio_ledger.py:377-382 | cash less initial equity, realised profits and interest, refused while positions remain |
| LedgerRuns.SplitConserves | backtesting/oracle_portfolio_ledger.py:291-299 | a partial exit loses no quantity, cost or cash flow and keeps the unit cost of the lot |
| LedgerRuns.OtherPositionsUntouched | backtesting/oracle_portfolio_ledger.py:305-323 | positions no exit row names keep every field |
| LedgerRuns.SettlementPaysOut | backtesting/simulator.py:1438-1443 | settlement figure by figure: settled grows by what was due that day, which is no longer pending, other days unchanged, unsettled falls by as much but not below zero |
| LedgerRuns.SettlementMovesCash | backtesting/simulator.py:1438-1443 | settlement only moves cash except for a leak, zero exactly when the amount is covered |
| LedgerRuns.PhasesMoveForward | backtesting/oracle_portfolio_ledger.py:257-286 | inside a session phases never go back; entries only at the open, finish only from the close |
| LedgerRuns.PhasesStaySound | backtesting/oracle_portfolio_ledger.py:80-375 | in every run the close phase is the observed close and interest comes after it |
| LedgerRuns.CapacityRespected | backtesting/oracle_portfolio_ledger.py:135-136 | no run ever holds more positions than the capacity |
| LedgerRuns.InterestChargedOnce | backtesting/oracle_portfolio_ledger.py:327-336 | marking the close again changes nothing, and the charge is the only cash it moves |
| LedgerRuns.FailedIsFinal | backtesting/oracle_portfolio_ledger.py:61-63 | a failed ledger refuses every call and never changes |
| LedgerRuns.RefusedCallsAreAtomic | backtesting/oracle_portfolio_ledger.py:80-325 | only an error while rows are booked leaves the ledger failed; every other refusal changes nothing at all |
| LedgerRuns.LedgerConserves | backtesting/oracle_portfolio_ledger.py:80-382 | after any run: lots equal remainder plus closed parts at constant unit cost, interest is one charge per finished session, cash is accounted for to the leak |
| LedgerRuns.SettledExactlyWhenDue | backtesting/simulator.py:2468-2482 | in every run of a cash account, settled cash is initial equity plus entry flows plus the proceeds of exactly the exits whose settlement day has begun, less interest; later ones are pending on their day |
| LedgerRuns.ZeroDelayNeverSettles | backtesting/simulator.py:2478-2482 | with a delay of zero days no proceeds ever reach settled cash |
| StrandedCash.SaleNeverSettles | backtesting/simulator.py:1438-1443 | a six-call run whose sale stays unsettled after its day is over |
| LedgerRuns.ReconciliationErrorIsLeak | backtesting/oracle_portfolio_ledger.py:377-382 | the reconciliation error of a flat ledger is exactly what settlements created |
| LedgerRuns.LeakedIff | backtesting/simulator.py:1438-1443 | which is zero exactly when no accepted session settled more than was unsettled |
| LedgerRuns.NoLeakWhenExitsPayTheirFees | backtesting/simulator.py:2464-2507 | which holds on a margin account, and on a cash account whose accepted exits bring in at least what they cost |
| LedgerRuns.AlwaysOneSided | backtesting/oracle_portfolio_ledger.py:112-113 | every run holds positions of the ledger's side only |
| LedgerRuns.NoLeakBelowFullFees | backtesting/simulator.py:2451-2507 | checkable beforehand: with fee rates of at most 100% and no fixed fee, nothing leaks in any run |
| LedgerRuns.ReconcilesBelowFullFees | backtesting/oracle_portfolio_ledger.py:377-382 | such a ledger reconciles exactly whenever it is flat |
| LedgerRuns.RowsCarryTheirCharge | backtesting/oracle_portfolio_ledger.py:327-374 | every daily row carries the interest on the settled cash of that session's first mark |
| LedgerRuns.ChargedByOneCall | backtesting/oracle_portfolio_ledger.py:331-335 | no session is charged by two calls |
| SettlementLeak.LeakingRun | backtesting/simulator.py:1438-1443 | a ten-call run with legs forced to cost 200%, never refused, that ends flat with one dollar too much |
| PortfolioSession.OraclePortfolioSession.DecideAt | backtesting/oracle_portfolio_session.py:60-149 | refusals and their order, and the whole session after a decision or a failed build |
| PortfolioSession.OraclePortfolioSession.Record | backtesting/oracle_portfolio_session.py:151-179 | refusals, retries and the whole session after a fill |
| PortfolioSession.ExactlyOnce | backtesting/oracle_portfolio_session.py:151-179 | over any interleaving, trackers, id set and payload map hold exactly the first-time fills, in order |
| PortfolioSession.RetryIsIdempotent | backtesting/oracle_portfolio_session.py:163-166 | a known id changes nothing and is accepted exactly when it repeats its payload |
| PortfolioSession.RemembersLatest | backtesting/oracle_portfolio_session.py:135-179 | in every run the session remembers its latest decision and fill, in order, and has failed exactly when a build broke down |
| PortfolioSession.DecisionOutcome | backtesting/oracle_portfolio_session.py:71-148 | every decision is taken exactly when it is well placed, valid and built, and otherwise refused for the first reason that fails |
| PortfolioSession.FillOutcome | backtesting/oracle_portfolio_session.py:158-172 | every fill not yet recorded is accepted exactly when it is well placed and complete, and otherwise refused for the first reason that fails |
| PortfolioSession.DecisionsIncrease | backtesting/oracle_portfolio_session.py:73-74 | decision days strictly increase over any interleaving |
| PortfolioSession.FillsBetweenDecisions | backtesting/oracle_portfolio_session.py:75-76 | a first-time fill falls strictly after every earlier decision and not after any later one |
| PortfolioSession.RotationCompounds | backtesting/oracle_portfolio_session.py:136-146 | the recorded returns compound from the first decided equity to the latest, one per decision after the first |
| ShareSelection.ShareFacts | backtesting/historical_sec_capitalization.py:29-48 | the loops over tags and filings, refused for another issuer |
| ShareSelection.FactsAreFilings | backtesting/historical_sec_capitalization.py:34-48 | the facts are exactly the well-formed filings, field by field, ranked by tag, public from the midnight after their filing day |
| ShareSelection.SelectionIff | backtesting/historical_sec_capitalization.py:51-67 | a fact is selected exactly when it is the smallest accession among freshest eligible facts that agree, past every identity break and with no split since |
| ShareSelection.SelectionInDates | backtesting/historical_sec_capitalization.py:52-67 | success in dates: the newest admissible fact, agreed by all the newest, no split from its measurement to the day |
| ShareSelection.RejectionInDates | backtesting/historical_sec_capitalization.py:52-66 | which rejection, in order, and when |
| ShareSelection.OnlyEligibleFactsMatter | backtesting/historical_sec_capitalization.py:55-64 | value or rejection depends only on the set of eligible facts, not on order or repetition |
| ShareSelection.FutureFactsIgnored | backtesting/historical_sec_capitalization.py:55-56 | facts unavailable at the cutoff or measured after the day change nothing wherever they appear |
| AvailableAt.Resolve | analyst_research/available_at.py:45-64 | the day-advancing loop returns the first close after the observation in its window |
| AvailableAt.FailsIffWindowEmpty | analyst_research/available_at.py:55-64 | it fails exactly when no session of fifteen days closes after the observation |
| AvailableAt.UsableIffObservedBefore | analyst_research/available_at.py:45-70 | usable at a session's cutoff exactly when observed strictly before it, for every session of the calendar |
| AvailableAt.ResolutionIsMonotone | analyst_research/available_at.py:45-64 | the result is strictly after the observation and never earlier for a later one |
| BrinsonFachler.Compute | backtesting/brinson_fachler.py:58-106 | which weights are refused and why, and the decomposition of the others |
| BrinsonFachler.AccumulatedShape | backtesting/brinson_fachler.py:78-106 | one attribution per sector in order, and the total returns carried along |
| BrinsonFachler.EffectsOfSector | backtesting/brinson_fachler.py:81-87 | allocation, selection and interaction of a sector, each on its own |
| BrinsonFachler.ResidualOfDecomposition | backtesting/brinson_fachler.py:75-97 | the effects miss the active return by exactly the weight difference times the benchmark return |
| BrinsonFachler.IdentityIff | backtesting/brinson_fachler.py:16 | the claimed identity holds exactly for equal weight totals or a zero benchmark return |
| BrinsonFachler.GapBound | backtesting/brinson_fachler.py:68-97 | under the accepted weights the gap is at most 2e-6 of the benchmark return |

## Left out

- Float rounding: money and fractions are reals. The tolerance of the B4 comparisons is its constant
  microdollar; the term of 32 units in the last place, which only widens it for very large accounts, is
  not modelled (`backtesting/adaptive_breaker.py:60-61`). Checks that a float is finite or not missing
  are left out where the model's type already rules the case out.
- ProductionRisk.ProductionRiskController.constructor: requires an adaptive policy (not b0), because b0 runs the older streak
  and status machinery of `CircuitBreaker`.
- AdaptiveBreaker.CircuitBreaker.Scale: requires an adaptive policy, for the same reason.
- RiskClockRuns.RunController: requires an adaptive policy, for the same reason.
- ProductionRisk.ProductionRiskController.Evaluate: the episode before the first evaluation is a fresh one instead of none.
- An unknown policy name is not representable, so its `ValueError` is not modelled.
- Microstructure.ResolutionMeaning: a random intrabar priority carries its draw; the generator is not modelled.
- ObservedProtections.HeldIff: asks that opening prices lie inside their bars and, with `swing_only` on, that the entry day does
  not set the running extreme when the opening phase fires; `OpeningReplay.OpeningAgreesIff` says what happens otherwise.
  In a session, closings by the caller come first, then the opening phase, entries and the bar.
- ObservedProtections.ProtectedPositions.Opening: positions are taken to carry the protections validated when they were booked; one
  without them has no opening exit, audits are left out.
- ObservedProtections.ProtectedPositions.Intraday: a missing protection is not representable, audits are left out.
- OpeningReplay.OpeningAgreesWithScan: relates prices and reasons unless the take-profit goes first; the ledger always replays with
  the conservative priority.
- LedgerRuns.NoLeakWhenExitsPayTheirFees: one direction, as LedgerRuns.NoLeakBelowFullFees; the exact condition is that of
  LedgerRuns.LeakedIff.
- Marks, equity, snapshots, gross exposure, budgets, cost models, slippage and borrow rates: the ledger takes
  their outcome as the answer of a row. Missing-mark errors are not modelled.
- Ledger and replay events, audits and diagnostics columns; timestamps and phase labels of order rows beyond
  their status.
- Ledger.OraclePortfolioLedger.constructor: the checks on configuration and on the alignment of the market frames are left out.
- The gap filter and the missing-data skips of the entry replay, identifiers, hashes and the creation of child orders.
- PortfolioSession.OraclePortfolioSession.DecideAt: validation of the other inputs, the builder and the configuration overlays are an
  answer of the request; the trackers are the sequence of records they were given.
- ShareSelection.ShareFacts: dates are day numbers and well-formed accession numbers integers in their order; the comparison of the
  issuer identifiers is its argument.
- AvailableAt.Resolve: the exchange calendar and time zones are an abstract calendar whose closes fall on their own day.
- Loading from databases and the SEC archive, reporting, parity, isolation, fuzzing and command lines.
