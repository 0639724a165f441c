# Verified model of Binance Auto Trader

This project models, in Dafny, the parts of Binance Auto Trader whose correctness cannot be read off one function: the
trading state machine in its loop with the context and the exchange, the order aggregate and the fault replay, the tree
digests and the license inventory, the streaming readers, the JavaScript scanner, the indicator arithmetic and the
multi-file repair.

What the source computes by updating things is a method or a class here, proved against a specification function; what
the source promises is then proved about that function, for all inputs, all trees, all chunkings or all runs.

`dafny verify dfyconfig.toml` checks everything.

## The trading loop

`TradingTypes` and `TradingMachine` follow `stm.py` and the transition modules branch by branch: global transitions
first, then the ownership region with the two position machines, then Case C's and Case B's signal regions, the buy
arbitration between them and the completion event. A transition returns its identifiers, the next configuration and the
actions to perform. The numerical conditions are an oracle: each may be met, unmet or unevaluated at any moment.

`TradingLoop` closes the loop. A state is the configuration, the runtime context, whether a position is open, and the one
pending order. A move delivers an event (and carries the requested actions out in order, the exchange answering as it
likes), fills the order partly or until the position is empty, settles it, or submits the forced sale of a stopping
session. `TradingSafety`, `TradingRegions` and `TradingRuns` prove that every move keeps one joint invariant, and
`TradingTheorems` says what that means for every reachable state. `TradingProperties` needs no invariant at all: it holds
for every valid configuration, event and context.

`TradingErrors` says exactly when carrying out the requests of a microstep raises. `TradingKeys` says whose the keys are
under which orders go out.

The serial queue and the scheduler are not modelled as data structures. When an event may be delivered is the predicate
`TradingLoop.Timely`:

- a follow-up precedes market events, and feedback on an order comes once that order has left the context: the queue's
  priorities see to it;
- a purchase is not withdrawn once it has filled: only an order that was never sent expires or is blocked;
- a buy retry that would be accepted comes while the signal that asked for it stands;
- no withdrawal reopens Case C's setup once Case C has traded in the scope, or the market has recovered without it.

Nothing in the source ensures the last two. The scheduler releases a retry by trigger and due time, a cancelled order
does not cancel it, and O-04 and O-08 look at flags and not at the signal region. A retry that is claimed while a
preparation is deferred is turned into an expiry by its type and the pending key, before it is dropped as stale, and O-03
and O-07 then put the signal back whatever it is. So what is proved of reachable states is proved of the runs that meet
these conditions, and is false of others:

- `TradingRetries.BRetryDecides` and `CRetryDecides` give the condition, at the moment a retry comes, under which the
  position that it leads to has one machine in charge and its signal regions ended; both directions are proved.
- `TradingScenarios.StrayRetryBreaksOwnership` is a run from the start of a session that breaks it: Case B's purchase
  fails and a retry is scheduled, Case C buys, trails and hands over, and only then the retry comes.
- `StrayRetryWouldBuyBesideAPosition` says how far a retry of Case C without its signal would lead. It is hypothetical: no
  run is known in which one is due.
- `TradingExpiry.ExpiryDecides` gives the condition, at the moment a preparation of Case C expires, under which Case C
  goes on to buy in unspent scopes only; both directions are proved.
- `TradingScenarios.ExpiryReopensASpentSetup` and `ExpiryLocksTheSale` are runs from the start that break it: a
  preparation fails, a new touch opens another scope, Case C is done there, and the old retry is found to have expired.
  In the second run the reason of the sale that follows conflicts with the one published before.

## The other modules

- `OrderAggregate`, `Replay`, `ReplayRuns`, `ReplayRuntime`: one order as answers accumulate, the replay's step relation
  over traces of any length, and the same as objects changed in place. An answer may be duplicated, late or out of
  order. A replay has one order, so a sale never finds a position to sell from: fills can be handed over, and a trade
  committed, only for a purchase. A committed trade may still fall behind the position: exactly when
  (`TradeStaysExactIffNothingFollows`) and by which trace (`LateFillDrifts`) is proved.
- `Bytes`, `StreamScan`, `ArchiveToc`, `LogTail`, `JpegWalk`: a file is a byte sequence delivered in arbitrary non-empty
  reads; each loop equals a whole-file specification. For the archive table and the JPEG walk both directions of
  "accepted if and only if written so" are proved. Log lines above 1 MiB stop the tailer for good, and that is the one
  case in which it does not keep up.
- `Ordering`, `FileTree`, `AppTree`, `AppTraversal`, `GateTree`: the two tree digests. Both framings are uniquely
  decodable, the emitted records determine the tree, and the traversals succeed exactly inside their caps.
- `LicenseInventory`, `CargoLicenses`: the builder, the separate validator, and exactly when the second accepts what the
  first makes. The Cargo collector leaves the registry directory out of a source's identity: which sets of manifest
  files are refused for it is proved exactly.
- `JsScanner`, `VitestTitles`: every source is a list of words, literals, comments, blanks and marks in exactly one way,
  and scanning it yields the tokens of that list. Titles are found as written, except that parenthesis depth is told by
  a token's value and not its kind: a table is read to its end exactly if its nesting, literals that are just a
  parenthesis included, comes back to zero at the end and never falls below.
- `Indicators`: Bollinger band, EMA, regression slope and the memo table, over exact reals.
- `RepairStore`, `RepairRewrite`: three files replaced with an exception striking before or after any statement, in the
  repair or in its rollback; and what the three rewritten files contain.

## Model

| member | source | states |
|---|---|---|
| `TradingProperties.EveryMicrostepIsSound` | backend/src/binance_auto_trader/domain/trading/stm.py:214-315 | for every valid configuration, event and context: the next configuration passes its own checks, every transition taken is a catalogued one, at most one order is asked for, and it is allowed (no order pending; a purchase only without an owner and, for Case B, unpaused; a sale only from the position's own machine, and on a retry only for the recorded reason) |
| `TradingProperties.EndingIsFinal` | backend/src/binance_auto_trader/domain/trading/transitions/global_transitions.py:186-375 | a terminated logic ignores everything; a stopping one can only terminate and asks for no order |
| `TradingProperties.CaseCWinsTheEntry` | backend/src/binance_auto_trader/domain/trading/stm.py:402-427 | when both strategies would buy in one microstep, Case C's signal opens, Case B's signal state is left as it was and Case B buys nothing |
| `TradingProperties.RegionOneAlone` | backend/src/binance_auto_trader/domain/trading/stm.py:214-315 | an event for which the ownership region submits an order selects nothing in either signal region |
| `TradingSafety.GlobalKeeps` | backend/src/binance_auto_trader/domain/trading/transitions/global_transitions.py:186-375 | every global transition, with its requests carried out, keeps the joint invariant of machine, context and order |
| `TradingRegions.OwnershipKeeps` | artifacts/case-b-audit-20260922/historical-ownership-transitions-7244cb5.py:32-237 | O-02 to O-09 keep the invariant: single ownership, the owner field in step with the configuration, reserved fields consistent |
| `TradingRegions.BPositionKeeps` | backend/src/binance_auto_trader/domain/trading/transitions/case_b_position_transitions.py:64-373 | every transition of Case B's position machine keeps the invariant |
| `TradingRegions.CPositionKeeps` | backend/src/binance_auto_trader/domain/trading/transitions/case_c_position_transitions.py:31-461 | every transition of Case C's position machine keeps the invariant |
| `TradingRuns.RegionCKeeps` | backend/src/binance_auto_trader/domain/trading/transitions/case_c_signal_transitions.py:33-276 | Case C's signal region keeps the invariant and touches the pending order only when it buys |
| `TradingRuns.RegionBKeeps` | backend/src/binance_auto_trader/domain/trading/transitions/case_b_signal_transitions.py:32-231 | Case B's signal region keeps the invariant |
| `TradingRuns.HandleKeeps` | backend/src/binance_auto_trader/domain/trading/stm.py:214-315 | one event handled and its requests carried out in order keep the invariant |
| `TradingRuns.NextKeeps` | backend/src/binance_auto_trader/application/trading_controller.py:8241-8514 | every move of the loop keeps the invariant: event, purchase fill, sale fill, emptying fill, settlement, forced sale |
| `TradingRuns.RunsKeepInvariant` | backend/src/binance_auto_trader/domain/trading/event_queue.py:365-480 | the invariant holds after every timely run of any length, against any market verdicts and any exchange |
| `TradingTheorems.PositionsAreManaged` | backend/src/binance_auto_trader/domain/trading/states.py:183-253 | in every reachable state a position is open exactly if there is an owner, and under trade management the owner's machine, or the signal whose purchase is filling, is there for it; outside nothing is held |
| `TradingTheorems.OneMachineAtATime` | artifacts/case-b-audit-20260922/historical-ownership-transitions-7244cb5.py:100-237 | in every reachable state at most one position machine is active and no other strategy is the owner; from the moment Case C takes ownership Case B's entry is paused or over, and under Case B both signal regions have ended |
| `TradingTheorems.OneOrderForOneOwner` | backend/src/binance_auto_trader/domain/trading/context.py:1214-1238 | in every reachable trading state the pending order belongs to the owner, a purchase to the strategy whose signal asked for it, and a sale carries the recorded reason and band value |
| `TradingTheorems.ProvenanceNeverConflicts` | backend/src/binance_auto_trader/application/trading_controller.py:8712-8829 | when a reachable sale empties the position, its reason can be published: the conflicts that would lock the session cannot arise |
| `TradingTheorems.BuysOnlyWhenFree` | backend/src/binance_auto_trader/application/trading_controller.py:7266-7730 | in every reachable state a microstep that asks to buy finds no position, no owner, no pending order and no managed position |
| `TradingTheorems.SalesAreCovered` | backend/src/binance_auto_trader/application/trading_controller.py:7266-7730 | a sale that goes out in a reachable state sells an open position, owned by the strategy that sells |
| `TradingTheorems.WithdrawnEntryIsForgotten` | artifacts/case-b-audit-20260922/historical-ownership-transitions-7244cb5.py:55-98 | a blocked entry while its signal stands, and an expired preparation always, returns each pending field to its unreserved value and the signal to its wait; nothing else changes, and it raises if and only if an order is pending |
| `TradingErrors.DeliveryRaisesIff` | backend/src/binance_auto_trader/domain/trading/context.py:842-880 | in every state of the invariant and for every event, timely or not: carrying out what the machine requests raises if and only if the event concludes an order that is still pending (its entry withdrawn, or its sale heard as filled) |
| `TradingKeys.KeyIsOwnIff` | backend/src/binance_auto_trader/domain/trading/transitions/helpers.py:161-255 | whatever happens, an order that the machine asks for carries a key of its own strategy if and only if no intention is kept, or the kept one is of that strategy |
| `TradingKeys.RunsKeepKeys` | backend/src/binance_auto_trader/domain/trading/context.py:753-804 | over every timely run a managed position keeps no key but one made for its own sale, and none is left when a filled purchase has settled |
| `TradingKeys.SalesCarryTheirOwnKey` | backend/src/binance_auto_trader/domain/trading/transitions/helpers.py:199-255 | in every reachable state a sale carries a key of its own strategy; only purchases can borrow one |
| `TradingScenarios.CaseBBuysUnderCaseCsKey` | backend/src/binance_auto_trader/domain/trading/transitions/helpers.py:161-196 | a run from the start: Case C's purchase settles unfilled, and Case B submits under its key |
| `TradingRetries.BRetryDecides` | artifacts/case-b-audit-20260922/historical-ownership-transitions-7244cb5.py:139-153 | O-04 does not look at Case B's signal. Once the repeated purchase is filled, settled and heard of, Case B holds the position, and one machine is in charge with both signal regions ended if and only if the signal was still open when the repetition came, or Case B's signal region had ended |
| `TradingRetries.CRetryDecides` | artifacts/case-b-audit-20260922/historical-ownership-transitions-7244cb5.py:207-220 | the same of O-08: single ownership holds afterwards if and only if Case C's signal was still open, or its region had ended |
| `TradingScenarios.StrayRetryBreaksOwnership` | backend/src/binance_auto_trader/application/trading_controller.py:1000-1047 | a timely run from the start after which Case B's repetition is scheduled, not cancelled and in scope while its signal has gone back to waiting; accepted, filled, settled and heard of, it breaks single ownership |
| `TradingRetries.OpenSetupBuysBesideAPosition` | backend/src/binance_auto_trader/domain/trading/transitions/case_c_signal_transitions.py:33-276 | with a setup open beside a sold but still managed position, the machine buys again |
| `TradingScenarios.StrayRetryWouldBuyBesideAPosition` | backend/src/binance_auto_trader/domain/trading/transitions/case_c_signal_transitions.py:33-276 | hypothetical, since no run is known in which a repetition of Case C is due without its signal, and the queue would hear the sale first: one such repetition from a reachable state, and the setup checked before the sale is heard, lead there |
| `TradingExpiry.CaseCBuysUnspent` | backend/src/binance_auto_trader/domain/trading/transitions/case_c_signal_transitions.py:33-276 | in every state of the invariant a timely purchase of Case C is one in a scope in which it has not traded and the market has not recovered, although C-12 reads neither flag |
| `TradingExpiry.WithdrawalKeepsIff` | artifacts/case-b-audit-20260922/historical-ownership-transitions-7244cb5.py:55-98 | a withdrawal keeps the invariant if and only if its strategy holds nothing and, for Case C, the scope is not spent |
| `TradingExpiry.ExpiryDecides` | artifacts/case-b-audit-20260922/historical-ownership-transitions-7244cb5.py:55-98 | O-07 does not look at Case C's signal when a preparation expires. Afterwards, over all timely runs, Case C buys in unspent scopes only if and only if the scope was not spent when it expired; then every sale stays publishable, and if Case C had traded in it, some sale is not |
| `TradingScenarios.ExpiryReopensASpentSetup` | backend/src/binance_auto_trader/application/trading_controller.py:3898-3903 | a timely run from the start after which a repetition of an older scope still waits while Case C is spent in the new one; its expiry reopens the setup, and Case C buys with the scope consumed and recovered |
| `TradingScenarios.ExpiryLocksTheSale` | backend/src/binance_auto_trader/application/trading_controller.py:8754-8829 | another in which Case C has traded in the new scope; after the expiry it buys once more, and the reason of its sale cannot be published |
| `TradingScenarios.CaseBHolds` | backend/src/binance_auto_trader/domain/trading/stm.py:214-315 | a timely run from the start in which Case B holds a position |
| `TradingScenarios.CaseCTrails` | backend/src/binance_auto_trader/domain/trading/stm.py:214-315 | a timely run from the start in which Case C trails the profit of a position |
| `OrderAggregate.MergeExtends` | backend/src/binance_auto_trader/domain/trading/order.py:988-1061 | merging an answer keeps the known fills in place, adds each new one once, and knows exactly the union |
| `OrderAggregate.MergeKnown` | backend/src/binance_auto_trader/domain/trading/order.py:988-1061 | an answer with only known fills adds nothing |
| `OrderAggregate.StatusNeverRetreats` | backend/src/binance_auto_trader/domain/trading/order.py:701-737 | an accepted status never goes back, and a terminal one never changes |
| `OrderAggregate.OnlyEndsConflict` | backend/src/binance_auto_trader/domain/trading/order.py:701-737 | an observed status is refused if and only if both are terminal and differ |
| `OrderAggregate.UnappliedIsTheRest` | backend/src/binance_auto_trader/domain/trading/order.py:878-890 | the unapplied fills are exactly those learnt since the position was last told |
| `OrderAggregate.MarkingTellsAll` | backend/src/binance_auto_trader/domain/trading/order.py:973-986 | marking the unapplied fills leaves none |
| `OrderAggregate.ResultKeeps` | backend/src/binance_auto_trader/domain/trading/order.py:988-1061 | an accepted answer keeps fills distinct, within the submitted quantity, and what was applied |
| `OrderAggregate.StaleAnswerChangesNothing` | backend/src/binance_auto_trader/domain/trading/order.py:906-918 | an answer that brings neither a new fill nor a further status leaves the order as it was |
| `OrderAggregate.FilledTakesNoMore` | backend/src/binance_auto_trader/domain/trading/order.py:988-1061 | a filled order accepts no further fill and no other status |
| `OrderAggregate.SumsAppend` | backend/src/binance_auto_trader/domain/trading/order.py:494-549 | quantity, amount and fees of fills add up over any batching |
| `Replay.OnlyRunningSubmits` | scripts/phase13_deterministic_replay.py:82-258 | a fault leaves permission to submit exactly if its policy keeps the session running, and those are websocket faults |
| `Replay.StepKeeps` | scripts/phase13_deterministic_replay.py:732-850 | every accepted step keeps the position equal to the handed fills and the history equal to the committed prefix |
| `Replay.CommitKeeps` | scripts/phase13_deterministic_replay.py:792-804 | a trade is committed with every known fill handed over, and a second commitment only repeats it |
| `ReplayRuns.FillsAreConserved` | scripts/phase13_deterministic_replay.py:770-791 | in every accepted trace the position equals the sum of the distinct fills handed over, each counted once |
| `ReplayRuns.KnowsExactlyTheReported` | scripts/phase13_deterministic_replay.py:770-778 | the order knows a fill exactly if some accepted answer of the trace reported it |
| `ReplayRuns.SameFillsSameSums` | backend/src/binance_auto_trader/domain/trading/order.py:494-549 | two lists of the same distinct fills in any two orders have the same sums |
| `ReplayRuns.ArrivalOrderDoesNotShow` | scripts/phase13_deterministic_replay.py:770-791 | two accepted traces that report the same fills and hand them all over end with the same position, whatever order, repetition or batching |
| `ReplayRuns.CommittedTradeMatches` | backend/src/binance_auto_trader/domain/history/trade.py:313-399 | a committed trade carries exactly the quantity, amount and fees that the position received |
| `ReplayRuns.TradeStaysExactIffNothingFollows` | scripts/phase13_deterministic_replay.py:779-804 | after more steps the trade still equals the position if and only if no fills were handed over after the commitment |
| `ReplayRuns.FilledTradeIsFinal` | scripts/phase13_deterministic_replay.py:792-804 | it does if the order was completely filled when committed |
| `ReplayRuns.LateFillDrifts` | scripts/phase13_deterministic_replay.py:779-804 | a concrete trace: a cancelled order reports another fill after its commitment, and position and trade part |
| `ReplayRuns.OneSubmissionOneFault` | scripts/phase13_deterministic_replay.py:756-769 | every accepted trace submits at most once and observes at most one fault, and the counters equal the steps |
| `ReplayRuns.BlockedForGood` | scripts/phase13_deterministic_replay.py:752-769 | once a fault has removed permission it never returns, nothing is submitted, and the order begun is never replaced |
| `ReplayRuns.ScenarioEndsUnderItsPolicy` | scripts/phase13_deterministic_replay.py:839-848 | owner, phase, permission and recovery of a completed scenario are those of its fault's policy |
| `ReplayRuntime.LiveOrder.KnownAfter` | backend/src/binance_auto_trader/domain/trading/order.py:988-1061 | the fill loop computes the merge, or refuses on a conflicting fill |
| `ReplayRuntime.LiveOrder.ApplyResult` | backend/src/binance_auto_trader/domain/trading/order.py:988-1061 | the object changes exactly as the order specification says, and a refused answer changes nothing |
| `ReplayRuntime.LiveOrder.MarkFillsApplied` | backend/src/binance_auto_trader/domain/trading/order.py:973-986 | marking adds the keys of the fills and nothing else |
| `ReplayRuntime.Runtime.BeginFrom` | scripts/phase13_deterministic_replay.py:752-755 | an order is begun exactly if there is none yet and it is well-formed |
| `ReplayRuntime.Runtime.HandOver` | scripts/phase13_deterministic_replay.py:779-791 | the unapplied fills reach the position and are marked, or nothing changes |
| `ReplayRuntime.Runtime.Commit` | backend/src/binance_auto_trader/domain/history/trade_history.py:133-153 | a trade is added, repeated or refused as the specification says |
| `ReplayRuntime.Runtime.ApplyStep` | scripts/phase13_deterministic_replay.py:732-850 | one step changes the runtime exactly as the transition function says, and a refused step changes nothing |
| `ReplayRuntime.BuildScenarioOutcome` | scripts/phase13_deterministic_replay.py:899-941 | a scenario is accepted if and only if its category is the fault's, every step is accepted and the fault was observed; it ends in the state its trace leads to, under the policy |
| `StreamScan.CountMarkers` | scripts/verify_phase12_signed_artifacts.py:1057-1107 | for every split into non-empty reads the counters equal the overlapping occurrence counts of the whole file |
| `StreamScan.MarkerCountsDecide` | scripts/verify_phase12_signed_artifacts.py:1057-1107 | the three counts are right if and only if the prefix occurs once and is followed there by the expected commit |
| `StreamScan.UnverifiedIsImpliedAbsent` | scripts/verify_phase12_signed_artifacts.py:1057-1107 | that already implies that the UNVERIFIED marker is absent |
| `StreamScan.VerifyReleaseCommitMarker` | scripts/verify_phase12_signed_artifacts.py:1036-1107 | accepted if and only if size and length agree inside the cap and the file is marked exactly once with the commit |
| `StreamScan.ReadExactAt` | scripts/verify_phase12_signed_artifacts.py:1536-1567 | succeeds if and only if the whole range lies in the file, and then returns it |
| `StreamScan.FindPyinstallerCookie` | scripts/verify_phase12_signed_artifacts.py:1569-1591 | the backward search over overlapping windows returns the last occurrence in the whole file and fails exactly if there is none |
| `StreamScan.OverlapSuffices` | scripts/check_phase12_secrets.py:463-487 | for a canary not seen so far, the kept tail and the next chunk decide as the whole content would |
| `StreamScan.FileContainsCanary` | scripts/check_phase12_secrets.py:463-487 | true if and only if the non-empty canary occurs in the whole content, for every chunking and every canary length; for the empty canary, if and only if the content is not empty |
| `ArchiveToc.ParseTable` | scripts/verify_phase12_signed_artifacts.py:1696-1770 | the loop returns the table of exactly the entries of the specification, or refuses |
| `ArchiveToc.ParserLanguage` | scripts/verify_phase12_signed_artifacts.py:1696-1770 | a table parses to a list of entries if and only if it is a writing of that list, with some NUL padding: valid distinct names, at most 4096, payloads before the table, nothing left over |
| `ArchiveToc.WritingsAreUnambiguous` | scripts/verify_phase12_signed_artifacts.py:1696-1770 | one table is a writing of at most one list of entries |
| `ArchiveToc.OpenArchiveAt` | scripts/verify_phase12_signed_artifacts.py:1643-1770 | cookie checks, bounds and table give the described archive, or a refusal |
| `ArchiveToc.OpenArchive` | scripts/verify_phase12_signed_artifacts.py:1629-1770 | the archive opened is the one of the last cookie in the file |
| `ArchiveToc.ArchiveLanguage` | scripts/verify_phase12_signed_artifacts.py:1643-1770 | an archive opens if and only if its bytes are a cookie, a region and a table that describe it; then every payload lies between archive start and table |
| `LogTail.VisitTakesCompleteLines` | scripts/run_renderer_memory_soak.py:141-162 | one visit takes exactly the completed lines up to the first one above the limit |
| `LogTail.VisitsCompose` | scripts/run_renderer_memory_soak.py:141-162 | two visits with an append between them take what one visit of the final text takes |
| `LogTail.Tailer.ReadFile` | scripts/run_renderer_memory_soak.py:141-162 | a visit of one file yields the records of its new lines and moves its offset, and no other, behind them |
| `LogTail.Tailer.ReadNewRecords` | scripts/run_renderer_memory_soak.py:141-162 | a poll of the directory yields the records of all new lines, file by file, and moves every offset |
| `LogTail.RunIsExact` | scripts/run_renderer_memory_soak.py:141-162 | after any appends and polls the offset is zero or just behind a newline, and the lines consumed are exactly the text before it |
| `LogTail.EachLineOnce` | scripts/run_renderer_memory_soak.py:141-162 | after a final poll the lines consumed are the completed lines up to the first one above the limit, each once |
| `LogTail.KeepsUpIffLinesFit` | scripts/run_renderer_memory_soak.py:141-162 | all completed lines are consumed if and only if each fits in 1 MiB |
| `LogTail.MetricRange.Observe` | scripts/run_renderer_memory_soak.py:34-48 | one observation keeps count, first, last, minimum and maximum those of the valid values seen |
| `LogTail.ObserveAll` | scripts/run_renderer_memory_soak.py:34-60 | over any samples the summary is that of exactly the valid ones |
| `JpegWalk.ReadJpegDimensions` | scripts/check_phase13_visual_regression.py:649-692 | on any bytes the walk ends without reading outside and gives the specification's answer |
| `JpegWalk.WalkLanguage` | scripts/check_phase13_visual_regression.py:649-692 | a size is returned if and only if the bytes are skippable segments with any fill bytes, then a baseline frame header of that size (sections B.1.1.2, B.1.1.4 and B.2.2 of ITU-T T.81), then anything |
| `Ordering.SortedSet` | scripts/phase13_local_supply_artifacts.py:1068-1190 | the sorted set holds exactly the members, strictly increasing |
| `Ordering.IncreasingIsUnique` | scripts/phase13_local_supply_artifacts.py:1429-1450 | a strictly increasing listing is determined by its members |
| `FileTree.AnyScanSortsAlike` | scripts/phase13_local_supply_artifacts.py:1429-1450 | whatever order a scan has, sorting gives the one listing of the directory |
| `FileTree.SameEntriesSameListing` | scripts/phase13_local_supply_artifacts.py:1429-1450 | directories with the same entries have the same listing |
| `AppTree.DecodeUndoesFraming` | scripts/phase13_local_supply_artifacts.py:1386-1407 | a decoder recovers paths, kinds, execute bits, lengths and digests from the hashed bytes |
| `AppTree.FramingIsInjective` | scripts/phase13_local_supply_artifacts.py:1386-1407 | different lists of records are framed to different bytes |
| `AppTree.RecordsDetermineTree` | scripts/phase13_local_supply_artifacts.py:1464-1531 | the records emitted in traversal order determine the tree |
| `AppTree.StreamDeterminesTree` | scripts/phase13_local_supply_artifacts.py:1464-1531 | two trees feed the digest the same bytes if and only if they are the same tree |
| `AppTraversal.ListNames` | scripts/phase13_local_supply_artifacts.py:1429-1442 | listing fails exactly if this directory alone would break the entry cap, and is sorted otherwise |
| `AppTraversal.Classify` | scripts/phase13_local_supply_artifacts.py:1443-1462 | fails exactly on a symlink or special entry, and otherwise separates directories and files in order |
| `AppTraversal.HashDirectoryEntries` | scripts/phase13_local_supply_artifacts.py:1464-1474 | the D entries are counted and framed in order, or the entry cap is broken |
| `AppTraversal.HashFileEntries` | scripts/phase13_local_supply_artifacts.py:1476-1499 | the F entries are counted, framed and added up exactly if each file and the running total fit |
| `AppTraversal.HashBelow` | scripts/phase13_local_supply_artifacts.py:1501-1534 | the directories below are hashed in order if and only if they fit with what was counted |
| `AppTraversal.HashAppDirectory` | scripts/phase13_local_supply_artifacts.py:1410-1543 | succeeds if and only if the tree holds only directories and files within 10000 entries, 64 MiB a file and 512 MiB in all, whatever its shape and scan order; every entry is counted and emitted once, in the canonical stream |
| `AppTraversal.TallyInOrder` | scripts/phase13_local_supply_artifacts.py:1463-1534 | counting in traversal order gives the same totals as counting the tree |
| `AppTraversal.DigestTree` | scripts/phase13_local_supply_artifacts.py:1546-1585 | the whole digest yields the canonical stream, the true number of files and the true byte total |
| `GateTree.DecodeUndoesFraming` | scripts/phase12_release_gate.py:1092-1130 | a decoder recovers paths, metadata, kinds and digests from the bytes hashed by the release gate |
| `GateTree.StreamDeterminesTree` | scripts/phase12_release_gate.py:1092-1130 | two trees feed the gate's digest the same bytes if and only if they are the same tree |
| `GateTree.HashEntry` | scripts/phase12_release_gate.py:1092-1130 | one entry passes if and only if entry and path caps hold for it and below it, and then contributes its block |
| `GateTree.HashDirectory` | scripts/phase12_release_gate.py:1074-1150 | succeeds if and only if the tree is plain and inside both caps; every entry is counted once and the canonical stream is hashed |
| `LicenseInventory.BuildInventory` | scripts/phase13_local_supply_artifacts.py:1068-1190 | the builder's loop gives the packages of the specification and the summary that counts them |
| `LicenseInventory.CheckSources` | scripts/phase13_local_supply_artifacts.py:1809-1846 | the source loop accepts if and only if every source is allowed and none is listed twice |
| `LicenseInventory.CheckPackage` | scripts/phase13_local_supply_artifacts.py:1788-1893 | one package passes if and only if it agrees with its component and its sources support its status |
| `LicenseInventory.ValidateInventory` | scripts/phase13_local_supply_artifacts.py:1726-1920 | the validator's loops accept exactly the valid inventories |
| `LicenseInventory.BuilderAcceptedIffSourcesAcceptable` | scripts/phase13_local_supply_artifacts.py:1068-1190 | the validator accepts what the builder makes if and only if every third-party package lists only allowed sources, and none of them twice |
| `LicenseInventory.AcceptedInAnyOrder` | scripts/phase13_local_supply_artifacts.py:706-735 | acceptance does not depend on the order in which the observations of a package are listed, so not on their sorting |
| `CargoLicenses.CollectCargo` | scripts/phase13_local_supply_artifacts.py:644-703 | the collector's loop gathers, for every crate declared, its observations in the order of the listing |
| `CargoLicenses.SameSourceIff` | scripts/phase13_local_supply_artifacts.py:684-703 | two manifests are one source if and only if crate directory name and digest agree, whichever registry directories they lie in |
| `CargoLicenses.AllowedIff` | scripts/phase13_local_supply_artifacts.py:1822-1839 | such a source passes the validator if and only if the directory name has no line break |
| `CargoLicenses.CargoInventoryAcceptedIff` | scripts/phase13_local_supply_artifacts.py:644-703 | the inventory of what the Cargo collector found, each crate's observations in any order, is accepted if and only if no third-party crate has two manifests with one directory name and one content, or a directory name with a line break |
| `CargoLicenses.OneSourceTwoRegistries` | scripts/phase13_local_supply_artifacts.py:684-703 | two files of one source lie in different registry directories |
| `CargoLicenses.SameCrateInTwoRegistries` | scripts/phase13_local_supply_artifacts.py:684-703 | one crate unpacked unchanged in two registry directories: the files are distinct, and the inventory is refused |
| `LicenseInventory.TotalsAddUp` | scripts/phase13_local_supply_artifacts.py:1068-1190 | project + third-party = packages, declared + noassertion = third-party, conflicting <= noassertion |
| `Indicators.PercentBBounded` | artifacts/case-b-audit-20260922/recalculate_public.py:10-18 | %B of twenty closes exists if and only if they are not all equal, and then (4 %B - 2)^2 <= 19 |
| `Indicators.VarianceVanishesIffFlat` | artifacts/case-b-audit-20260922/recalculate_public.py:10-11 | the variance of twenty closes vanishes if and only if they are all equal |
| `Indicators.BandWidthBounded` | artifacts/case-b-audit-20260922/recalculate_public.py:31 | for twenty positive closes 0 <= BBW and BBW^2 <= 304 |
| `Indicators.EmasWithin` | artifacts/case-b-audit-20260922/recalculate_public.py:16 | every EMA value lies between bounds of the closes |
| `Indicators.ShortSeedIsLow` | artifacts/case-b-audit-20260922/recalculate_public.py:15 | with fewer than nine closes the seed falls below equal positive closes: nine are needed |
| `Indicators.SlopeBounded` | artifacts/case-b-audit-20260922/recalculate_public.py:17 | the slope of six values in [m, M] is at most 9 (M - m) / 35 either way |
| `Indicators.SlopeIsLeastSquares` | artifacts/case-b-audit-20260922/recalculate_public.py:17 | no other line is closer to the six values |
| `Indicators.ScaleInvariance` | artifacts/case-b-audit-20260922/recalculate_public.py:13-18 | multiplying every price by one positive factor leaves slope, %B, signal and use of candles unchanged, scales the lows, and leaves failures failures |
| `Indicators.Recalculator.SmoothingLoop` | artifacts/case-b-audit-20260922/recalculate_public.py:16 | the loop computes the smoothed list |
| `Indicators.Recalculator.Compute` | artifacts/case-b-audit-20260922/recalculate_public.py:13-18 | a computation gives the specified report, or fails where a division or a minimum does |
| `Indicators.Recalculator.Recalculate` | artifacts/case-b-audit-20260922/recalculate_public.py:13-18 | the answer does not depend on what earlier calls left in the table, and only a success is stored |
| `JsScanner.BodyReadsBack` | scripts/check_communication_traceability.py:302-368 | a written literal body, escapes and continued lines included, is read back piece by piece |
| `JsScanner.ReadBodyValid` | scripts/check_communication_traceability.py:302-368 | whatever is read is such a body |
| `JsScanner.ItemsCoverSource` | scripts/check_communication_traceability.py:371-431 | the items of a source put together again are the source |
| `JsScanner.ItemsWellFormed` | scripts/check_communication_traceability.py:371-431 | taking a source apart yields items that may stand side by side |
| `JsScanner.ItemsReadBack` | scripts/check_communication_traceability.py:371-431 | any such list of items is read back item by item |
| `JsScanner.RenderedTokens` | scripts/check_communication_traceability.py:371-431 | scanning a written source gives exactly the tokens of its items: none from inside a literal or comment, none lost |
| `JsScanner.EverySourceHasOneReading` | scripts/check_communication_traceability.py:371-431 | every source is a writing of exactly one well-formed list of items |
| `JsScanner.ReadLiteral` | scripts/check_communication_traceability.py:302-368 | the loop gives the token and end of the literal, or fails at the end of the source |
| `JsScanner.ScanItem` | scripts/check_communication_traceability.py:383-430 | one turn of the scanner yields the tokens of the item there and goes behind it |
| `JsScanner.Tokenize` | scripts/check_communication_traceability.py:371-431 | one pass yields the tokens of all items of the source |
| `VitestTitles.FindMatching` | scripts/check_communication_traceability.py:434-456 | returns the first place where the nesting, told by token values, comes back to zero, or nothing if there is none |
| `VitestTitles.ReadCallTitle` | scripts/check_communication_traceability.py:459-508 | the loop reads the title of the specification |
| `VitestTitles.CollectDeclarations` | scripts/check_communication_traceability.py:511-532 | a source yields the titles of its declarations in order |
| `VitestTitles.ChainIsWalked` | scripts/check_communication_traceability.py:459-508 | any chain of allowed modifiers is walked to its end, and an each in it is noticed |
| `VitestTitles.TableIsClosed` | scripts/check_communication_traceability.py:434-456 | a table is closed where it is written closed if and only if its nesting, told by token values, ends at zero and never falls below |
| `VitestTitles.BalancedClosesItself` | scripts/check_communication_traceability.py:434-456 | so is every balanced table with no literal that is a parenthesis by itself |
| `VitestTitles.FakesMayCancel` | scripts/check_communication_traceability.py:449-453 | and one with the literal "(" before the literal ")" |
| `VitestTitles.PlainCallYieldsItsTitle` | scripts/check_communication_traceability.py:459-508 | a call with any allowed modifiers but no table yields its own title |
| `VitestTitles.TableCallYieldsItsTitle` | scripts/check_communication_traceability.py:459-508 | so does a call with a table that closes itself |
| `VitestTitles.TemplateCallYieldsItsTitle` | scripts/check_communication_traceability.py:489-500 | so does a call whose table is a tagged template, unless the template is "(" by itself |
| `VitestTitles.FakeTemplateHidesTheTitle` | scripts/check_communication_traceability.py:489-500 | that one hides the title, unless what follows the call closes more than the call itself |
| `VitestTitles.FakeParenthesisHidesTheTitle` | scripts/check_communication_traceability.py:449-453 | with the literal ")" alone in the table the title is not found |
| `VitestTitles.FakeOpeningHidesTheTitle` | scripts/check_communication_traceability.py:449-453 | nor with the literal "(" alone, unless what follows the call closes more than the call itself |
| `VitestTitles.TitlesAreTheDeclarations` | scripts/check_communication_traceability.py:511-532 | a title is collected if and only if some declaration in the source has it |
| `VitestTitles.WrittenDeclarationIsCollected` | scripts/check_communication_traceability.py:511-532 | a declaration without a table, written among any comments, space and literals, is collected |
| `VitestTitles.WrittenTableDeclarationIsCollected` | scripts/check_communication_traceability.py:511-532 | so is one with a table that closes itself |
| `RepairStore.Store.ReplaceAtomically` | artifacts/force-sell-reason-20260927/repair_history.py:53-75 | wherever an exception strikes, the target has its old content before the rename and its new content from then on; the temporary file stays behind only if the strike precedes or hits its clean-up |
| `RepairStore.ReplaceAll` | artifacts/force-sell-reason-20260927/repair_history.py:201-205 | after any strike only the files already listed may differ, each old or corrected; without one all are corrected |
| `RepairStore.RollBack` | artifacts/force-sell-reason-20260927/repair_history.py:209-212 | an unstruck rollback gives every listed file its original content and mode, and touches no other |
| `RepairStore.ApplyRepair` | artifacts/force-sell-reason-20260927/repair_history.py:184-212 | all or nothing: refused and completely rolled back repairs leave the store as it was, an applied one corrects every file, and even a struck rollback leaves each file whole |
| `RepairRewrite.OnlyLineChanges` | artifacts/force-sell-reason-20260927/repair_history.py:126-141 | replacing one line of a file leaves it with the same lines but that one |
| `RepairRewrite.CorrectHistory` | artifacts/force-sell-reason-20260927/repair_history.py:126-141 | succeeds if and only if the order id occurs once, with the expected provenance; then only that row changes, and only in its reason |
| `RepairRewrite.CorrectJournal` | artifacts/force-sell-reason-20260927/repair_history.py:143-159 | succeeds if and only if exactly one record matches and it has the expected provenance; then only that record changes |
| `RepairRewrite.CorrectLedger` | artifacts/force-sell-reason-20260927/repair_history.py:161-167 | succeeds if and only if every digest is that of its original prefix; then each becomes that of the corrected prefix |
| `RepairRewrite.PrefixChangesOnlyPastTarget` | artifacts/force-sell-reason-20260927/repair_history.py:161-167 | the input of a digest changes exactly for the prefixes that include the corrected row |

## Left out

- Strategy conditions: the numeric thresholds of conditions.py; every condition is an arbitrary tri-state verdict, so the theorems hold whatever they are.
- The trading context's versions, locks, checkpoints and rollback; timestamps, take-profit price and flush times, which no transition guard of the model reads.
- TradingRuns.RunsKeepInvariant: for timely runs only; the serial event queue's capacity, priorities and dropping of stale events, and the scheduler, are summarised by `TradingLoop.Timely`, whose conditions on buy retries and on withdrawals of Case C's entry the source does not ensure.
- TradingTheorems.OneMachineAtATime: for timely runs only; `TradingScenarios.StrayRetryBreaksOwnership` is a run outside them in which it fails.
- TradingTheorems.ProvenanceNeverConflicts: for timely runs only; `TradingScenarios.ExpiryLocksTheSale` is a run outside them in which it fails.
- TradingRuns.NextKeeps: timely moves only, for the same reason.
- TradingRuns.HandleKeeps: timely events only, for the same reason.
- TradingRegions.OwnershipKeeps: timely events only, for the same reason.
- The controller's risk limits, budgets, order sizing, minimum-notional waiting, journal writes, kill switch and startup reconciliation; a submission is either sent with a new identity or not sent. An exception in an action ends the run.
- TradingTheorems.PositionsAreManaged: quantities are not carried; a position is open or empty, and any number of partial fills may come in between.
- ReplayRuns.FillsAreConserved: exact reals stand for decimals rounded at 34 digits; fees in BNB, which no trace can value, are not modelled.
- ReplayRuntime.Runtime.ApplyStep: the published user-interface events change nothing here; trace schema checks, canonical JSON, digests, symbols, regimes and processing times are not modelled.
- Trade histories read back from disk, realised results and the residual ledger's accounting.
- ArchiveToc.OpenArchive: the pattern of the library name is a parameter; the checks after the table (provenance member, native members, decompression) are not modelled.
- File descriptors: opening, stat identity and stability checks, symlink and inode comparisons, fsync; trees are static while they are hashed.
- AppTraversal.HashFileEntries: a file's length and digest are given; the bounded read loop of one file is not modelled. SHA-256 is not modelled: injectivity is proved of the bytes that are hashed.
- LicenseInventory.ValidateInventory: schema keys, input digests and the fixed limitations text; the collection of observations from package metadata is not modelled beyond the form of its results.
- LogTail.Tailer.ReadNewRecords: JSON decoding is a parameter; process observation and stop conditions of SoakObservations are not modelled.
- Indicators.ScaleInvariance: quantising is an arbitrary function of its argument, the square root an arbitrary non-negative root; comparison with the logged evaluations is not modelled.
- RepairStore.ApplyRepair: death of the process itself, the runtime lock and the evidence checks before the repair; the financial comparison is a verdict.
- JsScanner.Tokenize: letters, digits and blanks are the ASCII ones. Python test declarations, test references and the communication catalogue are not modelled.
- Operating-system tools, signing, packaging, the web interface, credentials and command lines.
