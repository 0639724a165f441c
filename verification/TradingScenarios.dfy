/** Runs from the start of a session: ordinary ones that reach a managed position of either strategy, and the ones in
  * which a borrowed key, a repeated purchase or an expired preparation goes wrong. */
module TradingScenarios {
  import opened Bytes
  import opened TradingTypes
  import opened TradingMachine
  import opened TradingLoop
  import opened TradingRuns
  import opened TradingTheorems
  import opened TradingKeys
  import opened TradingRetries
  import opened TradingMoves
  import opened TradingExpiry

  // Both strategies ready to buy.

  /** A pullback awaited beside an open setup whose low is tracked. */
  predicate Ready(s: System, n: nat) {
    && Calm(s)
    && s.config == Config(TradeManagement, Some(NoPosition), Some(BWaitPullback), Some(CSetup), None, None)
    && s.world.runtime.scope == Some(Named(n)) && s.world.runtime.touchCandle == Some(n)
    && s.world.runtime.setupCandle == Some(n)
    && s.world.runtime.allowSetup && !s.world.runtime.consumed && !s.world.runtime.recovered
    && s.world.runtime.signalled && !s.world.runtime.bPaused
    && s.world.runtime.flushLow.Some? && s.world.runtime.entryPctB.Some?
    && s.world.runtime.exitReason.None? && s.world.runtime.cExit.None? && s.world.runtime.cExitPctB.None?
  }

  /** A scope just opened, in which both strategies may begin. */
  predicate Open(s: System, n: nat) {
    && Calm(s) && s.config == FRESH
    && s.world.runtime.scope == Some(Named(n)) && s.world.runtime.touchCandle == Some(n)
    && s.world.runtime.touchBbw.Some? && s.world.runtime.setupCandle != Some(n)
    && s.world.runtime.allowSetup && !s.world.runtime.consumed && !s.world.runtime.recovered && !s.world.runtime.bPaused
    && s.world.runtime.exitReason.None? && s.world.runtime.cExit.None? && s.world.runtime.cExitPctB.None?
  }

  /** Both signals begin. */
  lemma Begins(from: System, before: seq<Move>, s: System, n: nat) returns (trace: seq<Move>, s': System)
    requires Run(from, before) == Some(s) && Open(s, n)
    ensures Run(from, trace) == Some(s') && KeepsRetries(from, before, trace)
    ensures s'.config == WAITING
    ensures s'.world == s.world.(runtime :=
      s.world.runtime.(setupCandle := Some(n), bEnabled := true, signalled := false, flushLow := None, entryPctB := None))
  {
    hide Run, Waits, LeadsOn;
    Activates(s.world, n);
    var s1 := System(WAITING, s.world.(runtime :=
      s.world.runtime.(setupCandle := Some(n), bEnabled := true, signalled := false)));
    trace := Along(from, before, s, Hears(n, Activate, TOUCH_AND_SETUP, {}), s1);
    SetsUp(s1, n);
    s' := System(s1.config, s1.world.(runtime := Patched(s1.world.runtime, NO_LOW)));
    trace := Along(from, trace, s1, Hears(n, StartSetup, {}, {}), s');
  }

  lemma GetsReady(from: System, before: seq<Move>, s: System, n: nat) returns (trace: seq<Move>, s': System)
    requires Run(from, before) == Some(s) && Open(s, n)
    ensures Run(from, trace) == Some(s') && KeepsRetries(from, before, trace)
    ensures Ready(s', n) && s'.world.runtime.pendingIntent == s.world.runtime.pendingIntent
  {
    hide Run, Waits, LeadsOn;
    var s1: System;
    trace, s1 := Begins(from, before, s, n);
    Tracks(s1, n);
    var s2 := System(s1.config, s1.world.(runtime := Patched(s1.world.runtime, TRACK)));
    trace := Along(from, trace, s1, Hears(n, RetrySetup, {Flush, NewLow}, {Recovery}), s2);
    Signals(s2, n);
    s' := System(s2.config.(bSignal := Some(BWaitPullback)),
                 s2.world.(runtime := Patched(s2.world.runtime, SIGNALLED)));
    trace := Along(from, trace, s2, Hears(n, CandleClosed, SIGNAL, {}), s');
    AwaitsPullback(s', n);
    trace := Along(from, trace, s', Hears(n, StartPullback, {SignalAge}, {Pullback}), s');
  }

  lemma StartsReady() returns (trace: seq<Move>, s: System)
    ensures Run(START, trace) == Some(s) && Ready(s, 1) && s.world.runtime.pendingIntent.None?
  {
    hide Run, Waits, LeadsOn;
    EmptyRun(START);
    Starts();
    trace := Along(START, [], START, Hears(1, LogicStarted, {}, {}), WATCHING);
    Touches();
    var s0 := System(FRESH, World(Anew(NEW_RUNTIME, 1), false, None));
    trace := Along(START, trace, WATCHING, Hears(1, LowerTouched, {LowerPrice}, {}), s0);
    trace, s := GetsReady(START, trace, s0, 1);
  }

  // Case B holds a position.

  /** A purchase that has gone out, filled and settled. */
  lemma FilledAndSettled(from: System, before: seq<Move>, s: System) returns (trace: seq<Move>, s': System)
    requires Run(from, before) == Some(s) && s.world.runtime.owner.None? && s.world.order.Some?
    requires s.world.order.value.side == Buy && !s.world.order.value.forced && !s.world.order.value.stopping
    ensures Run(from, trace) == Some(s') && KeepsRetries(from, before, trace)
    ensures s' == System(s.config, Held(s.world))
  {
    hide Run, Waits, LeadsOn, FillBuy;
    Fills(s);
    var filled := System(s.config, FillBuy(s.world).value);
    s' := System(s.config, Held(s.world));
    trace := Along(from, before, s, BuyFill, filled);
    trace := Along(from, trace, filled, Settle, s');
  }

  /** An ordinary run: Case B buys and holds. */
  lemma CaseBHolds() returns (trace: seq<Move>, s: System)
    ensures Run(START, trace) == Some(s) && s.config.bPosition == Some(BHolding)
    ensures s.world.open && s.world.runtime.owner == Some(CaseB)
  {
    hide Run, Waits, LeadsOn;
    var ready: System;
    trace, ready := StartsReady();
    AsksForB(ready, 1, Sent(1));
    var asked := System(ready.config.(bSignal := Some(BOpenSignalled)),
                        Asked(ready.world, CaseB, KeyFor(CaseB, Plain(1, RetryPullback), ready.world.runtime), Sent(1)));
    trace := Along(START, trace, ready, Deliver(Plain(1, RetryPullback), Seen(1, PULLED_BACK, {}), Sent(1)), asked);
    var held: System;
    trace, held := FilledAndSettled(START, trace, asked);
    s := OpensB(held, 1);
    trace := Along(START, trace, held, Hears(1, BOpened, {}, {}), s);
  }

  // A purchase of Case C, sent or only prepared.

  function AskedC(s: System, n: nat, reply: Reply): System {
    System(s.config.(cSignal := Some(COpenSignalled)),
           Asked(s.world, CaseC, KeyFor(CaseC, Plain(n, RetrySetup), s.world.runtime), reply))
  }

  lemma CaseCAsks(from: System, before: seq<Move>, s: System, n: nat, reply: Reply)
    returns (trace: seq<Move>, s': System)
    requires Run(from, before) == Some(s) && Calm(s) && s.config.cSignal == Some(CSetup)
    requires s.world.runtime.flushLow.Some? && s.world.runtime.entryPctB.Some?
    ensures Run(from, trace) == Some(s') && KeepsRetries(from, before, trace) && s' == AskedC(s, n, reply)
  {
    hide Run, Waits, LeadsOn;
    AsksForC(s, n, reply);
    s' := AskedC(s, n, reply);
    trace := Along(from, before, s, Deliver(Plain(n, RetrySetup), Seen(n, REBOUND, NO_RECOVERY), reply), s');
  }

  const KEY_C := EntryIntent(CaseC, Some(Named(1)), 7)

  /** The key need not name the strategy that submits it: Case C's purchase settles unfilled, and Case B's goes out
    * under its key. */
  lemma CaseBBuysUnderCaseCsKey() returns (trace: seq<Move>, s: System)
    ensures Run(START, trace) == Some(s)
    ensures var actions :=
      Handle(s.config, Plain(1, RetryPullback), View(s.world, Seen(1, PULLED_BACK, {}))).actions;
      && |actions| == 2 && actions[1].Submit? && actions[1].side == Buy && actions[1].strategy == CaseB
      && actions[1].key == KEY_C && !Names(KEY_C, CaseB)
  {
    hide Run, Waits, LeadsOn, Handle;
    var ready: System, asked: System;
    trace, ready := StartsReady();
    trace, asked := CaseCAsks(START, trace, ready, 1, Sent(1));
    SettlesUnfilled(asked);
    s := System(asked.config, Unfilled(asked.world));
    trace := Along(START, trace, asked, Settle, s);
    FailureHeard(s, 1, CaseC);
    trace := Along(START, trace, s, Deliver(Failed(1, CaseC), Seen(1, {}, {}), NotSent), s);
    PullbackAnswered(s, Plain(1, RetryPullback), Seen(1, PULLED_BACK, {}));
  }

  // Case C's position, from its opening to its end.

  /** The context of an open Case C position, with nothing pending. */
  predicate Carries(w: World) {
    Sellable(w) && w.runtime.cExit.None? && w.runtime.cExitPctB.None?
  }

  lemma Trailed(from: System, before: seq<Move>, held: System, n: nat) returns (trace: seq<Move>, s: System)
    requires Run(from, before) == Some(held) && Manages(held, CHolding) && Carries(held.world)
    ensures Run(from, trace) == Some(s) && KeepsRetries(from, before, trace)
    ensures s == System(held.config.(cPosition := Some(CTrailing)),
                        held.world.(runtime := Patched(held.world.runtime, SLOPE)))
  {
    hide Run, Waits, LeadsOn;
    Checks(held, n);
    trace := Along(from, before, held, Hears(n, StartCCheck, {CProfitZone}, {}), held);
    EntersProfit(held, n);
    s := System(held.config.(cPosition := Some(CTrailing)), held.world.(runtime := Patched(held.world.runtime, SLOPE)));
    trace := Along(from, trace, held, Hears(n, CEnterProfit, {CProfitZone}, {}), s);
    Trails(s, n);
    trace := Along(from, trace, s, Hears(n, StartTrailing, {}, {TrailIncrease}), s);
  }

  /** And sold on the falling trail, which the machine has yet to hear. */
  lemma TrailedAndSold(from: System, before: seq<Move>, held: System, n: nat, id: nat)
    returns (trace: seq<Move>, s: System)
    requires Run(from, before) == Some(held) && Manages(held, CHolding) && Carries(held.world)
    ensures Run(from, trace) == Some(s) && KeepsRetries(from, before, trace)
    ensures s == System(held.config.(cPosition := Some(CTrailing)),
                        Sold(held.world.(runtime := Patched(held.world.runtime, SLOPE))))
  {
    hide Run, Waits, LeadsOn, OnSale;
    var trailing: System;
    trace, trailing := Trailed(from, before, held, n);
    Sells(trailing, n, id);
    var selling := System(trailing.config, OnSale(trailing.world, id, Trail, ToCTrailing));
    trace := Along(from, trace, trailing, Sends(n, CDecrease, {}, {TrailIncrease}, id), selling);
    var emptied := SellsOut(selling, trailing.world, id);
    trace := Along(from, trace, selling, SellOut(Some(0.1)), emptied);
    s := System(trailing.config, Sold(trailing.world));
    trace := Along(from, trace, emptied, Settle, s);
  }

  /** Case C's position is closed and handed over, and Case B active again. */
  lemma HandedOver(from: System, before: seq<Move>, s0: System, n: nat, w: World)
    returns (trace: seq<Move>, s: System)
    requires Run(from, before) == Some(s0) && Manages(s0, CTrailing) && s0.config.cSignal == Some(CFinal)
    requires s0.config.bSignal == Some(BWaitPullback) && s0.world == Sold(w)
    ensures Run(from, trace) == Some(s) && KeepsRetries(from, before, trace) && Calm(s)
    ensures s.config == Config(TradeManagement, Some(NoPosition), Some(BWaitPullback), Some(CFinal), None, None)
    ensures s.world.runtime.scope == w.runtime.scope && s.world.runtime.signalled == w.runtime.signalled
    ensures !s.world.runtime.bPaused && s.world.runtime.cExit == Some(Trail) && s.world.runtime.pendingIntent.None?
  {
    hide Run, Waits, LeadsOn;
    Closes(s0, n);
    var s1 := System(s0.config.(cPosition := Some(CClosed)),
                     s0.world.(runtime := Patched(s0.world.runtime, FORGET_PENDING)));
    trace := Along(from, before, s0, Hears(n, CSellFilled, {}, {}), s1);
    Finishes(s1, n);
    var s2 := System(s1.config, s1.world.(runtime := Patched(s1.world.runtime, FINISHED)));
    trace := Along(from, trace, s1, Hears(n, CSellFinished, {}, {}), s2);
    RecoversAfterSale(s2, n);
    var s3 := System(s2.config.(cPosition := Some(CRecovered)),
                     s2.world.(runtime := Patched(s2.world.runtime, RECOVERED)));
    trace := Along(from, trace, s2, Hears(n, CheckRecovery, {Recovery}, {}), s3);
    HandsCaseBOver(s3, n);
    var s4 := System(s3.config.(ownership := Some(NoPosition), cPosition := None),
                     s3.world.(runtime := Patched(s3.world.runtime, HANDED_OVER)));
    trace := Along(from, trace, s3, Hears(n, CheckHandoff, {Handoff}, {}), s4);
    Resumes(s4, n);
    s := System(s4.config, s4.world.(runtime := Patched(s4.world.runtime, RESUMED)));
    trace := Along(from, trace, s4, Hears(n, BResume, {Handoff}, {}), s);
  }

  /** A purchase of Case C out: it fills, and the position opens. */
  lemma OpensUp(from: System, before: seq<Move>, s: System, n: nat) returns (trace: seq<Move>, held: System)
    requires Run(from, before) == Some(s) && s.world.runtime.owner.None? && s.world.order == Some(Purchase(2, CaseC))
    requires s.config.Valid() && s.config.root == TradeManagement && s.config.ownership == Some(NoPosition)
    requires s.config.cSignal == Some(COpenSignalled) && s.world.runtime.Valid()
    requires s.config.bSignal == Some(BWaitPullback) || s.config.bSignal == Some(BOpenSignalled)
    requires s.world.runtime.exitReason.None? && s.world.runtime.cExit.None? && s.world.runtime.cExitPctB.None?
    ensures Run(from, trace) == Some(held) && KeepsRetries(from, before, trace)
    ensures Manages(held, CHolding) && Carries(held.world)
    ensures held.config.bSignal == Some(BWaitPullback) && held.config.cSignal == Some(CFinal)
    ensures held.world.runtime.scope == s.world.runtime.scope && held.world.runtime.signalled == s.world.runtime.signalled
  {
    hide Run, Waits, LeadsOn;
    var bought: System;
    trace, bought := FilledAndSettled(from, before, s);
    held := OpensC(bought, n);
    trace := Along(from, trace, bought, Hears(n, COpened, {}, {}), held);
  }

  /** An ordinary run: Case C holds a position and trails its profit. */
  lemma CaseCTrails() returns (trace: seq<Move>, s: System)
    ensures Run(START, trace) == Some(s) && s.config.cPosition == Some(CTrailing)
    ensures s.world.open && s.world.runtime.owner == Some(CaseC)
  {
    hide Run, Waits;
    var ready: System, asked: System, held: System;
    trace, ready := StartsReady();
    trace, asked := CaseCAsks(START, trace, ready, 1, Sent(2));
    trace, held := OpensUp(START, trace, asked, 1);
    trace, s := Trailed(START, trace, held, 1);
  }

  lemma InvAfter(trace: seq<Move>, s: System)
    requires Run(START, trace) == Some(s)
    ensures Inv(s.config, s.world)
  {
    RunsKeepInvariant(START, trace);
  }

  /** The failure of a purchase is heard: its repetition waits. */
  lemma Fails(before: seq<Move>, s: System, n: nat, strategy: Strategy) returns (trace: seq<Move>)
    requires Run(START, before) == Some(s) && Calm(s) && !s.config.Complete()
    ensures Run(START, trace) == Some(s) && KeepsRetries(START, before, trace)
    ensures Waits(RetryOf(strategy), s.world.runtime.scope, START, trace, false)
  {
    hide Run, Waits, WaitsAfter, LeadsOn;
    FailureHeard(s, n, strategy);
    trace := Scheduled(START, before, s, Deliver(Failed(n, strategy), Seen(n, {}, {}), NotSent), s, RetryOf(strategy),
                       s.world.runtime.scope);
  }

  // Case B's repetition is scheduled, and Case C buys, sells and hands over before it comes.

  lemma CaseBFails() returns (trace: seq<Move>, s: System)
    ensures Run(START, trace) == Some(s) && Waits(BBuyRetry, Some(Named(1)), START, trace, false) && Calm(s)
    ensures s.config == Config(TradeManagement, Some(NoPosition), Some(BOpenSignalled), Some(CSetup), None, None)
    ensures s.world.runtime.scope == Some(Named(1)) && s.world.runtime.signalled
    ensures s.world.runtime.flushLow.Some? && s.world.runtime.entryPctB.Some?
    ensures s.world.runtime.exitReason.None? && s.world.runtime.cExit.None? && s.world.runtime.cExitPctB.None?
  {
    hide Run, Waits, LeadsOn, Seen;
    var ready: System;
    trace, ready := StartsReady();
    AsksForB(ready, 1, Sent(1));
    var out := System(ready.config.(bSignal := Some(BOpenSignalled)),
                      Asked(ready.world, CaseB, KeyFor(CaseB, Plain(1, RetryPullback), ready.world.runtime), Sent(1)));
    trace := Along(START, trace, ready, Deliver(Plain(1, RetryPullback), Seen(1, PULLED_BACK, {}), Sent(1)), out);
    SettlesUnfilled(out);
    s := System(out.config, Unfilled(out.world));
    trace := Along(START, trace, out, Settle, s);
    trace := Fails(trace, s, 1, CaseB);
  }

  lemma CaseBResumes() returns (trace: seq<Move>, s: System)
    ensures Run(START, trace) == Some(s) && Waits(BBuyRetry, s.world.runtime.scope, START, trace, false)
    ensures s.config == Config(TradeManagement, Some(NoPosition), Some(BWaitPullback), Some(CFinal), None, None)
    ensures BRetryReady(s, Seen(1, {SignalAge}, {}))
  {
    hide Run, Waits;
    var failed: System, asked: System, held: System, sold: System;
    trace, failed := CaseBFails();
    trace, asked := CaseCAsks(START, trace, failed, 1, Sent(2));
    trace, held := OpensUp(START, trace, asked, 1);
    trace, sold := TrailedAndSold(START, trace, held, 1, 3);
    trace, s := HandedOver(START, trace, sold, 1, held.world.(runtime := Patched(held.world.runtime, SLOPE)));
  }

  /** Single ownership does not survive a stray repetition. After a run in which every delivery is timely, Case B's
    * repeated purchase is due and in scope, but its signal has gone back to waiting. It is accepted, filled, settled
    * and heard of; then Case B holds the position while its own signal region goes on. */
  lemma StrayRetryBreaksOwnership() returns (trace: seq<Move>, s: System, s': System)
    ensures Run(START, trace) == Some(s) && Waits(BBuyRetry, s.world.runtime.scope, START, trace, false)
    ensures Bought(s, Plain(1, BBuyRetry), Seen(1, {SignalAge}, {}), 4, Plain(1, BOpened), Seen(1, {}, {}), NotSent)
         == Some(s')
    ensures s'.config.bPosition == Some(BHolding) && s'.world.open && s'.world.runtime.owner == Some(CaseB)
    ensures s'.config.bSignal == Some(BWaitPullback) && !OneMachine(s')
  {
    trace, s := CaseBResumes();
    InvAfter(trace, s);
    hide Run, Inv, BRetryReady, Waits, Bought, OneMachine, Seen;
    BRetryDecides(s, Plain(1, BBuyRetry), Seen(1, {SignalAge}, {}), 4, Plain(1, BOpened), Seen(1, {}, {}), NotSent);
    s' := Bought(s, Plain(1, BBuyRetry), Seen(1, {SignalAge}, {}), 4, Plain(1, BOpened), Seen(1, {}, {}), NotSent).value;
  }

  // Case C's preparation fails, and another touch opens a new scope before it is repeated.

  lemma PreparationFails() returns (trace: seq<Move>, s: System)
    ensures Run(START, trace) == Some(s) && Waits(CBuyRetry, Some(Named(1)), START, trace, false) && Calm(s)
    ensures s.world.runtime.scope == Some(Named(1)) && s.world.runtime.touchCandle == Some(1)
    ensures s.world.runtime.setupCandle == Some(1) && !s.world.runtime.consumed
    ensures s.world.runtime.exitReason.None? && s.world.runtime.pendingIntent == Some(KEY_C)
  {
    hide Run, Waits;
    var ready: System;
    trace, ready := StartsReady();
    trace, s := CaseCAsks(START, trace, ready, 1, NotSent);
    trace := Fails(trace, s, 1, CaseC);
  }

  lemma OutlivesItsScope() returns (trace: seq<Move>, s: System)
    ensures Run(START, trace) == Some(s) && Open(s, 2) && Waits(CBuyRetry, Some(Named(1)), START, trace, false)
    ensures s.world.runtime.pendingIntent == Some(KEY_C)
  {
    hide Run, Waits, LeadsOn, Seen;
    var failed: System;
    trace, failed := PreparationFails();
    TouchesAnew(failed, 2);
    s := System(FRESH, failed.world.(runtime := Anew(failed.world.runtime, 2)));
    trace := Along(START, trace, failed, Hears(2, NewLowerTouched, {LowerPrice}, {}), s);
  }

  function Expiry(): Event { Event(PreparationExpired, Expired(CaseC), 7, Some(Named(2)), None, false) }

  /** There the market recovers without Case C, which is spent. Then the old repetition, with the old key still kept,
    * is found to have expired; and Case C buys in the scope that it is done with. */
  lemma ExpiryReopensASpentSetup() returns (trace: seq<Move>, s: System, more: seq<Move>, t: System)
    ensures Run(START, trace) == Some(s) && Waits(CBuyRetry, Some(Named(1)), START, trace, false)
    ensures s.world.runtime.scope == Some(Named(2)) && s.world.runtime.pendingIntent == Some(KEY_C)
    ensures s.config.cSignal == Some(CFinal) && s.world.runtime.consumed && s.world.runtime.recovered
    ensures DeliverTo(s, Expiry(), Seen(2, {}, {}), NotSent) == Some(AfterExpiry(s))
    ensures Run(AfterExpiry(s), more) == Some(t) && t.world.runtime.consumed && t.world.runtime.recovered
    ensures var e, m := Plain(2, RetrySetup), Seen(2, REBOUND, NO_RECOVERY);
      Timely(t.config, t.world, e) && CaseCBuys(Handle(t.config, e, View(t.world, m)).actions)
  {
    hide Run, Waits, LeadsOn, Handle, DeliverTo, CaseCBuys, Timely, Seen, Inv;
    var opened2: System, begun: System;
    trace, opened2 := OutlivesItsScope();
    trace, begun := Begins(START, trace, opened2, 2);
    Recovers(begun, 2);
    s := System(begun.config.(cSignal := Some(CFinal)), begun.world.(runtime := Patched(begun.world.runtime, SPENT)));
    trace := Along(START, trace, begun, Hears(2, RetrySetup, {Recovery}, {}), s);
    InvAfter(trace, s);
    ExpiryHandled(s, Expiry(), Seen(2, {}, {}), NotSent);
    more, t := Rebuys(AfterExpiry(s), 2);
  }

  /** There Case C trades and hands over, and Case B's preparation fails in its turn. Then the old repetition is found to
    * have expired; Case C buys once more in the scope in which it has traded, and cannot publish why it sells. */
  lemma ExpiryLocksTheSale() returns (trace: seq<Move>, s: System, more: seq<Move>, t: System)
    ensures Run(START, trace) == Some(s) && Waits(CBuyRetry, Some(Named(1)), START, trace, false)
    ensures s.world.runtime.scope == Some(Named(2)) && s.world.runtime.pendingIntent.Some?
    ensures s.config.bSignal == Some(BOpenSignalled) && s.world.runtime.cExit == Some(Trail)
    ensures DeliverTo(s, Expiry(), Seen(2, {}, {}), NotSent) == Some(AfterExpiry(s))
    ensures Run(AfterExpiry(s), more) == Some(t) && t.config.root == TradeManagement && Selling(t.world)
    ensures forall pctB :: FillOut(t.world, pctB).None?
  {
    hide Run, Waits, LeadsOn, DeliverTo, Seen, Inv, FillOut;
    var resumed: System;
    trace, resumed := TradesInTheNextScope();
    AsksForB(resumed, 2, NotSent);
    s := System(resumed.config.(bSignal := Some(BOpenSignalled)),
                Asked(resumed.world, CaseB, KeyFor(CaseB, Plain(2, RetryPullback), resumed.world.runtime), NotSent));
    trace := Along(START, trace, resumed, Deliver(Plain(2, RetryPullback), Seen(2, PULLED_BACK, {}), NotSent), s);
    FailureHeard(s, 2, CaseB);
    trace := Along(START, trace, s, Deliver(Failed(2, CaseB), Seen(2, {}, {}), NotSent), s);
    InvAfter(trace, s);
    ExpiryHandled(s, Expiry(), Seen(2, {}, {}), NotSent);
    NoExitYet(s);
    more, t := Locked(AfterExpiry(s), 2);
  }

  lemma NoExitYet(s: System)
    requires Inv(s.config, s.world) && Calm(s)
    ensures AfterExpiry(s).world.runtime.exitReason.None? && AfterExpiry(s).world.runtime.pendingIntent.None?
    ensures AfterExpiry(s).world.runtime.cExit == s.world.runtime.cExit
  {
  }

  lemma TradesInTheNextScope() returns (trace: seq<Move>, s: System)
    ensures Run(START, trace) == Some(s) && Waits(CBuyRetry, Some(Named(1)), START, trace, false) && Calm(s)
    ensures s.config == Config(TradeManagement, Some(NoPosition), Some(BWaitPullback), Some(CFinal), None, None)
    ensures s.world.runtime.scope == Some(Named(2)) && s.world.runtime.pendingIntent.None?
    ensures !s.world.runtime.bPaused && s.world.runtime.cExit == Some(Trail)
  {
    hide Run, Waits;
    var next: System, ready: System, asked: System, held: System, sold: System;
    trace, next := OutlivesItsScope();
    trace, ready := GetsReady(START, trace, next, 2);
    trace, asked := CaseCAsks(START, trace, ready, 2, Sent(2));
    trace, held := OpensUp(START, trace, asked, 2);
    trace, sold := TrailedAndSold(START, trace, held, 2, 3);
    trace, s := HandedOver(START, trace, sold, 2, held.world.(runtime := Patched(held.world.runtime, SLOPE)));
  }

  // How far a repetition of Case C without its signal would lead. No run is known in which one is due.

  /** A repetition of Case C that comes while the setup is still open is accepted, filled, settled and heard of. From
    * there on everything is timely: the position is trailed and sold, and if the setup is checked before the machine
    * hears of the sale, it buys again. */
  lemma StrayRetryWouldBuyBesideAPosition()
    returns (ready: seq<Move>, s: System, held: System, trace: seq<Move>, t: System)
    ensures Run(START, ready) == Some(s) && CRetryReady(s) && s.config.cSignal == Some(CSetup)
    ensures Bought(s, Plain(1, CBuyRetry), Seen(1, {}, {}), 1, Plain(1, COpened), Seen(1, {}, {}), NotSent) == Some(held)
    ensures !OneMachine(held)
    ensures Run(held, trace) == Some(t) && t.config.cPosition == Some(CTrailing)
    ensures var e, m := Plain(1, RetrySetup), Seen(1, REBOUND, NO_RECOVERY);
      && Timely(t.config, t.world, e)
      && HasBuy(Handle(t.config, e, View(t.world, m)).actions)
      && Handle(t.config, e, View(t.world, m)).after.cPosition == Some(CTrailing)
  {
    ready, s := StartsReady();
    InvAfter(ready, s);
    hide Run, Bought, Inv, Seen, OneMachine, Waits, Handle, HasBuy, Timely;
    CRetryDecides(s, Plain(1, CBuyRetry), Seen(1, {}, {}), 1, Plain(1, COpened), Seen(1, {}, {}), NotSent);
    held := Bought(s, Plain(1, CBuyRetry), Seen(1, {}, {}), 1, Plain(1, COpened), Seen(1, {}, {}), NotSent).value;
    EmptyRun(held);
    trace, t := TrailedAndSold(held, [], held, 1, 2);
    OpenSetupNow(t, held.world.(runtime := Patched(held.world.runtime, SLOPE)));
    OpenSetupBuysBesideAPosition(t.config, Plain(1, RetrySetup), View(t.world, Seen(1, REBOUND, NO_RECOVERY)));
  }

  lemma OpenSetupNow(s: System, w: World)
    requires Manages(s, CTrailing) && s.config.cSignal == Some(CSetup) && s.world == Sold(w)
    requires w.runtime.flushLow.Some? && w.runtime.entryPctB.Some?
    ensures Timely(s.config, s.world, Plain(1, RetrySetup))
    ensures var m := Seen(1, REBOUND, NO_RECOVERY);
      Recovering(View(s.world, m)) && m.Met(EntryLimit) && m.Unmet(NewLow)
  {
    ReboundSeen(1);
    hide Seen;
  }
}
