/** What an expired preparation does when its signal is gone: it reopens Case C's setup, whatever has become of it. */
module TradingExpiry {
  import opened Bytes
  import opened TradingTypes
  import opened TradingMachine
  import opened TradingLoop
  import opened TradingRegions
  import opened TradingRuns
  import opened TradingProperties
  import opened TradingErrors
  import opened TradingTheorems
  import opened TradingMoves

  /** In this scope Case C has traded, or the market has recovered without it. */
  predicate Spent(r: Runtime) { r.recovered || r.cExit.Some? }

  /** A withdrawal keeps the invariant exactly if its strategy holds nothing and, for Case C, is not spent. */
  lemma WithdrawalKeepsIff(s: System, e: Event, m: Market, reply: Reply)
    requires Inv(s.config, s.world) && s.config.root == TradeManagement && s.config.ownership == Some(NoPosition)
    requires Withdraws(s.config, e) && s.world.order.None?
    ensures DeliverTo(s, e, m, reply).Some?
    ensures var s' := DeliverTo(s, e, m, reply).value;
      Inv(s'.config, s'.world)
      <==> s.world.runtime.owner != Some(e.payload.strategy)
           && (e.payload.strategy == CaseC ==> !Spent(s.world.runtime))
  {
    WithdrawnEntryIsForgotten(s, e, m, reply);
    hide DeliverTo, Withdraws;
    WithdrawnInvIff(s, e.payload.strategy);
  }

  lemma WithdrawnInvIff(s: System, strategy: Strategy)
    requires Inv(s.config, s.world) && s.config.root == TradeManagement && s.config.ownership == Some(NoPosition)
    requires s.world.order.None?
    ensures Inv(Withdrawn(s.config, strategy), s.world.(runtime := s.world.runtime.(
              pendingStrategy := None, pendingSide := None, pendingAttempt := None, pendingIntent := None, phase := Idle)))
       <==> s.world.runtime.owner != Some(strategy) && (strategy == CaseC ==> !Spent(s.world.runtime))
  {
  }

  // Case C buys only while it is not spent.

  /** With its signal region ended and its retry refused, Case C buys nothing. */
  lemma EndedBuysNothing(s: Config, e: Event, c: Context)
    requires s.Valid() && s.root == TradeManagement && s.ownership == Some(NoPosition) && s.cSignal == Some(CFinal)
    requires e.kind == CBuyRetry ==> OwnershipStep(s, e, c).None?
    ensures !CaseCBuys(Regions(s, e, c).actions)
  {
    var one := RegionOne(s, e, c);
    assert one == OwnershipStep(s, ForPosition(s, e), c) && ForPosition(s, e) == e;
    OwnershipBuysNoC(s, e, c);
    var first := Then(Outcome([], s, [], false), one);
    if !ForSignals(e.kind) && !IsOpened(e) {
      SignalsOnlyForThem(first.after, e, c);
      hide RegionOne, RegionC, RegionB, CaseCBuys, OwnershipStep;
      assert first.actions == if one.Some? then one.value.actions else [];
    } else {
      OwnershipLeavesC(s, e, c);
      assert RegionC(first.after, e, c).None?;
      var b := RegionB(first.after, e, c);
      RegionBBuys(first.after, e, c);
      hide RegionOne, RegionC, RegionB, OwnershipStep;
      assert first.actions == if one.Some? then one.value.actions else [];
      NoCAppended(first.actions, if b.Some? then b.value.actions else []);
    }
  }

  lemma OwnershipBuysNoC(s: Config, e: Event, c: Context)
    requires e.kind == CBuyRetry ==> OwnershipStep(s, e, c).None?
    ensures !CaseCBuys([])
    ensures OwnershipStep(s, e, c).Some? ==> !CaseCBuys(OwnershipStep(s, e, c).value.actions)
  {
    hide EntryWithdrawn;
    WithdrawalForgets(s, e, c);
  }

  lemma OwnershipLeavesC(s: Config, e: Event, c: Context)
    requires ForSignals(e.kind) || IsOpened(e)
    ensures OwnershipStep(s, e, c).Some? ==>
              OwnershipStep(s, e, c).value.after.cSignal == s.cSignal && !OwnershipStep(s, e, c).value.exclusive
  {
  }

  lemma NoCAppended(xs: seq<Action>, ys: seq<Action>)
    requires !CaseCBuys(xs) && forall i :: 0 <= i < |ys| && ys[i].Submit? ==> ys[i].strategy == CaseB
    ensures !CaseCBuys(xs + ys)
  {
  }

  /** In every state of the invariant, a timely purchase of Case C is one of an unspent scope. */
  lemma CaseCBuysUnspent(s: System, e: Event, m: Market)
    requires Inv(s.config, s.world) && Timely(s.config, s.world, e)
    requires CaseCBuys(Handle(s.config, e, View(s.world, m)).actions)
    ensures !Spent(s.world.runtime)
  {
    var c := View(s.world, m);
    assert HasBuy(Handle(s.config, e, c).actions);
    BuysWhenFree(s, e, m);
    GlobalQuiet(s.config, e, c);
    assert s.config.Valid() && !s.world.runtime.pendingOrder.Some?;
    if s.config.cSignal == Some(CFinal) {
      var e' := Reread(e);
      RetryRefused(s, e', c);
      EndedBuysNothing(s.config, e', c);
      hide GlobalStep, Regions, Timely, Inv;
      NoCAppended(Regions(s.config, e', c).actions, [FollowUp(ManagementCompleted, c)]);
    }
  }

  lemma RetryRefused(s: System, e: Event, c: Context)
    requires c.runtime == s.world.runtime && s.config.cSignal == Some(CFinal)
    requires e.kind == CBuyRetry ==> Timely(s.config, s.world, e)
    ensures e.kind == CBuyRetry ==> OwnershipStep(s.config, e, c).None?
  {
  }

  // What an expiry decides.

  /** From here on, whatever timely happens, Case C buys in unspent scopes only. */
  ghost predicate BuysUnspentFrom(s: System) {
    forall moves, t, e, m ::
      Run(s, moves) == Some(t) && Timely(t.config, t.world, e) && CaseCBuys(Handle(t.config, e, View(t.world, m)).actions)
      ==> !Spent(t.world.runtime)
  }

  /** From here on, whatever timely happens, a sale that empties the position can publish its reason. */
  ghost predicate PublishesFrom(s: System) {
    forall moves, t, pctB ::
      Run(s, moves) == Some(t) && t.config.root == TradeManagement && Selling(t.world) ==> FillOut(t.world, pctB).Some?
  }

  lemma InvPromises(s: System)
    requires Inv(s.config, s.world)
    ensures BuysUnspentFrom(s) && PublishesFrom(s)
  {
    forall moves, t, e, m |
      Run(s, moves) == Some(t) && Timely(t.config, t.world, e) && CaseCBuys(Handle(t.config, e, View(t.world, m)).actions)
      ensures !Spent(t.world.runtime)
    {
      RunsKeepInvariant(s, moves);
      CaseCBuysUnspent(t, e, m);
    }
    forall moves, t, pctB | Run(s, moves) == Some(t) && t.config.root == TradeManagement && Selling(t.world)
      ensures FillOut(t.world, pctB).Some?
    {
      RunsKeepInvariant(s, moves);
      SalePublishes(t, pctB);
    }
  }

  /** A preparation of Case C that expires while nothing is held or pending. */
  predicate Expires(s: System, e: Event) {
    && Calm(s) && e.kind == PreparationExpired && (e.payload.Expired? || e.payload.Blocked?)
    && e.payload.strategy == CaseC
  }

  /** The system after it. */
  function AfterExpiry(s: System): System {
    System(s.config.(cSignal := Some(CSetup)), s.world.(runtime := Patched(s.world.runtime, UNRESERVE)))
  }

  lemma ExpiryHandled(s: System, e: Event, m: Market, reply: Reply)
    requires Inv(s.config, s.world) && Expires(s, e)
    ensures DeliverTo(s, e, m, reply) == Some(AfterExpiry(s)) && Calm(AfterExpiry(s))
  {
    WithdrawnEntryIsForgotten(s, e, m, reply);
    hide DeliverTo;
  }

  /** The setup reopened: another low, and Case C is about to buy. */
  lemma Rebuys(s: System, n: nat) returns (trace: seq<Move>, t: System)
    requires Calm(s) && s.config.cSignal == Some(CSetup)
    ensures Run(s, trace) == Some(t) && Calm(t) && t.config == s.config
    ensures t.world == s.world.(runtime := Patched(s.world.runtime, TRACK))
    ensures var e, m := Plain(n, RetrySetup), Seen(n, REBOUND, NO_RECOVERY);
      Timely(t.config, t.world, e) && CaseCBuys(Handle(t.config, e, View(t.world, m)).actions)
  {
    EmptyRun(s);
    Tracks(s, n);
    t := System(s.config, s.world.(runtime := Patched(s.world.runtime, TRACK)));
    hide Run, LeadsOn, Handle, CaseCBuys, Timely, Seen;
    trace := Along(s, [], s, Hears(n, RetrySetup, {Flush, NewLow}, {Recovery}), t);
    AboutToBuy(t, n);
  }

  lemma AboutToBuy(t: System, n: nat)
    requires Calm(t) && t.config.cSignal == Some(CSetup)
    requires t.world.runtime.flushLow.Some? && t.world.runtime.entryPctB.Some?
    ensures var e, m := Plain(n, RetrySetup), Seen(n, REBOUND, NO_RECOVERY);
      Timely(t.config, t.world, e) && CaseCBuys(Handle(t.config, e, View(t.world, m)).actions)
  {
    var e, m := Plain(n, RetrySetup), Seen(n, REBOUND, NO_RECOVERY);
    Rebounds(t, n);
    hide Seen, Timely, Recovering;
    SetupAnswered(t, e, m);
    hide Handle, EntryOrder, CaseCBuys;
    EntryIsBought(CaseC, e, View(t.world, m), []);
  }

  /** An expired preparation of Case C leaves Case C buying in unspent scopes only exactly if the scope was not spent
    * when it expired; then it also leaves every sale publishable. If Case C has traded in the scope, it need not. */
  lemma ExpiryDecides(s: System, e: Event, m: Market, reply: Reply)
    requires Inv(s.config, s.world) && Expires(s, e)
    ensures DeliverTo(s, e, m, reply) == Some(AfterExpiry(s))
    ensures BuysUnspentFrom(AfterExpiry(s)) <==> !Spent(s.world.runtime)
    ensures !Spent(s.world.runtime) ==> PublishesFrom(AfterExpiry(s))
    ensures s.world.runtime.cExit.Some? ==> !PublishesFrom(AfterExpiry(s))
  {
    ExpiryHandled(s, e, m, reply);
    hide DeliverTo, BuysUnspentFrom, PublishesFrom;
    if !Spent(s.world.runtime) {
      UnspentKeeps(s, e, m, reply);
      InvPromises(AfterExpiry(s));
    } else {
      SpentBuys(s);
      if s.world.runtime.cExit.Some? {
        TradedLocks(s);
      }
    }
  }

  lemma UnspentKeeps(s: System, e: Event, m: Market, reply: Reply)
    requires Inv(s.config, s.world) && Expires(s, e) && !Spent(s.world.runtime)
    ensures Inv(AfterExpiry(s).config, AfterExpiry(s).world)
  {
    ExpiryHandled(s, e, m, reply);
    hide DeliverTo, Inv;
    WithdrawalKeepsIff(s, e, m, reply);
  }

  lemma SpentBuys(s: System)
    requires Calm(AfterExpiry(s)) && Spent(s.world.runtime)
    ensures !BuysUnspentFrom(AfterExpiry(s))
  {
    var trace, t := Rebuys(AfterExpiry(s), 1);
    hide Run, Handle, Timely;
    assert Spent(t.world.runtime);
  }

  /** Case C buys again beside the reason of its last trade, and has to sell for another. */
  lemma Locked(s: System, n: nat) returns (trace: seq<Move>, t: System)
    requires Calm(s) && s.config.cSignal == Some(CSetup) && s.world.runtime.cExit.Some?
    requires s.world.runtime.pendingIntent.None? && s.world.runtime.exitReason.None?
    ensures Run(s, trace) == Some(t) && t.config.root == TradeManagement && Selling(t.world)
    ensures forall pctB :: FillOut(t.world, pctB).None?
  {
    hide Run, Handle, LeadsOn, FillBuy, FillOut, Exec, ExecAll, Waits, Seen;
    EmptyRun(s);
    Tracks(s, n);
    var s1 := System(s.config, s.world.(runtime := Patched(s.world.runtime, TRACK)));
    trace := Along(s, [], s, Hears(n, RetrySetup, {Flush, NewLow}, {Recovery}), s1);
    AsksForC(s1, n, Sent(1));
    var s2 := System(s1.config.(cSignal := Some(COpenSignalled)),
                     Asked(s1.world, CaseC, KeyFor(CaseC, Plain(n, RetrySetup), s1.world.runtime), Sent(1)));
    trace := Along(s, trace, s1, Deliver(Plain(n, RetrySetup), Seen(n, REBOUND, NO_RECOVERY), Sent(1)), s2);
    Fills(s2);
    var s3 := System(s2.config, FillBuy(s2.world).value);
    var s4 := System(s2.config, Held(s2.world));
    trace := Along(s, trace, s2, BuyFill, s3);
    trace := Along(s, trace, s3, Settle, s4);
    var s5 := OpensC(s4, n);
    trace := Along(s, trace, s4, Hears(n, COpened, {}, {}), s5);
    var reason := if s.world.runtime.cExit == Some(StopLoss) then TimeExit else StopLoss;
    SellsUrgently(s5, n, 2, reason);
    t := System(s5.config, OnSale(s5.world, 2, reason, ToCHolding));
    trace := Along(s, trace, s5, Sends(n, Urgency(reason), {CStopSlope, CTimeLimit}, {}, 2), t);
    forall pctB
      ensures Selling(t.world) && FillOut(t.world, pctB).None?
    {
      CannotPublish(s5.world, 2, reason, ToCHolding, pctB);
    }
    CannotPublish(s5.world, 2, reason, ToCHolding, None);
  }

  lemma TradedLocks(s: System)
    requires Inv(s.config, s.world) && Calm(s) && Calm(AfterExpiry(s)) && s.world.runtime.cExit.Some?
    ensures !PublishesFrom(AfterExpiry(s))
  {
    assert s.world.runtime.exitReason.None?;
    var trace, t := Locked(AfterExpiry(s), 1);
    hide Run, FillOut, Selling;
    assert FillOut(t.world, None).None?;
  }
}
