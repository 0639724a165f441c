/** What every timely run of the trading loop promises, and where the promises depend on when an event comes. */
module TradingTheorems {
  import opened Bytes
  import opened TradingTypes
  import opened TradingMachine
  import opened TradingLoop
  import opened TradingSafety
  import opened TradingRegions
  import opened TradingRuns
  import opened TradingProperties
  import opened TradingErrors

  /** Reachable from the start of a session by a timely run. */
  ghost predicate Reachable(s: System) {
    exists moves :: Run(START, moves) == Some(s)
  }

  lemma ReachableInv(s: System)
    requires Reachable(s)
    ensures Inv(s.config, s.world)
  {
    var moves :| Run(START, moves) == Some(s);
    RunsKeepInvariant(START, moves);
  }

  /** An open position always has a manager: the machine of the strategy that owns it, or, until the machine hears
    * that its purchase filled, the signal that asked for the purchase. Outside trade management there is none. */
  lemma PositionsAreManaged(s: System)
    requires Reachable(s)
    ensures s.world.open <==> s.world.runtime.owner.Some?
    ensures s.config.root == NotStarted || s.config.root == LowerTouchWatch || s.config.root == LogicTerminated ==>
              !s.world.open && s.world.order.None?
    ensures s.config.root == TradeManagement && s.world.runtime.owner == Some(CaseB) ==>
              || s.config.bPosition == Some(BHolding) || s.config.bPosition == Some(BTrendHold)
              || (s.config.ownership == Some(NoPosition) && Signalled(s.config, CaseB))
    ensures s.config.root == TradeManagement && s.world.runtime.owner == Some(CaseC) ==>
              || s.config.cPosition == Some(CHolding) || s.config.cPosition == Some(CTrailing)
              || (s.config.ownership == Some(NoPosition) && Signalled(s.config, CaseC))
  {
    ReachableInv(s);
  }

  /** At most one position machine is active, and it is the owner's. While Case B's is, both signal regions have ended;
    * while Case C's is, its own has, and Case B's entry is paused or over. */
  predicate OneMachine(s: System) {
    && (s.config.bPosition.None? || s.config.cPosition.None?)
    && (s.config.bPosition.Some? ==>
          && (s.world.runtime.owner.None? || s.world.runtime.owner == Some(CaseB))
          && s.config.bSignal == Some(BFinal) && s.config.cSignal == Some(CFinal))
    && (s.config.cPosition.Some? ==>
          && (s.world.runtime.owner.None? || s.world.runtime.owner == Some(CaseC))
          && s.config.cSignal == Some(CFinal) && s.config.bSignal != Some(BOpenSignalled)
          && (s.world.runtime.bPaused || s.config.bSignal == Some(BFinal)))
  }

  lemma OneMachineAtATime(s: System)
    requires Reachable(s)
    ensures OneMachine(s)
  {
    ReachableInv(s);
  }

  /** At most one order, and it never crosses the owner: a purchase adds to its own strategy's position, and a sale
    * sells the owner's for the reason recorded with it. */
  lemma OneOrderForOneOwner(s: System)
    requires Reachable(s) && s.config.root == TradeManagement && s.world.order.Some?
    ensures var o, r := s.world.order.value, s.world.runtime;
      && (o.side == Buy ==> r.owner.None? || r.owner == Some(o.strategy))
      && (o.side == Buy ==> s.config.ownership == Some(NoPosition) && Signalled(s.config, o.strategy))
      && (o.side == Sell ==> o.reason.Some? && o.reason == r.exitReason && o.pctB == r.exitPctB)
      && (o.side == Sell ==>
            s.config.ownership == Some(if o.strategy == CaseB then CaseBPosition else CaseCPosition))
  {
    ReachableInv(s);
  }

  /** The reason for a sale can always be published: the conflicts that would lock the session do not arise. */
  lemma ProvenanceNeverConflicts(s: System, pctB: Option<real>)
    requires Reachable(s) && s.config.root == TradeManagement && Selling(s.world)
    ensures FillOut(s.world, pctB).Some?
    ensures var r := FillOut(s.world, pctB).value.runtime;
      ExitOf(r, s.world.order.value.strategy) == s.world.runtime.exitReason
  {
    ReachableInv(s);
    hide Reachable;
    SalePublishes(s, pctB);
  }

  lemma SalePublishes(s: System, pctB: Option<real>)
    requires Inv(s.config, s.world) && s.config.root == TradeManagement && Selling(s.world)
    ensures FillOut(s.world, pctB).Some?
    ensures var r := FillOut(s.world, pctB).value.runtime;
      ExitOf(r, s.world.order.value.strategy) == s.world.runtime.exitReason
  {
    assert Managing(s.world, s.world.order.value.strategy,
                    if s.config.bPosition == Some(BHolding) then ToBHolding
                    else if s.config.bPosition == Some(BTrendHold) then ToBTrendHold
                    else if s.config.cPosition == Some(CHolding) then ToCHolding
                    else ToCTrailing);
  }

  lemma ManagedBuysNothing(s: Config, e: Event, c: Context)
    requires s.Valid() && s.root == TradeManagement && s.ownership != Some(NoPosition)
    requires s.cSignal == Some(CFinal) && (c.runtime.bPaused || s.bSignal == Some(BFinal))
    ensures !HasBuy(Regions(s, e, c).actions)
  {
    RegionOneOnlySells(s, e, c);
    var first := Then(Outcome([], s, [], false), RegionOne(s, e, c));
    if !first.exclusive {
      hide RegionOne;
      assert RegionC(first.after, e, c).None?;
      var b := RegionB(first.after, e, c);
      assert b.Some? ==> !HasBuy(b.value.actions) by { PausedBuysNothing(first.after, e, c); }
      NoBuyAppended(first.actions, if b.Some? then b.value.actions else []);
    }
  }

  lemma NoBuyAppended(xs: seq<Action>, ys: seq<Action>)
    requires !HasBuy(xs) && !HasBuy(ys)
    ensures !HasBuy(xs + ys)
  {
  }

  /** A position's machine never buys, and leaves both signals alone unless it ends the microstep. */
  predicate OnlySells(s: Config, o: Option<Outcome>) {
    o.Some? ==>
      && !HasBuy(o.value.actions)
      && (o.value.exclusive || (o.value.after.cSignal == s.cSignal && o.value.after.bSignal == s.bSignal))
  }

  lemma BHoldingSells(s: Config, e: Event, c: Context)
    ensures OnlySells(s, BHoldingStep(s, e, c))
  {
    hide BExitGuard, BExitChoice;
  }

  lemma CSharedSells(s: Config, e: Event, c: Context, back: ReturnState, n: nat, k: nat)
    ensures OnlySells(s, CTimeExitStep(s, e, c, back, n)) && OnlySells(s, CRetryStep(s, e, c, back, k))
  {
  }

  lemma CHoldingSells(s: Config, e: Event, c: Context)
    ensures OnlySells(s, CHoldingStep(s, e, c))
  {
    hide CHoldingChoice, CTimeExitStep, CRetryStep;
    CSharedSells(s, e, c, ToCHolding, 21, 20);
  }

  lemma CSharedFollows(s: Config, e: Event, c: Context, back: ReturnState, n: nat, k: nat)
    ensures CTimeExitStep(s, e, c, back, n).Some? ==> CTimeExitStep(s, e, c, back, n).value.after == s
    ensures CRetryStep(s, e, c, back, k).Some? ==> CRetryStep(s, e, c, back, k).value.after == s
  {
    hide ExitOrder;
  }

  lemma CTrailingAfter(s: Config, e: Event, c: Context)
    ensures CTrailingStep(s, e, c).Some? ==> CTrailingStep(s, e, c).value.after == s
  {
    CSharedFollows(s, e, c, ToCTrailing, 23, 22);
    hide ExitOrder, CTrailingChoice, CTimeExitStep, CRetryStep, CanStartExit;
  }

  lemma ExitsBuyNothing(strategy: Strategy, e: Event, c: Context, o: Option<Outcome>)
    requires Exits(strategy, e, c, o)
    ensures o.Some? ==> !HasBuy(o.value.actions)
  {
  }

  lemma CTrailingSells(s: Config, e: Event, c: Context)
    ensures OnlySells(s, CTrailingStep(s, e, c))
  {
    CTrailingExits(s, e, c);
    CTrailingAfter(s, e, c);
    ExitsBuyNothing(CaseC, e, c, CTrailingStep(s, e, c));
    hide CTrailingStep, Exits, HasBuy;
  }

  lemma BTrendSells(s: Config, e: Event, c: Context)
    ensures OnlySells(s, BTrendStep(s, e, c))
  {
    hide TrendWeakened;
  }

  lemma BPositionSells(s: Config, e: Event, c: Context)
    requires s.bPosition.Some?
    ensures OnlySells(s, BPositionStep(s, e, c))
  {
    hide BHoldingStep, BTrendStep, ScopeFor;
    BHoldingSells(s, e, c);
    BTrendSells(s, e, c);
  }

  lemma CPositionSells(s: Config, e: Event, c: Context)
    requires s.cPosition.Some?
    ensures OnlySells(s, CPositionStep(s, e, c))
  {
    hide CHoldingStep, CTrailingStep, HandsOver;
    CHoldingSells(s, e, c);
    CTrailingSells(s, e, c);
  }

  lemma RegionOneOnlySells(s: Config, e: Event, c: Context)
    requires s.Valid() && s.root == TradeManagement && s.ownership != Some(NoPosition)
    ensures OnlySells(s, RegionOne(s, e, c))
  {
    hide BPositionStep, CPositionStep, OnlySells;
    var e' := ForPosition(s, e);
    if s.bPosition.Some? {
      BPositionSells(s, e', c);
    } else {
      CPositionSells(s, e', c);
    }
  }

  lemma PausedBuysNothing(s: Config, e: Event, c: Context)
    requires c.runtime.bPaused || s.bSignal == Some(BFinal)
    ensures RegionB(s, e, c).Some? ==> !HasBuy(RegionB(s, e, c).value.actions)
  {
    hide SignalCandle, HandsOver;
  }

  /** A purchase is asked for only when nothing is held, no order is pending and no position is managed; so never
    * twice, and never by Case B while Case C owns the position. */
  lemma BuysOnlyWhenFree(s: System, e: Event, m: Market)
    requires Reachable(s) && Timely(s.config, s.world, e)
    requires HasBuy(Handle(s.config, e, View(s.world, m)).actions)
    ensures s.config.root == TradeManagement && s.config.ownership == Some(NoPosition)
    ensures !s.world.open && s.world.order.None? && s.world.runtime.owner.None?
  {
    ReachableInv(s);
    hide Reachable, Handle, Timely;
    BuysWhenFree(s, e, m);
  }

  lemma BuysWhenFree(s: System, e: Event, m: Market)
    requires Inv(s.config, s.world) && HasBuy(Handle(s.config, e, View(s.world, m)).actions)
    ensures s.config.root == TradeManagement && s.config.ownership == Some(NoPosition)
    ensures !s.world.open && s.world.order.None? && s.world.runtime.owner.None?
  {
    var c := View(s.world, m);
    var actions := Handle(s.config, e, c).actions;
    EveryMicrostepIsSound(s.config, e, c);
    var i :| 0 <= i < |actions| && IsBuy(actions[i]);
    assert Allowed(s.config, c, actions[i]);
    GlobalQuiet(s.config, e, c);
    hide GlobalStep, Regions;
    if s.config.ownership != Some(NoPosition) {
      ManagedBuysNothing(s.config, Reread(e), c);
      NoBuyAppended(Regions(s.config, Reread(e), c).actions, [FollowUp(ManagementCompleted, c)]);
    }
  }

  // What is sent.

  predicate SaleOut(w: World) {
    w.order.Some? && w.order.value.side == Sell
  }

  /** Requests never open or close the position, and an order that goes out to sell goes out of something held. */
  lemma {:induction false} RequestsKeepOpen(w: World, actions: seq<Action>, reply: Reply)
    ensures var w' := ExecAll(w, actions, reply);
      w'.Some? ==>
        && w'.value.open == w.open
        && (SaleOut(w'.value) && !SaleOut(w) ==> w.open)
    decreases |actions|
  {
    if actions != [] && Exec(w, actions[0], reply).Some? {
      RequestsKeepOpen(Exec(w, actions[0], reply).value, actions[1..], reply);
    }
  }

  /** A sale that goes out sells what its own strategy holds. */
  lemma SalesAreCovered(s: System, e: Event, m: Market, reply: Reply, s': System)
    requires Reachable(s) && Timely(s.config, s.world, e) && DeliverTo(s, e, m, reply) == Some(s')
    requires s.world.order.None? && s'.world.order.Some? && s'.world.order.value.side == Sell
    requires s'.config.root == TradeManagement
    ensures s'.world.open && s'.world.runtime.owner == Some(s'.world.order.value.strategy)
  {
    ReachableInv(s);
    NextKeeps(s, Deliver(e, m, reply), s');
    hide Handle, Timely, ExecAll, Reachable;
    RequestsKeepOpen(s.world, Handle(s.config, e, View(s.world, m)).actions, reply);
  }

  // What a withdrawn entry leaves behind.

  lemma WithdrawalIsRegional(s: Config, e: Event, c: Context)
    requires s.Valid() && s.root == TradeManagement && s.ownership == Some(NoPosition)
    requires e.kind == RiskBlocked || e.kind == PreparationExpired
    ensures GlobalStep(s, e, c).None? && RegionOne(s, e, c) == EntryWithdrawn(s, e, c)
  {
    hide EntryWithdrawn;
  }

  lemma WithdrawalHandled(s: Config, e: Event, c: Context)
    requires s.Valid() && s.root == TradeManagement && s.ownership == Some(NoPosition) && Withdraws(s, e)
    ensures var o := Handle(s, e, c);
      && o.after == Withdrawn(s, e.payload.strategy)
      && |o.actions| >= 1 && o.actions[0] == Patch(UNRESERVE)
      && forall i :: 1 <= i < |o.actions| ==> Inert(o.actions[i])
  {
    WithdrawalIsRegional(s, e, c);
    WithdrawalSelected(s, e, c);
    SignalsOnlyForThem(EntryWithdrawn(s, e, c).value.after, e, c);
    assert e.kind != NewLowerTouched;
    hide Handle, GlobalStep, RegionOne, RegionC, RegionB, EntryWithdrawn, Withdrawn, Withdraws;
    RegionOneHandles(s, e, c);
  }

  lemma WithdrawalSelected(s: Config, e: Event, c: Context)
    requires s.Valid() && s.root == TradeManagement && s.ownership == Some(NoPosition) && Withdraws(s, e)
    ensures var o := EntryWithdrawn(s, e, c);
      && o.Some? && !o.value.exclusive
      && o.value.after == Withdrawn(s, e.payload.strategy) && !o.value.after.Complete()
      && |o.value.actions| >= 1 && o.value.actions[0] == Patch(UNRESERVE)
      && forall i :: 1 <= i < |o.value.actions| ==> Inert(o.value.actions[i])
  {
  }

  /** An entry that was never sent returns every pending field to its unreserved value and the signal to its wait;
    * nothing else changes. Only beside an order that was sent is the withdrawal an error. */
  lemma WithdrawnEntryIsForgotten(s: System, e: Event, m: Market, reply: Reply)
    requires Inv(s.config, s.world) && s.config.root == TradeManagement && s.config.ownership == Some(NoPosition)
    requires Withdraws(s.config, e)
    ensures DeliverTo(s, e, m, reply)
         == if s.world.order.Some? then None
            else Some(System(Withdrawn(s.config, e.payload.strategy), s.world.(runtime := s.world.runtime.(
              pendingStrategy := None, pendingSide := None, pendingAttempt := None, pendingIntent := None,
              phase := Idle))))
  {
    var c := View(s.world, m);
    assert s.config.Valid() && Base(s.world);
    hide Inv, Handle, ExecAll, Signalled;
    WithdrawalHandled(s.config, e, c);
    var actions := Handle(s.config, e, c).actions;
    assert actions == [actions[0]] + actions[1..];
    ExecMore(s.world, actions[0], actions[1..], reply);
    if Exec(s.world, actions[0], reply).Some? {
      ExecInert(Exec(s.world, actions[0], reply).value, actions[1..], reply);
    }
  }

  lemma EntryBuys(strategy: Strategy, attempt: Attempt, e: Event, c: Context)
    ensures HasBuy(EntryOrder(strategy, attempt, e, c))
  {
    assert IsBuy(EntryOrder(strategy, attempt, e, c)[1]);
  }
}
