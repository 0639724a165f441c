/** What a microstep may request of the context, and exactly when carrying it out raises. */
module TradingErrors {
  import opened Bytes
  import opened TradingTypes
  import opened TradingMachine
  import opened TradingLoop
  import opened TradingSafety
  import opened TradingRuns
  import opened TradingProperties

  /** A request that submits nothing and leaves the reservation and the exit intention alone. */
  predicate Leaves(a: Action) {
    && !a.Submit?
    && (a.Patch? ==>
          var p := a.patch;
          && p.pendingStrategy.Keep? && p.pendingSide.Keep? && p.pendingOrder.Keep? && p.pendingAttempt.Keep?
          && p.pendingIntent.Keep? && p.exitReason.Keep? && p.exitPctB.Keep? && p.returnState.Keep?)
  }

  predicate AllLeave(actions: seq<Action>) {
    forall i :: 0 <= i < |actions| ==> Leaves(actions[i])
  }

  /** A patch that forgets the reservation, and the exit intention wholly or not at all. */
  predicate Clears(p: RuntimePatch) {
    && p.pendingStrategy == Put(None) && p.pendingSide == Put(None) && p.pendingAttempt == Put(None)
    && p.pendingIntent == Put(None)
    && (p.pendingOrder.Keep? || p.pendingOrder == Put(None))
    && ((p.exitReason.Keep? && p.exitPctB.Keep? && p.returnState.Keep?)
        || (p.exitReason == Put(None) && p.exitPctB == Put(None) && p.returnState == Put(None)))
  }

  // What each region requests.

  /** Nothing about orders, or one entry. */
  predicate Enters(strategy: Strategy, attempt: Attempt, e: Event, c: Context, o: Option<Outcome>) {
    o.Some? ==>
      || AllLeave(o.value.actions)
      || (&& o.value.actions == EntryOrder(strategy, attempt, e, c)
          && c.runtime.owner.None? && c.runtime.pendingOrder.None?)
  }

  /** Nothing about orders, or one exit: a first one, or another for the recorded reason. */
  predicate Exits(strategy: Strategy, e: Event, c: Context, o: Option<Outcome>) {
    o.Some? ==>
      || AllLeave(o.value.actions)
      || exists reason, back, attempt ::
           && o.value.actions == ExitOrder(strategy, reason, back, e, c, attempt)
           && c.runtime.pendingOrder.None?
           && c.runtime.exitReason == if attempt == Initial then None else Some(reason)
  }

  /** The reservation forgotten, and nothing else about orders. */
  predicate Forgets(o: Option<Outcome>) {
    && o.Some? && |o.value.actions| >= 1 && o.value.actions[0].Patch? && Clears(o.value.actions[0].patch)
    && AllLeave(o.value.actions[1..])
  }

  lemma CEnters(s: Config, e: Event, c: Context)
    ensures Enters(CaseC, Initial, e, c, RegionC(s, e, c))
  {
    hide SetupGuard, KeepsWatching, Recovering;
    var e' := ForCaseC(s, e);
    assert EntryOrder(CaseC, Initial, e', c) == EntryOrder(CaseC, Initial, e, c);
    if s.cSignal == Some(CSetup) && e'.kind == RetrySetup {
      CCheckEnters(s, e', c);
    } else {
      hide EntryOrder;
    }
  }

  lemma CCheckEnters(s: Config, e: Event, c: Context)
    ensures Enters(CaseC, Initial, e, c, CCheckStep(s, e, c))
  {
    hide KeepsWatching, Recovering, EntryOrder;
  }

  lemma BEnters(s: Config, e: Event, c: Context)
    ensures Enters(CaseB, Initial, e, c, RegionB(s, e, c))
  {
    var e' := ForCaseB(s, e, c);
    assert EntryOrder(CaseB, Initial, e', c) == EntryOrder(CaseB, Initial, e, c);
    BPullbackEnters(s, e', c);
    BWaitingLeaves(s, e', c);
    hide EntryOrder, BPullbackStep, BWaitSignalStep, BTouchStep;
  }

  lemma BWaitingLeaves(s: Config, e: Event, c: Context)
    ensures BWaitSignalStep(s, e, c).Some? ==> AllLeave(BWaitSignalStep(s, e, c).value.actions)
    ensures BTouchStep(s, e, c).Some? ==> AllLeave(BTouchStep(s, e, c).value.actions)
  {
    hide SignalCandle, HandsOver;
  }

  lemma BPullbackEnters(s: Config, e: Event, c: Context)
    ensures Enters(CaseB, Initial, e, c, BPullbackStep(s, e, c))
  {
    hide HandsOver, EntryOrder;
  }

  lemma WithdrawalForgets(s: Config, e: Event, c: Context)
    ensures EntryWithdrawn(s, e, c).Some? ==> Forgets(EntryWithdrawn(s, e, c))
  {
  }

  lemma OwnershipEnters(s: Config, e: Event, c: Context)
    ensures e.kind == RiskBlocked || e.kind == PreparationExpired ==>
              OwnershipStep(s, e, c).None? || Forgets(OwnershipStep(s, e, c))
    ensures e.kind == CBuyRetry ==> Enters(CaseC, Retry, e, c, OwnershipStep(s, e, c))
    ensures e.kind == BBuyRetry ==> Enters(CaseB, Retry, e, c, OwnershipStep(s, e, c))
    ensures e.kind !in {RiskBlocked, PreparationExpired, BBuyRetry, CBuyRetry} && OwnershipStep(s, e, c).Some? ==>
              AllLeave(OwnershipStep(s, e, c).value.actions)
  {
    WithdrawalForgets(s, e, c);
    hide EntryWithdrawn, EntryOrder, Forgets;
  }

  lemma OneExit(strategy: Strategy, reason: ExitReason, back: ReturnState, e: Event, c: Context, attempt: Attempt,
                o: Option<Outcome>)
    requires o.Some? && o.value.actions == ExitOrder(strategy, reason, back, e, c, attempt)
    requires c.runtime.pendingOrder.None?
    requires c.runtime.exitReason == if attempt == Initial then None else Some(reason)
    ensures Exits(strategy, e, c, o)
  {
  }

  lemma BHoldingExits(s: Config, e: Event, c: Context)
    ensures Exits(CaseB, e, c, BHoldingStep(s, e, c))
  {
    hide BExitGuard, BExitChoice, ExitOrder, CanStartExit;
    var o := BHoldingStep(s, e, c);
    if o.Some? && !AllLeave(o.value.actions) {
      assert CanStartExit(c) ==> c.runtime.pendingOrder.None? && c.runtime.exitReason.None? by {
        StartsFirst(c);
      }
      if e.kind == BSellRetry {
        OneExit(CaseB, c.runtime.exitReason.value, ToBHolding, e, c, Retry, o);
      } else {
        OneExit(CaseB, BExitOf(e.kind).value.1, ToBHolding, e, c, Initial, o);
      }
    }
  }

  lemma BTrendExits(s: Config, e: Event, c: Context)
    ensures Exits(CaseB, e, c, BTrendStep(s, e, c))
  {
    hide TrendWeakened, ExitOrder;
    var o := BTrendStep(s, e, c);
    if o.Some? && !AllLeave(o.value.actions) {
      if e.kind == BSellRetry {
        OneExit(CaseB, TrendHold, ToBTrendHold, e, c, Retry, o);
      } else {
        OneExit(CaseB, TrendHold, ToBTrendHold, e, c, Initial, o);
      }
    }
  }

  lemma CSharedExits(s: Config, e: Event, c: Context, back: ReturnState, n: nat, k: nat)
    ensures Exits(CaseC, e, c, CTimeExitStep(s, e, c, back, n))
    ensures Exits(CaseC, e, c, CRetryStep(s, e, c, back, k))
  {
    hide ExitOrder;
    var o := CTimeExitStep(s, e, c, back, n);
    if o.Some? && !AllLeave(o.value.actions) {
      OneExit(CaseC, TimeExit, back, e, c, Initial, o);
    }
    var retried := CRetryStep(s, e, c, back, k);
    if retried.Some? {
      OneExit(CaseC, c.runtime.exitReason.value, back, e, c, Retry, retried);
    }
  }

  lemma CHoldingExits(s: Config, e: Event, c: Context)
    ensures Exits(CaseC, e, c, CHoldingStep(s, e, c))
  {
    CSharedExits(s, e, c, ToCHolding, 21, 20);
    hide CHoldingChoice, CTimeExitStep, CRetryStep, ExitOrder;
    var o := CHoldingStep(s, e, c);
    if e.kind == CStop && o.Some? && c.market.Met(CStopSlope) && CanStartExit(c) {
      OneExit(CaseC, StopLoss, ToCHolding, e, c, Initial, o);
    }
  }

  lemma CTrailingExits(s: Config, e: Event, c: Context)
    ensures Exits(CaseC, e, c, CTrailingStep(s, e, c))
  {
    CSharedExits(s, e, c, ToCTrailing, 23, 22);
    hide CTrailingChoice, CTimeExitStep, CRetryStep, ExitOrder;
    var o := CTrailingStep(s, e, c);
    if e.kind == CFallback && c.market.Met(TrailFallback) && CanStartExit(c) {
      OneExit(CaseC, Fallback, ToCTrailing, e, c, Initial, o);
    } else if
      && e.kind == CDecrease && c.market.closed1m && c.runtime.trailSlope.Some? && c.market.Unmet(TrailIncrease)
      && CanStartExit(c)
    {
      OneExit(CaseC, Trail, ToCTrailing, e, c, Initial, o);
    }
  }

  /** Its sale has filled, and the position's machine takes notice. */
  predicate Notices(s: Config, e: Event, c: Context) {
    && c.runtime.owner.None? && c.runtime.exitReason.Some?
    && ((&& e.kind == BSellFilled && (s.bPosition == Some(BHolding) || s.bPosition == Some(BTrendHold))
         && c.runtime.bExit == c.runtime.exitReason)
        || (&& e.kind == CSellFilled && (s.cPosition == Some(CHolding) || s.cPosition == Some(CTrailing))
            && c.runtime.cExit == c.runtime.exitReason))
  }

  lemma BPositionExits(s: Config, e: Event, c: Context)
    requires s.bPosition.Some? && s.cPosition.None?
    ensures if Notices(s, e, c) then Forgets(BPositionStep(s, e, c)) else Exits(CaseB, e, c, BPositionStep(s, e, c))
  {
    BHoldingExits(s, e, c);
    BTrendExits(s, e, c);
    hide BHoldingStep, BTrendStep, ScopeFor, ExitOrder;
  }

  lemma CPositionExits(s: Config, e: Event, c: Context)
    requires s.cPosition.Some? && s.bPosition.None?
    ensures if Notices(s, e, c) then Forgets(CPositionStep(s, e, c)) else Exits(CaseC, e, c, CPositionStep(s, e, c))
  {
    CHoldingExits(s, e, c);
    CTrailingExits(s, e, c);
    CAfterwardsLeaves(s, e, c);
    hide CHoldingStep, CTrailingStep, CClosedStep, CRecoveredStep, ExitOrder;
  }

  lemma CAfterwardsLeaves(s: Config, e: Event, c: Context)
    ensures CClosedStep(s, e, c).Some? ==> AllLeave(CClosedStep(s, e, c).value.actions)
    ensures CRecoveredStep(s, e, c).Some? ==> AllLeave(CRecoveredStep(s, e, c).value.actions)
  {
    hide HandsOver;
  }

  lemma SameExit(strategy: Strategy, e: Event, e': Event, c: Context, o: Option<Outcome>)
    requires e'.sequence == e.sequence && Exits(strategy, e', c, o)
    ensures Exits(strategy, e, c, o)
  {
    forall reason, back, attempt
      ensures ExitOrder(strategy, reason, back, e, c, attempt) == ExitOrder(strategy, reason, back, e', c, attempt)
    {
    }
    hide ExitOrder;
  }

  lemma WithdrawnIff(s: Config, e: Event, c: Context)
    requires s.ownership == Some(NoPosition) && (e.kind == RiskBlocked || e.kind == PreparationExpired)
    ensures OwnershipStep(s, e, c).Some? <==> Withdraws(s, e)
  {
  }

  /** An answer about an order that the machine takes as final: its entry withdrawn, or its sale filled. */
  predicate Concludes(s: Config, e: Event, c: Context) {
    (s.ownership == Some(NoPosition) && Withdraws(s, e)) || Notices(s, e, c)
  }

  /** One purchase or one sale, as the machine may request it. */
  predicate Orders(s: Config, e: Event, c: Context, actions: seq<Action>) {
    && c.runtime.pendingOrder.None?
    && (|| (exists strategy, attempt :: actions == EntryOrder(strategy, attempt, e, c))
        || (exists strategy, reason, back, attempt ::
              && actions == ExitOrder(strategy, reason, back, e, c, attempt)
              && (strategy == CaseC ==> s.cPosition.Some?)
              && c.runtime.exitReason == if attempt == Initial then None else Some(reason)))
  }

  /** Requests of one region: nothing about orders, or one order. */
  predicate Modest(s: Config, e: Event, c: Context, o: Option<Outcome>) {
    o.Some? ==> AllLeave(o.value.actions) || Orders(s, e, c, o.value.actions)
  }

  lemma EnteringIsModest(s: Config, strategy: Strategy, attempt: Attempt, e: Event, c: Context, o: Option<Outcome>)
    requires Enters(strategy, attempt, e, c, o)
    ensures Modest(s, e, c, o)
  {
    hide EntryOrder, ExitOrder;
  }

  lemma ExitingIsModest(s: Config, strategy: Strategy, e: Event, c: Context, o: Option<Outcome>)
    requires Exits(strategy, e, c, o) && (strategy == CaseC ==> s.cPosition.Some?)
    ensures Modest(s, e, c, o)
  {
    hide EntryOrder, ExitOrder;
  }

  lemma RegionOneModest(s: Config, e: Event, c: Context)
    requires s.Valid() && s.root == TradeManagement
    ensures if Concludes(s, e, c) then Forgets(RegionOne(s, e, c)) else Modest(s, e, c, RegionOne(s, e, c))
  {
    var e' := ForPosition(s, e);
    var o := RegionOne(s, e, c);
    hide Modest, Exits, Enters, Forgets, EntryOrder, ExitOrder, BPositionStep, CPositionStep, OwnershipStep;
    if s.bPosition.Some? {
      BPositionExits(s, e', c);
      if !Notices(s, e', c) {
        SameExit(CaseB, e, e', c, o);
        ExitingIsModest(s, CaseB, e, c, o);
      }
    } else if s.cPosition.Some? {
      CPositionExits(s, e', c);
      if !Notices(s, e', c) {
        SameExit(CaseC, e, e', c, o);
        ExitingIsModest(s, CaseC, e, c, o);
      }
    } else {
      OwnershipModest(s, e, c);
    }
  }

  lemma OwnershipModest(s: Config, e: Event, c: Context)
    requires s.Valid() && s.root == TradeManagement && s.bPosition.None? && s.cPosition.None?
    ensures RegionOne(s, e, c) == OwnershipStep(s, e, c)
    ensures if Withdraws(s, e) then Forgets(OwnershipStep(s, e, c)) else Modest(s, e, c, OwnershipStep(s, e, c))
  {
    OwnershipEnters(s, e, c);
    hide Enters, Forgets, EntryOrder, ExitOrder, OwnershipStep, Orders;
    if e.kind == RiskBlocked || e.kind == PreparationExpired {
      WithdrawnIff(s, e, c);
    } else if e.kind == BBuyRetry {
      EnteringIsModest(s, CaseB, Retry, e, c, OwnershipStep(s, e, c));
    } else if e.kind == CBuyRetry {
      EnteringIsModest(s, CaseC, Retry, e, c, OwnershipStep(s, e, c));
    }
  }

  // Carrying the requests out.

  /** What every context keeps: a snapshot that passes its check and agrees with the order. */
  predicate Sane(w: World) {
    w.runtime.Valid() && Aligned(w.runtime, w.order) && (w.order.None? ==> w.runtime.pendingOrder.None?)
  }

  predicate SameReservation(r: Runtime, r': Runtime) {
    && r'.pendingStrategy == r.pendingStrategy && r'.pendingSide == r.pendingSide
    && r'.pendingOrder == r.pendingOrder && r'.pendingAttempt == r.pendingAttempt
    && r'.pendingIntent == r.pendingIntent
    && r'.exitReason == r.exitReason && r'.exitPctB == r.exitPctB && r'.returnState == r.returnState
  }

  lemma {:induction false} LeavesExec(w: World, actions: seq<Action>, reply: Reply)
    requires Sane(w) && AllLeave(actions)
    ensures var w' := ExecAll(w, actions, reply);
      w'.Some? && Sane(w'.value) && SameReservation(w.runtime, w'.value.runtime)
    decreases |actions|
  {
    if actions != [] {
      LeaveExec(w, actions[0], reply);
      LeavesExec(Exec(w, actions[0], reply).value, actions[1..], reply);
    }
  }

  lemma LeaveExec(w: World, a: Action, reply: Reply)
    requires Sane(w) && Leaves(a)
    ensures var w' := Exec(w, a, reply);
      w'.Some? && Sane(w'.value) && SameReservation(w.runtime, w'.value.runtime)
  {
  }

  lemma ClearExec(w: World, p: RuntimePatch)
    requires Sane(w) && Clears(p)
    ensures ApplyPatch(w, p).Some? <==> w.order.None?
    ensures w.order.None? ==> Sane(ApplyPatch(w, p).value)
  {
  }

  lemma EntryExec(w: World, strategy: Strategy, attempt: Attempt, e: Event, c: Context, reply: Reply)
    requires Sane(w) && w.order.None?
    ensures var w' := ExecAll(w, EntryOrder(strategy, attempt, e, c), reply); w'.Some? && Sane(w'.value)
  {
    hide ExecAll;
    var actions := EntryOrder(strategy, attempt, e, c);
    ExecTwo(w, actions[0], actions[1], reply);
    assert actions == [actions[0], actions[1]];
  }

  lemma ExitExec(w: World, strategy: Strategy, reason: ExitReason, back: ReturnState, e: Event, c: Context,
                 attempt: Attempt, reply: Reply)
    requires Sane(w) && w.order.None? && SameReservation(c.runtime, w.runtime)
    requires c.runtime.exitReason == if attempt == Initial then None else Some(reason)
    requires strategy == CaseC && attempt == Retry ==> c.runtime.exitPctB.Some?
    ensures var w' := ExecAll(w, ExitOrder(strategy, reason, back, e, c, attempt), reply); w'.Some? && Sane(w'.value)
  {
    hide ExecAll;
    var actions := ExitOrder(strategy, reason, back, e, c, attempt);
    ExecTwo(w, actions[0], actions[1], reply);
    assert actions == [actions[0], actions[1]];
  }

  /** The requests of one region raise nothing. */
  lemma ModestExec(s: Config, w: World, e: Event, c: Context, o: Option<Outcome>, reply: Reply)
    requires Sane(w) && SameReservation(c.runtime, w.runtime) && Modest(s, e, c, o) && o.Some?
    requires s.cPosition.Some? && c.runtime.exitReason.Some? ==> c.runtime.exitPctB.Some?
    ensures var w' := ExecAll(w, o.value.actions, reply);
      && w'.Some? && Sane(w'.value)
      && (AllLeave(o.value.actions) ==> SameReservation(c.runtime, w'.value.runtime))
  {
    hide ExecAll, EntryOrder, ExitOrder, AllLeave;
    var actions := o.value.actions;
    if AllLeave(actions) {
      LeavesExec(w, actions, reply);
    } else if strategy, attempt :| actions == EntryOrder(strategy, attempt, e, c) {
      EntryExec(w, strategy, attempt, e, c, reply);
    } else {
      var strategy, reason, back, attempt :|
        && actions == ExitOrder(strategy, reason, back, e, c, attempt)
        && (strategy == CaseC ==> s.cPosition.Some?)
        && c.runtime.exitReason == if attempt == Initial then None else Some(reason);
      ExitExec(w, strategy, reason, back, e, c, attempt, reply);
    }
  }

  lemma ForgetsExec(w: World, o: Option<Outcome>, reply: Reply)
    requires Sane(w) && Forgets(o)
    ensures ExecAll(w, o.value.actions, reply).Some? <==> w.order.None?
  {
    hide Clears, Sane;
    var actions := o.value.actions;
    assert actions == [actions[0]] + actions[1..];
    ExecMore(w, actions[0], actions[1..], reply);
    ClearExec(w, actions[0].patch);
    if w.order.None? {
      LeavesExec(Exec(w, actions[0], reply).value, actions[1..], reply);
    }
  }

  lemma OrdersSubmits(s: Config, e: Event, c: Context, actions: seq<Action>)
    requires Orders(s, e, c, actions)
    ensures HasSubmit(actions)
  {
    assert |actions| == 2 && actions[1].Submit?;
  }

  lemma EntryIsBought(strategy: Strategy, e: Event, c: Context, more: seq<Action>)
    ensures var entry := EntryOrder(strategy, Initial, e, c);
      if strategy == CaseB then CaseBBuys(entry) else CaseCBuys(entry) && CaseCBuys(more + entry)
  {
    var entry := EntryOrder(strategy, Initial, e, c);
    assert IsBuy(entry[1]) && entry[1].strategy == strategy;
    assert (more + entry)[|more| + 1] == entry[1];
  }

  lemma SignalsExec(s: Config, w: World, e: Event, c: Context, first: Outcome, w1: World, reply: Reply)
    requires Sane(w1) && SameReservation(c.runtime, w1.runtime)
    requires s.cPosition.Some? && c.runtime.exitReason.Some? ==> c.runtime.exitPctB.Some?
    requires ExecAll(w, first.actions, reply) == Some(w1)
    ensures var second := Then(first, RegionC(first.after, e, c));
      ExecAll(w, Then(second, Arbitrated(second.actions, RegionB(second.after, e, c))).actions, reply).Some?
  {
    hide ExecAll, RegionC, RegionB, EntryOrder, CaseBBuys, CaseCBuys, Sane, SameReservation, Modest, AllLeave;
    var forC := RegionC(first.after, e, c);
    CEnters(first.after, e, c);
    EnteringIsModest(s, CaseC, Initial, e, c, forC);
    var second := Then(first, forC);
    var forB := RegionB(second.after, e, c);
    BEnters(second.after, e, c);
    EnteringIsModest(s, CaseB, Initial, e, c, forB);
    EntryIsBought(CaseC, e, c, first.actions);
    EntryIsBought(CaseB, e, c, []);
    var w2 := w1;
    if forC.Some? {
      ModestExec(s, w1, e, c, forC, reply);
      w2 := ExecAll(w1, forC.value.actions, reply).value;
      ExecAppend(w, first.actions, forC.value.actions, reply);
    }
    var b := Arbitrated(second.actions, forB);
    if b.Some? {
      if forC.Some? && !AllLeave(forC.value.actions) {
        assert AllLeave(forB.value.actions);
        LeavesExec(w2, forB.value.actions, reply);
      } else {
        ModestExec(s, w2, e, c, forB, reply);
      }
      ExecAppend(w, second.actions, forB.value.actions, reply);
    }
  }

  /** What the regions request raises exactly when it concludes an order that is still pending. */
  lemma RegionsRaiseIff(s: Config, e: Event, c: Context, w: World, reply: Reply)
    requires s.Valid() && s.root == TradeManagement && Sane(w) && c.runtime == w.runtime
    requires s.cPosition.Some? && c.runtime.exitReason.Some? ==> c.runtime.exitPctB.Some?
    ensures ExecAll(w, Regions(s, e, c).actions, reply).None? <==> w.order.Some? && Concludes(s, e, c)
  {
    hide ExecAll, RegionOne, RegionC, RegionB, Sane, Forgets, Modest;
    RegionOneModest(s, e, c);
    var one := RegionOne(s, e, c);
    var first := Then(Outcome([], s, [], false), one);
    assert one.Some? ==> first.actions == one.value.actions && first.exclusive == one.value.exclusive;
    assert one.None? ==> first.actions == [];
    if Concludes(s, e, c) {
      SignalsOnlyForThem(first.after, e, c);
      assert one.Some? by { ForgetsSome(one); }
      ForgetsExec(w, one, reply);
    } else {
      var w1 := w;
      FirstExec(s, w, e, c, one, reply);
      w1 := ExecAll(w, first.actions, reply).value;
      if !first.exclusive {
        if one.Some? && !AllLeave(one.value.actions) {
          ModestSubmits(s, e, c, one);
          RegionOneAlone(s, e, c, first.after);
          RegionOneAlone(s, e, c, Then(first, RegionC(first.after, e, c)).after);
        } else {
          SignalsExec(s, w, e, c, first, w1, reply);
        }
      }
    }
  }

  lemma ForgetsSome(o: Option<Outcome>)
    requires Forgets(o)
    ensures o.Some?
  {
  }

  lemma ModestSubmits(s: Config, e: Event, c: Context, o: Option<Outcome>)
    requires Modest(s, e, c, o) && o.Some? && !AllLeave(o.value.actions)
    ensures HasSubmit(o.value.actions)
  {
    OrdersSubmits(s, e, c, o.value.actions);
  }

  lemma FirstExec(s: Config, w: World, e: Event, c: Context, one: Option<Outcome>, reply: Reply)
    requires Sane(w) && c.runtime == w.runtime && Modest(s, e, c, one)
    requires s.cPosition.Some? && c.runtime.exitReason.Some? ==> c.runtime.exitPctB.Some?
    ensures var w' := ExecAll(w, if one.Some? then one.value.actions else [], reply);
      && w'.Some? && Sane(w'.value)
      && (one.None? || AllLeave(one.value.actions) ==> SameReservation(c.runtime, w'.value.runtime))
  {
    if one.Some? {
      hide Modest, ExecAll, AllLeave;
      ModestExec(s, w, e, c, one, reply);
    }
  }

  /** Nothing about orders but one patch that forgets the reservation. */
  predicate Tidies(actions: seq<Action>, k: nat) {
    && k < |actions| && AllLeave(actions[..k]) && AllLeave(actions[k + 1..])
    && actions[k].Patch? && Clears(actions[k].patch)
  }

  /** A global outcome: nothing about orders, or the reservation forgotten where no order is pending. */
  ghost predicate Global(s: Config, c: Context, o: Option<Outcome>) {
    o.Some? ==>
      || AllLeave(o.value.actions)
      || (&& (c.runtime.pendingOrder.None? || s.root == NotStarted)
          && exists k: nat :: Tidies(o.value.actions, k))
  }

  lemma DeferralGlobal(s: Config, e: Event, c: Context)
    ensures Global(s, c, SaleDeferred(s, e, c))
  {
    var o := SaleDeferred(s, e, c);
    if o.Some? {
      assert Tidies(o.value.actions, 0);
    }
  }

  lemma StopGlobal(s: Config, e: Event, c: Context)
    ensures Global(s, c, StopSession(s, c))
  {
    var o := StopSession(s, c);
    if o.Some? && c.runtime.pendingOrder.None? && !c.open {
      assert Tidies(o.value.actions, 3);
    }
  }

  lemma ForcedGlobal(s: Config, e: Event, c: Context)
    ensures Global(s, c, ForcedSaleOutcome(s, e, c))
  {
    var o := ForcedSaleOutcome(s, e, c);
    if o.Some? && e.kind == ForceSellFinished {
      assert Tidies(o.value.actions, 3);
    }
  }

  lemma TouchGlobal(s: Config, e: Event, c: Context)
    ensures Global(s, c, UpperTouch(s, e, c)) && Global(s, c, LowerTouch(s, e, c))
  {
    hide ScopeFor;
    var o := UpperTouch(s, e, c);
    if o.Some? && o.value.actions != [] {
      assert Tidies(o.value.actions, 3);
    }
  }

  lemma StartGlobal(s: Config, c: Context)
    requires s.root == NotStarted
    ensures Global(s, c, Some(Outcome([G(1)], Inactive(LowerTouchWatch),
                                      [ResetB, ResetC(false), Patch(FORGET_PENDING.(owner := Put(None)))], true)))
  {
    assert Tidies([ResetB, ResetC(false), Patch(FORGET_PENDING.(owner := Put(None)))], 2);
  }

  lemma GlobalIsGlobal(s: Config, e: Event, c: Context)
    ensures Global(s, c, GlobalStep(s, e, c))
  {
    DeferralGlobal(s, e, c);
    StopGlobal(s, e, c);
    ForcedGlobal(s, e, c);
    TouchGlobal(s, e, c);
    if s.root == NotStarted {
      StartGlobal(s, c);
    }
    assert AllLeave([CloseLower, CancelScheduled(LowerScope)]);
    hide SaleDeferred, StopSession, ForcedSaleOutcome, UpperTouch, LowerTouch, Global;
    assert Global(s, c, BandTouch(s, e, c)) by { BandGlobal(s, e, c); }
    hide BandTouch;
    CompletionGlobal(s, c);
  }

  lemma BandGlobal(s: Config, e: Event, c: Context)
    requires Global(s, c, UpperTouch(s, e, c)) && Global(s, c, LowerTouch(s, e, c))
    ensures Global(s, c, BandTouch(s, e, c))
  {
    assert Global(s, c, None);
    hide Global, UpperTouch, LowerTouch;
  }

  lemma CompletionGlobal(s: Config, c: Context)
    ensures Global(s, c, None)
    ensures Global(s, c, Some(Outcome([G(4)], Inactive(LowerTouchWatch), [CloseLower, CancelScheduled(LowerScope)], true)))
  {
  }

  lemma TidyExec(w: World, actions: seq<Action>, k: nat, reply: Reply)
    requires Sane(w) && w.order.None? && Tidies(actions, k)
    ensures ExecAll(w, actions, reply).Some?
  {
    hide ExecAll, Clears;
    assert actions == actions[..k] + ([actions[k]] + actions[k + 1..]);
    LeavesExec(w, actions[..k], reply);
    var w0 := ExecAll(w, actions[..k], reply).value;
    assert w0.order.None?;
    ExecAppend(w, actions[..k], [actions[k]] + actions[k + 1..], reply);
    ExecMore(w0, actions[k], actions[k + 1..], reply);
    ClearExec(w0, actions[k].patch);
    LeavesExec(Exec(w0, actions[k], reply).value, actions[k + 1..], reply);
  }

  lemma GlobalExec(s: Config, e: Event, c: Context, w: World, reply: Reply)
    requires Inv(s, w) && c.runtime == w.runtime && GlobalStep(s, e, c).Some?
    ensures ExecAll(w, GlobalStep(s, e, c).value.actions, reply).Some?
  {
    GlobalIsGlobal(s, e, c);
    var actions := GlobalStep(s, e, c).value.actions;
    assert Sane(w) && (s.root == NotStarted ==> w.order.None?);
    hide GlobalStep, ExecAll, Tidies, Inv;
    if AllLeave(actions) {
      LeavesExec(w, actions, reply);
    } else {
      var k: nat :| Tidies(actions, k);
      TidyExec(w, actions, k, reply);
    }
  }

  /** The machine hears that an order is over which is still pending. */
  predicate ConcludesTooEarly(s: Config, w: World, e: Event) {
    && s.root == TradeManagement && w.order.Some?
    && (|| (s.ownership == Some(NoPosition) && Withdraws(s, e))
        || (&& SoldUnheard(s, w)
            && ((s.bPosition.Some? && e.kind == BSellFilled) || (s.cPosition.Some? && e.kind == CSellFilled))))
  }

  /** Delivering any event in any state of the invariant raises exactly when it concludes an order too early: every
    * patch, reservation and submission that the machine ever requests is otherwise accepted by the context. */
  lemma DeliveryRaisesIff(s: System, e: Event, m: Market, reply: Reply)
    requires Inv(s.config, s.world)
    ensures DeliverTo(s, e, m, reply).None? <==> ConcludesTooEarly(s.config, s.world, e)
  {
    ConcludesUnderManagement(s.config, s.world, e);
    hide ConcludesTooEarly, Inv, DeliverTo;
    if GlobalStep(s.config, e, View(s.world, m)).Some? {
      GlobalRaises(s, e, m, reply);
    } else if s.config.root == TradeManagement {
      RegionsRaise(s, e, m, reply);
    } else {
      NothingRaises(s, e, m, reply);
    }
  }

  lemma GlobalRaises(s: System, e: Event, m: Market, reply: Reply)
    requires Inv(s.config, s.world) && GlobalStep(s.config, e, View(s.world, m)).Some?
    ensures DeliverTo(s, e, m, reply).Some?
    ensures e.kind !in {RiskBlocked, PreparationExpired, BSellFilled, CSellFilled}
  {
    GlobalExec(s.config, e, View(s.world, m), s.world, reply);
    AnswersAreRegional(s.config, e, View(s.world, m));
    hide ExecAll, GlobalStep;
  }

  lemma NothingRaises(s: System, e: Event, m: Market, reply: Reply)
    requires GlobalStep(s.config, e, View(s.world, m)).None? && s.config.root != TradeManagement
    ensures DeliverTo(s, e, m, reply).Some?
  {
    ExecInert(s.world, [], reply);
    hide ExecAll, GlobalStep;
  }

  lemma HandledRegionally(s: Config, e: Event, c: Context)
    requires GlobalStep(s, e, c).None? && s.root == TradeManagement
    ensures var actions := Regions(s, Reread(e), c).actions;
      Handle(s, e, c).actions == actions || Handle(s, e, c).actions == actions + [FollowUp(ManagementCompleted, c)]
  {
    hide GlobalStep, Regions;
  }

  lemma RegionsRaise(s: System, e: Event, m: Market, reply: Reply)
    requires Inv(s.config, s.world) && GlobalStep(s.config, e, View(s.world, m)).None?
    requires s.config.root == TradeManagement
    ensures DeliverTo(s, e, m, reply).None? <==> ConcludesTooEarly(s.config, s.world, e)
  {
    var c, e' := View(s.world, m), Reread(e);
    assert s.config.Valid();
    SaleIsRecorded(s.config, s.world);
    ConcludesUnderManagement(s.config, s.world, e);
    ConcludesIff(s.config, e', c, s.world);
    RegionsRaiseIff(s.config, e', c, s.world, reply);
    HandledRegionally(s.config, e, c);
    RaisedWith(s, e, m, reply, Regions(s.config, e', c).actions);
    hide ExecAll, Regions, Handle, Concludes, ConcludesTooEarly, GlobalStep, Inv;
  }

  lemma RaisedWith(s: System, e: Event, m: Market, reply: Reply, actions: seq<Action>)
    requires var handled := Handle(s.config, e, View(s.world, m)).actions;
      handled == actions || handled == actions + [FollowUp(ManagementCompleted, View(s.world, m))]
    ensures DeliverTo(s, e, m, reply).None? <==> ExecAll(s.world, actions, reply).None?
  {
    var last := FollowUp(ManagementCompleted, View(s.world, m));
    hide ExecAll, Handle;
    ExecAppend(s.world, actions, [last], reply);
    if ExecAll(s.world, actions, reply).Some? {
      ExecOne(ExecAll(s.world, actions, reply).value, last, reply);
    }
  }

  lemma ConcludesUnderManagement(s: Config, w: World, e: Event)
    ensures ConcludesTooEarly(s, w, e) ==>
              s.root == TradeManagement && e.kind in {RiskBlocked, PreparationExpired, BSellFilled, CSellFilled}
    ensures ConcludesTooEarly(s, w, Reread(e)) <==> ConcludesTooEarly(s, w, e)
  {
  }

  lemma AnswersAreRegional(s: Config, e: Event, c: Context)
    requires GlobalStep(s, e, c).Some?
    ensures e.kind !in {RiskBlocked, PreparationExpired, BSellFilled, CSellFilled}
  {
  }

  lemma SaleIsRecorded(s: Config, w: World)
    requires Inv(s, w)
    ensures Sane(w) && (s.cPosition.Some? && w.runtime.exitReason.Some? ==> w.runtime.exitPctB.Some?)
  {
  }

  lemma ConcludesIff(s: Config, e: Event, c: Context, w: World)
    requires Inv(s, w) && c.runtime == w.runtime && s.root == TradeManagement
    ensures w.order.Some? && Concludes(s, e, c) <==> ConcludesTooEarly(s, w, e)
  {
  }
}
