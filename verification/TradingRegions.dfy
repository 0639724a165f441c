/** Each region's transition keeps the invariant of the trading loop. */
module TradingRegions {
  import opened Bytes
  import opened TradingTypes
  import opened TradingMachine
  import opened TradingLoop
  import opened TradingSafety

  /** Only the reservation of an order, and the order itself, may differ. */
  predicate OnlyReserved(r: Runtime, r': Runtime) {
    r' == r.(pendingStrategy := r'.pendingStrategy, pendingSide := r'.pendingSide, pendingOrder := r'.pendingOrder,
             pendingAttempt := r'.pendingAttempt, pendingIntent := r'.pendingIntent, phase := r'.phase)
  }

  lemma PurchaseSent(w: World, a: Action, reply: Reply, w': World)
    requires Base(w) && Flat(w) && a.Submit? && a.side == Buy
    requires SubmitOrder(w, a, reply) == Some(w')
    ensures Base(w') && OnlyReserved(w.runtime, w'.runtime) && w'.open == w.open
    ensures w'.order.Some? ==>
              && w'.order.value.side == Buy && w'.order.value.strategy == a.strategy
              && !w'.order.value.forced && !w'.order.value.stopping
  {
  }

  /** An entry asked for while nothing is held and nothing pending leaves at most that entry pending. */
  lemma EntrySubmitted(w: World, s: Strategy, attempt: Attempt, e: Event, c: Context, reply: Reply, w': World)
    requires Base(w) && Flat(w)
    requires ExecAll(w, EntryOrder(s, attempt, e, c), reply) == Some(w')
    ensures Base(w') && OnlyReserved(w.runtime, w'.runtime) && w'.open == w.open
    ensures w'.order.Some? ==>
              && w'.order.value.side == Buy && w'.order.value.strategy == s
              && !w'.order.value.forced && !w'.order.value.stopping
  {
    hide ExecAll;
    var actions := EntryOrder(s, attempt, e, c);
    ExecTwo(w, actions[0], actions[1], reply);
    assert actions == [actions[0], actions[1]];
    var w0 := Exec(w, actions[0], reply).value;
    assert Base(w0) && Flat(w0) && OnlyReserved(w.runtime, w0.runtime);
    PurchaseSent(w0, actions[1], reply, w');
  }

  /** The first attempt to sell fixes the reason, and the order sent carries it. */
  lemma ExitSubmitted(
      w: World, s: Strategy, reason: ExitReason, back: ReturnState, e: Event, c: Context, reply: Reply, w': World)
    requires Base(w) && Managing(w, s, back) && CanStartExit(c) && c.runtime == w.runtime
    requires ExecAll(w, ExitOrder(s, reason, back, e, c, Initial), reply) == Some(w')
    ensures Base(w') && Managing(w', s, back) && w'.open == w.open
    ensures OnlyReserved(w.runtime.(exitReason := w'.runtime.exitReason, exitPctB := w'.runtime.exitPctB,
                                    returnState := w'.runtime.returnState), w'.runtime)
  {
    hide ExecAll;
    var actions := ExitOrder(s, reason, back, e, c, Initial);
    ExecTwo(w, actions[0], actions[1], reply);
    assert actions == [actions[0], actions[1]];
    var w0 := Exec(w, actions[0], reply).value;
    assert w0.order.None? && w0.open == w.open;
    SaleSent(w0, s, back, actions[1], reply, w');
  }

  /** Sending the order of the recorded intention, or not, leaves the position managed. */
  lemma SaleSent(w: World, s: Strategy, back: ReturnState, a: Action, reply: Reply, w': World)
    requires Base(w) && Managing(w, s, back) && w.order.None? && w.runtime.exitReason.Some?
    requires a.Submit? && a.strategy == s && a.side == Sell && a.reason == w.runtime.exitReason
    requires a.pctB == w.runtime.exitPctB
    requires SubmitOrder(w, a, reply) == Some(w')
    ensures Base(w') && Managing(w', s, back) && w'.open == w.open && OnlyReserved(w.runtime, w'.runtime)
  {
    if w' != w {
      SalePublished(w, s, back, Order(reply.id, s, Sell, a.attempt, a.reason, a.pctB, false, false, false));
    }
  }

  lemma SalePublished(w: World, s: Strategy, back: ReturnState, o: Order)
    requires Base(w) && Managing(w, s, back) && w.order.None? && ExitOrderOf(o, w.runtime, s)
    ensures Base(Publish(w, o)) && Managing(Publish(w, o), s, back) && OnlyReserved(w.runtime, Publish(w, o).runtime)
  {
  }

  /** Another attempt repeats the recorded reason. */
  lemma ExitRepeated(
      w: World, s: Strategy, back: ReturnState, e: Event, c: Context, reply: Reply, w': World)
    requires Base(w) && Managing(w, s, back) && c.runtime == w.runtime
    requires c.runtime.exitReason.Some? && c.runtime.pendingOrder.None?
    requires ExecAll(w, ExitOrder(s, c.runtime.exitReason.value, back, e, c, Retry), reply) == Some(w')
    ensures Base(w') && Managing(w', s, back) && w'.open == w.open
    ensures OnlyReserved(w.runtime, w'.runtime)
  {
    hide ExecAll;
    var actions := ExitOrder(s, c.runtime.exitReason.value, back, e, c, Retry);
    ExecTwo(w, actions[0], actions[1], reply);
    assert actions == [actions[0], actions[1]];
    var w0 := Exec(w, actions[0], reply).value;
    assert w0.order.None? && w0.open == w.open && OnlyReserved(w.runtime, w0.runtime);
    SaleSent(w0, s, back, actions[1], reply, w');
  }

  predicate IsOpened(e: Event) {
    e.kind == BOpened || e.kind == COpened
  }

  function Withdrawn(s: Config, strategy: Strategy): Config {
    match strategy
    case CaseB => s.(bSignal := Some(BWaitPullback))
    case CaseC => s.(cSignal := Some(CSetup))
  }

  lemma UnreservedKeeps(s: Config, strategy: Strategy, w: World, w': World)
    requires Inv(s, w) && s.ownership == Some(NoPosition)
    requires w.runtime.owner != Some(strategy)
    requires strategy == CaseC ==> !w.runtime.recovered && w.runtime.cExit.None?
    requires ApplyPatch(w, UNRESERVE) == Some(w')
    ensures Inv(Withdrawn(s, strategy), w')
  {
    assert w.order.None?;
  }

  lemma WithdrawalKeeps(s: Config, e: Event, c: Context, w: World, reply: Reply, w': World)
    requires Inv(s, w) && c.runtime == w.runtime && Timely(s, w, e)
    requires e.kind == RiskBlocked || e.kind == PreparationExpired
    requires s.ownership == Some(NoPosition) && EntryWithdrawn(s, e, c).Some?
    requires ExecAll(w, EntryWithdrawn(s, e, c).value.actions, reply) == Some(w')
    ensures Inv(EntryWithdrawn(s, e, c).value.after, w')
  {
    assert Withdraws(s, e) && WithdrawalTimely(s, w, e) by {
      hide Inv, ExecAll, ApplyPatch;
      assert s.Valid() by { InvValid(s, w); }
    }
    hide ExecAll, Inv, Timely, ApplyPatch, Signalled;
    var o := EntryWithdrawn(s, e, c).value;
    var rest := o.actions[1..];
    assert o.actions == [Patch(UNRESERVE)] + rest;
    ExecMore(w, Patch(UNRESERVE), rest, reply);
    ExecInert(ApplyPatch(w, UNRESERVE).value, rest, reply);
    UnreservedKeeps(s, e.payload.strategy, w, w');
  }

  lemma InvValid(s: Config, w: World)
    requires Inv(s, w)
    ensures s.Valid()
  {
  }

  lemma OwnershipKeeps(s: Config, e: Event, c: Context, w: World, reply: Reply, w': World)
    requires Inv(s, w) && c.runtime == w.runtime && c.open == w.open && Timely(s, w, e)
    requires !IsOpened(e) && s.bPosition.None? && s.cPosition.None?
    requires OwnershipStep(s, e, c).Some?
    requires ExecAll(w, OwnershipStep(s, e, c).value.actions, reply) == Some(w')
    ensures Inv(OwnershipStep(s, e, c).value.after, w')
  {
    hide ExecAll, EntryWithdrawn, EntryOrder;
    var o := OwnershipStep(s, e, c).value;
    if e.kind == RiskBlocked || e.kind == PreparationExpired {
      WithdrawalKeeps(s, e, c, w, reply, w');
    } else if e.kind == BBuyRetry {
      EntrySubmitted(w, CaseB, Retry, e, c, reply, w');
    } else if e.kind == CBuyRetry {
      EntrySubmitted(w, CaseC, Retry, e, c, reply, w');
    } else {
      ExecInert(w, o.actions, reply);
    }
  }

  // Case B's position.

  lemma BSoldKeeps(s: Config, e: Event, c: Context, w: World, reply: Reply, w': World)
    requires Inv(s, w) && c.runtime == w.runtime && s.bPosition.Some? && e.kind == BSellFilled
    requires BPositionStep(s, e, c).Some?
    requires ExecAll(w, BPositionStep(s, e, c).value.actions, reply) == Some(w')
    ensures Inv(BPositionStep(s, e, c).value.after, w')
  {
    ExecTwo(w, Patch(FORGET_PENDING), FollowUp(BSellFinished, c), reply);
  }

  lemma BReopenKeeps(s: Config, e: Event, c: Context, w: World, reply: Reply, w': World)
    requires Inv(s, w) && s.bPosition == Some(BClosed)
    requires ExecAll(w, [ CloseLower, ResetB, ResetC(true), OpenScope(e, c), InitialFlags(c), NO_OWNER,
                          Queue(Activate, Some(ScopeFor(e, c))) ], reply) == Some(w')
    ensures Inv(FRESH, w')
  {
    var opening := [OpenScope(e, c), InitialFlags(c), NO_OWNER, Queue(Activate, Some(ScopeFor(e, c)))];
    assert [ CloseLower, ResetB, ResetC(true), OpenScope(e, c), InitialFlags(c), NO_OWNER,
             Queue(Activate, Some(ScopeFor(e, c))) ] == [CloseLower, ResetB, ResetC(true)] + opening;
    ExecAppend(w, [CloseLower, ResetB, ResetC(true)], opening, reply);
    ExecThree(w, CloseLower, ResetB, ResetC(true), reply);
    var w0 := w.(runtime := ClearC(ClearB(w.runtime.(scope := None, touchCandle := None, touchBbw := None)), true));
    ScopeOpened(w0, e, c, reply, w');
  }

  lemma BLeaveKeeps(s: Config, w: World, reply: Reply, w': World)
    requires Inv(s, w) && s.bPosition == Some(BClosed)
    requires ExecAll(w, [ResetB, CloseLower, CancelScheduled(LowerScope)], reply) == Some(w')
    ensures Inv(Inactive(LowerTouchWatch), w')
  {
    ExecThree(w, ResetB, CloseLower, CancelScheduled(LowerScope), reply);
  }

  lemma BHoldingKeeps(s: Config, e: Event, c: Context, w: World, reply: Reply, w': World)
    requires Inv(s, w) && c.runtime == w.runtime && s.bPosition == Some(BHolding)
    requires BHoldingStep(s, e, c).Some?
    requires ExecAll(w, BHoldingStep(s, e, c).value.actions, reply) == Some(w')
    ensures Inv(BHoldingStep(s, e, c).value.after, w')
  {
    hide ExecAll, ExitOrder, BExitGuard, BExitChoice;
    var o := BHoldingStep(s, e, c).value;
    if BExitOf(e.kind).Some? {
      ExitSubmitted(w, CaseB, BExitOf(e.kind).value.1, ToBHolding, e, c, reply, w');
    } else if e.kind == BSellRetry {
      ExitRepeated(w, CaseB, ToBHolding, e, c, reply, w');
    } else {
      ExecInert(w, o.actions, reply);
    }
  }

  lemma BTrendKeeps(s: Config, e: Event, c: Context, w: World, reply: Reply, w': World)
    requires Inv(s, w) && c.runtime == w.runtime && s.bPosition == Some(BTrendHold)
    requires BTrendStep(s, e, c).Some?
    requires ExecAll(w, BTrendStep(s, e, c).value.actions, reply) == Some(w')
    ensures Inv(BTrendStep(s, e, c).value.after, w')
  {
    hide ExecAll, ExitOrder;
    var o := BTrendStep(s, e, c).value;
    if e.kind == BTrendSell {
      ExitSubmitted(w, CaseB, TrendHold, ToBTrendHold, e, c, reply, w');
    } else if e.kind == BSellRetry {
      ExitRepeated(w, CaseB, ToBTrendHold, e, c, reply, w');
    } else {
      ExecInert(w, o.actions, reply);
    }
  }

  lemma BPositionKeeps(s: Config, e: Event, c: Context, w: World, reply: Reply, w': World)
    requires Inv(s, w) && c.runtime == w.runtime && s.bPosition.Some?
    requires BPositionStep(s, e, c).Some?
    requires ExecAll(w, BPositionStep(s, e, c).value.actions, reply) == Some(w')
    ensures Inv(BPositionStep(s, e, c).value.after, w')
  {
    hide ExecAll, Inv, BHoldingStep, BTrendStep;
    if e.kind == BSellFilled {
      BSoldKeeps(s, e, c, w, reply, w');
    } else if s.bPosition == Some(BClosed) {
      if BPositionStep(s, e, c).value.after == FRESH {
        BReopenKeeps(s, e, c, w, reply, w');
      } else {
        BLeaveKeeps(s, w, reply, w');
      }
    } else if s.bPosition == Some(BHolding) {
      BHoldingKeeps(s, e, c, w, reply, w');
    } else {
      BTrendKeeps(s, e, c, w, reply, w');
    }
  }

  // Case C's position.

  lemma CSoldKeeps(s: Config, e: Event, c: Context, w: World, reply: Reply, w': World)
    requires Inv(s, w) && c.runtime == w.runtime && s.cPosition.Some? && e.kind == CSellFilled
    requires CPositionStep(s, e, c).Some?
    requires ExecAll(w, CPositionStep(s, e, c).value.actions, reply) == Some(w')
    ensures Inv(CPositionStep(s, e, c).value.after, w')
  {
    ExecTwo(w, Patch(FORGET_PENDING), FollowUp(CSellFinished, c), reply);
  }

  lemma CClosedKeeps(s: Config, e: Event, c: Context, w: World, reply: Reply, w': World)
    requires Inv(s, w) && s.cPosition == Some(CClosed)
    requires CClosedStep(s, e, c).Some?
    requires ExecAll(w, CClosedStep(s, e, c).value.actions, reply) == Some(w')
    ensures Inv(CClosedStep(s, e, c).value.after, w')
  {
    hide ExecAll;
    var o := CClosedStep(s, e, c).value;
    if |o.actions| == 1 {
      ExecInert(w, o.actions, reply);
    } else {
      assert o.actions == [o.actions[0], o.actions[1]];
      ExecTwo(w, o.actions[0], o.actions[1], reply);
    }
  }

  lemma CRecoveredKeeps(s: Config, e: Event, c: Context, w: World, reply: Reply, w': World)
    requires Inv(s, w) && s.cPosition == Some(CRecovered)
    requires CRecoveredStep(s, e, c).Some?
    requires ExecAll(w, CRecoveredStep(s, e, c).value.actions, reply) == Some(w')
    ensures Inv(CRecoveredStep(s, e, c).value.after, w')
  {
    var o := CRecoveredStep(s, e, c).value;
    assert o.actions == [o.actions[0], o.actions[1]];
    ExecTwo(w, o.actions[0], o.actions[1], reply);
  }

  lemma CTimeExitKeeps(
      s: Config, e: Event, c: Context, w: World, back: ReturnState, repeated: nat, reply: Reply, w': World)
    requires Base(w) && Managing(w, CaseC, back) && c.runtime == w.runtime
    requires CTimeExitStep(s, e, c, back, repeated).Some?
    requires ExecAll(w, CTimeExitStep(s, e, c, back, repeated).value.actions, reply) == Some(w')
    ensures CTimeExitStep(s, e, c, back, repeated).value.after == s
    ensures Base(w') && Managing(w', CaseC, back) && w'.open == w.open
    ensures OnlyReserved(w.runtime.(exitReason := w'.runtime.exitReason, exitPctB := w'.runtime.exitPctB,
                                    returnState := w'.runtime.returnState), w'.runtime)
  {
    hide ExecAll, ExitOrder;
    if e.kind == CTime {
      ExitSubmitted(w, CaseC, TimeExit, back, e, c, reply, w');
    } else {
      ExecInert(w, CTimeExitStep(s, e, c, back, repeated).value.actions, reply);
    }
  }

  lemma CRetryKeeps(s: Config, e: Event, c: Context, w: World, back: ReturnState, id: nat, reply: Reply, w': World)
    requires Base(w) && Managing(w, CaseC, back) && c.runtime == w.runtime
    requires CRetryStep(s, e, c, back, id).Some?
    requires ExecAll(w, CRetryStep(s, e, c, back, id).value.actions, reply) == Some(w')
    ensures CRetryStep(s, e, c, back, id).value.after == s
    ensures Base(w') && Managing(w', CaseC, back) && w'.open == w.open
    ensures OnlyReserved(w.runtime.(exitReason := w'.runtime.exitReason, exitPctB := w'.runtime.exitPctB,
                                    returnState := w'.runtime.returnState), w'.runtime)
  {
    hide ExecAll, ExitOrder;
    ExitRepeated(w, CaseC, back, e, c, reply, w');
  }

  /** While Case C's position is managed, only the exit intention and its order may change. */
  lemma CStays(s: Config, w: World, back: ReturnState, w': World)
    requires Inv(s, w)
    requires s.cPosition == Some(if back == ToCHolding then CHolding else CTrailing)
    requires Base(w') && Managing(w', CaseC, back)
    requires back == ToCHolding || back == ToCTrailing
    requires OnlyReserved(w.runtime.(exitReason := w'.runtime.exitReason, exitPctB := w'.runtime.exitPctB,
                                     returnState := w'.runtime.returnState), w'.runtime)
    ensures Inv(s, w')
  {
  }

  lemma CProfitKeeps(s: Config, c: Context, w: World, slope: real, next: Action, reply: Reply, w': World)
    requires Inv(s, w) && c.runtime == w.runtime && CanStartExit(c) && s.cPosition == Some(CHolding)
    requires next.Queue?
    requires ExecAll(w, [Patch(NO_CHANGE.(trailSlope := Put(Some(slope)))), next], reply) == Some(w')
    ensures Inv(s.(cPosition := Some(CTrailing)), w')
  {
    hide ExecAll;
    ExecTwo(w, Patch(NO_CHANGE.(trailSlope := Put(Some(slope)))), next, reply);
  }

  lemma CIncreaseKeeps(s: Config, w: World, slope: real, next: Action, reply: Reply, w': World)
    requires Inv(s, w) && s.cPosition == Some(CTrailing)
    requires next.Schedule?
    requires ExecAll(w, [Patch(NO_CHANGE.(trailSlope := Put(Some(slope)))), next], reply) == Some(w')
    ensures Inv(s, w')
  {
    hide ExecAll;
    ExecTwo(w, Patch(NO_CHANGE.(trailSlope := Put(Some(slope)))), next, reply);
  }

  lemma CHoldingKeeps(s: Config, e: Event, c: Context, w: World, reply: Reply, w': World)
    requires Inv(s, w) && c.runtime == w.runtime && s.cPosition == Some(CHolding)
    requires CHoldingStep(s, e, c).Some?
    requires ExecAll(w, CHoldingStep(s, e, c).value.actions, reply) == Some(w')
    ensures Inv(CHoldingStep(s, e, c).value.after, w')
  {
    assert Base(w) && Managing(w, CaseC, ToCHolding);
    hide ExecAll, ExitOrder, CHoldingChoice, CTimeExitStep, CRetryStep, Inv, Managing, Base, OnlyReserved;
    var o := CHoldingStep(s, e, c).value;
    if CHoldingStep(s, e, c) == CTimeExitStep(s, e, c, ToCHolding, 21) {
      CTimeExitKeeps(s, e, c, w, ToCHolding, 21, reply, w');
      CStays(s, w, ToCHolding, w');
    } else if CHoldingStep(s, e, c) == CRetryStep(s, e, c, ToCHolding, 20) {
      CRetryKeeps(s, e, c, w, ToCHolding, 20, reply, w');
      CStays(s, w, ToCHolding, w');
    } else if e.kind == CStop {
      ExitSubmitted(w, CaseC, StopLoss, ToCHolding, e, c, reply, w');
      CStays(s, w, ToCHolding, w');
    } else if e.kind == CEnterProfit {
      CProfitKeeps(s, c, w, c.market.trailReference, FollowUp(StartTrailing, c), reply, w');
    } else {
      assert |o.actions| == 1 && Inert(o.actions[0]);
      ExecInert(w, o.actions, reply);
    }
  }

  lemma CTrailingKeeps(s: Config, e: Event, c: Context, w: World, reply: Reply, w': World)
    requires Inv(s, w) && c.runtime == w.runtime && s.cPosition == Some(CTrailing)
    requires CTrailingStep(s, e, c).Some?
    requires ExecAll(w, CTrailingStep(s, e, c).value.actions, reply) == Some(w')
    ensures Inv(CTrailingStep(s, e, c).value.after, w')
  {
    assert Base(w) && Managing(w, CaseC, ToCTrailing);
    hide ExecAll, ExitOrder, CTrailingChoice, CTimeExitStep, CRetryStep, Inv, Managing, Base, OnlyReserved;
    var o := CTrailingStep(s, e, c).value;
    if CTrailingStep(s, e, c) == CTimeExitStep(s, e, c, ToCTrailing, 23) {
      CTimeExitKeeps(s, e, c, w, ToCTrailing, 23, reply, w');
      CStays(s, w, ToCTrailing, w');
    } else if CTrailingStep(s, e, c) == CRetryStep(s, e, c, ToCTrailing, 22) {
      CRetryKeeps(s, e, c, w, ToCTrailing, 22, reply, w');
      CStays(s, w, ToCTrailing, w');
    } else if e.kind == CFallback {
      ExitSubmitted(w, CaseC, Fallback, ToCTrailing, e, c, reply, w');
      CStays(s, w, ToCTrailing, w');
    } else if e.kind == CDecrease {
      ExitSubmitted(w, CaseC, Trail, ToCTrailing, e, c, reply, w');
      CStays(s, w, ToCTrailing, w');
    } else if e.kind == CIncrease {
      CIncreaseKeeps(s, w, c.market.slope1m, Reevaluate(RetryTrailing, c), reply, w');
    } else {
      assert |o.actions| == 1 && Inert(o.actions[0]);
      ExecInert(w, o.actions, reply);
    }
  }

  lemma CPositionKeeps(s: Config, e: Event, c: Context, w: World, reply: Reply, w': World)
    requires Inv(s, w) && c.runtime == w.runtime && s.cPosition.Some?
    requires CPositionStep(s, e, c).Some?
    requires ExecAll(w, CPositionStep(s, e, c).value.actions, reply) == Some(w')
    ensures Inv(CPositionStep(s, e, c).value.after, w')
  {
    hide ExecAll, Inv, CHoldingStep, CTrailingStep, CClosedStep, CRecoveredStep;
    if e.kind == CSellFilled {
      CSoldKeeps(s, e, c, w, reply, w');
    } else if s.cPosition == Some(CClosed) {
      CClosedKeeps(s, e, c, w, reply, w');
    } else if s.cPosition == Some(CRecovered) {
      CRecoveredKeeps(s, e, c, w, reply, w');
    } else if s.cPosition == Some(CHolding) {
      CHoldingKeeps(s, e, c, w, reply, w');
    } else {
      CTrailingKeeps(s, e, c, w, reply, w');
    }
  }
}
