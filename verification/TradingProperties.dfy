/** What one microstep of the trading machine promises, whatever the event, the context and the market. */
module TradingProperties {
  import opened Bytes
  import opened TradingTypes
  import opened TradingMachine
  import opened TradingRuns
  import opened TradingRegions

  predicate Filed(ids: seq<TransitionId>) {
    forall i :: 0 <= i < |ids| ==> Catalogued(ids[i])
  }

  predicate OneSubmit(actions: seq<Action>) {
    forall i, j :: 0 <= i < j < |actions| ==> !(actions[i].Submit? && actions[j].Submit?)
  }

  /** When an order may be asked for: never beside another, a purchase only when nothing is held, a sale only by the
    * position's own machine and, after the first attempt, only for the recorded reason. */
  predicate Allowed(s: Config, c: Context, a: Action)
    requires a.Submit?
  {
    var r := c.runtime;
    && r.pendingOrder.None?
    && match a.side
       case Buy => r.owner.None? && a.reason.None? && (a.strategy == CaseB ==> !r.bPaused)
       case Sell =>
         && a.reason.Some?
         && (a.attempt == Initial ==> r.exitReason.None?)
         && (a.attempt == Retry ==> r.exitReason == a.reason)
         && match a.strategy
            case CaseB => s.bPosition == Some(BHolding) || s.bPosition == Some(BTrendHold)
            case CaseC => s.cPosition == Some(CHolding) || s.cPosition == Some(CTrailing)
  }

  predicate AllAllowed(s: Config, c: Context, actions: seq<Action>) {
    forall i :: 0 <= i < |actions| && actions[i].Submit? ==> Allowed(s, c, actions[i])
  }

  predicate Sound(s: Config, c: Context, o: Outcome) {
    o.after.Valid() && Filed(o.ids) && OneSubmit(o.actions) && AllAllowed(s, c, o.actions)
  }

  predicate SoundIfAny(s: Config, c: Context, o: Option<Outcome>) {
    o.Some? ==> Sound(s, c, o.value)
  }

  /** Nothing global submits an order. */
  predicate Quiet(s: Config, c: Context, o: Option<Outcome>) {
    o.Some? ==> o.value.after.Valid() && Filed(o.value.ids) && !HasSubmit(o.value.actions) && o.value.exclusive
  }

  lemma DeferralSound(s: Config, e: Event, c: Context)
    requires s.Valid()
    ensures Quiet(s, c, SaleDeferred(s, e, c))
  {
    hide ScopeFor;
  }

  lemma StopSound(s: Config, e: Event, c: Context)
    requires s.Valid()
    ensures Quiet(s, c, StopSession(s, c))
  {
    hide ScopeFor;
  }

  lemma ForcedSaleSound(s: Config, e: Event, c: Context)
    requires s.Valid()
    ensures Quiet(s, c, ForcedSaleOutcome(s, e, c))
  {
    hide ScopeFor;
  }

  lemma UpperSound(s: Config, e: Event, c: Context)
    requires s.Valid()
    ensures Quiet(s, c, UpperTouch(s, e, c))
  {
    hide ScopeFor;
  }

  lemma LowerSound(s: Config, e: Event, c: Context)
    requires s.Valid()
    ensures Quiet(s, c, LowerTouch(s, e, c))
  {
    hide ScopeFor;
  }

  lemma GlobalQuiet(s: Config, e: Event, c: Context)
    requires s.Valid()
    ensures Quiet(s, c, GlobalStep(s, e, c))
  {
    hide SaleDeferred, StopSession, ForcedSaleOutcome, UpperTouch, LowerTouch, Filed, HasSubmit;
    DeferralSound(s, e, c);
    StopSound(s, e, c);
    ForcedSaleSound(s, e, c);
    UpperSound(s, e, c);
    LowerSound(s, e, c);
    SessionQuiet(s, e, c);
  }

  lemma SessionQuiet(s: Config, e: Event, c: Context)
    ensures Filed([G(1)]) && Filed([G(4)])
    ensures !HasSubmit([ResetB, ResetC(false), Patch(FORGET_PENDING.(owner := Put(None)))])
    ensures !HasSubmit([CloseLower, CancelScheduled(LowerScope)])
  {
  }

  lemma WithdrawnSound(s: Config, e: Event, c: Context)
    requires s.Valid() && s.root == TradeManagement
    ensures SoundIfAny(s, c, EntryWithdrawn(s, e, c))
    ensures EntryWithdrawn(s, e, c).Some? ==> EntryWithdrawn(s, e, c).value.after.root == TradeManagement
  {
  }

  lemma EntryAllowed(s: Config, strategy: Strategy, attempt: Attempt, e: Event, c: Context)
    requires c.runtime.pendingOrder.None? && c.runtime.owner.None? && (strategy == CaseB ==> !c.runtime.bPaused)
    ensures OneSubmit(EntryOrder(strategy, attempt, e, c)) && AllAllowed(s, c, EntryOrder(strategy, attempt, e, c))
  {
  }

  lemma OwnershipSound(s: Config, e: Event, c: Context)
    requires s.Valid() && s.root == TradeManagement
    ensures SoundIfAny(s, c, OwnershipStep(s, e, c))
    ensures OwnershipStep(s, e, c).Some? ==> OwnershipStep(s, e, c).value.after.root == TradeManagement
  {
    if e.kind == RiskBlocked || e.kind == PreparationExpired {
      hide EntryWithdrawn, Sound;
      WithdrawnSound(s, e, c);
    } else if e.kind == BBuyRetry || e.kind == CBuyRetry {
      if OwnershipStep(s, e, c).Some? {
        EntryAllowed(s, if e.kind == BBuyRetry then CaseB else CaseC, Retry, e, c);
      }
      hide EntryWithdrawn, EntryOrder, OneSubmit, AllAllowed;
    } else {
      hide EntryWithdrawn, EntryOrder;
    }
  }

  /** An outcome that asks for no order. */
  lemma NoOrderSound(s: Config, c: Context, o: Option<Outcome>)
    requires o.Some? ==> o.value.after.Valid() && Filed(o.value.ids) && !HasSubmit(o.value.actions)
    ensures SoundIfAny(s, c, o)
  {
  }

  /** A first or a repeated sale out of the holding state. */
  lemma BSaleSound(s: Config, e: Event, c: Context, id: nat, reason: ExitReason, attempt: Attempt)
    requires s.Valid() && s.bPosition == Some(BHolding) && 1 <= id <= 24 && c.runtime.pendingOrder.None?
    requires c.runtime.exitReason == if attempt == Initial then None else Some(reason)
    ensures SoundIfAny(s, c, Step(PB(id), s, ExitOrder(CaseB, reason, ToBHolding, e, c, attempt)))
  {
    ExitAllowed(s, CaseB, reason, ToBHolding, e, c, attempt);
    hide ExitOrder, AllAllowed, OneSubmit;
  }

  lemma BHoldingSound(s: Config, e: Event, c: Context)
    requires s.Valid() && s.bPosition == Some(BHolding)
    ensures SoundIfAny(s, c, BHoldingStep(s, e, c))
    ensures BHoldingStep(s, e, c).Some? ==> BHoldingStep(s, e, c).value.after.root == TradeManagement
  {
    hide BExitGuard, BExitChoice, ExitOrder, Sound;
    if BExitOf(e.kind).Some? {
      if CanStartExit(c) { BSaleSound(s, e, c, BExitOf(e.kind).value.0, BExitOf(e.kind).value.1, Initial); }
    } else if e.kind == BSellRetry {
      if c.runtime.pendingOrder.None? && c.runtime.exitReason.Some? {
        BSaleSound(s, e, c, 19, c.runtime.exitReason.value, Retry);
      }
    } else {
      NoOrderSound(s, c, BHoldingStep(s, e, c));
    }
  }

  lemma StartsFirst(c: Context)
    ensures CanStartExit(c) <==> c.runtime.pendingOrder.None? && c.runtime.exitReason.None?
  {
  }

  lemma BTrendSound(s: Config, e: Event, c: Context)
    requires s.Valid() && s.bPosition == Some(BTrendHold)
    ensures SoundIfAny(s, c, BTrendStep(s, e, c))
    ensures BTrendStep(s, e, c).Some? ==> BTrendStep(s, e, c).value.after.root == TradeManagement
  {
  }

  lemma BClosedSound(s: Config, e: Event, c: Context)
    requires s.Valid() && s.bPosition.Some?
    requires e.kind == BSellFilled || s.bPosition == Some(BClosed)
    ensures SoundIfAny(s, c, BPositionStep(s, e, c)) && Continues(BPositionStep(s, e, c))
  {
    hide BHoldingStep, BTrendStep, ScopeFor;
  }

  /** A region that does not end the microstep stays under trade management. */
  predicate Continues(o: Option<Outcome>) {
    o.Some? ==> o.value.exclusive || o.value.after.root == TradeManagement
  }

  lemma BPositionSound(s: Config, e: Event, c: Context)
    requires s.Valid() && s.bPosition.Some?
    ensures SoundIfAny(s, c, BPositionStep(s, e, c)) && Continues(BPositionStep(s, e, c))
  {
    if e.kind == BSellFilled || s.bPosition == Some(BClosed) {
      BClosedSound(s, e, c);
    } else {
      hide BHoldingStep, BTrendStep, Sound;
      match s.bPosition.value
      case BHolding => BHoldingSound(s, e, c);
      case BTrendHold => BTrendSound(s, e, c);
    }
  }

  lemma CTimeExitSound(s: Config, e: Event, c: Context, back: ReturnState, repeated: nat)
    requires s.Valid() && (s.cPosition == Some(CHolding) || s.cPosition == Some(CTrailing)) && 1 <= repeated <= 28
    ensures SoundIfAny(s, c, CTimeExitStep(s, e, c, back, repeated)) && Continues(CTimeExitStep(s, e, c, back, repeated))
  {
  }

  lemma CRetrySound(s: Config, e: Event, c: Context, back: ReturnState, id: nat)
    requires s.Valid() && (s.cPosition == Some(CHolding) || s.cPosition == Some(CTrailing)) && 1 <= id <= 28
    ensures SoundIfAny(s, c, CRetryStep(s, e, c, back, id)) && Continues(CRetryStep(s, e, c, back, id))
  {
  }

  lemma ExitAllowed(s: Config, strategy: Strategy, reason: ExitReason, back: ReturnState, e: Event, c: Context,
                    attempt: Attempt)
    requires c.runtime.pendingOrder.None?
    requires c.runtime.exitReason == if attempt == Initial then None else Some(reason)
    requires match strategy
             case CaseB => s.bPosition == Some(BHolding) || s.bPosition == Some(BTrendHold)
             case CaseC => s.cPosition == Some(CHolding) || s.cPosition == Some(CTrailing)
    ensures OneSubmit(ExitOrder(strategy, reason, back, e, c, attempt))
    ensures AllAllowed(s, c, ExitOrder(strategy, reason, back, e, c, attempt))
  {
  }

  lemma CStopSound(s: Config, e: Event, c: Context)
    requires s.Valid() && s.cPosition == Some(CHolding) && CanStartExit(c)
    ensures var o := Step(PC(6), s, ExitOrder(CaseC, StopLoss, ToCHolding, e, c, Initial));
      SoundIfAny(s, c, o) && Continues(o)
  {
    ExitAllowed(s, CaseC, StopLoss, ToCHolding, e, c, Initial);
    hide ExitOrder, AllAllowed, OneSubmit;
  }

  lemma CHoldingSound(s: Config, e: Event, c: Context)
    requires s.Valid() && s.cPosition == Some(CHolding)
    ensures SoundIfAny(s, c, CHoldingStep(s, e, c)) && Continues(CHoldingStep(s, e, c))
  {
    CTimeExitSound(s, e, c, ToCHolding, 21);
    CRetrySound(s, e, c, ToCHolding, 20);
    if CanStartExit(c) { CStopSound(s, e, c); }
    hide CHoldingChoice, CTimeExitStep, CRetryStep, ExitOrder, CanStartExit, Sound;
    var o := CHoldingStep(s, e, c);
    if e.kind == StartCCheck || e.kind == RetryCCheck {
      NoOrderSound(s, c, o);
    } else if e.kind == CEnterProfit || e.kind == CSellFailed {
      if CTimeExitStep(s, e, c, ToCHolding, 21).None? && CRetryStep(s, e, c, ToCHolding, 20).None? {
        NoOrderSound(s, c, o);
      } else if c.market.Met(CProfitZone) && e.kind == CEnterProfit {
        NoOrderSound(s, c, Step(PC(10), s.(cPosition := Some(CTrailing)),
                                [ Patch(NO_CHANGE.(trailSlope := Put(Some(c.market.trailReference)))),
                                  FollowUp(StartTrailing, c) ]));
      }
    }
  }

  lemma CTrailingExitSound(s: Config, e: Event, c: Context)
    requires s.Valid() && s.cPosition == Some(CTrailing)
    requires e.kind == CFallback || e.kind == CDecrease
    ensures SoundIfAny(s, c, CTrailingStep(s, e, c)) && Continues(CTrailingStep(s, e, c))
  {
    hide CTimeExitStep, CRetryStep, ExitOrder, Allowed;
    CTimeExitSound(s, e, c, ToCTrailing, 23);
    CRetrySound(s, e, c, ToCTrailing, 22);
    if CanStartExit(c) {
      ExitAllowed(s, CaseC, Fallback, ToCTrailing, e, c, Initial);
      ExitAllowed(s, CaseC, Trail, ToCTrailing, e, c, Initial);
    }
  }

  lemma CTrailingSound(s: Config, e: Event, c: Context)
    requires s.Valid() && s.cPosition == Some(CTrailing)
    ensures SoundIfAny(s, c, CTrailingStep(s, e, c)) && Continues(CTrailingStep(s, e, c))
  {
    if e.kind == CFallback || e.kind == CDecrease {
      CTrailingExitSound(s, e, c);
    } else {
      hide CTrailingChoice, CTimeExitStep, CRetryStep, ExitOrder, Allowed;
      CTimeExitSound(s, e, c, ToCTrailing, 23);
      CRetrySound(s, e, c, ToCTrailing, 22);
    }
  }

  lemma CAfterwardsSound(s: Config, e: Event, c: Context)
    requires s.Valid() && s.cPosition.Some?
    requires e.kind == CSellFilled || s.cPosition == Some(CClosed) || s.cPosition == Some(CRecovered)
    ensures SoundIfAny(s, c, CPositionStep(s, e, c)) && Continues(CPositionStep(s, e, c))
  {
    hide CHoldingStep, CTrailingStep;
  }

  lemma CPositionSound(s: Config, e: Event, c: Context)
    requires s.Valid() && s.cPosition.Some?
    ensures SoundIfAny(s, c, CPositionStep(s, e, c)) && Continues(CPositionStep(s, e, c))
  {
    if e.kind == CSellFilled || s.cPosition == Some(CClosed) || s.cPosition == Some(CRecovered) {
      CAfterwardsSound(s, e, c);
    } else {
      hide CHoldingStep, CTrailingStep, Sound;
      match s.cPosition.value
      case CHolding => CHoldingSound(s, e, c);
      case CTrailing => CTrailingSound(s, e, c);
    }
  }

  lemma RegionOneSound(s: Config, e: Event, c: Context)
    requires s.Valid() && s.root == TradeManagement
    ensures SoundIfAny(s, c, RegionOne(s, e, c)) && Continues(RegionOne(s, e, c))
  {
    hide Sound, BPositionStep, CPositionStep, OwnershipStep;
    var e' := ForPosition(s, e);
    if s.bPosition.Some? {
      BPositionSound(s, e', c);
    } else if s.cPosition.Some? {
      CPositionSound(s, e', c);
    } else {
      OwnershipSound(s, e', c);
    }
  }

  // The signal regions, which change nothing but their own state.

  predicate OnlyCSignal(s: Config, o: Option<Outcome>) {
    o.Some? ==>
      o.value.after == s.(cSignal := o.value.after.cSignal) && o.value.after.cSignal.Some? && !o.value.exclusive
  }

  predicate OnlyBSignal(s: Config, o: Option<Outcome>) {
    o.Some? ==>
      o.value.after == s.(bSignal := o.value.after.bSignal) && o.value.after.bSignal.Some? && !o.value.exclusive
  }

  lemma RegionCSound(s: Config, e: Event, c: Context)
    requires s.Valid()
    ensures SoundIfAny(s, c, RegionC(s, e, c)) && OnlyCSignal(s, RegionC(s, e, c))
  {
    hide SetupGuard, Recovering, KeepsWatching;
    var e' := ForCaseC(s, e);
    if s.cSignal == Some(CSetup) && e'.kind == RetrySetup {
      CCheckSound(s, e', c);
    }
  }

  lemma CCheckSound(s: Config, e: Event, c: Context)
    requires s.Valid() && s.cSignal == Some(CSetup)
    ensures SoundIfAny(s, c, CCheckStep(s, e, c)) && OnlyCSignal(s, CCheckStep(s, e, c))
  {
    hide Recovering, KeepsWatching;
  }

  lemma BPullbackSound(s: Config, e: Event, c: Context)
    requires s.Valid() && s.bSignal == Some(BWaitPullback)
    ensures SoundIfAny(s, c, BPullbackStep(s, e, c)) && OnlyBSignal(s, BPullbackStep(s, e, c))
  {
    if c.runtime.owner.None? && c.runtime.pendingOrder.None? && !c.runtime.bPaused {
      EntryAllowed(s, CaseB, Initial, e, c);
    }
    BPauseSound(s, e, c, 13, 15, 17);
    hide HandsOver, EntryOrder, BPauseStep;
  }

  lemma BPauseSound(s: Config, e: Event, c: Context, n0: nat, n1: nat, n2: nat)
    requires s.Valid() && s.bSignal.Some? && 1 <= n0 <= 19 && 1 <= n1 <= 19 && 1 <= n2 <= 19
    ensures SoundIfAny(s, c, BPauseStep(s, e, c, n0, n1, n2)) && OnlyBSignal(s, BPauseStep(s, e, c, n0, n1, n2))
  {
    hide HandsOver;
  }

  lemma BWaitSignalSound(s: Config, e: Event, c: Context)
    requires s.Valid() && s.bSignal == Some(BWaitSignal)
    ensures SoundIfAny(s, c, BWaitSignalStep(s, e, c)) && OnlyBSignal(s, BWaitSignalStep(s, e, c))
  {
    hide SignalCandle, BPauseStep;
    BPauseSound(s, e, c, 12, 14, 16);
  }

  lemma RegionBSound(s: Config, e: Event, c: Context)
    requires s.Valid()
    ensures SoundIfAny(s, c, RegionB(s, e, c)) && OnlyBSignal(s, RegionB(s, e, c))
  {
    var e' := ForCaseB(s, e, c);
    match s.bSignal
    case Some(BWaitPullback) =>
      hide BPullbackStep, Sound, OnlyBSignal;
      BPullbackSound(s, e', c);
    case Some(BWaitSignal) =>
      hide BWaitSignalStep, Sound, OnlyBSignal;
      BWaitSignalSound(s, e', c);
    case _ =>
      hide BPullbackStep, BWaitSignalStep;
  }

  predicate OnlyBuysFor(strategy: Strategy, o: Option<Outcome>) {
    o.Some? ==> forall i :: 0 <= i < |o.value.actions| && o.value.actions[i].Submit? ==>
      o.value.actions[i].side == Buy && o.value.actions[i].strategy == strategy
  }

  lemma RegionCBuys(s: Config, e: Event, c: Context)
    ensures OnlyBuysFor(CaseC, RegionC(s, e, c))
  {
    hide SetupGuard, Recovering, KeepsWatching;
  }

  lemma RegionBBuys(s: Config, e: Event, c: Context)
    ensures OnlyBuysFor(CaseB, RegionB(s, e, c))
  {
    hide SignalCandle, HandsOver;
  }

  /** When the ownership region asks for an order, the signal regions have nothing to say to that event. */
  lemma RegionOneAlone(s: Config, e: Event, c: Context, after: Config)
    requires s.Valid() && s.root == TradeManagement
    requires RegionOne(s, e, c).Some? && HasSubmit(RegionOne(s, e, c).value.actions)
    ensures RegionC(after, e, c).None? && RegionB(after, e, c).None?
  {
    if e.kind == MarketUpdated {
      MarketSubmitsNothing(s, e, c);
    } else if ForSignals(e.kind) {
      RegionOneLeavesSignals(s, e, c);
    } else if IsOpened(e) {
      OpeningSubmitsNothing(s, e, c);
    } else {
      SignalsOnlyForThem(after, e, c);
    }
    hide RegionOne, RegionC, RegionB, HasSubmit;
  }

  lemma MarketSubmitsNothing(s: Config, e: Event, c: Context)
    requires s.Valid() && s.root == TradeManagement && e.kind == MarketUpdated
    ensures RegionOne(s, e, c).Some? ==> !HasSubmit(RegionOne(s, e, c).value.actions)
  {
    if s.bPosition != Some(BClosed) && s.cPosition != Some(CRecovered) && RegionOne(s, e, c).Some? {
      PositionOnMarket(s, e, c);
      hide RegionOne;
    }
  }

  lemma OpeningSubmitsNothing(s: Config, e: Event, c: Context)
    requires IsOpened(e)
    ensures RegionOne(s, e, c).Some? ==> !HasSubmit(RegionOne(s, e, c).value.actions)
  {
    hide BExitGuard;
  }

  lemma Appended(s: Config, c: Context, xs: seq<Action>, ys: seq<Action>)
    requires OneSubmit(xs) && OneSubmit(ys) && AllAllowed(s, c, xs) && AllAllowed(s, c, ys)
    requires !HasSubmit(xs) || !HasSubmit(ys)
    ensures OneSubmit(xs + ys) && AllAllowed(s, c, xs + ys)
  {
    hide Allowed;
    var zs := xs + ys;
    forall i, j | 0 <= i < j < |zs|
      ensures !(zs[i].Submit? && zs[j].Submit?)
    {
      if i >= |xs| {
        assert zs[i] == ys[i - |xs|] && zs[j] == ys[j - |xs|];
      } else if j >= |xs| {
        assert zs[i] == xs[i] && zs[j] == ys[j - |xs|];
      }
    }
    forall i | 0 <= i < |zs| && zs[i].Submit?
      ensures Allowed(s, c, zs[i])
    {
      if i >= |xs| {
        assert zs[i] == ys[i - |xs|];
      }
    }
  }

  lemma FiledAppend(xs: seq<TransitionId>, ys: seq<TransitionId>)
    requires Filed(xs) && Filed(ys)
    ensures Filed(xs + ys)
  {
  }

  /** A purchase is allowed or not by the context alone. */
  lemma BuysAllowedAnywhere(s: Config, t: Config, c: Context, strategy: Strategy, o: Option<Outcome>)
    requires OnlyBuysFor(strategy, o) && SoundIfAny(s, c, o)
    ensures o.Some? ==> AllAllowed(t, c, o.value.actions)
  {
  }

  lemma ThenSound(s: Config, c: Context, o: Outcome, next: Option<Outcome>)
    requires Sound(s, c, o)
    requires next.Some? ==>
      && next.value.after.Valid() && Filed(next.value.ids)
      && OneSubmit(next.value.actions) && AllAllowed(s, c, next.value.actions)
      && (!HasSubmit(o.actions) || !HasSubmit(next.value.actions))
    ensures Sound(s, c, Then(o, next))
  {
    hide Catalogued, OneSubmit, AllAllowed, HasSubmit;
    if next.Some? {
      FiledAppend(o.ids, next.value.ids);
      Appended(s, c, o.actions, next.value.actions);
    }
  }

  lemma SignalsSound(s: Config, e: Event, c: Context, first: Outcome)
    requires Sound(s, c, first) && first.after.root == TradeManagement
    requires HasSubmit(first.actions) ==> RegionC(first.after, e, c).None?
    requires HasSubmit(first.actions) ==> forall t :: RegionB(t, e, c).None?
    ensures var second := Then(first, RegionC(first.after, e, c));
      Sound(s, c, Then(second, Arbitrated(second.actions, RegionB(second.after, e, c))))
  {
    hide RegionC, RegionB, Sound, OneSubmit, AllAllowed, Filed;
    assert first.after.Valid() by { SoundValid(s, c, first); }
    var forC := RegionC(first.after, e, c);
    RegionCSound(first.after, e, c);
    RegionCBuys(first.after, e, c);
    BuysAllowedAnywhere(first.after, s, c, CaseC, forC);
    SoundParts(first.after, c, forC);
    ThenSound(s, c, first, forC);
    var second := Then(first, forC);
    SoundValid(s, c, second);
    var forB := RegionB(second.after, e, c);
    RegionBSound(second.after, e, c);
    RegionBBuys(second.after, e, c);
    BuysAllowedAnywhere(second.after, s, c, CaseB, forB);
    SoundParts(second.after, c, forB);
    if Arbitrated(second.actions, forB).Some? && HasSubmit(forB.value.actions) {
      SubmitIsCaseC(first, forC, second);
      SubmitIsCaseB(forB);
    }
    ThenSound(s, c, second, Arbitrated(second.actions, forB));
  }

  lemma SoundValid(s: Config, c: Context, o: Outcome)
    requires Sound(s, c, o)
    ensures o.after.Valid()
  {
  }

  lemma SoundParts(s: Config, c: Context, o: Option<Outcome>)
    requires SoundIfAny(s, c, o)
    ensures o.Some? ==> o.value.after.Valid() && Filed(o.value.ids) && OneSubmit(o.value.actions)
  {
  }

  lemma SubmitIsCaseC(first: Outcome, forC: Option<Outcome>, second: Outcome)
    requires OnlyBuysFor(CaseC, forC) && second == Then(first, forC) && !HasSubmit(first.actions)
    ensures HasSubmit(second.actions) ==> CaseCBuys(second.actions)
  {
    if HasSubmit(second.actions) {
      var i :| 0 <= i < |second.actions| && second.actions[i].Submit?;
      assert i >= |first.actions| && second.actions[i] == forC.value.actions[i - |first.actions|];
    }
  }

  lemma SubmitIsCaseB(forB: Option<Outcome>)
    requires OnlyBuysFor(CaseB, forB) && forB.Some? && HasSubmit(forB.value.actions)
    ensures CaseBBuys(forB.value.actions)
  {
    var i :| 0 <= i < |forB.value.actions| && forB.value.actions[i].Submit?;
    assert IsBuy(forB.value.actions[i]);
  }

  lemma RegionsSound(s: Config, e: Event, c: Context)
    requires s.Valid() && s.root == TradeManagement
    ensures Sound(s, c, Regions(s, e, c))
  {
    hide RegionOne, RegionC, RegionB, Allowed, Catalogued;
    RegionOneSound(s, e, c);
    var one := RegionOne(s, e, c);
    var first := Then(Outcome([], s, [], false), one);
    assert one.Some? ==> first.actions == one.value.actions && first.ids == one.value.ids;
    assert Sound(s, c, first);
    if !first.exclusive {
      if HasSubmit(first.actions) {
        forall t ensures RegionC(t, e, c).None? && RegionB(t, e, c).None? {
          RegionOneAlone(s, e, c, t);
        }
      }
      SignalsSound(s, e, c, first);
    }
  }

  /** Whatever happens, the next configuration passes its own check, every transition taken is a documented one, at
    * most one order is asked for, and that one is allowed. */
  lemma EveryMicrostepIsSound(s: Config, e: Event, c: Context)
    requires s.Valid()
    ensures Sound(s, c, Handle(s, e, c))
  {
    hide GlobalStep, Regions, Allowed, Catalogued;
    GlobalQuiet(s, e, c);
    if GlobalStep(s, e, c).None? && s.root == TradeManagement {
      var e' := if e.kind == NewLowerTouched then e.(kind := MarketUpdated) else e;
      RegionsSound(s, e', c);
      Appended(s, c, Regions(s, e', c).actions, [FollowUp(ManagementCompleted, c)]);
    }
  }

  /** What the ownership region selects is the whole answer where the signal regions have nothing to say. */
  lemma RegionOneHandles(s: Config, e: Event, c: Context)
    requires s.root == TradeManagement && GlobalStep(s, e, c).None? && e.kind != NewLowerTouched
    requires RegionOne(s, e, c).Some? && !RegionOne(s, e, c).value.exclusive
    requires var after := RegionOne(s, e, c).value.after;
      RegionC(after, e, c).None? && RegionB(after, e, c).None? && !after.Complete()
    ensures var o := RegionOne(s, e, c).value; Handle(s, e, c).after == o.after && Handle(s, e, c).actions == o.actions
  {
    hide GlobalStep, RegionOne, RegionC, RegionB;
    var o := RegionOne(s, e, c).value;
    assert [] + o.actions == o.actions;
  }

  /** Once the logic has ended nothing moves it; while it is stopping it can only end, and asks for no order. */
  lemma EndingIsFinal(s: Config, e: Event, c: Context)
    requires s.Valid() && (s.root == Stopping || s.root == LogicTerminated)
    ensures s.root == LogicTerminated ==> Handle(s, e, c) == Outcome([], s, [], false)
    ensures Handle(s, e, c).after.root == Stopping || Handle(s, e, c).after.root == LogicTerminated
    ensures !HasSubmit(Handle(s, e, c).actions)
  {
    GlobalQuiet(s, e, c);
    EndingStays(s, e, c);
    hide GlobalStep, Regions;
  }

  lemma EndingStays(s: Config, e: Event, c: Context)
    requires s.root == Stopping || s.root == LogicTerminated
    ensures s.root == LogicTerminated ==> GlobalStep(s, e, c).None?
    ensures GlobalStep(s, e, c).Some? ==>
      GlobalStep(s, e, c).value.after.root == Stopping || GlobalStep(s, e, c).value.after.root == LogicTerminated
  {
    hide UpperTouch;
    assert BandTouch(s, e, c).None? by { NoTouchWhileEnding(s, e, c); }
    hide BandTouch;
  }

  lemma NoTouchWhileEnding(s: Config, e: Event, c: Context)
    requires s.root == Stopping || s.root == LogicTerminated
    ensures BandTouch(s, e, c).None?
  {
    assert UpperTouch(s, e, c).None? && LowerTouch(s, e, c).None?;
  }

  /** A new touch that opens no scope is read as a market update. */
  function Reread(e: Event): Event {
    if e.kind == NewLowerTouched then e.(kind := MarketUpdated) else e
  }

  /** When both strategies would buy in one microstep, Case C does, and Case B's signal region stays where it was. */
  lemma CaseCWinsTheEntry(s: Config, e: Event, c: Context)
    requires s.Valid() && s.root == TradeManagement && GlobalStep(s, e, c).None? && RegionOne(s, Reread(e), c).None?
    requires var forC := RegionC(s, Reread(e), c);
      && forC.Some? && CaseCBuys(forC.value.actions)
      && var forB := RegionB(forC.value.after, Reread(e), c); forB.Some? && CaseBBuys(forB.value.actions)
    ensures Handle(s, e, c).after.cSignal == Some(COpenSignalled) && Handle(s, e, c).after.bSignal == s.bSignal
    ensures !CaseBBuys(Handle(s, e, c).actions)
  {
    hide GlobalStep, RegionOne, RegionC, RegionB, Sound, CaseBBuys, CaseCBuys;
    var e' := Reread(e);
    RegionCSound(s, e', c);
    BuyingOpensTheSignal(s, e', c);
    var forC := RegionC(s, e', c).value;
    assert forC.after == s.(cSignal := Some(COpenSignalled));
    assert [] + forC.actions == forC.actions;
    OneStrategyBuys(s, e', c, [FollowUp(ManagementCompleted, c)]);
  }

  lemma BuyingOpensTheSignal(s: Config, e: Event, c: Context)
    requires RegionC(s, e, c).Some? && CaseCBuys(RegionC(s, e, c).value.actions)
    ensures RegionC(s, e, c).value.after.cSignal == Some(COpenSignalled)
  {
    hide SetupGuard, Recovering, KeepsWatching;
  }

  lemma OneStrategyBuys(s: Config, e: Event, c: Context, more: seq<Action>)
    requires RegionC(s, e, c).Some? && forall i :: 0 <= i < |more| ==> !IsBuy(more[i])
    ensures !CaseBBuys(RegionC(s, e, c).value.actions)
    ensures !CaseBBuys(RegionC(s, e, c).value.actions + more)
  {
    RegionCBuys(s, e, c);
    hide RegionC;
  }
}
