/** The transition functions of the trading state machine, region by region, and the microstep that combines them.
  *
  * Nothing here has a side effect: a transition yields the next configuration and a list of requests, which
  * TradingLoop carries out. */
module TradingMachine {
  import opened Bytes
  import opened TradingTypes

  // Requests shared by several transitions.

  function ScopeFor(e: Event, c: Context): LowerId {
    if e.scope.Some? && e.scope != c.runtime.scope then e.scope.value
    else Derived(if e.candle.Some? then e.candle else c.market.candle, e.sequence)
  }

  function OpenScope(e: Event, c: Context): Action {
    OpenLower(ScopeFor(e, c), if e.candle.Some? then e.candle else c.market.candle, c.market.bbw)
  }

  function InitialFlags(c: Context): Action {
    Patch(NO_CHANGE.(
      bEnabled := Put(c.market.bbw < 0.02),
      cEnabled := Put(true),
      allowSetup := Put(true),
      consumed := Put(false),
      recovered := Put(false),
      cExit := Put(None),
      cExitPctB := Put(None),
      bPaused := Put(false),
      bOnly := Put(false)))
  }

  const NO_OWNER := Patch(NO_CHANGE.(owner := Put(None)))

  function FollowUp(kind: EventKind, c: Context): Action {
    Queue(kind, c.runtime.scope)
  }

  function Reevaluate(kind: EventKind, c: Context): Action {
    Schedule(kind, MarketOrDeadline, c.runtime.scope)
  }

  function RetryLater(kind: EventKind, c: Context): Action {
    Schedule(kind, Backoff, c.runtime.scope)
  }

  /** The reservation patch and the submission of an entry; a kept intention keeps its key. */
  function EntryOrder(s: Strategy, attempt: Attempt, e: Event, c: Context): seq<Action> {
    var key := if c.runtime.pendingIntent.Some? then c.runtime.pendingIntent.value
               else EntryIntent(s, c.runtime.scope, e.sequence);
    [ Patch(NO_CHANGE.(
        pendingStrategy := Put(Some(s)),
        pendingSide := Put(Some(Buy)),
        pendingAttempt := Put(Some(attempt)),
        pendingIntent := Put(Some(key)),
        phase := Put(EntryPending))),
      Submit(s, Buy, attempt, key, None, None) ]
  }

  /** The reservation patch and the submission of an exit; only the first attempt fixes the reason. */
  function ExitOrder(s: Strategy, reason: ExitReason, back: ReturnState, e: Event, c: Context, attempt: Attempt)
    : seq<Action>
  {
    var key := if c.runtime.pendingIntent.Some? then c.runtime.pendingIntent.value
               else ExitIntent(s, reason, c.runtime.scope, e.sequence);
    var pctB := if s == CaseB then None
                else if attempt == Initial then Some(c.market.pctB)
                else c.runtime.exitPctB;
    var reserved := NO_CHANGE.(
      pendingStrategy := Put(Some(s)),
      pendingSide := Put(Some(Sell)),
      pendingAttempt := Put(Some(attempt)),
      pendingIntent := Put(Some(key)),
      phase := Put(ExitPending));
    [ Patch(if attempt == Initial then
              reserved.(exitReason := Put(Some(reason)), exitPctB := Put(pctB), returnState := Put(Some(back)))
            else reserved),
      Submit(s, Sell, attempt, key, Some(reason), pctB) ]
  }

  /** Everything pending forgotten, the reservation and the exit intention both. */
  const FORGET_PENDING := NO_CHANGE.(
    pendingStrategy := Put(None),
    pendingSide := Put(None),
    pendingOrder := Put(None),
    pendingAttempt := Put(None),
    pendingIntent := Put(None),
    exitReason := Put(None),
    exitPctB := Put(None),
    returnState := Put(None),
    phase := Put(Idle))

  predicate CanStartExit(c: Context) {
    c.runtime.pendingOrder.None? && c.runtime.exitReason.None?
  }

  function SellAttemptOf(e: Event, c: Context): Attempt {
    if e.payload.SellAttempt? then e.payload.attempt
    else if c.runtime.pendingAttempt.Some? then c.runtime.pendingAttempt.value
    else Initial
  }

  /** Case C ended on a weak trailing exit, so that Case B may take over actively. */
  predicate HandsOver(c: Context) {
    && c.runtime.cExit == Some(Trail)
    && c.runtime.cExitPctB.Some?
    && c.market.Met(Handoff)
  }

  // Global transitions, evaluated before every region.

  /** The position state that a deferred sale returns to. */
  predicate StandsAt(s: Config, strategy: Strategy, back: Option<ReturnState>) {
    match strategy
    case CaseB =>
      || (s.bPosition == Some(BHolding) && back == Some(ToBHolding))
      || (s.bPosition == Some(BTrendHold) && back == Some(ToBTrendHold))
    case CaseC =>
      || (s.cPosition == Some(CHolding) && back == Some(ToCHolding))
      || (s.cPosition == Some(CTrailing) && back == Some(ToCTrailing))
  }

  function SaleDeferred(s: Config, e: Event, c: Context): Option<Outcome> {
    var r := c.runtime;
    if
      && e.payload.Deferred?
      && s.root == TradeManagement
      && c.open
      && r.owner == Some(e.payload.strategy)
      && r.pendingStrategy == Some(e.payload.strategy)
      && r.pendingIntent == Some(e.payload.intent)
      && r.pendingOrder.None?
      && r.pendingSide == Some(Sell)
      && StandsAt(s, e.payload.strategy, r.returnState)
    then Some(Outcome([], s, [Patch(FORGET_PENDING)], true))
    else None
  }

  function StopSession(s: Config, c: Context): Option<Outcome> {
    if s.root == LogicTerminated || s.root == Stopping then None
    else if c.runtime.pendingOrder.Some? then
      var order := c.runtime.pendingOrder.value;
      var cancel := if c.runtime.pendingSide == Some(Buy) then [CancelOrder(Some(order))] else [];
      Some(Outcome([G06P], Inactive(Stopping),
                   [Patch(NO_CHANGE.(phase := Put(PhaseStopping)))] + cancel + [ReconcileOrder(order)], true))
    else if c.open then
      Some(Outcome([G(6)], Inactive(Stopping),
                   [Patch(NO_CHANGE.(phase := Put(PhaseStopping))), CancelScheduled(StrategyScope), ForceSell(false)],
                   true))
    else
      Some(Outcome([G(5)], Inactive(LogicTerminated),
                   [ CloseLower, ResetB, ResetC(false),
                     Patch(NO_CHANGE.(
                       owner := Put(None),
                       pendingStrategy := Put(None),
                       pendingSide := Put(None),
                       pendingOrder := Put(None),
                       pendingAttempt := Put(None),
                       pendingIntent := Put(None),
                       phase := Put(Terminated))),
                     CancelScheduled(SessionScope), StopRuntime ], true))
  }

  function ForcedSaleOutcome(s: Config, e: Event, c: Context): Option<Outcome> {
    if
      && s.root == Stopping && e.kind == ForceSellFinished && !c.open && c.runtime.pendingOrder.None?
      && e.payload.ForcedOutcome? && e.payload.applied && e.payload.persisted
    then
      Some(Outcome([G06F], Inactive(LogicTerminated),
                   [ CloseLower, ResetB, ResetC(false),
                     Patch(FORGET_PENDING.(owner := Put(None), phase := Put(Terminated))),
                     CancelScheduled(SessionScope), StopRuntime ], true))
    else if
      && s.root == Stopping && e.kind == ForceSellFailed && c.open && c.runtime.pendingOrder.None?
      && e.payload.ForcedOutcome? && e.payload.unfilled
    then Some(Outcome([G06R], s, [ForceSell(true)], true))
    else None
  }

  predicate Observation(e: Event) {
    e.kind == MarketUpdated && e.observed
  }

  function UpperTouch(s: Config, e: Event, c: Context): Option<Outcome> {
    if s.root != TradeManagement then None
    else if c.runtime.pendingOrder.Some? || c.runtime.pendingIntent.Some? || c.open then
      if Observation(e) then None else Some(Outcome([G(7)], s, [], true))
    else
      Some(Outcome([G(7)], Inactive(LowerTouchWatch),
                   [ CloseLower, ResetB, ResetC(false),
                     Patch(FORGET_PENDING.(owner := Put(None))),
                     CancelScheduled(LowerScope) ], true))
  }

  function LowerTouch(s: Config, e: Event, c: Context): Option<Outcome> {
    var r := c.runtime;
    var opening := [OpenScope(e, c), InitialFlags(c), NO_OWNER, Queue(Activate, Some(ScopeFor(e, c)))];
    if s.root == LowerTouchWatch && (e.kind == LowerTouched || (Observation(e) && r.scope.None?)) then
      Some(Outcome([G(2), O(1), C(1), B(1)], FRESH, opening, true))
    else if
      && s.root == TradeManagement
      && (e.kind == NewLowerTouched || (Observation(e) && r.scope.Some? && c.market.candle.Some?))
      && r.owner.None?
      && r.pendingOrder.None?
      && c.market.candle != r.touchCandle
      && (!r.consumed || r.recovered)
    then Some(Outcome([G(3), O(1), C(1), B(1)], FRESH, [CloseLower] + opening, true))
    else None
  }

  function BandTouch(s: Config, e: Event, c: Context): Option<Outcome> {
    if
      && (e.kind == UpperTouched || (Observation(e) && c.market.bandsAbove))
      && c.market.Met(UpperExit)
    then UpperTouch(s, e, c)
    else if !Observation(e) && e.kind != LowerTouched && e.kind != NewLowerTouched then None
    else if Observation(e) && !c.market.bandsBelow then None
    else if !c.market.Met(LowerPrice) then None
    else LowerTouch(s, e, c)
  }

  function GlobalStep(s: Config, e: Event, c: Context): Option<Outcome> {
    if e.kind == SellDeferred then SaleDeferred(s, e, c)
    else if e.kind == StopConfirmed then StopSession(s, c)
    else
      var forced := ForcedSaleOutcome(s, e, c);
      if forced.Some? then forced
      else
        var touched := BandTouch(s, e, c);
        if touched.Some? then touched
        else if s.root == NotStarted && e.kind == LogicStarted then
          Some(Outcome([G(1)], Inactive(LowerTouchWatch),
                       [ResetB, ResetC(false), Patch(FORGET_PENDING.(owner := Put(None)))], true))
        else if
          s.root == TradeManagement && e.kind == ManagementCompleted && c.runtime.owner.None? && s.Complete()
        then Some(Outcome([G(4)], Inactive(LowerTouchWatch), [CloseLower, CancelScheduled(LowerScope)], true))
        else None
  }

  // The ownership region, while no position is managed.

  /** The reservation of an order that was never sent, withdrawn. */
  const UNRESERVE := NO_CHANGE.(
    pendingStrategy := Put(None),
    pendingSide := Put(None),
    pendingAttempt := Put(None),
    pendingIntent := Put(None),
    phase := Put(Idle))

  function EntryWithdrawn(s: Config, e: Event, c: Context): Option<Outcome> {
    if !e.payload.Blocked? && !e.payload.Expired? then None
    else
      var expired := e.kind == PreparationExpired;
      match e.payload.strategy
      case CaseB =>
        if expired || s.bSignal == Some(BOpenSignalled) then
          Step(O(3), s.(bSignal := Some(BWaitPullback)),
               [Patch(UNRESERVE)] + (if expired then [Reevaluate(RetryPullback, c)] else []))
        else None
      case CaseC =>
        if expired || s.cSignal == Some(COpenSignalled) then
          Step(O(7), s.(cSignal := Some(CSetup)),
               [Patch(UNRESERVE)] + (if expired then [Reevaluate(RetrySetup, c)] else []))
        else None
  }

  predicate Attempted(e: Event, attempt: Attempt) {
    e.payload == BuyAttempt(attempt)
  }

  function OwnershipStep(s: Config, e: Event, c: Context): Option<Outcome> {
    var r := c.runtime;
    if s.ownership != Some(NoPosition) then None
    else
      match e.kind
      case RiskBlocked => EntryWithdrawn(s, e, c)
      case PreparationExpired => EntryWithdrawn(s, e, c)
      case BOpened =>
        if r.owner == Some(CaseB) && r.pendingOrder.None? && c.open then
          Some(Outcome([O(2), PB(1)], s.(ownership := Some(CaseBPosition), bPosition := Some(BHolding)),
                       [FollowUp(StartBCheck, c)], false))
        else None
      case BBuyFailed =>
        if r.owner.Some? then None
        else if Attempted(e, Initial) then Step(O(3), s, [RetryLater(BBuyRetry, c)])
        else if Attempted(e, Retry) then Step(O(5), s, [RetryLater(BBuyRetry, c)])
        else None
      case BBuyRetry =>
        if r.owner.None? && r.pendingOrder.None? && !r.bPaused && r.signalled && c.market.Met(SignalAge) then
          Step(O(4), s, EntryOrder(CaseB, Retry, e, c))
        else None
      case COpened =>
        if r.owner == Some(CaseC) && r.pendingOrder.None? && c.open then
          Some(Outcome([O(6), PC(1)], s.(ownership := Some(CaseCPosition), cPosition := Some(CHolding)),
                       [Patch(NO_CHANGE.(bPaused := Put(true))), FollowUp(StartCCheck, c)], false))
        else None
      case CBuyFailed =>
        if r.owner.Some? then None
        else if Attempted(e, Initial) then Step(O(7), s, [RetryLater(CBuyRetry, c)])
        else if Attempted(e, Retry) then Step(O(9), s, [RetryLater(CBuyRetry, c)])
        else None
      case CBuyRetry =>
        if r.owner.None? && r.pendingOrder.None? && r.allowSetup && !r.consumed then
          Step(O(8), s, EntryOrder(CaseC, Retry, e, c))
        else None
      case _ => None
  }

  // Case B's position machine.

  predicate BExitGuard(kind: EventKind, c: Context) {
    var m := c.market;
    match kind
    case BEmergency => m.entryKnown && m.Met(EmergencyPrice)
    case BStop => m.closed30m && m.Met(StopSlope)
    case BUpperTrend => m.Met(BProfitZone) && m.Met(TrendSlope)
    case BProfit => m.Met(BProfitZone) && m.Met(ProfitSlope)
    case BTime => m.Met(BTimeLimit)
    case _ => false
  }

  /** At most one exit, in the documented order of priority. */
  function BExitChoice(c: Context): Option<EventKind> {
    if BExitGuard(BEmergency, c) then Some(BEmergency)
    else if BExitGuard(BStop, c) then Some(BStop)
    else if BExitGuard(BUpperTrend, c) then Some(BUpperTrend)
    else if BExitGuard(BProfit, c) then Some(BProfit)
    else if BExitGuard(BTime, c) then Some(BTime)
    else None
  }

  function BExitOf(kind: EventKind): Option<(nat, ExitReason)> {
    match kind
    case BEmergency => Some((6, EmergencyStop))
    case BStop => Some((8, StopLoss))
    case BTime => Some((10, TimeExit))
    case BProfit => Some((12, TakeProfit))
    case _ => None
  }

  function BFailureOf(reason: Option<ExitReason>): Option<nat> {
    match reason
    case Some(EmergencyStop) => Some(7)
    case Some(StopLoss) => Some(9)
    case Some(TimeExit) => Some(11)
    case Some(TakeProfit) => Some(13)
    case _ => None
  }

  function BHoldingStep(s: Config, e: Event, c: Context): Option<Outcome> {
    var r := c.runtime;
    if e.kind == StartBCheck || e.kind == RetryBCheck then
      var start := e.kind == StartBCheck;
      var choice := BExitChoice(c);
      if choice.None? then Step(PB(if start then 2 else 4), s, [Reevaluate(RetryBCheck, c)])
      else Step(PB(if start then 3 else 5), s, [FollowUp(choice.value, c)])
    else if BExitOf(e.kind).Some? && BExitGuard(e.kind, c) && CanStartExit(c) then
      var exit := BExitOf(e.kind).value;
      Step(PB(exit.0), s, ExitOrder(CaseB, exit.1, ToBHolding, e, c, Initial))
    else if e.kind == BUpperTrend && BExitGuard(BUpperTrend, c) && CanStartExit(c) then
      Step(PB(14), s.(bPosition := Some(BTrendHold)), [FollowUp(BTrendCheck, c)])
    else if e.kind == BSellFailed && BFailureOf(r.exitReason).Some? && r.returnState == Some(ToBHolding) then
      var id := if SellAttemptOf(e, c) == Initial then BFailureOf(r.exitReason).value else 20;
      Step(PB(id), s, [RetryLater(BSellRetry, c)])
    else if
      && e.kind == BSellRetry && BFailureOf(r.exitReason).Some? && r.returnState == Some(ToBHolding)
      && r.pendingOrder.None?
    then Step(PB(19), s, ExitOrder(CaseB, r.exitReason.value, ToBHolding, e, c, Retry))
    else None
  }

  predicate TrendWeakened(c: Context) {
    c.market.Met(TrendExitSlope) || c.market.Met(TrendExitPctB)
  }

  function BTrendStep(s: Config, e: Event, c: Context): Option<Outcome> {
    var r := c.runtime;
    var selling := r.exitReason == Some(TrendHold) && r.returnState == Some(ToBTrendHold);
    if e.kind == BTrendCheck then
      if !TrendWeakened(c) then Step(PB(15), s, [Reevaluate(BTrendCheck, c)])
      else Step(PB(16), s, [FollowUp(BTrendSell, c)])
    else if e.kind == BTrendSell && TrendWeakened(c) && CanStartExit(c) then
      Step(PB(17), s, ExitOrder(CaseB, TrendHold, ToBTrendHold, e, c, Initial))
    else if e.kind == BSellFailed && selling then
      Step(PB(if SellAttemptOf(e, c) == Initial then 18 else 22), s, [RetryLater(BSellRetry, c)])
    else if e.kind == BSellRetry && selling && r.pendingOrder.None? then
      Step(PB(21), s, ExitOrder(CaseB, TrendHold, ToBTrendHold, e, c, Retry))
    else None
  }

  function BPositionStep(s: Config, e: Event, c: Context): Option<Outcome>
    requires s.bPosition.Some?
  {
    var r := c.runtime;
    var position := s.bPosition.value;
    if e.kind == BSellFilled then
      if position != BClosed && r.owner.None? && r.exitReason.Some? && r.bExit == r.exitReason then
        Step(PB23F, s.(bPosition := Some(BClosed)), [Patch(FORGET_PENDING), FollowUp(BSellFinished, c)])
      else None
    else if position == BClosed then
      if e.kind != BSellFinished then None
      else if (r.bExit == Some(StopLoss) || r.bExit == Some(EmergencyStop)) && c.market.Met(LowerPrice) then
        Some(Outcome([PB(23), O(1), C(1), B(1)], FRESH,
                     [ CloseLower, ResetB, ResetC(true), OpenScope(e, c), InitialFlags(c), NO_OWNER,
                       Queue(Activate, Some(ScopeFor(e, c))) ], true))
      else
        Some(Outcome([PB(24)], Inactive(LowerTouchWatch), [ResetB, CloseLower, CancelScheduled(LowerScope)], true))
    else if r.exitReason.Some? && e.kind != BSellFailed && e.kind != BSellRetry then None
    else if position == BHolding then BHoldingStep(s, e, c)
    else BTrendStep(s, e, c)
  }

  // Case C's position machine.

  function CTimeExitStep(s: Config, e: Event, c: Context, back: ReturnState, repeated: nat): Option<Outcome> {
    var r := c.runtime;
    if e.kind == CTime && c.market.Met(CTimeLimit) && CanStartExit(c) then
      Step(PC(8), s, ExitOrder(CaseC, TimeExit, back, e, c, Initial))
    else if e.kind == CSellFailed && r.exitReason == Some(TimeExit) && r.returnState == Some(back) then
      Step(PC(if SellAttemptOf(e, c) == Initial then 9 else repeated), s, [RetryLater(CSellRetry, c)])
    else None
  }

  function CRetryStep(s: Config, e: Event, c: Context, back: ReturnState, id: nat): Option<Outcome> {
    var r := c.runtime;
    if e.kind == CSellRetry && r.returnState == Some(back) && r.pendingOrder.None? && r.exitReason.Some? then
      Step(PC(id), s, ExitOrder(CaseC, r.exitReason.value, back, e, c, Retry))
    else None
  }

  function CHoldingChoice(c: Context): Option<EventKind> {
    if c.market.Met(CProfitZone) then Some(CEnterProfit)
    else if c.market.Met(CStopSlope) then Some(CStop)
    else if c.market.Met(CTimeLimit) then Some(CTime)
    else None
  }

  function CHoldingStep(s: Config, e: Event, c: Context): Option<Outcome> {
    var r := c.runtime;
    if e.kind == StartCCheck || e.kind == RetryCCheck then
      var start := e.kind == StartCCheck;
      var choice := CHoldingChoice(c);
      if choice.None? then Step(PC(if start then 2 else 4), s, [Reevaluate(RetryCCheck, c)])
      else Step(PC(if start then 3 else 5), s, [FollowUp(choice.value, c)])
    else if e.kind == CStop && c.market.Met(CStopSlope) && CanStartExit(c) then
      Step(PC(6), s, ExitOrder(CaseC, StopLoss, ToCHolding, e, c, Initial))
    else if e.kind == CEnterProfit && c.market.Met(CProfitZone) && CanStartExit(c) then
      Step(PC(10), s.(cPosition := Some(CTrailing)),
           [Patch(NO_CHANGE.(trailSlope := Put(Some(c.market.trailReference)))), FollowUp(StartTrailing, c)])
    else
      var shared := CTimeExitStep(s, e, c, ToCHolding, 21);
      if shared.Some? then shared
      else if e.kind == CSellFailed && r.exitReason == Some(StopLoss) && r.returnState == Some(ToCHolding) then
        Step(PC(if SellAttemptOf(e, c) == Initial then 7 else 21), s, [RetryLater(CSellRetry, c)])
      else CRetryStep(s, e, c, ToCHolding, 20)
  }

  function CTrailingChoice(c: Context): Option<EventKind> {
    var compares := c.market.closed1m && c.runtime.trailSlope.Some?;
    if c.market.Met(TrailFallback) then Some(CFallback)
    else if compares && c.market.Met(TrailIncrease) then Some(CIncrease)
    else if compares && c.market.Unmet(TrailIncrease) then Some(CDecrease)
    else if c.market.Met(CTimeLimit) then Some(CTime)
    else None
  }

  function CTrailingStep(s: Config, e: Event, c: Context): Option<Outcome> {
    var r := c.runtime;
    var compares := c.market.closed1m && r.trailSlope.Some?;
    if e.kind == StartTrailing || e.kind == RetryTrailing then
      var start := e.kind == StartTrailing;
      var choice := CTrailingChoice(c);
      if choice.None? then Step(PC(if start then 11 else 13), s, [Reevaluate(RetryTrailing, c)])
      else Step(PC(if start then 12 else 14), s, [FollowUp(choice.value, c)])
    else if e.kind == CIncrease && compares && c.market.Met(TrailIncrease) then
      Step(PC(15), s,
           [Patch(NO_CHANGE.(trailSlope := Put(Some(c.market.slope1m)))), Reevaluate(RetryTrailing, c)])
    else if e.kind == CFallback && c.market.Met(TrailFallback) && CanStartExit(c) then
      Step(PC(16), s, ExitOrder(CaseC, Fallback, ToCTrailing, e, c, Initial))
    else if e.kind == CDecrease && compares && c.market.Unmet(TrailIncrease) && CanStartExit(c) then
      Step(PC(18), s, ExitOrder(CaseC, Trail, ToCTrailing, e, c, Initial))
    else
      var shared := CTimeExitStep(s, e, c, ToCTrailing, 23);
      if shared.Some? then shared
      else if
        && e.kind == CSellFailed && r.returnState == Some(ToCTrailing)
        && (r.exitReason == Some(Fallback) || r.exitReason == Some(Trail))
      then
        var id := if SellAttemptOf(e, c) == Retry then 23 else if r.exitReason == Some(Fallback) then 17 else 19;
        Step(PC(id), s, [RetryLater(CSellRetry, c)])
      else CRetryStep(s, e, c, ToCTrailing, 22)
  }

  function CClosedStep(s: Config, e: Event, c: Context): Option<Outcome> {
    if e.kind == CSellFinished then
      Step(PC(24), s,
           [ Patch(NO_CHANGE.(consumed := Put(true), allowSetup := Put(false), bPaused := Put(true))),
             FollowUp(CheckRecovery, c) ])
    else if e.kind == CheckRecovery then
      if c.market.Unmet(Recovery) then Step(PC(25), s, [Reevaluate(CheckRecovery, c)])
      else if !c.market.Met(Recovery) then None
      else
        Step(PC(26), s.(cPosition := Some(CRecovered)),
             [Patch(NO_CHANGE.(recovered := Put(true))), FollowUp(CheckHandoff, c)])
    else None
  }

  function CRecoveredStep(s: Config, e: Event, c: Context): Option<Outcome> {
    if e.kind != CheckHandoff then None
    else
      var active := HandsOver(c);
      Step(PC(if active then 27 else 28), s.(ownership := Some(NoPosition), cPosition := None),
           [ Patch(NO_CHANGE.(bPaused := Put(!active), bOnly := Put(true), allowSetup := Put(false))),
             FollowUp(if active then BResume else BWaitOnly, c) ])
  }

  function CPositionStep(s: Config, e: Event, c: Context): Option<Outcome>
    requires s.cPosition.Some?
  {
    var r := c.runtime;
    var position := s.cPosition.value;
    if e.kind == CSellFilled then
      if
        && (position == CHolding || position == CTrailing)
        && r.owner.None? && r.exitReason.Some? && r.cExit == r.exitReason
      then Step(PC23F, s.(cPosition := Some(CClosed)), [Patch(FORGET_PENDING), FollowUp(CSellFinished, c)])
      else None
    else if position == CClosed then CClosedStep(s, e, c)
    else if position == CRecovered then CRecoveredStep(s, e, c)
    else if r.exitReason.Some? && e.kind != CSellFailed && e.kind != CSellRetry then None
    else if position == CHolding then CHoldingStep(s, e, c)
    else CTrailingStep(s, e, c)
  }

  // Case B's signal region.

  predicate SignalCandle(c: Context) {
    && c.market.closed30m
    && c.market.Met(SignalSlope)
    && c.market.Met(SignalPctB)
    && c.market.threeLows
    && c.market.Met(SignalLow)
  }

  /** What Case B's two waiting states do alike when Case C opens or hands over. */
  function BPauseStep(s: Config, e: Event, c: Context, pause: nat, resumed: nat, waiting: nat): Option<Outcome> {
    if e.kind == COpened && c.runtime.owner == Some(CaseC) then
      Step(B(pause), s, [Patch(NO_CHANGE.(bPaused := Put(true)))])
    else if e.kind == BResume && c.runtime.recovered && HandsOver(c) then
      Step(B(resumed), s, [Patch(NO_CHANGE.(bPaused := Put(false)))])
    else if e.kind == BWaitOnly && !HandsOver(c) then
      Step(B(waiting), s, [Patch(NO_CHANGE.(bPaused := Put(true)))])
    else None
  }

  function BTouchStep(s: Config, e: Event, c: Context): Option<Outcome> {
    if e.kind != Activate then None
    else if c.runtime.touchBbw.None? || !c.market.Met(TouchBbw) then
      Step(B(2), s.(bSignal := Some(BFinal)), [Patch(NO_CHANGE.(bEnabled := Put(false))), ResetB])
    else
      Step(B(3), s.(bSignal := Some(BWaitSignal)),
           [ Patch(NO_CHANGE.(bEnabled := Put(true), signalled := Put(false))),
             Schedule(CandleClosed, NextClose, c.runtime.scope) ])
  }

  function BWaitSignalStep(s: Config, e: Event, c: Context): Option<Outcome> {
    if e.kind == CandleClosed && !SignalCandle(c) then
      Step(B(4), s, [Schedule(CandleClosed, NextClose, c.runtime.scope)])
    else if e.kind == CandleClosed && !c.runtime.signalled then
      Step(B(5), s.(bSignal := Some(BWaitPullback)),
           [Patch(NO_CHANGE.(signalled := Put(true))), FollowUp(StartPullback, c)])
    else BPauseStep(s, e, c, 12, 14, 16)
  }

  function BPullbackStep(s: Config, e: Event, c: Context): Option<Outcome> {
    var r := c.runtime;
    var m := c.market;
    if e.kind == StartPullback || e.kind == RetryPullback then
      var start := e.kind == StartPullback;
      if m.Unmet(SignalAge) then
        Step(B(if start then 8 else 11), s.(bSignal := Some(BFinal)), [ResetB])
      else if r.owner.None? && r.pendingOrder.None? && !r.bPaused && m.Met(SignalAge) && m.Met(Pullback) then
        Step(B(if start then 6 else 9), s.(bSignal := Some(BOpenSignalled)), EntryOrder(CaseB, Initial, e, c))
      else if m.Met(SignalAge) && (m.Unmet(Pullback) || r.owner.Some? || r.bPaused) then
        Step(B(if start then 7 else 10), s, [Reevaluate(RetryPullback, c)])
      else None
    else BPauseStep(s, e, c, 13, 15, 17)
  }

  function BSignalledStep(s: Config, e: Event, c: Context): Option<Outcome> {
    if e.kind == BOpened && c.runtime.owner == Some(CaseB) then
      Step(B(18), s.(bSignal := Some(BFinal)), [])
    else if e.kind == COpened && c.runtime.owner == Some(CaseC) then
      Step(B(19), s.(bSignal := Some(BWaitPullback)),
           [CancelOrder(c.runtime.pendingOrder), Patch(NO_CHANGE.(bPaused := Put(true)))])
    else None
  }

  function BSignalStep(s: Config, e: Event, c: Context): Option<Outcome> {
    match s.bSignal
    case Some(BWaitTouch) => BTouchStep(s, e, c)
    case Some(BWaitSignal) => BWaitSignalStep(s, e, c)
    case Some(BWaitPullback) => BPullbackStep(s, e, c)
    case Some(BOpenSignalled) => BSignalledStep(s, e, c)
    case _ => None
  }

  // Case C's signal region.

  predicate SetupGuard(c: Context) {
    && c.runtime.allowSetup
    && !c.runtime.consumed
    && c.runtime.setupCandle != c.market.candle
    && c.market.Met(SetupPctB)
    && c.market.Met(SetupCci)
  }

  /** Case B opened first: Case C's entry in this scope is over. */
  predicate BWon(e: Event, c: Context) {
    e.kind == BOpened && c.runtime.owner == Some(CaseB)
  }

  const NO_MORE_SETUPS := Patch(NO_CHANGE.(allowSetup := Put(false)))

  function CWaitStep(s: Config, e: Event, c: Context): Option<Outcome> {
    if e.kind == Activate || e.kind == RetryWaitSetup then
      var activation := e.kind == Activate;
      if !SetupGuard(c) then Step(C(if activation then 2 else 4), s, [Reevaluate(RetryWaitSetup, c)])
      else
        Step(C(if activation then 3 else 5), s.(cSignal := Some(CSetup)),
             [Patch(NO_CHANGE.(setupCandle := Put(c.market.candle))), FollowUp(StartSetup, c)])
    else if BWon(e, c) then Step(C(6), s.(cSignal := Some(CFinal)), [NO_MORE_SETUPS])
    else None
  }

  function TrackLow(c: Context): seq<Action> {
    [ Patch(NO_CHANGE.(flushLow := Put(Some(c.market.price)), entryPctB := Put(Some(c.market.pctB + 0.06)))),
      Reevaluate(RetrySetup, c) ]
  }

  predicate Recovering(c: Context) {
    && c.runtime.flushLow.Some?
    && c.runtime.entryPctB.Some?
    && c.market.Met(RecoveryWindow)
    && c.market.Met(Rebound)
    && c.market.Unmet(Recovery)
  }

  predicate KeepsWatching(c: Context) {
    && c.market.Unmet(Recovery)
    && ((c.runtime.flushLow.None? && c.market.Unmet(Flush))
        || (&& c.runtime.flushLow.Some? && c.runtime.entryPctB.Some? && c.market.Unmet(NewLow)
            && c.market.Met(RecoveryWindow) && c.market.Unmet(Rebound)))
  }

  function CCheckStep(s: Config, e: Event, c: Context): Option<Outcome> {
    var r := c.runtime;
    var m := c.market;
    if r.owner.None? && m.Met(Recovery) then
      Step(C(8), s.(cSignal := Some(CFinal)),
           [Patch(NO_CHANGE.(consumed := Put(true), recovered := Put(true), allowSetup := Put(false)))])
    else if r.flushLow.None? && m.Met(Flush) then Step(C(9), s, TrackLow(c))
    else if r.flushLow.Some? && m.Met(NewLow) then Step(C(10), s, TrackLow(c))
    else if r.flushLow.Some? && m.Unmet(NewLow) && m.Unmet(RecoveryWindow) && m.Unmet(Recovery) then
      Step(C(11), s,
           [Patch(NO_CHANGE.(entryPctB := Put(Some(m.pctB + 0.06)))), Reevaluate(RetrySetup, c)])
    else if r.owner.None? && r.pendingOrder.None? && Recovering(c) && m.Met(EntryLimit) then
      Step(C(12), s.(cSignal := Some(COpenSignalled)), EntryOrder(CaseC, Initial, e, c))
    else if Recovering(c) && m.Unmet(EntryLimit) then Step(C(13), s, [Reevaluate(RetrySetup, c)])
    else if KeepsWatching(c) then Step(C(14), s, [Reevaluate(RetrySetup, c)])
    else None
  }

  function CSetupStep(s: Config, e: Event, c: Context): Option<Outcome> {
    if e.kind == StartSetup then
      Step(C(7), s,
           [Patch(NO_CHANGE.(flushLow := Put(None), entryPctB := Put(None))), FollowUp(RetrySetup, c)])
    else if e.kind == RetrySetup then CCheckStep(s, e, c)
    else if BWon(e, c) then Step(C(15), s.(cSignal := Some(CFinal)), [NO_MORE_SETUPS])
    else None
  }

  function CSignalledStep(s: Config, e: Event, c: Context): Option<Outcome> {
    if e.kind == COpened && c.runtime.owner == Some(CaseC) then Step(C(16), s.(cSignal := Some(CFinal)), [])
    else if BWon(e, c) then
      Step(C(17), s.(cSignal := Some(CFinal)), [CancelOrder(c.runtime.pendingOrder), NO_MORE_SETUPS])
    else None
  }

  function CSignalStep(s: Config, e: Event, c: Context): Option<Outcome> {
    match s.cSignal
    case Some(CWaitSetup) => CWaitStep(s, e, c)
    case Some(CSetup) => CSetupStep(s, e, c)
    case Some(COpenSignalled) => CSignalledStep(s, e, c)
    case _ => None
  }

  // The microstep.

  /** A market update becomes the check that the managed position waits for. */
  function ForPosition(s: Config, e: Event): Event {
    if e.kind != MarketUpdated then e
    else
      match (s.bPosition, s.cPosition)
      case (Some(BTrendHold), _) => e.(kind := BTrendCheck)
      case (Some(BHolding), _) => e.(kind := RetryBCheck)
      case (_, Some(CHolding)) => e.(kind := RetryCCheck)
      case (_, Some(CTrailing)) => e.(kind := RetryTrailing)
      case (_, Some(CClosed)) => e.(kind := CheckRecovery)
      case _ => e
  }

  function ForCaseC(s: Config, e: Event): Event {
    if e.kind != MarketUpdated then e
    else if s.cSignal == Some(CWaitSetup) then e.(kind := RetryWaitSetup)
    else if s.cSignal == Some(CSetup) then e.(kind := RetrySetup)
    else e
  }

  function ForCaseB(s: Config, e: Event, c: Context): Event {
    if e.kind != MarketUpdated then e
    else if s.bSignal == Some(BWaitSignal) && c.market.closed30m then e.(kind := CandleClosed)
    else if s.bSignal == Some(BWaitPullback) then e.(kind := RetryPullback)
    else e
  }

  /** The ownership region runs exactly one machine: a position's, or the one waiting for a position. */
  function RegionOne(s: Config, e: Event, c: Context): Option<Outcome> {
    var e' := ForPosition(s, e);
    if s.bPosition.Some? then BPositionStep(s, e', c)
    else if s.cPosition.Some? then CPositionStep(s, e', c)
    else OwnershipStep(s, e', c)
  }

  function RegionC(s: Config, e: Event, c: Context): Option<Outcome> {
    CSignalStep(s, ForCaseC(s, e), c)
  }

  function RegionB(s: Config, e: Event, c: Context): Option<Outcome> {
    BSignalStep(s, ForCaseB(s, e, c), c)
  }

  /** The transitions and actions gathered so far, with one more region's selection added. */
  function Then(o: Outcome, next: Option<Outcome>): Outcome {
    if next.None? then o
    else Outcome(o.ids + next.value.ids, next.value.after, o.actions + next.value.actions, next.value.exclusive)
  }

  predicate CaseCBuys(actions: seq<Action>) {
    exists i :: 0 <= i < |actions| && IsBuy(actions[i]) && actions[i].strategy == CaseC
  }

  predicate CaseBBuys(actions: seq<Action>) {
    exists i :: 0 <= i < |actions| && IsBuy(actions[i]) && actions[i].strategy == CaseB
  }

  /** Case B's selection, dropped when both strategies ask to buy in one microstep. */
  function Arbitrated(actions: seq<Action>, b: Option<Outcome>): Option<Outcome> {
    if b.Some? && CaseCBuys(actions) && CaseBBuys(b.value.actions) then None else b
  }

  /** The three regions of one microstep, in their order. */
  function Regions(s: Config, e: Event, c: Context): Outcome {
    var first := Then(Outcome([], s, [], false), RegionOne(s, e, c));
    if first.exclusive then first
    else
      var second := Then(first, RegionC(first.after, e, c));
      Then(second, Arbitrated(second.actions, RegionB(second.after, e, c)))
  }

  /** One event handled. Nothing selected means that nothing changes. */
  function Handle(s: Config, e: Event, c: Context): Outcome {
    var global := GlobalStep(s, e, c);
    if global.Some? then global.value
    else
      var e' := if e.kind == NewLowerTouched then e.(kind := MarketUpdated) else e;
      if s.root != TradeManagement then Outcome([], s, [], false)
      else
        var o := Regions(s, e', c);
        if o.exclusive || !o.after.Complete() || s.Complete() then o
        else o.(actions := o.actions + [FollowUp(ManagementCompleted, c)])
  }
}
