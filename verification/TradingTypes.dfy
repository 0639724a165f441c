/** The vocabulary of the trading state machine: its five roots and three parallel regions, the events it is
  * handed, the runtime context its guards read, and the action requests it returns. */
module TradingTypes {
  import opened Bytes

  datatype Root = NotStarted | LowerTouchWatch | TradeManagement | Stopping | LogicTerminated
  datatype Ownership = NoPosition | CaseBPosition | CaseCPosition
  datatype BSignal = BWaitTouch | BWaitSignal | BWaitPullback | BOpenSignalled | BFinal
  datatype CSignal = CWaitSetup | CSetup | COpenSignalled | CFinal
  datatype BPosition = BHolding | BTrendHold | BClosed
  datatype CPosition = CHolding | CTrailing | CClosed | CRecovered

  datatype Strategy = CaseB | CaseC
  datatype Side = Buy | Sell
  datatype Attempt = Initial | Retry
  datatype Phase = Idle | EntryPending | ExitPending | PhaseStopping | Reconciling | Terminated
  datatype ExitReason = EmergencyStop | StopLoss | ForcedSale | TimeExit | TakeProfit | TrendHold | Trail | Fallback
  datatype ReturnState = ToBHolding | ToBTrendHold | ToCHolding | ToCTrailing

  /** The whole configuration: a root and, only under trade management, the regions. */
  datatype Config = Config(
    root: Root,
    ownership: Option<Ownership>,
    bSignal: Option<BSignal>,
    cSignal: Option<CSignal>,
    bPosition: Option<BPosition>,
    cPosition: Option<CPosition>
  )
  {
    /** The check every configuration passes when it is built; a failure there is an exception. */
    predicate Valid() {
      if root != TradeManagement then
        ownership.None? && bSignal.None? && cSignal.None? && bPosition.None? && cPosition.None?
      else
        && ownership.Some? && bSignal.Some? && cSignal.Some?
        && (bPosition.Some? <==> ownership.value == CaseBPosition)
        && (cPosition.Some? <==> ownership.value == CaseCPosition)
    }

    predicate Complete() {
      && root == TradeManagement
      && ownership == Some(NoPosition)
      && bSignal == Some(BFinal)
      && cSignal == Some(CFinal)
    }
  }

  /** Every region inactive. */
  function Inactive(root: Root): Config {
    Config(root, None, None, None, None, None)
  }

  /** The configuration after the initial transitions of the three regions. */
  const FRESH := Config(TradeManagement, Some(NoPosition), Some(BWaitTouch), Some(CWaitSetup), None, None)

  /** A lower-touch scope is named by the adapter, or by the candle and queue number that opened it. */
  datatype LowerId = Named(name: nat) | Derived(candle: Option<nat>, sequence: nat)

  /** The key that makes the submissions of one order intention idempotent. */
  datatype Intent =
    | EntryIntent(strategy: Strategy, scope: Option<LowerId>, sequence: nat)
    | ExitIntent(strategy: Strategy, reason: ExitReason, scope: Option<LowerId>, sequence: nat)
    | ForcedIntent(session: nat)

  datatype EventKind =
    | MarketUpdated | LogicStarted | LowerTouched | NewLowerTouched | ManagementCompleted | StopConfirmed
    | ForceSellFinished | ForceSellFailed | UpperTouched | Activate
    | BOpened | PreparationExpired | BBuyFailed | BBuyRetry | COpened | CBuyFailed | CBuyRetry
    | StartBCheck | RetryBCheck | BEmergency | BStop | BTime | BProfit | BUpperTrend
    | BTrendCheck | BTrendSell | BSellFailed | BSellRetry | BSellFilled | BSellFinished
    | StartCCheck | RetryCCheck | CStop | CTime | CEnterProfit | StartTrailing | RetryTrailing
    | CIncrease | CFallback | CDecrease | CSellFailed | CSellRetry | CSellFilled | CSellFinished
    | CheckRecovery | CheckHandoff | BResume | BWaitOnly | RiskBlocked | SellDeferred
    | CandleClosed | StartPullback | RetryPullback | RetryWaitSetup | StartSetup | RetrySetup

  datatype Payload =
    | NoPayload
    | BuyAttempt(attempt: Attempt)
    | SellAttempt(attempt: Attempt)
    | Blocked(strategy: Strategy)
    | Expired(strategy: Strategy)
    | Deferred(strategy: Strategy, intent: Intent)
    | ForcedOutcome(applied: bool, persisted: bool, unfilled: bool)

  /** One event; `observed` says that it carries a market snapshot of its own. */
  datatype Event = Event(
    kind: EventKind,
    payload: Payload,
    sequence: nat,
    scope: Option<LowerId>,
    candle: Option<nat>,
    observed: bool
  )

  /** The numeric conditions of the strategy; each is met, unmet, or cannot be judged. */
  datatype Condition =
    | LowerPrice | UpperExit
    | TouchBbw | SignalSlope | SignalPctB | SignalLow | Pullback | SignalAge
    | BProfitZone | ProfitSlope | TrendSlope | StopSlope | EmergencyPrice | BTimeLimit | TrendExitSlope | TrendExitPctB
    | SetupPctB | SetupCci | Flush | NewLow | Rebound | RecoveryWindow | EntryLimit | Recovery
    | CProfitZone | CStopSlope | CTimeLimit | TrailFallback | TrailIncrease | Handoff

  /** One market evaluation: the verdict on each condition and the few values the transitions copy. */
  datatype Market = Market(
    verdict: Condition -> Option<bool>,
    closed30m: bool,
    closed1m: bool,
    threeLows: bool,
    bandsAbove: bool,
    bandsBelow: bool,
    entryKnown: bool,
    candle: Option<nat>,
    price: real,
    pctB: real,
    bbw: real,
    slope1m: real,
    trailReference: real
  )
  {
    predicate Met(c: Condition) { verdict(c) == Some(true) }

    predicate Unmet(c: Condition) { verdict(c) == Some(false) }
  }

  /** The runtime context, restricted to what a guard reads or a reservation writes. */
  datatype Runtime = Runtime(
    owner: Option<Strategy>,
    pendingStrategy: Option<Strategy>,
    pendingSide: Option<Side>,
    pendingOrder: Option<nat>,
    pendingAttempt: Option<Attempt>,
    pendingIntent: Option<Intent>,
    phase: Phase,
    exitReason: Option<ExitReason>,
    exitPctB: Option<real>,
    returnState: Option<ReturnState>,
    scope: Option<LowerId>,
    touchCandle: Option<nat>,
    touchBbw: Option<real>,
    bEnabled: bool,
    cEnabled: bool,
    bPaused: bool,
    bOnly: bool,
    allowSetup: bool,
    consumed: bool,
    recovered: bool,
    signalled: bool,
    setupCandle: Option<nat>,
    flushLow: Option<real>,
    entryPctB: Option<real>,
    trailSlope: Option<real>,
    bExit: Option<ExitReason>,
    cExit: Option<ExitReason>,
    cExitPctB: Option<real>
  )
  {
    /** The check the runtime snapshot makes of itself. */
    predicate Valid() {
      && (pendingOrder.Some? ==> pendingStrategy.Some? && pendingSide.Some? && pendingAttempt.Some?)
      && (exitReason.None? ==> returnState.None? && exitPctB.None?)
    }
  }

  const NEW_RUNTIME := Runtime(
    None, None, None, None, None, None, Idle, None, None, None, None, None, None,
    false, false, false, false, false, false, false, false, None, None, None, None, None, None, None)

  datatype Change<T> = Keep | Put(value: T)
  {
    function On(before: T): T {
      if Put? then value else before
    }
  }

  /** A typed patch of the runtime: every field is kept or given a new value. */
  datatype RuntimePatch = RuntimePatch(
    owner: Change<Option<Strategy>>,
    pendingStrategy: Change<Option<Strategy>>,
    pendingSide: Change<Option<Side>>,
    pendingOrder: Change<Option<nat>>,
    pendingAttempt: Change<Option<Attempt>>,
    pendingIntent: Change<Option<Intent>>,
    phase: Change<Phase>,
    exitReason: Change<Option<ExitReason>>,
    exitPctB: Change<Option<real>>,
    returnState: Change<Option<ReturnState>>,
    bEnabled: Change<bool>,
    cEnabled: Change<bool>,
    bPaused: Change<bool>,
    bOnly: Change<bool>,
    allowSetup: Change<bool>,
    consumed: Change<bool>,
    recovered: Change<bool>,
    signalled: Change<bool>,
    setupCandle: Change<Option<nat>>,
    flushLow: Change<Option<real>>,
    entryPctB: Change<Option<real>>,
    trailSlope: Change<Option<real>>,
    bExit: Change<Option<ExitReason>>,
    cExit: Change<Option<ExitReason>>,
    cExitPctB: Change<Option<real>>
  )

  const NO_CHANGE := RuntimePatch(
    Keep, Keep, Keep, Keep, Keep, Keep, Keep, Keep, Keep, Keep, Keep, Keep, Keep,
    Keep, Keep, Keep, Keep, Keep, Keep, Keep, Keep, Keep, Keep, Keep, Keep)

  function Patched(r: Runtime, p: RuntimePatch): Runtime {
    r.(
      owner := p.owner.On(r.owner),
      pendingStrategy := p.pendingStrategy.On(r.pendingStrategy),
      pendingSide := p.pendingSide.On(r.pendingSide),
      pendingOrder := p.pendingOrder.On(r.pendingOrder),
      pendingAttempt := p.pendingAttempt.On(r.pendingAttempt),
      pendingIntent := p.pendingIntent.On(r.pendingIntent),
      phase := p.phase.On(r.phase),
      exitReason := p.exitReason.On(r.exitReason),
      exitPctB := p.exitPctB.On(r.exitPctB),
      returnState := p.returnState.On(r.returnState),
      bEnabled := p.bEnabled.On(r.bEnabled),
      cEnabled := p.cEnabled.On(r.cEnabled),
      bPaused := p.bPaused.On(r.bPaused),
      bOnly := p.bOnly.On(r.bOnly),
      allowSetup := p.allowSetup.On(r.allowSetup),
      consumed := p.consumed.On(r.consumed),
      recovered := p.recovered.On(r.recovered),
      signalled := p.signalled.On(r.signalled),
      setupCandle := p.setupCandle.On(r.setupCandle),
      flushLow := p.flushLow.On(r.flushLow),
      entryPctB := p.entryPctB.On(r.entryPctB),
      trailSlope := p.trailSlope.On(r.trailSlope),
      bExit := p.bExit.On(r.bExit),
      cExit := p.cExit.On(r.cExit),
      cExitPctB := p.cExitPctB.On(r.cExitPctB))
  }

  datatype Trigger = MarketOrDeadline | NextClose | Backoff
  datatype Span = LowerScope | StrategyScope | SessionScope

  datatype Action =
    | Patch(patch: RuntimePatch)
    | OpenLower(newScope: LowerId, candle: Option<nat>, bbw: real)
    | CloseLower
    | ResetB
    | ResetC(keepSetupCandle: bool)
    | Queue(kind: EventKind, scope: Option<LowerId>)
    | Schedule(kind: EventKind, trigger: Trigger, scope: Option<LowerId>)
    | CancelScheduled(span: Span)
    | Submit(strategy: Strategy, side: Side, attempt: Attempt, key: Intent, reason: Option<ExitReason>, pctB: Option<real>)
    | CancelOrder(pending: Option<nat>)
    | ForceSell(retry: bool)
    | StopRuntime
    | ReconcileOrder(order: nat)

  /** What the guards of one microstep read: the runtime, whether a position is open, and the market. */
  datatype Context = Context(runtime: Runtime, open: bool, market: Market)

  datatype TransitionId =
    | G(n: nat) | G06P | G06F | G06R
    | O(n: nat) | B(n: nat) | C(n: nat)
    | PB(n: nat) | PB23F | PC(n: nat) | PC23F

  /** The catalogue of 109 documented transitions. */
  predicate Catalogued(id: TransitionId) {
    match id
    case G(n) => 1 <= n <= 7
    case O(n) => 1 <= n <= 9
    case B(n) => 1 <= n <= 19
    case C(n) => 1 <= n <= 17
    case PB(n) => 1 <= n <= 24
    case PC(n) => 1 <= n <= 28
    case _ => true
  }

  /** What one region selects: its transitions, the next configuration and the actions, in order. */
  datatype Outcome = Outcome(ids: seq<TransitionId>, after: Config, actions: seq<Action>, exclusive: bool)

  function Step(id: TransitionId, after: Config, actions: seq<Action>): Option<Outcome> {
    Some(Outcome([id], after, actions, false))
  }

  predicate IsBuy(a: Action) { a.Submit? && a.side == Buy }

  predicate HasBuy(actions: seq<Action>) {
    exists i :: 0 <= i < |actions| && IsBuy(actions[i])
  }

  predicate HasSubmit(actions: seq<Action>) {
    exists i :: 0 <= i < |actions| && actions[i].Submit?
  }
}
