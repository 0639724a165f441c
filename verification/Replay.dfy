/** The offline replay of one fault scenario: a list of steps applied to one order, one position and one history,
  * under the policy of the scenario's fault. */
module Replay {
  import opened Bytes
  import opened OrderAggregate
  import T = TradingTypes

  // The fault policies.

  datatype Phase = Running | WaitingReady | ReconciliationRequired

  datatype Category = Rest | WebSocket | Process | Repository | ExchangeState | Sidecar | Shutdown

  /** The component, or pair of components, that answers for a fault. */
  datatype Owner =
    | NoOwner
    | GatewayAndController
    | RepositoryAndController
    | ControllerAndRepository
    | SocketAndController
    | SidecarLifecycle
    | SocketGateway
    | OrderAndHistory
    | OrderOnly
    | ControllerAndGateway
    | ControllerAndAccount
    | ControllerAndPosition
    | WatchdogAndController
    | ControllerOnly

  datatype Recovery =
    | NoRecovery
    | QuerySameClientOrderId
    | HonorRetryAfterThenQuerySameId
    | RestSnapshotThenNewGeneration
    | DropStaleGeneration
    | FullSnapshotResync
    | DeduplicateByOrderAndFillId
    | PreserveMonotonicOrderState
    | QueryPreparedIdentityBeforeSubmit
    | RepairJournalBeforeSubmit
    | RetryDurableRemove
    | RetryHistoryAppendThenRemove
    | QueryAndClassifyAppOrder
    | RequireOperatorReconciliation
    | ReconcileAccountAndPosition
    | ReconcileFillFeeAndFreeBalance
    | ReapChildAndScanOwnership
    | WaitWithinReadyDeadline
    | VerifyPidStartIdentityAndLock
    | ReconcilePositionBeforeClosed
    | ReconcileOrderBeforeClosed
    | VerifyChildExitAndOwnershipArtifact

  datatype Policy = Policy(category: Category, owner: Owner, phase: Phase, allowed: bool, recovery: Recovery)

  datatype Fault =
    | RestTimeout | Rest5xx | RestRateLimit | RestDecodeFailure
    | WsReconnect | WsStaleGeneration | WsSequenceGap | WsDuplicateEvent | WsOutOfOrderEvent
    | CrashBeforeSubmit | CrashAfterSubmit
    | JournalFsyncFailure | JournalRemoveFailure | HistoryAppendFailure
    | UnknownRecentOrder | TestnetReset | BalanceDecrease | FeeDustMismatch
    | SidecarPreReadyExit | SidecarLateReady | SidecarAbnormalExit
    | ListenerOrphan | ShutdownPositionDrift | ShutdownOrderDrift | ShutdownAckLoss

  function Blocking(category: Category, owner: Owner, recovery: Recovery): Policy {
    Policy(category, owner, ReconciliationRequired, false, recovery)
  }

  function Tolerated(owner: Owner, recovery: Recovery): Policy {
    Policy(WebSocket, owner, Running, true, recovery)
  }

  function PolicyOf(f: Fault): Policy {
    match f
    case RestTimeout => Blocking(Rest, GatewayAndController, QuerySameClientOrderId)
    case Rest5xx => Blocking(Rest, GatewayAndController, QuerySameClientOrderId)
    case RestRateLimit => Blocking(Rest, GatewayAndController, HonorRetryAfterThenQuerySameId)
    case RestDecodeFailure => Blocking(Rest, GatewayAndController, QuerySameClientOrderId)
    case WsReconnect => Blocking(WebSocket, SocketAndController, RestSnapshotThenNewGeneration)
    case WsStaleGeneration => Tolerated(SocketGateway, DropStaleGeneration)
    case WsSequenceGap => Blocking(WebSocket, SocketAndController, FullSnapshotResync)
    case WsDuplicateEvent => Tolerated(OrderAndHistory, DeduplicateByOrderAndFillId)
    case WsOutOfOrderEvent => Tolerated(OrderOnly, PreserveMonotonicOrderState)
    case CrashBeforeSubmit => Blocking(Process, ControllerAndRepository, QueryPreparedIdentityBeforeSubmit)
    case CrashAfterSubmit => Blocking(Process, ControllerAndRepository, QuerySameClientOrderId)
    case JournalFsyncFailure => Blocking(Repository, RepositoryAndController, RepairJournalBeforeSubmit)
    case JournalRemoveFailure => Blocking(Repository, RepositoryAndController, RetryDurableRemove)
    case HistoryAppendFailure => Blocking(Repository, RepositoryAndController, RetryHistoryAppendThenRemove)
    case UnknownRecentOrder => Blocking(ExchangeState, ControllerAndGateway, QueryAndClassifyAppOrder)
    case TestnetReset => Blocking(ExchangeState, ControllerAndGateway, RequireOperatorReconciliation)
    case BalanceDecrease => Blocking(ExchangeState, ControllerAndAccount, ReconcileAccountAndPosition)
    case FeeDustMismatch =>
      Blocking(ExchangeState, ControllerAndPosition, ReconcileFillFeeAndFreeBalance)
    case SidecarPreReadyExit => Blocking(Sidecar, SidecarLifecycle, ReapChildAndScanOwnership)
    case SidecarLateReady => Policy(Sidecar, SidecarLifecycle, WaitingReady, false, WaitWithinReadyDeadline)
    case SidecarAbnormalExit => Blocking(Sidecar, SidecarLifecycle, ReapChildAndScanOwnership)
    case ListenerOrphan =>
      Blocking(Process, WatchdogAndController, VerifyPidStartIdentityAndLock)
    case ShutdownPositionDrift => Blocking(Shutdown, ControllerOnly, ReconcilePositionBeforeClosed)
    case ShutdownOrderDrift => Blocking(Shutdown, ControllerOnly, ReconcileOrderBeforeClosed)
    case ShutdownAckLoss => Blocking(Shutdown, SidecarLifecycle, VerifyChildExitAndOwnershipArtifact)
  }

  /** Only a fault that leaves the session running leaves it free to submit, and those are all of one category. */
  lemma OnlyRunningSubmits(f: Fault)
    ensures PolicyOf(f).allowed <==> PolicyOf(f).phase == Running
    ensures PolicyOf(f).allowed ==> PolicyOf(f).category == WebSocket
  {
  }

  // The position and the history.

  datatype Position = Position(
    owner: Option<T.Strategy>,
    quantity: real,
    cost: real,
    entryQuantity: real,
    entryAmount: real
  )

  const CLOSED := Position(None, 0.0, 0.0, 0.0, 0.0)

  /** A purchase adds what was bought less what its fee took of it, at the amount paid plus the fee paid beside it. */
  function Bought(p: Position, strategy: T.Strategy, fills: seq<Fill>): Option<Position> {
    var net := Gross(fills) - BaseFee(fills);
    if (p.owner.Some? && p.owner != Some(strategy)) || net <= 0.0 then None
    else
      Some(Position(Some(strategy), p.quantity + net, p.cost + Amount(fills) + QuoteFee(fills),
                    p.entryQuantity + Gross(fills), p.entryAmount + Amount(fills)))
  }

  /** A sale takes its share of the cost with it. */
  function Sold(p: Position, strategy: T.Strategy, fills: seq<Fill>): Option<Position> {
    var sold := Gross(fills);
    if BaseFee(fills) > 0.0 || p.owner != Some(strategy) || p.quantity <= 0.0 || sold > p.quantity then None
    else if sold == p.quantity then Some(CLOSED)
    else
      var left := p.quantity - sold;
      Some(Position(p.owner, left, p.cost - p.cost * sold / p.quantity,
                    p.entryQuantity * left / p.quantity, p.entryAmount * left / p.quantity))
  }

  function Executed(p: Position, o: Order, fills: seq<Fill>): Option<Position> {
    if o.side == T.Buy then Bought(p, o.strategy, fills) else Sold(p, o.strategy, fills)
  }

  datatype Trade = Trade(
    orderId: nat,
    clientId: nat,
    strategy: T.Strategy,
    requested: real,
    quantity: real,
    amount: real,
    baseFee: real,
    quoteFee: real,
    feeAsset: FeeAsset
  )

  function TradeOf(o: Order, fills: seq<Fill>): Trade
    requires o.exchange.Some? && fills != []
  {
    Trade(o.exchange.value, o.clientId, o.strategy, o.requested,
          Gross(fills), Amount(fills), BaseFee(fills), QuoteFee(fills), fills[0].feeAsset)
  }

  /** The same trade again is no news; another trade under its number is a conflict. */
  function AddTrade(history: seq<Trade>, t: Trade): Option<seq<Trade>> {
    if t in history then Some(history)
    else if exists i :: 0 <= i < |history| && history[i].orderId == t.orderId then None
    else Some(history + [t])
  }

  // One step.

  datatype Step =
    | BeginOrder(clientId: nat, side: T.Side, strategy: T.Strategy, requested: real, submitted: real, price: real,
                 exitReason: Option<T.ExitReason>)
    | SubmitOrder
    | Answer(result: Result)
    | ApplyNewFills
    | CommitTrade
    | PublishEvent(event: nat)
    | FaultObserved

  datatype State = State(
    order: Option<Order>,
    mutations: nat,
    position: Position,
    history: seq<Trade>,
    events: seq<nat>,
    owner: Owner,
    phase: Phase,
    allowed: bool,
    recovery: Recovery,
    fault: bool
  )

  const FRESH := State(None, 0, CLOSED, [], [], NoOwner, Running, true, NoRecovery, false)

  function Fed(s: State): Option<State> {
    if s.order.None? then None
    else
      var o := s.order.value;
      var fills := Unapplied(o);
      if fills == [] || o.exchange.None? || !OneFeeAsset(fills) then None
      else
        var p := Executed(s.position, o, fills);
        if p.None? then None else Some(s.(position := p.value, order := Some(MarkApplied(o, fills))))
  }

  /** A sale cannot be committed here: its trade would need a realised result that no step supplies. */
  function Committed(s: State): Option<State> {
    if s.order.None? then None
    else
      var o := s.order.value;
      if o.status.None? || !Terminal(o.status.value) || Unapplied(o) != [] then None
      else if o.exchange.None? || o.fills == [] || !OneFeeAsset(o.fills) || o.side == T.Sell then None
      else
        var h := AddTrade(s.history, TradeOf(o, o.fills));
        if h.None? then None else Some(s.(history := h.value))
  }

  function Apply(s: State, step: Step, policy: Policy): Option<State> {
    match step
    case BeginOrder(clientId, side, strategy, requested, submitted, price, exitReason) =>
      var o := Begun(clientId, side, strategy, requested, submitted, price, exitReason);
      if s.order.Some? || o.None? then None else Some(s.(order := o))
    case SubmitOrder =>
      if s.order.None? || !s.allowed || s.mutations != 0 then None else Some(s.(mutations := s.mutations + 1))
    case Answer(result) =>
      if s.order.None? then None
      else
        var o := ApplyResult(s.order.value, result);
        if o.None? then None else Some(s.(order := o))
    case ApplyNewFills => Fed(s)
    case CommitTrade => Committed(s)
    case PublishEvent(event) => Some(s.(events := s.events + [event]))
    case FaultObserved =>
      if s.fault then None
      else
        Some(s.(owner := policy.owner, phase := policy.phase, allowed := policy.allowed,
                recovery := policy.recovery, fault := true))
  }

  /** A trace applied from its first step to its last; None as soon as a step is refused. */
  function Run(s: State, trace: seq<Step>, policy: Policy): Option<State> {
    if trace == [] then Some(s)
    else
      var before := Run(s, trace[..|trace| - 1], policy);
      if before.None? then None else Apply(before.value, trace[|trace| - 1], policy)
  }

  // What every accepted trace keeps.

  /** The position is what the first n fills bought, each counted once. */
  ghost predicate HoldsExactly(p: Position, o: Order, n: nat)
    requires n <= |o.fills|
  {
    var f := o.fills[..n];
    if n == 0 then p == CLOSED
    else
      && o.side == T.Buy
      && p == Position(Some(o.strategy), Gross(f) - BaseFee(f), Amount(f) + QuoteFee(f), Gross(f), Amount(f))
  }

  /** The history holds nothing, or the one trade of the first k fills. */
  ghost predicate RecordsExactly(history: seq<Trade>, o: Order, k: nat)
    requires k <= |o.fills|
  {
    if k == 0 then history == []
    else
      && o.exchange.Some? && o.status.Some? && Terminal(o.status.value)
      && history == [TradeOf(o, o.fills[..k])]
  }

  ghost predicate Inv(s: State, n: nat, k: nat) {
    if s.order.None? then n == 0 && k == 0 && s.position == CLOSED && s.history == [] && s.mutations == 0
    else
      && Kept(s.order.value, n)
      && k <= n
      && HoldsExactly(s.position, s.order.value, n)
      && RecordsExactly(s.history, s.order.value, k)
      && s.mutations <= 1
  }

  /** What the scenario's fault has done to the session so far. */
  predicate Governed(s: State, policy: Policy) {
    if s.fault then
      s.owner == policy.owner && s.phase == policy.phase && s.allowed == policy.allowed
      && s.recovery == policy.recovery
    else s.owner == NoOwner && s.phase == Running && s.allowed && s.recovery == NoRecovery
  }

  lemma AnswerKeeps(s: State, r: Result, policy: Policy, n: nat, k: nat)
    requires Inv(s, n, k) && Apply(s, Answer(r), policy).Some?
    ensures Inv(Apply(s, Answer(r), policy).value, n, k)
  {
    var o := s.order.value;
    var o' := ApplyResult(o, r).value;
    hide ApplyResult, Kept, Terminal, Gross, Amount, BaseFee, QuoteFee;
    assert k <= n && s.mutations <= 1 && HoldsExactly(s.position, o, n) && RecordsExactly(s.history, o, k);
    assert Apply(s, Answer(r), policy).value == s.(order := Some(o'));
    hide Apply;
    ResultKeeps(o, n, r);
    KeptParts(o, n);
    AnswerKeepsIdentity(o, r);
    assert o'.fills[..n] == o.fills[..n] && o'.fills[..k] == o.fills[..k];
  }

  lemma KeptParts(o: Order, n: nat)
    requires Kept(o, n)
    ensures n <= |o.fills|
  {
  }

  lemma AnswerKeepsIdentity(o: Order, r: Result)
    requires ApplyResult(o, r).Some?
    ensures var o' := ApplyResult(o, r).value;
      && o' == o.(exchange := o'.exchange, status := o'.status, fills := o'.fills)
      && (o.exchange.Some? ==> o'.exchange == o.exchange)
      && (o.status.Some? && Terminal(o.status.value) ==> o'.status == o.status)
  {
  }

  lemma PositionGrows(p: Position, o: Order, n: nat, p': Position)
    requires n < |o.fills| && HoldsExactly(p, o, n) && Executed(p, o, o.fills[n..]) == Some(p')
    ensures HoldsExactly(p', o, |o.fills|)
  {
    SumsAppend(o.fills[..n], o.fills[n..]);
    assert o.fills[..n] + o.fills[n..] == o.fills;
    assert o.fills[..|o.fills|] == o.fills;
    assert Gross([]) == 0.0 && BaseFee([]) == 0.0 && Amount([]) == 0.0 && QuoteFee([]) == 0.0;
  }

  lemma FeedKeeps(s: State, n: nat, k: nat)
    requires Inv(s, n, k) && Fed(s).Some?
    ensures Inv(Fed(s).value, |s.order.value.fills|, k)
  {
    var o := s.order.value;
    KeptParts(o, n);
    UnappliedIsTheRest(o, n);
    MarkingTellsAll(o, n);
    hide Kept, Unapplied, Terminal, Executed, OneFeeAsset;
    PositionGrows(s.position, o, n, Fed(s).value.position);
    assert MarkApplied(o, o.fills[n..]).fills == o.fills;
  }

  /** Every fill bought something, so a longer list of them bought more. */
  lemma SameGrossSameFills(o: Order, n: nat, k: nat)
    requires Kept(o, n) && k <= |o.fills| && Gross(o.fills[..k]) == Gross(o.fills)
    ensures k == |o.fills|
  {
    var more := o.fills[k..];
    assert o.fills == o.fills[..k] + more;
    SumsAppend(o.fills[..k], more);
    GrossPositive(more);
  }

  /** Once a trade stands, only the very same trade can be committed again. */
  lemma CommitKeeps(s: State, n: nat, k: nat)
    requires Inv(s, n, k) && Committed(s).Some?
    ensures Inv(Committed(s).value, n, n) && n == |s.order.value.fills|
    ensures k > 0 ==> k == n
  {
    var o := s.order.value;
    KeptParts(o, n);
    UnappliedIsTheRest(o, n);
    assert o.fills[..n] == o.fills;
    if k > 0 {
      var t := s.history[0];
      assert t.orderId == TradeOf(o, o.fills).orderId;
      assert t == TradeOf(o, o.fills);
      SameGrossSameFills(o, n, k);
    }
  }

  /** One accepted step keeps the position and the history exact. */
  lemma StepKeeps(s: State, step: Step, policy: Policy, n: nat, k: nat) returns (n': nat, k': nat)
    requires Inv(s, n, k) && Apply(s, step, policy).Some?
    ensures Inv(Apply(s, step, policy).value, n', k')
    ensures n' >= n && k' >= k && (k > 0 ==> k' == k)
    ensures step == CommitTrade ==> k' == n' == n
  {
    n', k' := n, k;
    match step
    case Answer(r) => AnswerKeeps(s, r, policy, n, k);
    case ApplyNewFills =>
      KeptParts(s.order.value, n);
      FeedKeeps(s, n, k);
      n' := |s.order.value.fills|;
    case CommitTrade =>
      CommitKeeps(s, n, k);
      k' := n;
    case BeginOrder(clientId, side, strategy, requested, submitted, price, exitReason) =>
      assert Kept(Apply(s, step, policy).value.order.value, 0);
    case _ =>
  }
}
