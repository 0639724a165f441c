/** The trading loop: the state machine, the runtime context its requests are applied to, and the one order that
  * the exchange may be working on. A run is any interleaving of events, fills and settlements. */
module TradingLoop {
  import opened Bytes
  import opened TradingTypes
  import opened TradingMachine

  /** The order known to the exchange. `stopping` and `forced` mark the orders of a session that is being stopped. */
  datatype Order = Order(
    id: nat,
    strategy: Strategy,
    side: Side,
    attempt: Attempt,
    reason: Option<ExitReason>,
    pctB: Option<real>,
    filled: bool,
    forced: bool,
    stopping: bool
  )

  /** The context: the runtime snapshot, whether the position holds anything, and the pending order. */
  datatype World = World(runtime: Runtime, open: bool, order: Option<Order>)

  /** The exchange's side of a submission: an identity, or nothing sent. */
  datatype Reply = Sent(id: nat) | NotSent

  /** A patch may not contradict the pending order. */
  predicate Aligned(r: Runtime, order: Option<Order>) {
    order.Some? ==>
      && r.pendingOrder == Some(order.value.id)
      && r.pendingStrategy == Some(order.value.strategy)
      && r.pendingSide == Some(order.value.side)
      && r.pendingAttempt == Some(order.value.attempt)
  }

  function ApplyPatch(w: World, p: RuntimePatch): Option<World> {
    var r := Patched(w.runtime, p);
    if r.Valid() && Aligned(r, w.order) then Some(w.(runtime := r)) else None
  }

  function ClearB(r: Runtime): Runtime {
    r.(bEnabled := false, bPaused := false, bOnly := false, bExit := None, signalled := false)
  }

  function ClearC(r: Runtime, keepSetupCandle: bool): Runtime {
    r.(
      cEnabled := false, allowSetup := false, consumed := false, recovered := false,
      setupCandle := if keepSetupCandle then r.setupCandle else None,
      flushLow := None, entryPctB := None, trailSlope := None, cExit := None, cExitPctB := None)
  }

  /** The order becomes the pending one, before the exchange is called. */
  function Publish(w: World, o: Order): World {
    w.(order := Some(o),
       runtime := w.runtime.(
         pendingOrder := Some(o.id),
         pendingStrategy := Some(o.strategy),
         pendingSide := Some(o.side),
         pendingAttempt := Some(o.attempt)))
  }

  /** A sale of nothing is never sent, and a sale of Case C must repeat the recorded exit intention. */
  function SubmitOrder(w: World, a: Action, reply: Reply): Option<World>
    requires a.Submit?
  {
    if reply.NotSent? || (a.side == Sell && !w.open) then Some(w)
    else if
      && a.side == Sell && a.strategy == CaseC
      && (a.reason.None? || a.reason != w.runtime.exitReason || a.pctB.None? || a.pctB != w.runtime.exitPctB)
    then None
    else Some(Publish(w, Order(reply.id, a.strategy, a.side, a.attempt, a.reason, a.pctB, false, false, false)))
  }

  /** One request carried out; None is an exception, which ends the session. */
  function Exec(w: World, a: Action, reply: Reply): Option<World> {
    match a
    case Patch(p) => ApplyPatch(w, p)
    case OpenLower(scope, candle, bbw) =>
      Some(w.(runtime := w.runtime.(scope := Some(scope), touchCandle := candle, touchBbw := Some(bbw))))
    case CloseLower => Some(w.(runtime := w.runtime.(scope := None, touchCandle := None, touchBbw := None)))
    case ResetB => Some(w.(runtime := ClearB(w.runtime)))
    case ResetC(keep) => Some(w.(runtime := ClearC(w.runtime, keep)))
    case Submit(_, _, _, _, _, _) => SubmitOrder(w, a, reply)
    case ReconcileOrder(_) =>
      Some(if w.order.Some? then w.(order := Some(w.order.value.(stopping := true))) else w)
    case _ => Some(w)
  }

  /** The requests of one microstep, carried out in order. */
  function ExecAll(w: World, actions: seq<Action>, reply: Reply): Option<World>
    decreases |actions|
  {
    if actions == [] then Some(w)
    else
      var w' := Exec(w, actions[0], reply);
      if w'.None? then None else ExecAll(w'.value, actions[1..], reply)
  }

  datatype System = System(config: Config, world: World)

  datatype Move =
    | Deliver(event: Event, market: Market, reply: Reply)
    | BuyFill
    | SellFill
    | SellOut(pctB: Option<real>)
    | Settle
    | ForceSubmit(id: nat, session: nat)

  const START := System(Inactive(NotStarted), World(NEW_RUNTIME, false, None))

  function View(w: World, m: Market): Context {
    Context(w.runtime, w.open, m)
  }

  function DeliverTo(s: System, e: Event, m: Market, reply: Reply): Option<System> {
    var o := Handle(s.config, e, View(s.world, m));
    var w := ExecAll(s.world, o.actions, reply);
    if w.None? then None else Some(System(o.after, w.value))
  }

  /** A fill of a purchase opens the position or adds to it, never to another strategy's. */
  function FillBuy(w: World): Option<World> {
    if w.order.Some? && w.order.value.side == Buy
       && (w.runtime.owner.None? || w.runtime.owner == Some(w.order.value.strategy))
    then
      var o := w.order.value;
      Some(w.(open := true, runtime := w.runtime.(owner := Some(o.strategy)), order := Some(o.(filled := true))))
    else None
  }

  predicate Selling(w: World) {
    && w.order.Some? && w.order.value.side == Sell
    && w.open && w.runtime.owner == Some(w.order.value.strategy)
  }

  function FillSell(w: World): Option<World> {
    if Selling(w) then Some(w.(order := Some(w.order.value.(filled := true)))) else None
  }

  /** Why the sale was made is published once, and only if the order and the recorded intention agree. */
  function PublishExit(r: Runtime, o: Order, pctB: Option<real>): Option<Runtime> {
    if o.forced || o.stopping then Some(r)
    else if r.exitReason.None? || o.reason != r.exitReason then None
    else
      match o.strategy
      case CaseB =>
        if r.bExit.Some? && r.bExit != r.exitReason then None else Some(r.(bExit := r.exitReason))
      case CaseC =>
        if o.pctB.None? || o.pctB != r.exitPctB then None
        else if r.cExit == r.exitReason then Some(r)
        else if r.cExit.Some? || r.cExitPctB.Some? then None
        else Some(r.(cExit := r.exitReason, cExitPctB := pctB))
  }

  /** The fill that empties the position. */
  function FillOut(w: World, pctB: Option<real>): Option<World> {
    if !Selling(w) then None
    else
      var r := PublishExit(w.runtime.(owner := None), w.order.value, pctB);
      if r.None? then None
      else Some(World(r.value, false, Some(w.order.value.(filled := true))))
  }

  /** A terminal order leaves the context; the intention's key stays where a retry of it is due. */
  function SettleOrder(w: World): Option<World> {
    if w.order.None? then None
    else
      var o := w.order.value;
      var keeps := !o.forced && (!o.filled || (o.side == Sell && w.open));
      var idles := o.side == Buy && o.filled && !o.forced && !o.stopping;
      Some(w.(order := None, runtime := w.runtime.(
        pendingOrder := None,
        pendingStrategy := None,
        pendingSide := None,
        pendingAttempt := None,
        pendingIntent := if keeps then w.runtime.pendingIntent else None,
        phase := if idles then Idle else w.runtime.phase)))
  }

  /** A stopping session sells what is left under an intention of its own. */
  function SubmitForced(s: System, id: nat, session: nat): Option<World> {
    var w := s.world;
    if s.config.root != Stopping || !w.open || w.order.Some? || w.runtime.owner.None? then None
    else
      var owner := w.runtime.owner.value;
      var reserved := w.(runtime := w.runtime.(
        pendingIntent := Some(ForcedIntent(session)),
        exitReason := Some(ForcedSale), exitPctB := None, returnState := None, phase := PhaseStopping));
      Some(Publish(reserved, Order(id, owner, Sell, Initial, Some(ForcedSale), None, false, true, false)))
  }

  function Next(s: System, m: Move): Option<System> {
    match m
    case Deliver(e, market, reply) => DeliverTo(s, e, market, reply)
    case BuyFill => Moved(s, FillBuy(s.world))
    case SellFill => Moved(s, FillSell(s.world))
    case SellOut(pctB) => Moved(s, FillOut(s.world, pctB))
    case Settle => Moved(s, SettleOrder(s.world))
    case ForceSubmit(id, session) => Moved(s, SubmitForced(s, id, session))
  }

  function Moved(s: System, w: Option<World>): Option<System> {
    if w.None? then None else Some(s.(world := w.value))
  }

  // When an event may arrive.

  predicate Signalled(s: Config, strategy: Strategy) {
    match strategy
    case CaseB => s.bSignal == Some(BOpenSignalled)
    case CaseC => s.cSignal == Some(COpenSignalled)
  }

  /** Everything is sold, and the machine has yet to hear of it. */
  predicate SoldUnheard(s: Config, w: World) {
    && (s.bPosition == Some(BHolding) || s.bPosition == Some(BTrendHold)
        || s.cPosition == Some(CHolding) || s.cPosition == Some(CTrailing))
    && w.runtime.owner.None?
  }

  /** The order the serial queue keeps: a follow-up precedes market events, and feedback about an order comes once that
    * order has left the context. Two conditions on the run are ensured by nothing in the loop: that a buy retry comes
    * only while the signal that asked for it stands, and that an expired preparation reopens no setup of Case C that is
    * spent. TradingRetries and TradingExpiry say what depends on them. */
  predicate Timely(s: Config, w: World, e: Event) {
    e.kind == StopConfirmed ||
    (&& (e.kind == BBuyRetry && BRetryOpen(s, w) ==> Signalled(s, CaseB))
     && (e.kind == CBuyRetry && CRetryOpen(s, w) ==> Signalled(s, CaseC))
     && (e.kind == BOpened || e.kind == COpened ==> w.order.None?)
     && (e.kind == RiskBlocked || e.kind == PreparationExpired ==> WithdrawalTimely(s, w, e))
     && (s.bPosition == Some(BClosed) ==> e.kind == BSellFinished)
     && (s.cPosition == Some(CRecovered) ==> e.kind == CheckHandoff)
     && (SoldUnheard(s, w) ==> e.kind != MarketUpdated && e.kind != NewLowerTouched))
  }

  /** A withdrawal that counts: an expired preparation always, a blocked purchase while its signal stands. */
  predicate Withdraws(s: Config, e: Event) {
    && (e.kind == RiskBlocked || e.kind == PreparationExpired)
    && (e.payload.Blocked? || e.payload.Expired?)
    && (e.kind == PreparationExpired || Signalled(s, e.payload.strategy))
  }

  /** The guard of Case B's retry, as far as it reads the runtime; where it fails, the retry is ignored. */
  predicate BRetryOpen(s: Config, w: World) {
    && s.ownership == Some(NoPosition) && w.runtime.owner.None? && w.runtime.pendingOrder.None?
    && !w.runtime.bPaused && w.runtime.signalled
  }

  /** The guard of Case C's retry. */
  predicate CRetryOpen(s: Config, w: World) {
    && s.ownership == Some(NoPosition) && w.runtime.owner.None? && w.runtime.pendingOrder.None?
    && w.runtime.allowSetup && !w.runtime.consumed
  }

  /** A purchase is not withdrawn once it has filled, and no setup of Case C is reopened once it has traded in this
    * scope, or the market has recovered without it. */
  predicate WithdrawalTimely(s: Config, w: World, e: Event) {
    s.ownership == Some(NoPosition) && Withdraws(s, e) ==>
      && w.runtime.owner != Some(e.payload.strategy)
      && (e.payload.strategy == CaseC ==> !w.runtime.recovered && w.runtime.cExit.None?)
  }

  predicate MoveTimely(s: System, m: Move) {
    m.Deliver? ==> Timely(s.config, s.world, m.event)
  }

  function Run(s: System, moves: seq<Move>): Option<System>
    decreases |moves|
  {
    if moves == [] then Some(s)
    else if !MoveTimely(s, moves[0]) then None
    else
      var next := Next(s, moves[0]);
      if next.None? then None else Run(next.value, moves[1..])
  }

  // The invariant.

  predicate Base(w: World) {
    && w.runtime.Valid()
    && Aligned(w.runtime, w.order)
    && (w.order.None? ==> w.runtime.pendingOrder.None?)
    && (w.open <==> w.runtime.owner.Some?)
    && (w.runtime.cExit.None? ==> w.runtime.cExitPctB.None?)
  }

  predicate Flat(w: World) {
    !w.open && w.order.None?
  }

  /** Outside trade management, and before any order: nothing held, nothing pending, nothing remembered. */
  predicate Resting(w: World) {
    Flat(w) && w.runtime.exitReason.None? && w.runtime.bExit.None?
  }

  /** No position is managed: an order can only be a purchase, by the strategy whose signal asked for it. */
  predicate Entering(s: Config, w: World) {
    && w.runtime.exitReason.None?
    && w.runtime.bExit.None?
    && (w.order.Some? ==>
          && w.order.value.side == Buy
          && !w.order.value.forced && !w.order.value.stopping
          && (w.runtime.owner.None? || w.runtime.owner == Some(w.order.value.strategy))
          && Signalled(s, w.order.value.strategy))
    && (w.runtime.owner.Some? ==> Signalled(s, w.runtime.owner.value))
  }

  function ExitOf(r: Runtime, strategy: Strategy): Option<ExitReason> {
    if strategy == CaseB then r.bExit else r.cExit
  }

  /** A managed position: held by its strategy, being sold for the recorded reason, or sold for that reason. */
  predicate Managing(w: World, strategy: Strategy, back: ReturnState) {
    var r := w.runtime;
    && (w.order.Some? ==> ExitOrderOf(w.order.value, r, strategy))
    && (r.exitReason.None? ==> r.owner == Some(strategy) && w.order.None?)
    && (r.exitReason.Some? ==> r.returnState == Some(back) && (r.exitPctB.Some? <==> strategy == CaseC))
    && (r.owner.Some? ==> r.owner == Some(strategy) && ExitOf(r, strategy).None?)
    && (r.owner.None? ==> ExitOf(r, strategy) == r.exitReason)
  }

  predicate ExitOrderOf(o: Order, r: Runtime, strategy: Strategy) {
    && o.side == Sell && o.strategy == strategy
    && !o.forced && !o.stopping
    && o.reason.Some? && o.reason == r.exitReason
    && o.pctB == r.exitPctB
  }

  predicate BManaged(s: Config, w: World)
    requires s.bPosition.Some?
  {
    && s.bSignal == Some(BFinal)
    && s.cSignal == Some(CFinal)
    && match s.bPosition.value
       case BHolding => Managing(w, CaseB, ToBHolding)
       case BTrendHold => Managing(w, CaseB, ToBTrendHold)
       case BClosed => Flat(w) && w.runtime.exitReason.None?
  }

  predicate CManaged(s: Config, w: World)
    requires s.cPosition.Some?
  {
    && s.cSignal == Some(CFinal)
    && (w.runtime.bPaused || s.bSignal == Some(BFinal))
    && s.bSignal != Some(BOpenSignalled)
    && w.runtime.bExit.None?
    && (s.cPosition.value != CRecovered ==> !w.runtime.recovered)
    && match s.cPosition.value
       case CHolding => Managing(w, CaseC, ToCHolding)
       case CTrailing => Managing(w, CaseC, ToCTrailing)
       case _ => Flat(w) && w.runtime.exitReason.None?
  }

  predicate Stage(s: Config, w: World) {
    match s.root
    case NotStarted => Resting(w)
    case LowerTouchWatch => Resting(w)
    case Stopping => true
    case LogicTerminated => Flat(w)
    case TradeManagement =>
      && (s.cSignal != Some(CFinal) ==> !w.runtime.recovered && w.runtime.cExit.None?)
      && if s.bPosition.Some? then BManaged(s, w)
         else if s.cPosition.Some? then CManaged(s, w)
         else Entering(s, w)
  }

  predicate Inv(s: Config, w: World) {
    s.Valid() && Base(w) && Stage(s, w)
  }

  // Carrying out short lists of requests.

  lemma ExecOne(w: World, a: Action, reply: Reply)
    ensures ExecAll(w, [a], reply) == Exec(w, a, reply)
  {
    assert [a][1..] == [];
  }

  lemma ExecMore(w: World, a: Action, rest: seq<Action>, reply: Reply)
    ensures ExecAll(w, [a] + rest, reply)
         == var w' := Exec(w, a, reply); if w'.None? then None else ExecAll(w'.value, rest, reply)
  {
    assert ([a] + rest)[1..] == rest;
  }

  lemma ExecTwo(w: World, a: Action, b: Action, reply: Reply)
    ensures ExecAll(w, [a, b], reply)
         == var w' := Exec(w, a, reply); if w'.None? then None else Exec(w'.value, b, reply)
  {
    assert [a, b] == [a] + [b];
    ExecMore(w, a, [b], reply);
    if Exec(w, a, reply).Some? {
      ExecOne(Exec(w, a, reply).value, b, reply);
    }
  }

  lemma {:induction false} ExecAppend(w: World, xs: seq<Action>, ys: seq<Action>, reply: Reply)
    ensures ExecAll(w, xs + ys, reply)
         == var w' := ExecAll(w, xs, reply); if w'.None? then None else ExecAll(w'.value, ys, reply)
    decreases |xs|
  {
    if xs == [] {
      assert xs + ys == ys;
    } else {
      var w' := Exec(w, xs[0], reply);
      assert xs + ys == [xs[0]] + (xs[1..] + ys);
      ExecMore(w, xs[0], xs[1..] + ys, reply);
      if w'.Some? {
        ExecAppend(w'.value, xs[1..], ys, reply);
      }
    }
  }
}
