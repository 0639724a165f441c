/** What a repeated purchase does when its signal is gone: exact conditions. */
module TradingRetries {
  import opened Bytes
  import opened TradingTypes
  import opened TradingMachine
  import opened TradingLoop
  import opened TradingSafety
  import opened TradingRegions
  import opened TradingRuns
  import opened TradingTheorems

  // A retry, its fill, its settlement, and the opening heard.

  /** The guard of Case C's retry. */
  predicate CRetryReady(s: System) {
    s.config.root == TradeManagement && CRetryOpen(s.config, s.world)
  }

  lemma CRetryHandled(s: System, e: Event, m: Market)
    requires s.config.Valid() && CRetryReady(s) && e.kind == CBuyRetry
    ensures Handle(s.config, e, View(s.world, m))
         == Outcome([O(8)], s.config, EntryOrder(CaseC, Retry, e, View(s.world, m)), false)
  {
    var c := View(s.world, m);
    hide EntryOrder;
    assert GlobalStep(s.config, e, c).None?;
    assert RegionOne(s.config, e, c) == Step(O(8), s.config, EntryOrder(CaseC, Retry, e, c));
    SignalsOnlyForThem(s.config, e, c);
    hide GlobalStep, RegionOne, RegionC, RegionB;
    assert [] + EntryOrder(CaseC, Retry, e, c) == EntryOrder(CaseC, Retry, e, c);
  }

  /** The guard of Case B's retry, its market condition included. */
  predicate BRetryReady(s: System, m: Market) {
    s.config.root == TradeManagement && BRetryOpen(s.config, s.world) && m.Met(SignalAge)
  }

  lemma BRetryHandled(s: System, e: Event, m: Market)
    requires s.config.Valid() && BRetryReady(s, m) && e.kind == BBuyRetry
    ensures Handle(s.config, e, View(s.world, m))
         == Outcome([O(4)], s.config, EntryOrder(CaseB, Retry, e, View(s.world, m)), false)
  {
    var c := View(s.world, m);
    hide EntryOrder;
    assert GlobalStep(s.config, e, c).None?;
    assert RegionOne(s.config, e, c) == Step(O(4), s.config, EntryOrder(CaseB, Retry, e, c));
    SignalsOnlyForThem(s.config, e, c);
    hide GlobalStep, RegionOne, RegionC, RegionB;
    assert [] + EntryOrder(CaseB, Retry, e, c) == EntryOrder(CaseB, Retry, e, c);
  }

  /** A purchase in flight, filled and settled: its strategy holds the position, and nothing is kept of the order. */
  lemma PurchaseDone(w: World)
    requires w.order.Some? && w.order.value.side == Buy && !w.order.value.forced && !w.order.value.stopping
    requires w.runtime.owner.None?
    ensures FillBuy(w).Some? && SettleOrder(FillBuy(w).value).Some?
    ensures SettleOrder(FillBuy(w).value).value
         == World(w.runtime.(owner := Some(w.order.value.strategy), pendingOrder := None, pendingStrategy := None,
                             pendingSide := None, pendingAttempt := None, pendingIntent := None, phase := Idle),
                  true, None)
  {
  }

  /** The system after the answer to a retry: the purchase is made, and the machine hears of it. */
  function Bought(s: System, e: Event, m: Market, id: nat, heard: Event, m': Market, reply: Reply): Option<System> {
    var s1 := DeliverTo(s, e, m, Sent(id));
    if s1.None? then None
    else
      var w2 := FillBuy(s1.value.world);
      if w2.None? then None
      else
        var w3 := SettleOrder(w2.value);
        if w3.None? then None else DeliverTo(System(s1.value.config, w3.value), heard, m', reply)
  }

  /** A request that at most pauses Case B or ends the setups. */
  predicate Mild(a: Action) {
    (Inert(a) && !a.CancelScheduled?) || a == PAUSE_B || a == NO_MORE_SETUPS
  }

  predicate AllMild(actions: seq<Action>) {
    forall i :: 0 <= i < |actions| ==> Mild(actions[i])
  }

  lemma {:induction false} MildExec(w: World, actions: seq<Action>, reply: Reply)
    requires w.runtime.Valid() && w.order.None? && AllMild(actions)
    ensures var w' := ExecAll(w, actions, reply);
      && w'.Some?
      && w'.value == w.(runtime := w.runtime.(bPaused := w'.value.runtime.bPaused,
                                              allowSetup := w'.value.runtime.allowSetup))
      && (w.runtime.bPaused ==> w'.value.runtime.bPaused)
    decreases |actions|
  {
    if actions != [] {
      MildOne(w, actions[0], reply);
      hide Exec, Mild;
      MildExec(Exec(w, actions[0], reply).value, actions[1..], reply);
    }
  }

  lemma MildOne(w: World, a: Action, reply: Reply)
    requires w.runtime.Valid() && w.order.None? && Mild(a)
    ensures var w' := Exec(w, a, reply);
      && w'.Some? && w'.value.runtime.Valid()
      && w'.value == w.(runtime := w.runtime.(bPaused := w'.value.runtime.bPaused,
                                              allowSetup := w'.value.runtime.allowSetup))
      && (w.runtime.bPaused || a == PAUSE_B ==> w'.value.runtime.bPaused)
  {
    if a == PAUSE_B {
      FlagPatched(w, NO_CHANGE.(bPaused := Put(true)));
      assert Exec(w, a, reply) == ApplyPatch(w, NO_CHANGE.(bPaused := Put(true)));
    } else if a == NO_MORE_SETUPS {
      FlagPatched(w, NO_CHANGE.(allowSetup := Put(false)));
      assert Exec(w, a, reply) == ApplyPatch(w, NO_CHANGE.(allowSetup := Put(false)));
    } else {
      ExecQuietly(w, a, reply);
    }
  }

  lemma FlagPatched(w: World, p: RuntimePatch)
    requires w.runtime.Valid() && w.order.None?
    requires p == NO_CHANGE.(bPaused := p.bPaused, allowSetup := p.allowSetup)
    ensures ApplyPatch(w, p) == Some(w.(runtime := w.runtime.(bPaused := p.bPaused.On(w.runtime.bPaused),
                                                              allowSetup := p.allowSetup.On(w.runtime.allowSetup))))
  {
  }

  lemma OpeningIsRegional(s: Config, e: Event, c: Context)
    requires IsOpened(e) && s.root == TradeManagement
    ensures GlobalStep(s, e, c).None?
  {
  }

  lemma BOpeningHeard(s: Config, e: Event, c: Context)
    requires s.Valid() && s.root == TradeManagement && s.ownership == Some(NoPosition) && e.kind == BOpened
    requires c.runtime.owner == Some(CaseB) && c.runtime.pendingOrder.None? && c.open
    ensures var o := Handle(s, e, c);
      && AllMild(o.actions)
      && o.after == BTaken(s).(bSignal := if s.bSignal == Some(BOpenSignalled) then Some(BFinal) else s.bSignal)
  {
    OpeningIsRegional(s, e, c);
    var one := RegionOne(s, e, c);
    hide GlobalStep;
    assert one == Some(Outcome([O(2), PB(1)], s.(ownership := Some(CaseBPosition), bPosition := Some(BHolding)),
                               [FollowUp(StartBCheck, c)], false));
    var taken := one.value.after;
    CHearsB(taken, e, c);
    BHearsB(taken.(cSignal := Some(CFinal)), e, c);
    hide GlobalStep, RegionOne, RegionC, RegionB;
  }

  lemma CHearsB(s: Config, e: Event, c: Context)
    requires s.cSignal.Some? && BWon(e, c)
    ensures var o := RegionC(s, e, c);
      if s.cSignal == Some(CFinal) then o.None?
      else o.Some? && o.value.after == s.(cSignal := Some(CFinal)) && AllMild(o.value.actions) && !o.value.exclusive
  {
  }

  lemma BHearsB(s: Config, e: Event, c: Context)
    requires e.kind == BOpened && c.runtime.owner == Some(CaseB)
    ensures RegionB(s, e, c) == if s.bSignal == Some(BOpenSignalled) then Step(B(18), s.(bSignal := Some(BFinal)), [])
                                else None
  {
  }

  lemma COpeningHeard(s: Config, e: Event, c: Context)
    requires s.Valid() && s.root == TradeManagement && s.ownership == Some(NoPosition) && e.kind == COpened
    requires c.runtime.owner == Some(CaseC) && c.runtime.pendingOrder.None? && c.open
    ensures var o := Handle(s, e, c);
      && AllMild(o.actions) && o.actions != [] && o.actions[0] == PAUSE_B
      && o.after == CTaken(s).(cSignal := if s.cSignal == Some(COpenSignalled) then Some(CFinal) else s.cSignal)
  {
    OpeningIsRegional(s, e, c);
    var one := RegionOne(s, e, c);
    hide GlobalStep;
    assert one == Some(Outcome([O(6), PC(1)], s.(ownership := Some(CaseCPosition), cPosition := Some(CHolding)),
                               [PAUSE_B, FollowUp(StartCCheck, c)], false));
    var taken := one.value.after;
    CHearsC(taken, e, c);
    var ended := taken.(cSignal := if s.cSignal == Some(COpenSignalled) then Some(CFinal) else s.cSignal);
    BHearsC(ended, e, c);
    hide GlobalStep, RegionOne, RegionC, RegionB;
  }

  lemma CHearsC(s: Config, e: Event, c: Context)
    requires e.kind == COpened && c.runtime.owner == Some(CaseC)
    ensures RegionC(s, e, c) == if s.cSignal == Some(COpenSignalled) then Step(C(16), s.(cSignal := Some(CFinal)), [])
                                else None
  {
  }

  lemma BHearsC(s: Config, e: Event, c: Context)
    requires e.kind == COpened && c.runtime.owner == Some(CaseC) && s.bSignal.Some?
    ensures var o := RegionB(s, e, c); var next := if s.bSignal == Some(BOpenSignalled) then Some(BWaitPullback) else s.bSignal;
      && (o.None? ==> next == s.bSignal)
      && (o.Some? ==> o.value.after == s.(bSignal := next) && AllMild(o.value.actions) && !o.value.exclusive)
  {
  }

  lemma RetrySent(w: World, strategy: Strategy, e: Event, c: Context, id: nat)
    requires w.order.None? && w.runtime.Valid() && w.runtime.pendingOrder.None?
    ensures var w' := ExecAll(w, EntryOrder(strategy, Retry, e, c), Sent(id));
      && w'.Some?
      && w'.value.order == Some(Order(id, strategy, Buy, Retry, None, None, false, false, false))
      && w'.value.runtime == w.runtime.(
           pendingOrder := Some(id), pendingStrategy := Some(strategy), pendingSide := Some(Buy),
           pendingAttempt := Some(Retry), pendingIntent := w'.value.runtime.pendingIntent, phase := EntryPending)
      && w'.value.open == w.open
  {
    hide ExecAll;
    var actions := EntryOrder(strategy, Retry, e, c);
    ExecTwo(w, actions[0], actions[1], Sent(id));
    assert actions == [actions[0], actions[1]];
  }

  lemma RetryQuiet(s: System)
    requires Inv(s.config, s.world) && s.config.root == TradeManagement && s.config.ownership == Some(NoPosition)
    requires s.world.runtime.owner.None? && s.world.runtime.pendingOrder.None?
    ensures s.config.Valid() && s.world.order.None? && s.world.runtime.Valid() && !s.world.open
  {
  }

  /** A repeated purchase sent, filled and settled. */
  lemma RetryFilled(s: System, strategy: Strategy, e: Event, m: Market, id: nat) returns (w: World)
    requires s.world.order.None? && s.world.runtime.Valid() && s.world.runtime.pendingOrder.None?
    requires s.world.runtime.owner.None?
    requires var o := Handle(s.config, e, View(s.world, m));
      o.after == s.config && o.actions == EntryOrder(strategy, Retry, e, View(s.world, m))
    ensures DeliverTo(s, e, m, Sent(id)).Some?
    ensures var w1 := DeliverTo(s, e, m, Sent(id)).value;
      && w1.config == s.config && FillBuy(w1.world).Some? && SettleOrder(FillBuy(w1.world).value) == Some(w)
    ensures w == World(s.world.runtime.(
      owner := Some(strategy), pendingOrder := None, pendingStrategy := None, pendingSide := None,
      pendingAttempt := None, pendingIntent := None, phase := Idle), true, None)
  {
    hide Handle, ExecAll, EntryOrder, FillBuy, SettleOrder;
    RetrySent(s.world, strategy, e, View(s.world, m), id);
    var w1 := DeliverTo(s, e, m, Sent(id)).value.world;
    PurchaseDone(w1);
    w := SettleOrder(FillBuy(w1).value).value;
  }

  /** A retry of Case B that is accepted, filled, settled and heard of always gives Case B the position. It leaves one
    * machine in charge, both signal regions ended, exactly if the signal that asked for the purchase was still open
    * when the retry came, or Case B's signal region had ended altogether. */
  lemma BRetryDecides(s: System, e: Event, m: Market, id: nat, heard: Event, m': Market, reply: Reply)
    requires Inv(s.config, s.world) && BRetryReady(s, m) && e.kind == BBuyRetry && heard.kind == BOpened
    ensures var s' := Bought(s, e, m, id, heard, m', reply);
      && s'.Some?
      && s'.value.config == BTaken(s.config).(
           bSignal := if s.config.bSignal == Some(BOpenSignalled) then Some(BFinal) else s.config.bSignal)
      && s'.value.world == World(s.world.runtime.(
           owner := Some(CaseB), pendingOrder := None, pendingStrategy := None, pendingSide := None,
           pendingAttempt := None, pendingIntent := None, phase := Idle, bPaused := s'.value.world.runtime.bPaused,
           allowSetup := s'.value.world.runtime.allowSetup), true, None)
      && (OneMachine(s'.value) <==> s.config.bSignal == Some(BOpenSignalled) || s.config.bSignal == Some(BFinal))
  {
    RetryQuiet(s);
    hide Handle, ExecAll, EntryOrder, Inv, AllMild, FillBuy, SettleOrder, BRetryReady, IsBuy, Timely;
    BRetryHandled(s, e, m);
    var w3 := RetryFilled(s, CaseB, e, m, id);
    BOpeningHeard(s.config, heard, View(w3, m'));
    MildExec(w3, Handle(s.config, heard, View(w3, m')).actions, reply);
  }

  /** The same of Case C's retry: here its own signal region decides. */
  lemma CRetryDecides(s: System, e: Event, m: Market, id: nat, heard: Event, m': Market, reply: Reply)
    requires Inv(s.config, s.world) && CRetryReady(s) && e.kind == CBuyRetry && heard.kind == COpened
    ensures var s' := Bought(s, e, m, id, heard, m', reply);
      && s'.Some?
      && s'.value.config == CTaken(s.config).(
           cSignal := if s.config.cSignal == Some(COpenSignalled) then Some(CFinal) else s.config.cSignal)
      && s'.value.world == World(s.world.runtime.(
           owner := Some(CaseC), pendingOrder := None, pendingStrategy := None, pendingSide := None,
           pendingAttempt := None, pendingIntent := None, phase := Idle, bPaused := s'.value.world.runtime.bPaused,
           allowSetup := s'.value.world.runtime.allowSetup), true, None)
      && (OneMachine(s'.value) <==> s.config.cSignal == Some(COpenSignalled) || s.config.cSignal == Some(CFinal))
  {
    RetryQuiet(s);
    hide Handle, ExecAll, EntryOrder, Inv, AllMild, FillBuy, SettleOrder, CRetryReady, IsBuy, Timely;
    CRetryHandled(s, e, m);
    var w3 := RetryFilled(s, CaseC, e, m, id);
    COpeningHeard(s.config, heard, View(w3, m'));
    var actions := Handle(s.config, heard, View(w3, m')).actions;
    PausedFirst(w3, actions, reply);
  }

  lemma PausedFirst(w: World, actions: seq<Action>, reply: Reply)
    requires w.runtime.Valid() && w.order.None? && AllMild(actions) && actions != [] && actions[0] == PAUSE_B
    ensures var w' := ExecAll(w, actions, reply);
      && w'.Some?
      && w'.value == w.(runtime := w.runtime.(bPaused := true, allowSetup := w'.value.runtime.allowSetup))
  {
    MildOne(w, actions[0], reply);
    hide Exec, Mild;
    assert AllMild(actions[1..]);
    MildExec(Exec(w, actions[0], reply).value, actions[1..], reply);
  }

  /** With a setup still open beside a managed position, the moment between the sale and the machine's hearing of it is
    * enough to buy again, with nothing to manage the new position. */
  lemma OpenSetupBuysBesideAPosition(s: Config, e: Event, c: Context)
    requires s.Valid() && s.cSignal == Some(CSetup) && e.kind == RetrySetup
    requires s.cPosition == Some(CHolding) || s.cPosition == Some(CTrailing)
    requires c.runtime.owner.None? && c.runtime.pendingOrder.None? && c.runtime.exitReason.Some?
    requires Recovering(c) && c.market.Met(EntryLimit) && c.market.Unmet(NewLow)
    ensures HasBuy(Handle(s, e, c).actions) && Handle(s, e, c).after.cPosition == s.cPosition
  {
    SetupHandled(s, e, c);
    EntryBuys(CaseC, Initial, e, c);
    hide Handle, EntryOrder, HasBuy, Recovering;
  }

  lemma SetupHandled(s: Config, e: Event, c: Context)
    requires s.Valid() && s.cSignal == Some(CSetup) && e.kind == RetrySetup
    requires s.cPosition == Some(CHolding) || s.cPosition == Some(CTrailing)
    requires c.runtime.owner.None? && c.runtime.pendingOrder.None?
    requires Recovering(c) && c.market.Met(EntryLimit) && c.market.Unmet(NewLow)
    ensures Handle(s, e, c).actions == EntryOrder(CaseC, Initial, e, c)
    ensures Handle(s, e, c).after == s.(cSignal := Some(COpenSignalled))
  {
    SetupNotGlobal(s, e, c);
    SetupSelected(s, e, c);
    SetupNotForPosition(s, e, c);
    SignalNotAsked(s.(cSignal := Some(COpenSignalled)), e, c);
    hide EntryOrder, GlobalStep, RegionOne, RegionC, RegionB, Recovering;
    var entry := EntryOrder(CaseC, Initial, e, c);
    assert [] + entry == entry;
  }

  lemma SetupSelected(s: Config, e: Event, c: Context)
    requires s.cSignal == Some(CSetup) && e.kind == RetrySetup
    requires c.runtime.owner.None? && c.runtime.pendingOrder.None?
    requires Recovering(c) && c.market.Met(EntryLimit) && c.market.Unmet(NewLow)
    ensures RegionC(s, e, c) == Step(C(12), s.(cSignal := Some(COpenSignalled)), EntryOrder(CaseC, Initial, e, c))
  {
    hide EntryOrder;
    assert RegionC(s, e, c) == CCheckStep(s, e, c);
  }

  lemma SetupNotForPosition(s: Config, e: Event, c: Context)
    requires s.bPosition.None? && e.kind == RetrySetup
    requires s.cPosition == Some(CHolding) || s.cPosition == Some(CTrailing)
    ensures RegionOne(s, e, c).None?
  {
    CLeavesSignals(s, e, c);
    hide CPositionStep, BPositionStep, OwnershipStep;
  }

  lemma SetupNotGlobal(s: Config, e: Event, c: Context)
    requires e.kind == RetrySetup
    ensures GlobalStep(s, e, c).None?
  {
  }

  lemma SignalNotAsked(s: Config, e: Event, c: Context)
    requires e.kind == RetrySetup
    ensures RegionB(s, e, c).None?
  {
  }
}
