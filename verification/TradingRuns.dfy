/** The two signal regions, the whole microstep, and every run. */
module TradingRuns {
  import opened Bytes
  import opened TradingTypes
  import opened TradingMachine
  import opened TradingLoop
  import opened TradingSafety
  import opened TradingRegions

  // Case C's signal region.

  /** The guards were read before an earlier region acted; that region left these fields alone. */
  predicate StillTrue(c: Context, w: World) {
    c.runtime.owner == w.runtime.owner && c.runtime.bPaused == w.runtime.bPaused
  }

  lemma CWaitKeeps(s: Config, e: Event, c: Context, w: World, reply: Reply, w': World)
    requires Inv(s, w) && StillTrue(c, w) && s.cSignal == Some(CWaitSetup) && !IsOpened(e)
    requires CWaitStep(s, e, c).Some?
    requires ExecAll(w, CWaitStep(s, e, c).value.actions, reply) == Some(w')
    ensures Inv(CWaitStep(s, e, c).value.after, w')
    ensures StillTrue(c, w') && w'.runtime.pendingOrder == w.runtime.pendingOrder
  {
    hide ExecAll;
    var o := CWaitStep(s, e, c).value;
    if |o.actions| == 1 {
      ExecInert(w, o.actions, reply);
    } else {
      assert o.actions == [o.actions[0], o.actions[1]];
      ExecTwo(w, o.actions[0], o.actions[1], reply);
    }
  }

  lemma CBuyKeeps(s: Config, e: Event, c: Context, w: World, reply: Reply, w': World)
    requires Inv(s, w) && StillTrue(c, w) && s.cSignal == Some(CSetup)
    requires c.runtime.owner.None? && w.runtime.pendingOrder.None?
    requires ExecAll(w, EntryOrder(CaseC, Initial, e, c), reply) == Some(w')
    ensures Inv(s.(cSignal := Some(COpenSignalled)), w') && StillTrue(c, w')
  {
    hide ExecAll, EntryOrder;
    EntrySubmitted(w, CaseC, Initial, e, c, reply, w');
  }

  lemma CSetupPatchKeeps(s: Config, c: Context, w: World, p: RuntimePatch, next: Action, reply: Reply, w': World)
    requires Inv(s, w) && StillTrue(c, w)
    requires p == NO_CHANGE.(flushLow := p.flushLow, entryPctB := p.entryPctB) && Inert(next)
    requires ExecAll(w, [Patch(p), next], reply) == Some(w')
    ensures Inv(s, w') && StillTrue(c, w') && w'.runtime.pendingOrder == w.runtime.pendingOrder
  {
    hide ExecAll;
    ExecTwo(w, Patch(p), next, reply);
  }

  lemma CConsumedKeeps(s: Config, c: Context, w: World, reply: Reply, w': World)
    requires Inv(s, w) && StillTrue(c, w) && s.cSignal == Some(CSetup)
    requires ExecAll(w, [Patch(NO_CHANGE.(consumed := Put(true), recovered := Put(true), allowSetup := Put(false)))],
                     reply) == Some(w')
    ensures Inv(s.(cSignal := Some(CFinal)), w')
    ensures StillTrue(c, w') && w'.runtime.pendingOrder == w.runtime.pendingOrder
  {
    hide ExecAll;
    ExecOne(w, Patch(NO_CHANGE.(consumed := Put(true), recovered := Put(true), allowSetup := Put(false))), reply);
  }

  lemma CSetupKeeps(s: Config, e: Event, c: Context, w: World, reply: Reply, w': World)
    requires Inv(s, w) && StillTrue(c, w) && s.cSignal == Some(CSetup) && !IsOpened(e)
    requires c.runtime.pendingOrder == w.runtime.pendingOrder
    requires CSetupStep(s, e, c).Some?
    requires ExecAll(w, CSetupStep(s, e, c).value.actions, reply) == Some(w')
    ensures Inv(CSetupStep(s, e, c).value.after, w') && StillTrue(c, w')
    ensures CaseCBuys(CSetupStep(s, e, c).value.actions) || w'.runtime.pendingOrder == w.runtime.pendingOrder
  {
    hide ExecAll, Inv, StillTrue, Recovering, KeepsWatching;
    assert StillTrue(c, w);
    var o := CSetupStep(s, e, c).value;
    var id := o.ids[0];
    if id == C(12) {
      assert IsBuy(o.actions[1]) && o.actions[1].strategy == CaseC;
      CBuyKeeps(s, e, c, w, reply, w');
    } else if id == C(8) {
      CConsumedKeeps(s, c, w, reply, w');
    } else if |o.actions| == 1 {
      assert Inert(o.actions[0]);
      ExecInert(w, o.actions, reply);
    } else {
      assert o.actions == [o.actions[0], o.actions[1]];
      CSetupPatchKeeps(s, c, w, o.actions[0].patch, o.actions[1], reply, w');
    }
  }

  lemma RegionCKeeps(s: Config, e: Event, c: Context, w: World, reply: Reply, w': World)
    requires Inv(s, w) && StillTrue(c, w) && !IsOpened(e)
    requires c.runtime.pendingOrder == w.runtime.pendingOrder
    requires RegionC(s, e, c).Some?
    requires ExecAll(w, RegionC(s, e, c).value.actions, reply) == Some(w')
    ensures Inv(RegionC(s, e, c).value.after, w') && StillTrue(c, w')
    ensures CaseCBuys(RegionC(s, e, c).value.actions) || w'.runtime.pendingOrder == w.runtime.pendingOrder
  {
    hide ExecAll, Inv, StillTrue, CWaitStep, CSetupStep;
    var e' := ForCaseC(s, e);
    if s.cSignal == Some(CWaitSetup) {
      CWaitKeeps(s, e', c, w, reply, w');
    } else if s.cSignal == Some(CSetup) {
      CSetupKeeps(s, e', c, w, reply, w');
    }
  }

  // Case B's signal region.

  lemma PausedKeeps(s: Config, w: World, paused: bool, w': World)
    requires Inv(s, w)
    requires !paused ==> s.cPosition.None?
    requires ApplyPatch(w, NO_CHANGE.(bPaused := Put(paused))) == Some(w')
    ensures Inv(s, w')
  {
  }

  /** Case B's entry may be unpaused only once Case C's position is out of the way. */
  lemma BPauseKeeps(s: Config, e: Event, c: Context, w: World, n0: nat, n1: nat, n2: nat, reply: Reply, w': World)
    requires Inv(s, w) && (e.kind == BResume ==> c.runtime.recovered == w.runtime.recovered)
    requires s.cPosition == Some(CRecovered) ==> e.kind != BResume
    requires BPauseStep(s, e, c, n0, n1, n2).Some?
    requires ExecAll(w, BPauseStep(s, e, c, n0, n1, n2).value.actions, reply) == Some(w')
    ensures BPauseStep(s, e, c, n0, n1, n2).value.after == s && Inv(s, w')
  {
    assert s.cPosition.Some? ==> !w.runtime.recovered || s.cPosition == Some(CRecovered);
    hide ExecAll, Inv, ApplyPatch;
    var paused := e.kind != BResume;
    ExecOne(w, Patch(NO_CHANGE.(bPaused := Put(paused))), reply);
    PausedKeeps(s, w, paused, w');
  }

  lemma BNoTouchKeeps(s: Config, w: World, reply: Reply, w': World)
    requires Inv(s, w) && s.bSignal == Some(BWaitTouch)
    requires ExecAll(w, [Patch(NO_CHANGE.(bEnabled := Put(false))), ResetB], reply) == Some(w')
    ensures Inv(s.(bSignal := Some(BFinal)), w')
  {
    hide ExecAll;
    ExecTwo(w, Patch(NO_CHANGE.(bEnabled := Put(false))), ResetB, reply);
  }

  lemma BTouchedKeeps(s: Config, w: World, next: Action, reply: Reply, w': World)
    requires Inv(s, w) && s.bSignal == Some(BWaitTouch) && next.Schedule?
    requires ExecAll(w, [Patch(NO_CHANGE.(bEnabled := Put(true), signalled := Put(false))), next], reply) == Some(w')
    ensures Inv(s.(bSignal := Some(BWaitSignal)), w')
  {
    hide ExecAll;
    ExecTwo(w, Patch(NO_CHANGE.(bEnabled := Put(true), signalled := Put(false))), next, reply);
  }

  lemma BTouchKeeps(s: Config, e: Event, c: Context, w: World, reply: Reply, w': World)
    requires Inv(s, w) && s.bSignal == Some(BWaitTouch)
    requires BTouchStep(s, e, c).Some?
    requires ExecAll(w, BTouchStep(s, e, c).value.actions, reply) == Some(w')
    ensures Inv(BTouchStep(s, e, c).value.after, w')
  {
    hide ExecAll, Inv;
    var o := BTouchStep(s, e, c).value;
    if o.ids[0] == B(2) {
      BNoTouchKeeps(s, w, reply, w');
    } else {
      BTouchedKeeps(s, w, Schedule(CandleClosed, NextClose, c.runtime.scope), reply, w');
    }
  }

  lemma BWaitSignalKeeps(s: Config, e: Event, c: Context, w: World, reply: Reply, w': World)
    requires Inv(s, w) && s.bSignal == Some(BWaitSignal)
    requires e.kind == BResume ==> c.runtime.recovered == w.runtime.recovered
    requires s.cPosition == Some(CRecovered) ==> e.kind != BResume
    requires BWaitSignalStep(s, e, c).Some?
    requires ExecAll(w, BWaitSignalStep(s, e, c).value.actions, reply) == Some(w')
    ensures Inv(BWaitSignalStep(s, e, c).value.after, w')
  {
    hide ExecAll, BPauseStep, SignalCandle;
    var o := BWaitSignalStep(s, e, c).value;
    if e.kind != CandleClosed || (SignalCandle(c) && c.runtime.signalled) {
      BPauseKeeps(s, e, c, w, 12, 14, 16, reply, w');
    } else if |o.actions| == 1 {
      ExecInert(w, o.actions, reply);
    } else {
      assert o.actions == [o.actions[0], o.actions[1]];
      ExecTwo(w, o.actions[0], o.actions[1], reply);
    }
  }

  lemma BBuyKeeps(s: Config, e: Event, c: Context, w: World, reply: Reply, w': World)
    requires Inv(s, w) && StillTrue(c, w) && s.bSignal == Some(BWaitPullback)
    requires c.runtime.owner.None? && !c.runtime.bPaused && w.runtime.pendingOrder.None?
    requires ExecAll(w, EntryOrder(CaseB, Initial, e, c), reply) == Some(w')
    ensures Inv(s.(bSignal := Some(BOpenSignalled)), w')
  {
    hide ExecAll, EntryOrder;
    EntrySubmitted(w, CaseB, Initial, e, c, reply, w');
  }

  lemma BExpiredKeeps(s: Config, w: World, reply: Reply, w': World)
    requires Inv(s, w) && s.bSignal == Some(BWaitPullback)
    requires ExecAll(w, [ResetB], reply) == Some(w')
    ensures Inv(s.(bSignal := Some(BFinal)), w')
  {
    hide ExecAll;
    ExecOne(w, ResetB, reply);
  }

  lemma BPullbackKeeps(s: Config, e: Event, c: Context, w: World, reply: Reply, w': World)
    requires Inv(s, w) && StillTrue(c, w) && s.bSignal == Some(BWaitPullback)
    requires e.kind == BResume ==> c.runtime.recovered == w.runtime.recovered
    requires s.cPosition == Some(CRecovered) ==> e.kind != BResume
    requires BPullbackStep(s, e, c).Some?
    requires c.runtime.pendingOrder == w.runtime.pendingOrder || !CaseBBuys(BPullbackStep(s, e, c).value.actions)
    requires ExecAll(w, BPullbackStep(s, e, c).value.actions, reply) == Some(w')
    ensures Inv(BPullbackStep(s, e, c).value.after, w')
  {
    hide ExecAll, BPauseStep, Inv;
    assert StillTrue(c, w);
    var o := BPullbackStep(s, e, c).value;
    if e.kind != StartPullback && e.kind != RetryPullback {
      BPauseKeeps(s, e, c, w, 13, 15, 17, reply, w');
    } else if |o.actions| == 2 {
      assert IsBuy(o.actions[1]) && o.actions[1].strategy == CaseB;
      BBuyKeeps(s, e, c, w, reply, w');
    } else if o.after != s {
      BExpiredKeeps(s, w, reply, w');
    } else {
      assert Inert(o.actions[0]);
      ExecInert(w, o.actions, reply);
    }
  }

  lemma RegionBKeeps(s: Config, e: Event, c: Context, w: World, reply: Reply, w': World)
    requires Inv(s, w) && StillTrue(c, w) && !IsOpened(e)
    requires e.kind == BResume ==> c.runtime.recovered == w.runtime.recovered
    requires s.cPosition == Some(CRecovered) ==> e.kind != BResume
    requires RegionB(s, e, c).Some?
    requires c.runtime.pendingOrder == w.runtime.pendingOrder || !CaseBBuys(RegionB(s, e, c).value.actions)
    requires ExecAll(w, RegionB(s, e, c).value.actions, reply) == Some(w')
    ensures Inv(RegionB(s, e, c).value.after, w')
  {
    hide ExecAll, Inv, StillTrue, BTouchStep, BPullbackStep;
    var e' := ForCaseB(s, e, c);
    if s.bSignal == Some(BWaitTouch) {
      BTouchKeeps(s, e', c, w, reply, w');
    } else if s.bSignal == Some(BWaitPullback) {
      BPullbackKeeps(s, e', c, w, reply, w');
    } else if e'.kind == CandleClosed {
      BCandleKeeps(s, e', c, w, reply, w');
    } else {
      hide BWaitSignalStep;
      BWaitSignalKeeps(s, e', c, w, reply, w');
    }
  }

  lemma BCandleKeeps(s: Config, e: Event, c: Context, w: World, reply: Reply, w': World)
    requires Inv(s, w) && s.bSignal == Some(BWaitSignal) && e.kind == CandleClosed
    requires BWaitSignalStep(s, e, c).Some?
    requires ExecAll(w, BWaitSignalStep(s, e, c).value.actions, reply) == Some(w')
    ensures Inv(BWaitSignalStep(s, e, c).value.after, w')
  {
    hide ExecAll, SignalCandle;
    var o := BWaitSignalStep(s, e, c).value;
    if |o.actions| == 1 {
      ExecInert(w, o.actions, reply);
    } else {
      assert o.actions == [o.actions[0], o.actions[1]];
      ExecTwo(w, o.actions[0], o.actions[1], reply);
    }
  }

  // The whole microstep.

  /** The events a signal region reacts to, openings aside. */
  predicate ForSignals(k: EventKind) {
    || k == MarketUpdated || k == Activate
    || k == RetryWaitSetup || k == StartSetup || k == RetrySetup
    || k == CandleClosed || k == StartPullback || k == RetryPullback || k == BResume || k == BWaitOnly
  }

  lemma SignalsOnlyForThem(s: Config, e: Event, c: Context)
    requires !ForSignals(e.kind) && !IsOpened(e)
    ensures RegionC(s, e, c).None? && RegionB(s, e, c).None?
  {
  }

  lemma BLeavesSignals(s: Config, e: Event, c: Context)
    requires ForSignals(e.kind) && e.kind != MarketUpdated && s.bPosition.Some?
    ensures BPositionStep(s, e, c).None?
  {
    hide BExitGuard;
  }

  lemma CLeavesSignals(s: Config, e: Event, c: Context)
    requires ForSignals(e.kind) && e.kind != MarketUpdated && s.cPosition.Some?
    ensures CPositionStep(s, e, c).None?
  {
  }

  lemma RegionOneLeavesSignals(s: Config, e: Event, c: Context)
    requires ForSignals(e.kind) && e.kind != MarketUpdated
    ensures RegionOne(s, e, c).None?
  {
    hide BPositionStep, CPositionStep;
    assert ForPosition(s, e) == e;
    if s.bPosition.Some? {
      BLeavesSignals(s, e, c);
    } else if s.cPosition.Some? {
      CLeavesSignals(s, e, c);
    }
  }

  lemma RegionOneKeeps(s: Config, e: Event, c: Context, w: World, reply: Reply, w': World)
    requires Inv(s, w) && c.runtime == w.runtime && c.open == w.open && Timely(s, w, e) && !IsOpened(e)
    requires e.kind != StopConfirmed
    requires RegionOne(s, e, c).Some?
    requires ExecAll(w, RegionOne(s, e, c).value.actions, reply) == Some(w')
    ensures Inv(RegionOne(s, e, c).value.after, w')
  {
    hide ExecAll, Inv, BPositionStep, CPositionStep, OwnershipStep;
    var e' := ForPosition(s, e);
    if s.bPosition.Some? {
      BPositionKeeps(s, e', c, w, reply, w');
    } else if s.cPosition.Some? {
      CPositionKeeps(s, e', c, w, reply, w');
    } else {
      assert e' == e;
      OwnershipKeeps(s, e, c, w, reply, w');
    }
  }

  const SEEN_RECOVERED := Patch(NO_CHANGE.(recovered := Put(true)))

  /** On a market update the position machine only asks for more work, or sees Case C recover. */
  lemma PositionOnMarket(s: Config, e: Event, c: Context)
    requires s.Valid() && e.kind == MarketUpdated && s.root == TradeManagement
    requires s.bPosition != Some(BClosed) && s.cPosition != Some(CRecovered)
    requires RegionOne(s, e, c).Some?
    ensures var o := RegionOne(s, e, c).value;
      && !o.exclusive
      && (|| (|o.actions| == 1 && Inert(o.actions[0]))
          || o.actions == [SEEN_RECOVERED, FollowUp(CheckHandoff, c)])
  {
    hide BExitChoice, CHoldingChoice, CTrailingChoice, BExitGuard;
  }

  lemma SeenRecovered(w: World, next: Action, reply: Reply, w': World)
    requires Inert(next) && ExecAll(w, [SEEN_RECOVERED, next], reply) == Some(w')
    ensures w'.runtime == w.runtime.(recovered := true)
  {
    hide ExecAll;
    ExecTwo(w, SEEN_RECOVERED, next, reply);
  }

  lemma MarketLeavesReservations(s: Config, e: Event, c: Context, w: World, reply: Reply, w': World)
    requires Inv(s, w) && Timely(s, w, e) && e.kind == MarketUpdated && s.root == TradeManagement
    requires RegionOne(s, e, c).Some?
    requires ExecAll(w, RegionOne(s, e, c).value.actions, reply) == Some(w')
    ensures !RegionOne(s, e, c).value.exclusive
    ensures w'.runtime == w.runtime.(recovered := w'.runtime.recovered)
  {
    assert s.Valid() && s.bPosition != Some(BClosed) && s.cPosition != Some(CRecovered);
    hide ExecAll, RegionOne, Inv, Timely;
    PositionOnMarket(s, e, c);
    var o := RegionOne(s, e, c).value;
    if |o.actions| == 1 {
      ExecInert(w, o.actions, reply);
    } else {
      SeenRecovered(w, FollowUp(CheckHandoff, c), reply, w');
    }
  }

  // A position opened: all three regions hear of it in one microstep.

  function BTaken(s: Config): Config {
    s.(ownership := Some(CaseBPosition), bPosition := Some(BHolding), bSignal := Some(BFinal), cSignal := Some(CFinal))
  }

  /** Case B's opening: it takes ownership, and both signal regions end. */
  lemma BOpenedOutcome(s: Config, e: Event, c: Context)
    requires s.Valid() && s.ownership == Some(NoPosition) && s.bSignal == Some(BOpenSignalled) && e.kind == BOpened
    requires c.runtime.owner == Some(CaseB) && c.runtime.pendingOrder.None? && c.open
    ensures var o := Regions(s, e, c);
      && o.after == BTaken(s) && !o.exclusive
      && o.actions == [FollowUp(StartBCheck, c)]
                      + (if s.cSignal == Some(COpenSignalled) then [CancelOrder(None)] else [])
                      + (if s.cSignal == Some(CFinal) then [] else [NO_MORE_SETUPS])
  {
    var s1 := s.(ownership := Some(CaseBPosition), bPosition := Some(BHolding));
    assert RegionOne(s, e, c) == Some(Outcome([O(2), PB(1)], s1, [FollowUp(StartBCheck, c)], false));
    var first := Then(Outcome([], s, [], false), RegionOne(s, e, c));
    var second := Then(first, RegionC(s1, e, c));
    assert second.after == s1.(cSignal := Some(CFinal));
    assert RegionB(second.after, e, c) == Step(B(18), second.after.(bSignal := Some(BFinal)), []);
  }

  predicate Ignores(s: Config, e: Event, c: Context) {
    Regions(s, e, c) == Outcome([], s, [], false)
  }

  lemma BOpenedIgnored(s: Config, e: Event, c: Context, w: World)
    requires Inv(s, w) && c.runtime == w.runtime && Timely(s, w, e) && s.root == TradeManagement
    requires e.kind == BOpened
    requires s.ownership != Some(NoPosition) || w.runtime.owner != Some(CaseB)
    ensures Ignores(s, e, c)
  {
    assert s.Valid();
    assert s.cSignal != Some(CFinal) && w.runtime.owner == Some(CaseB) ==> s.ownership == Some(NoPosition);
    assert s.bSignal == Some(BOpenSignalled) ==> s.ownership == Some(NoPosition);
    assert s.bPosition != Some(BClosed) && s.cPosition != Some(CRecovered);
    hide Inv, Timely, ExecAll;
    assert RegionOne(s, e, c).None?;
    assert RegionC(s, e, c).None?;
    assert RegionB(s, e, c).None?;
  }

  lemma BTakenKeeps(s: Config, w: World, follow: Action, cancel: seq<Action>, last: seq<Action>, reply: Reply, w': World)
    requires Inv(s, w) && s.ownership == Some(NoPosition) && s.root == TradeManagement
    requires w.runtime.owner == Some(CaseB) && w.order.None?
    requires Inert(follow) && (forall i :: 0 <= i < |cancel| ==> Inert(cancel[i]))
    requires last == [] || last == [NO_MORE_SETUPS]
    requires ExecAll(w, [follow] + cancel + last, reply) == Some(w')
    ensures Inv(BTaken(s), w')
  {
    hide ExecAll;
    ExecAppend(w, [follow] + cancel, last, reply);
    ExecInert(w, [follow] + cancel, reply);
    if last == [] {
      ExecInert(w, last, reply);
    } else {
      ExecOne(w, NO_MORE_SETUPS, reply);
    }
  }

  lemma BOpenedKeeps(s: Config, e: Event, c: Context, w: World, reply: Reply, w': World)
    requires Inv(s, w) && c.runtime == w.runtime && c.open == w.open && Timely(s, w, e)
    requires e.kind == BOpened && s.root == TradeManagement
    requires ExecAll(w, Regions(s, e, c).actions, reply) == Some(w')
    ensures Inv(Regions(s, e, c).after, w') && !Regions(s, e, c).exclusive
  {
    assert w.order.None? && w.runtime.pendingOrder.None? && s.Valid() && (w.open <==> w.runtime.owner.Some?);
    assert s.ownership == Some(NoPosition) && w.runtime.owner == Some(CaseB) ==> s.bSignal == Some(BOpenSignalled);
    hide ExecAll, Regions, Inv, Timely;
    if s.ownership == Some(NoPosition) && w.runtime.owner == Some(CaseB) {
      BOpenedOutcome(s, e, c);
      var cancel := if s.cSignal == Some(COpenSignalled) then [CancelOrder(None)] else [];
      var last := if s.cSignal == Some(CFinal) then [] else [NO_MORE_SETUPS];
      BTakenKeeps(s, w, FollowUp(StartBCheck, c), cancel, last, reply, w');
    } else {
      BOpenedIgnored(s, e, c, w);
      ExecInert(w, [], reply);
    }
  }

  function CTaken(s: Config): Config {
    s.(ownership := Some(CaseCPosition), cPosition := Some(CHolding), cSignal := Some(CFinal),
       bSignal := if s.bSignal == Some(BOpenSignalled) then Some(BWaitPullback) else s.bSignal)
  }

  const PAUSE_B := Patch(NO_CHANGE.(bPaused := Put(true)))

  /** What Case B's signal region asks for when Case C's position is open. */
  function BGivesWay(s: Config): seq<Action> {
    match s.bSignal
    case Some(BOpenSignalled) => [CancelOrder(None), PAUSE_B]
    case Some(BWaitSignal) => [PAUSE_B]
    case Some(BWaitPullback) => [PAUSE_B]
    case _ => []
  }

  /** Case C's opening: it takes ownership, its signal region ends, and Case B's entry is paused. */
  lemma COpenedOutcome(s: Config, e: Event, c: Context)
    requires s.Valid() && s.ownership == Some(NoPosition) && s.cSignal == Some(COpenSignalled) && e.kind == COpened
    requires c.runtime.owner == Some(CaseC) && c.runtime.pendingOrder.None? && c.open
    ensures var o := Regions(s, e, c);
      && o.after == CTaken(s) && !o.exclusive
      && o.actions == [PAUSE_B, FollowUp(StartCCheck, c)] + BGivesWay(s)
  {
    var s1 := s.(ownership := Some(CaseCPosition), cPosition := Some(CHolding));
    assert RegionOne(s, e, c) == Some(Outcome([O(6), PC(1)], s1, [PAUSE_B, FollowUp(StartCCheck, c)], false));
    var first := Then(Outcome([], s, [], false), RegionOne(s, e, c));
    var s2 := s1.(cSignal := Some(CFinal));
    assert RegionC(s1, e, c) == Step(C(16), s2, []);
    var second := Then(first, RegionC(s1, e, c));
    assert !CaseCBuys(second.actions);
    var b := RegionB(s2, e, c);
    assert b.Some? ==> b.value.actions == BGivesWay(s);
    assert b.None? ==> BGivesWay(s) == [];
  }

  lemma PausedOnce(w: World, reply: Reply)
    requires w.runtime.Valid() && Aligned(w.runtime, w.order)
    ensures Exec(w, PAUSE_B, reply) == Some(w.(runtime := w.runtime.(bPaused := true)))
  {
  }

  lemma ExecQuietly(w: World, a: Action, reply: Reply)
    requires Inert(a)
    ensures Exec(w, a, reply) == Some(w)
  {
  }

  lemma PausedTwice(s: Config, w: World, follow: Action, reply: Reply, w': World)
    requires Base(w) && Inert(follow)
    requires ExecAll(w, [PAUSE_B, follow] + BGivesWay(s), reply) == Some(w')
    ensures w' == w.(runtime := w.runtime.(bPaused := true))
  {
    var w0 := w.(runtime := w.runtime.(bPaused := true));
    PausedOnce(w, reply);
    PausedOnce(w0, reply);
    ExecQuietly(w0, follow, reply);
    hide ExecAll, Exec, Base, Inert;
    ExecAppend(w, [PAUSE_B, follow], BGivesWay(s), reply);
    ExecTwo(w, PAUSE_B, follow, reply);
    if s.bSignal == Some(BOpenSignalled) {
      CancelThenPause(w0, reply);
    } else if BGivesWay(s) != [] {
      ExecOne(w0, PAUSE_B, reply);
    } else {
      ExecInert(w0, [], reply);
    }
  }

  lemma CancelThenPause(w: World, reply: Reply)
    ensures ExecAll(w, [CancelOrder(None), PAUSE_B], reply) == Exec(w, PAUSE_B, reply)
  {
    hide ExecAll, ApplyPatch;
    ExecTwo(w, CancelOrder(None), PAUSE_B, reply);
  }

  lemma CTakenKeeps(s: Config, w: World, follow: Action, reply: Reply, w': World)
    requires Inv(s, w) && s.ownership == Some(NoPosition) && s.root == TradeManagement
    requires w.runtime.owner == Some(CaseC) && w.order.None?
    requires Inert(follow)
    requires ExecAll(w, [PAUSE_B, follow] + BGivesWay(s), reply) == Some(w')
    ensures Inv(CTaken(s), w')
  {
    hide ExecAll;
    PausedTwice(s, w, follow, reply, w');
  }

  /** Heard again, an opening of Case C can only pause Case B once more. */
  lemma COpenedAgain(s: Config, e: Event, c: Context, w: World)
    requires Inv(s, w) && c.runtime == w.runtime && Timely(s, w, e) && s.root == TradeManagement
    requires e.kind == COpened
    requires s.ownership != Some(NoPosition) || w.runtime.owner != Some(CaseC)
    ensures var o := Regions(s, e, c);
      o.after == s && !o.exclusive && (o.actions == [] || o.actions == [PAUSE_B])
  {
    assert s.Valid();
    assert s.cSignal == Some(COpenSignalled) ==> s.ownership == Some(NoPosition);
    assert s.bSignal == Some(BOpenSignalled) ==> s.ownership == Some(NoPosition);
    assert s.bPosition != Some(BClosed) && s.cPosition != Some(CRecovered);
    hide Inv, Timely, ExecAll;
    assert RegionOne(s, e, c).None?;
    assert RegionC(s, e, c).None?;
    var b := RegionB(s, e, c);
    assert b.Some? ==> b.value.after == s && b.value.actions == [PAUSE_B] && !b.value.exclusive;
  }

  lemma COpenedKeeps(s: Config, e: Event, c: Context, w: World, reply: Reply, w': World)
    requires Inv(s, w) && c.runtime == w.runtime && c.open == w.open && Timely(s, w, e)
    requires e.kind == COpened && s.root == TradeManagement
    requires ExecAll(w, Regions(s, e, c).actions, reply) == Some(w')
    ensures Inv(Regions(s, e, c).after, w') && !Regions(s, e, c).exclusive
  {
    assert w.order.None? && w.runtime.pendingOrder.None? && s.Valid() && (w.open <==> w.runtime.owner.Some?);
    assert s.ownership == Some(NoPosition) && w.runtime.owner == Some(CaseC) ==> s.cSignal == Some(COpenSignalled);
    hide ExecAll, Regions, Inv, Timely, ApplyPatch;
    if s.ownership == Some(NoPosition) && w.runtime.owner == Some(CaseC) {
      COpenedOutcome(s, e, c);
      CTakenKeeps(s, w, FollowUp(StartCCheck, c), reply, w');
    } else {
      COpenedAgain(s, e, c, w);
      if Regions(s, e, c).actions == [] {
        ExecInert(w, [], reply);
      } else {
        ExecOne(w, PAUSE_B, reply);
        PausedKeeps(s, w, true, w');
      }
    }
  }

  // All events.

  lemma {:induction false} CaseCBuysAppend(xs: seq<Action>, ys: seq<Action>)
    ensures CaseCBuys(ys) ==> CaseCBuys(xs + ys)
  {
    if CaseCBuys(ys) {
      var i :| 0 <= i < |ys| && IsBuy(ys[i]) && ys[i].strategy == CaseC;
      assert (xs + ys)[|xs| + i] == ys[i];
    }
  }

  /** The two signal regions, after the ownership region has done its part. */
  lemma SignalsKeep(s: Config, e: Event, c: Context, w: World, first: Outcome, reply: Reply, w1: World, w': World)
    requires Inv(first.after, w1) && StillTrue(c, w1) && !IsOpened(e)
    requires c.runtime.pendingOrder == w1.runtime.pendingOrder
    requires e.kind == BResume ==> c.runtime.recovered == w1.runtime.recovered
    requires first.after.cPosition == Some(CRecovered) ==> e.kind != BResume
    requires ExecAll(w, first.actions, reply) == Some(w1)
    requires var second := Then(first, RegionC(first.after, e, c));
      ExecAll(w, Then(second, Arbitrated(second.actions, RegionB(second.after, e, c))).actions, reply) == Some(w')
    ensures var second := Then(first, RegionC(first.after, e, c));
      Inv(Then(second, Arbitrated(second.actions, RegionB(second.after, e, c))).after, w')
  {
    hide Inv, ExecAll, RegionC, RegionB, CaseCBuys, CaseBBuys;
    var s1 := first.after;
    var forC := RegionC(s1, e, c);
    var second := Then(first, forC);
    var s2 := second.after;
    var forB := Arbitrated(second.actions, RegionB(s2, e, c));
    var cActions := if forC.Some? then forC.value.actions else [];
    var bActions := if forB.Some? then forB.value.actions else [];
    assert second.actions == first.actions + cActions;
    var third := Then(second, forB);
    assert third.actions == second.actions + bActions;
    ExecAppend(w, second.actions, bActions, reply);
    ExecAppend(w, first.actions, cActions, reply);
    var w2 := ExecAll(w1, cActions, reply).value;
    if forC.Some? {
      RegionCKeeps(s1, e, c, w1, reply, w2);
      CaseCBuysAppend(first.actions, cActions);
    } else {
      ExecInert(w1, [], reply);
    }
    if forB.Some? {
      assert s2.cPosition == s1.cPosition by { RegionCOnlySignals(s1, e, c); }
      if e.kind == BResume {
        CKeepsRecovered(s1, e, c, w1, reply, w2);
      }
      RegionBKeeps(s2, e, c, w2, reply, w');
    } else {
      ExecInert(w2, [], reply);
    }
  }

  /** Case C's signal region changes nothing but its own state. */
  lemma RegionCOnlySignals(s: Config, e: Event, c: Context)
    ensures RegionC(s, e, c).Some? ==>
      RegionC(s, e, c).value.after == s.(cSignal := RegionC(s, e, c).value.after.cSignal)
  {
  }

  lemma CKeepsRecovered(s: Config, e: Event, c: Context, w: World, reply: Reply, w': World)
    requires e.kind == BResume
    requires ExecAll(w, if RegionC(s, e, c).Some? then RegionC(s, e, c).value.actions else [], reply) == Some(w')
    ensures w' == w
  {
    assert RegionC(s, e, c).None?;
  }

  lemma RegionsKeep(s: Config, e: Event, c: Context, w: World, reply: Reply, w': World)
    requires Inv(s, w) && c.runtime == w.runtime && c.open == w.open && Timely(s, w, e)
    requires e.kind != StopConfirmed && s.root == TradeManagement
    requires ExecAll(w, Regions(s, e, c).actions, reply) == Some(w')
    ensures Inv(Regions(s, e, c).after, w')
  {
    if e.kind == BOpened {
      BOpenedKeeps(s, e, c, w, reply, w');
    } else if e.kind == COpened {
      COpenedKeeps(s, e, c, w, reply, w');
    } else {
      OtherEventsKeep(s, e, c, w, reply, w');
    }
  }

  lemma PositionAloneKeeps(s: Config, e: Event, c: Context, w: World, reply: Reply, w': World)
    requires Inv(s, w) && c.runtime == w.runtime && c.open == w.open && Timely(s, w, e)
    requires e.kind != StopConfirmed && s.root == TradeManagement && !IsOpened(e)
    requires RegionOne(s, e, c).Some? && e.kind != MarketUpdated
    requires ExecAll(w, Regions(s, e, c).actions, reply) == Some(w')
    ensures Inv(Regions(s, e, c).after, w')
  {
    hide Inv, Timely, ExecAll, RegionOne, RegionC, RegionB, ForSignals, CaseCBuys, CaseBBuys;
    var one := RegionOne(s, e, c);
    var first := Then(Outcome([], s, [], false), one);
    assert !ForSignals(e.kind) by {
      if ForSignals(e.kind) {
        RegionOneLeavesSignals(s, e, c);
      }
    }
    SignalsOnlyForThem(first.after, e, c);
    assert first.actions == one.value.actions;
    RegionOneKeeps(s, e, c, w, reply, w');
  }

  lemma PositionOnMarketKeeps(s: Config, e: Event, c: Context, w: World, reply: Reply, w': World)
    requires Inv(s, w) && c.runtime == w.runtime && c.open == w.open && Timely(s, w, e)
    requires s.root == TradeManagement && e.kind == MarketUpdated && RegionOne(s, e, c).Some?
    requires ExecAll(w, Regions(s, e, c).actions, reply) == Some(w')
    ensures Inv(Regions(s, e, c).after, w')
  {
    hide Inv, Timely, ExecAll, RegionOne, RegionC, RegionB, ForSignals, CaseCBuys, CaseBBuys;
    var one := RegionOne(s, e, c);
    var first := Then(Outcome([], s, [], false), one);
    ExecFirst(w, first.actions, Regions(s, e, c), reply, w');
    var w1 := ExecAll(w, first.actions, reply).value;
    assert first.actions == one.value.actions;
    RegionOneKeeps(s, e, c, w, reply, w1);
    MarketLeavesReservations(s, e, c, w, reply, w1);
    SignalsKeep(s, e, c, w, first, reply, w1, w');
  }

  lemma OtherEventsKeep(s: Config, e: Event, c: Context, w: World, reply: Reply, w': World)
    requires Inv(s, w) && c.runtime == w.runtime && c.open == w.open && Timely(s, w, e)
    requires e.kind != StopConfirmed && s.root == TradeManagement && !IsOpened(e)
    requires ExecAll(w, Regions(s, e, c).actions, reply) == Some(w')
    ensures Inv(Regions(s, e, c).after, w')
  {
    assert s.cPosition == Some(CRecovered) ==> e.kind == CheckHandoff;
    hide Inv, Timely, ExecAll, RegionOne, RegionC, RegionB, ForSignals, CaseCBuys, CaseBBuys;
    if RegionOne(s, e, c).None? {
      ExecInert(w, [], reply);
      SignalsKeep(s, e, c, w, Outcome([], s, [], false), reply, w, w');
    } else if e.kind == MarketUpdated {
      PositionOnMarketKeeps(s, e, c, w, reply, w');
    } else {
      PositionAloneKeeps(s, e, c, w, reply, w');
    }
  }

  /** If the whole list could be carried out, so could its beginning. */
  lemma ExecFirst(w: World, actions: seq<Action>, whole: Outcome, reply: Reply, w': World)
    requires actions <= whole.actions && ExecAll(w, whole.actions, reply) == Some(w')
    ensures ExecAll(w, actions, reply).Some?
  {
    assert whole.actions == actions + whole.actions[|actions|..];
    ExecAppend(w, actions, whole.actions[|actions|..], reply);
  }

  /** One microstep of one event. */
  lemma HandleKeeps(s: Config, e: Event, c: Context, w: World, reply: Reply, w': World)
    requires Inv(s, w) && c.runtime == w.runtime && c.open == w.open && Timely(s, w, e)
    requires ExecAll(w, Handle(s, e, c).actions, reply) == Some(w')
    ensures Inv(Handle(s, e, c).after, w')
  {
    hide ExecAll, Inv, Timely, GlobalStep, Regions;
    if GlobalStep(s, e, c).Some? {
      GlobalKeeps(s, e, c, w, reply, w');
    } else if s.root != TradeManagement {
      ExecInert(w, [], reply);
    } else {
      StopIsGlobal(s, e, c);
      var e' := if e.kind == NewLowerTouched then e.(kind := MarketUpdated) else e;
      assert Timely(s, w, e') by { StillTimely(s, w, e); }
      var o := Regions(s, e', c);
      ExecFirst(w, o.actions, Handle(s, e, c), reply, w');
      var w1 := ExecAll(w, o.actions, reply).value;
      RegionsKeep(s, e', c, w, reply, w1);
      if Handle(s, e, c).actions != o.actions {
        ExecAppend(w, o.actions, [FollowUp(ManagementCompleted, c)], reply);
        ExecInert(w1, [FollowUp(ManagementCompleted, c)], reply);
      }
    }
  }

  lemma StopIsGlobal(s: Config, e: Event, c: Context)
    requires GlobalStep(s, e, c).None? && s.root == TradeManagement
    ensures e.kind != StopConfirmed
  {
  }

  lemma StillTimely(s: Config, w: World, e: Event)
    requires Timely(s, w, e)
    ensures Timely(s, w, if e.kind == NewLowerTouched then e.(kind := MarketUpdated) else e)
  {
  }

  lemma NextKeeps(s: System, m: Move, s': System)
    requires Inv(s.config, s.world) && MoveTimely(s, m) && Next(s, m) == Some(s')
    ensures Inv(s'.config, s'.world)
  {
    hide Inv, Timely, Handle, ExecAll, FillBuy, FillSell, FillOut, SettleOrder, SubmitForced;
    match m
    case Deliver(e, market, reply) => HandleKeeps(s.config, e, View(s.world, market), s.world, reply, s'.world);
    case BuyFill => BuyFillKeeps(s.config, s.world, s'.world);
    case SellFill => SellFillKeeps(s.config, s.world, s'.world);
    case SellOut(pctB) => SellOutKeeps(s.config, s.world, pctB, s'.world);
    case Settle => SettleKeeps(s.config, s.world, s'.world);
    case ForceSubmit(id, session) => ForcedKeeps(s, id, session, s'.world);
  }

  /** The invariant holds after every timely run, of any length, against any market and any exchange. */
  lemma {:induction false} RunsKeepInvariant(s: System, moves: seq<Move>)
    requires Inv(s.config, s.world) && Run(s, moves).Some?
    ensures Inv(Run(s, moves).value.config, Run(s, moves).value.world)
    decreases |moves|
  {
    hide Inv, MoveTimely, Next;
    if moves != [] {
      var s' := Next(s, moves[0]).value;
      NextKeeps(s, moves[0], s');
      RunsKeepInvariant(s', moves[1..]);
    }
  }
}
