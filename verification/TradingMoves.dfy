/** Single moves of the trading loop, each from any state in which it is possible, in a fixed sort of market. */
module TradingMoves {
  import opened Bytes
  import opened TradingTypes
  import opened TradingMachine
  import opened TradingLoop
  import opened TradingSafety
  import opened TradingRegions
  import opened TradingRuns
  import opened TradingProperties
  import opened TradingRetries

  /** A market of the n-th candle in which exactly these conditions are met and these unmet, the bands in between. */
  function Seen(n: nat, met: set<Condition>, unmet: set<Condition>): Market {
    Market(k => if k in met then Some(true) else if k in unmet then Some(false) else None,
           true, true, true, false, false, true, Some(n), 1.0, 0.1, 0.01, 0.0, 1.0)
  }

  /** An event of the n-th scope. */
  function Plain(n: nat, kind: EventKind): Event { Event(kind, NoPayload, 7, Some(Named(n)), None, false) }

  function Hears(n: nat, kind: EventKind, met: set<Condition>, unmet: set<Condition>): Move {
    Deliver(Plain(n, kind), Seen(n, met, unmet), NotSent)
  }

  /** The same where what is ordered is sent. */
  function Sends(n: nat, kind: EventKind, met: set<Condition>, unmet: set<Condition>, id: nat): Move {
    Deliver(Plain(n, kind), Seen(n, met, unmet), Sent(id))
  }

  // Runs, and what waits at the scheduler meanwhile.

  /** One timely move. */
  predicate Leads(s: System, m: Move, s': System) {
    MoveTimely(s, m) && Next(s, m) == Some(s')
  }

  lemma {:induction false} RunAppend(s: System, xs: seq<Move>, ys: seq<Move>)
    requires Run(s, xs).Some?
    ensures Run(s, xs + ys) == Run(Run(s, xs).value, ys)
    decreases |xs|
  {
    if xs == [] {
      assert xs + ys == ys;
    } else {
      assert (xs + ys)[1..] == xs[1..] + ys;
      RunAppend(Next(s, xs[0]).value, xs[1..], ys);
    }
  }

  lemma Onward(from: System, trace: seq<Move>, s: System, m: Move, s': System)
    requires Run(from, trace) == Some(s) && Leads(s, m, s')
    ensures Run(from, trace + [m]) == Some(s')
  {
    RunAppend(from, trace, [m]);
    assert [m][1..] == [];
    assert Run(s', []) == Some(s');
  }

  lemma EmptyRun(s: System)
    ensures Run(s, []) == Some(s)
  {
  }

  predicate Schedules(kind: EventKind, scope: Option<LowerId>, actions: seq<Action>) {
    exists i :: 0 <= i < |actions| && actions[i].Schedule? && actions[i].kind == kind && actions[i].scope == scope
  }

  predicate Cancels(actions: seq<Action>) {
    exists i :: 0 <= i < |actions| && actions[i].CancelScheduled?
  }

  predicate WaitsAfter(kind: EventKind, scope: Option<LowerId>, s: System, m: Move, before: bool) {
    if !m.Deliver? then before
    else
      var actions := Handle(s.config, m.event, View(s.world, m.market)).actions;
      Schedules(kind, scope, actions) || (before && m.event.kind != kind && !Cancels(actions))
  }

  /** An event of this kind and scope has been scheduled in the run, and neither released nor cancelled since. */
  predicate Waits(kind: EventKind, scope: Option<LowerId>, s: System, moves: seq<Move>, before: bool)
    decreases |moves|
  {
    if moves == [] then before
    else
      var next := Next(s, moves[0]);
      if next.None? then before
      else Waits(kind, scope, next.value, moves[1..], WaitsAfter(kind, scope, s, moves[0], before))
  }

  lemma {:induction false} WaitsAppend(
      kind: EventKind, scope: Option<LowerId>, s: System, xs: seq<Move>, m: Move, before: bool)
    requires Run(s, xs).Some? && Next(Run(s, xs).value, m).Some?
    ensures Waits(kind, scope, s, xs + [m], before)
         == WaitsAfter(kind, scope, Run(s, xs).value, m, Waits(kind, scope, s, xs, before))
    decreases |xs|
  {
    if xs == [] {
      assert xs + [m] == [m] && [m][1..] == [];
    } else {
      assert (xs + [m])[1..] == xs[1..] + [m];
      hide WaitsAfter;
      WaitsAppend(kind, scope, Next(s, xs[0]).value, xs[1..], m, WaitsAfter(kind, scope, s, xs[0], before));
    }
  }

  predicate IsRetry(kind: EventKind) { kind == BBuyRetry || kind == CBuyRetry }

  /** A timely move that releases no retry and cancels nothing that is scheduled. */
  predicate LeadsOn(s: System, m: Move, s': System) {
    && Leads(s, m, s')
    && (m.Deliver? ==>
          !IsRetry(m.event.kind) && !Cancels(Handle(s.config, m.event, View(s.world, m.market)).actions))
  }

  /** The longer run keeps the retries waiting that waited before. */
  ghost predicate KeepsRetries(from: System, before: seq<Move>, longer: seq<Move>) {
    forall kind, scope :: IsRetry(kind) && Waits(kind, scope, from, before, false) ==>
      Waits(kind, scope, from, longer, false)
  }

  lemma Along(from: System, trace: seq<Move>, s: System, m: Move, s': System) returns (longer: seq<Move>)
    requires Run(from, trace) == Some(s) && LeadsOn(s, m, s')
    ensures Run(from, longer) == Some(s') && KeepsRetries(from, trace, longer)
  {
    longer := trace + [m];
    hide Schedules, Cancels, Handle;
    Onward(from, trace, s, m, s');
    forall kind, scope | IsRetry(kind) && Waits(kind, scope, from, trace, false)
      ensures Waits(kind, scope, from, longer, false)
    {
      WaitsAppend(kind, scope, from, trace, m, false);
    }
  }

  /** The same of a move that schedules a retry. */
  lemma Scheduled(from: System, trace: seq<Move>, s: System, m: Move, s': System, kind: EventKind,
                  scope: Option<LowerId>) returns (longer: seq<Move>)
    requires Run(from, trace) == Some(s) && LeadsOn(s, m, s') && IsRetry(kind)
    requires forall before :: WaitsAfter(kind, scope, s, m, before)
    ensures Run(from, longer) == Some(s') && Waits(kind, scope, from, longer, false)
    ensures KeepsRetries(from, trace, longer)
  {
    longer := Along(from, trace, s, m, s');
    longer := trace + [m];
    Onward(from, trace, s, m, s');
    WaitsAppend(kind, scope, from, trace, m, false);
    hide Schedules, Cancels, Handle;
    forall k, sc | IsRetry(k) && Waits(k, sc, from, trace, false)
      ensures Waits(k, sc, from, longer, false)
    {
      WaitsAppend(k, sc, from, trace, m, false);
    }
  }

  // The machine's answer carried out.

  predicate Answers(s: System, e: Event, m: Market, after: Config, actions: seq<Action>) {
    var o := Handle(s.config, e, View(s.world, m));
    o.after == after && o.actions == actions
  }

  lemma On1(s: System, e: Event, m: Market, reply: Reply, after: Config, p: Action, w: World)
    requires Answers(s, e, m, after, [p]) && Timely(s.config, s.world, e) && !IsRetry(e.kind) && !p.CancelScheduled?
    requires Exec(s.world, p, reply) == Some(w)
    ensures LeadsOn(s, Deliver(e, m, reply), System(after, w))
  {
    hide Handle, Exec, ExecAll, Timely;
    ExecOne(s.world, p, reply);
  }

  lemma On2(s: System, e: Event, m: Market, reply: Reply, after: Config, p: Action, q: Action, w: World, w': World)
    requires Answers(s, e, m, after, [p, q]) && Timely(s.config, s.world, e) && !IsRetry(e.kind)
    requires !p.CancelScheduled? && !q.CancelScheduled?
    requires Exec(s.world, p, reply) == Some(w) && Exec(w, q, reply) == Some(w')
    ensures LeadsOn(s, Deliver(e, m, reply), System(after, w'))
  {
    hide Handle, Exec, ExecAll, Timely;
    ExecTwo(s.world, p, q, reply);
  }

  /** More work asked for. */
  predicate Asks(a: Action) { a.Queue? || a.Schedule? }

  lemma AskingChangesNothing(w: World, q: Action)
    requires Asks(q)
    ensures Exec(w, q, NotSent) == Some(w) && !q.CancelScheduled?
  {
  }

  lemma PatchDone(w: World, p: RuntimePatch, reply: Reply)
    requires w.order.None? && Patched(w.runtime, p).Valid()
    ensures Exec(w, Patch(p), reply) == Some(w.(runtime := Patched(w.runtime, p)))
  {
    hide Patched;
  }

  /** An answer that only asks for more work. */
  lemma AskedOn(s: System, e: Event, m: Market, after: Config, q: Action)
    requires Answers(s, e, m, after, [q]) && Asks(q) && Timely(s.config, s.world, e) && !IsRetry(e.kind)
    ensures LeadsOn(s, Deliver(e, m, NotSent), System(after, s.world))
  {
    hide Answers, Timely;
    AskingChangesNothing(s.world, q);
    On1(s, e, m, NotSent, after, q, s.world);
  }

  /** An answer that is a patch and more work. */
  lemma PatchedOn(s: System, e: Event, m: Market, after: Config, p: RuntimePatch, q: Action)
    requires Answers(s, e, m, after, [Patch(p), q]) && Asks(q)
    requires Timely(s.config, s.world, e) && !IsRetry(e.kind) && s.world.order.None?
    requires Patched(s.world.runtime, p).Valid()
    ensures LeadsOn(s, Deliver(e, m, NotSent), System(after, s.world.(runtime := Patched(s.world.runtime, p))))
  {
    var w := s.world.(runtime := Patched(s.world.runtime, p));
    hide Answers, Timely, Patched, Exec;
    PatchDone(s.world, p, NotSent);
    AskingChangesNothing(w, q);
    On2(s, e, m, NotSent, after, Patch(p), q, w, w);
  }

  /** An answer that is a patch alone. */
  lemma PatchedAlone(s: System, e: Event, m: Market, after: Config, p: RuntimePatch)
    requires Answers(s, e, m, after, [Patch(p)])
    requires Timely(s.config, s.world, e) && !IsRetry(e.kind) && s.world.order.None?
    requires Patched(s.world.runtime, p).Valid()
    ensures LeadsOn(s, Deliver(e, m, NotSent), System(after, s.world.(runtime := Patched(s.world.runtime, p))))
  {
    hide Answers, Timely, Patched, Exec;
    PatchDone(s.world, p, NotSent);
    On1(s, e, m, NotSent, after, Patch(p), s.world.(runtime := Patched(s.world.runtime, p)));
  }

  // What a microstep is when only one region has something to say.

  lemma NotGlobal(s: Config, e: Event, c: Context)
    requires s.root == TradeManagement
    requires e.kind !in {SellDeferred, StopConfirmed, ForceSellFinished, ForceSellFailed, UpperTouched, LowerTouched,
                         NewLowerTouched, ManagementCompleted, LogicStarted, MarketUpdated}
    ensures GlobalStep(s, e, c).None?
  {
  }

  lemma NoBuys(actions: seq<Action>)
    requires forall i :: 0 <= i < |actions| ==> !actions[i].Submit?
    ensures !CaseBBuys(actions) && !CaseCBuys(actions)
  {
  }

  /** Both signal regions, of which at most Case C's buys. */
  lemma TwoRegions(s: Config, e: Event, c: Context)
    requires s.root == TradeManagement && GlobalStep(s, e, c).None? && RegionOne(s, e, c).None?
    requires e.kind != NewLowerTouched
    requires RegionC(s, e, c).Some? && !RegionC(s, e, c).value.exclusive
    requires var b := RegionB(RegionC(s, e, c).value.after, e, c);
      b.Some? && !b.value.exclusive && !CaseBBuys(b.value.actions) && !b.value.after.Complete()
    ensures var forC := RegionC(s, e, c).value; var forB := RegionB(forC.after, e, c).value;
      && Handle(s, e, c).after == forB.after
      && Handle(s, e, c).actions == forC.actions + forB.actions
  {
    hide GlobalStep, RegionOne, RegionC, RegionB;
    var forC := RegionC(s, e, c).value;
    assert [] + forC.actions == forC.actions;
  }

  /** An event for Case C's signal alone. */
  lemma CaseCOnly(s: Config, e: Event, c: Context)
    requires s.Valid() && s.root == TradeManagement && (e.kind == StartSetup || e.kind == RetrySetup)
    requires RegionC(s, e, c).Some? && !RegionC(s, e, c).value.exclusive && !RegionC(s, e, c).value.after.Complete()
    ensures var o := RegionC(s, e, c).value; Handle(s, e, c).after == o.after && Handle(s, e, c).actions == o.actions
  {
    NotGlobal(s, e, c);
    RegionOneLeavesSignals(s, e, c);
    SetupIsForC(RegionC(s, e, c).value.after, e, c);
    hide GlobalStep, RegionOne, RegionC, RegionB;
    var o := RegionC(s, e, c).value;
    assert [] + o.actions == o.actions;
  }

  lemma SetupIsForC(s: Config, e: Event, c: Context)
    requires e.kind == StartSetup || e.kind == RetrySetup
    ensures RegionB(s, e, c).None?
  {
  }

  /** An event for Case B's signal alone. */
  lemma CaseBOnly(s: Config, e: Event, c: Context)
    requires s.Valid() && s.root == TradeManagement
    requires e.kind == CandleClosed || e.kind == StartPullback || e.kind == RetryPullback || e.kind == BResume
    requires RegionB(s, e, c).Some? && !RegionB(s, e, c).value.exclusive && !RegionB(s, e, c).value.after.Complete()
    ensures var o := RegionB(s, e, c).value; Handle(s, e, c).after == o.after && Handle(s, e, c).actions == o.actions
  {
    NotGlobal(s, e, c);
    RegionOneLeavesSignals(s, e, c);
    PullbackIsForB(s, e, c);
    hide GlobalStep, RegionOne, RegionC, RegionB;
    var o := RegionB(s, e, c).value;
    assert [] + o.actions == o.actions;
  }

  lemma PullbackIsForB(s: Config, e: Event, c: Context)
    requires e.kind == CandleClosed || e.kind == StartPullback || e.kind == RetryPullback || e.kind == BResume
    ensures RegionC(s, e, c).None?
  {
  }

  /** An event for the ownership region alone. */
  lemma OwnershipOnly(s: Config, e: Event, c: Context)
    requires s.Valid() && s.root == TradeManagement && !ForSignals(e.kind) && !IsOpened(e)
    requires e.kind !in {SellDeferred, StopConfirmed, ForceSellFinished, ForceSellFailed, UpperTouched, LowerTouched,
                         NewLowerTouched, ManagementCompleted, LogicStarted}
    requires RegionOne(s, e, c).Some? && !RegionOne(s, e, c).value.exclusive && !RegionOne(s, e, c).value.after.Complete()
    ensures var o := RegionOne(s, e, c).value; Handle(s, e, c).after == o.after && Handle(s, e, c).actions == o.actions
  {
    NotGlobal(s, e, c);
    SignalsOnlyForThem(RegionOne(s, e, c).value.after, e, c);
    hide Handle, GlobalStep, RegionOne, RegionC, RegionB;
    RegionOneHandles(s, e, c);
  }

  // From the start, and from scope to scope.

  const WATCHING := System(Inactive(LowerTouchWatch), World(NEW_RUNTIME, false, None))

  lemma Starts()
    ensures LeadsOn(START, Hears(1, LogicStarted, {}, {}), WATCHING)
  {
    StartSelected();
    var forget := Patch(FORGET_PENDING.(owner := Put(None)));
    hide GlobalStep, ExecAll;
    ExecThree(START.world, ResetB, ResetC(false), forget, NotSent);
  }

  lemma StartSelected()
    ensures GlobalStep(START.config, Plain(1, LogicStarted), View(START.world, Seen(1, {}, {})))
         == Some(Outcome([G(1)], Inactive(LowerTouchWatch),
                         [ResetB, ResetC(false), Patch(FORGET_PENDING.(owner := Put(None)))], true))
  {
  }

  /** The runtime of a scope just opened: what is not the scope's own is kept. */
  function Anew(r: Runtime, n: nat): Runtime {
    r.(scope := Some(Named(n)), touchCandle := Some(n), touchBbw := Some(0.01),
       bEnabled := true, cEnabled := true, allowSetup := true, consumed := false, recovered := false,
       cExit := None, cExitPctB := None, bPaused := false, bOnly := false, owner := None)
  }

  /** Nothing held, nothing pending, and trade management going on. */
  predicate Calm(s: System) {
    && s.config.Valid() && s.config.root == TradeManagement && s.config.ownership == Some(NoPosition)
    && s.world.runtime.Valid() && s.world.runtime.owner.None? && s.world.runtime.pendingOrder.None?
    && s.world.order.None? && !s.world.open
  }

  function Opening(n: nat, c: Context): seq<Action> {
    [OpenLower(Named(n), Some(n), 0.01), InitialFlags(c)] + [NO_OWNER, Queue(Activate, Some(Named(n)))]
  }

  lemma OpeningDone(w: World, n: nat, c: Context)
    requires w.order.None? && w.runtime.Valid() && c.market.bbw == 0.01
    ensures ExecAll(w, Opening(n, c), NotSent) == Some(w.(runtime := Anew(w.runtime, n)))
  {
    var open, queue := OpenLower(Named(n), Some(n), 0.01), Queue(Activate, Some(Named(n)));
    hide ExecAll;
    ExecAppend(w, [open, InitialFlags(c)], [NO_OWNER, queue], NotSent);
    ExecTwo(w, open, InitialFlags(c), NotSent);
    ExecTwo(Exec(Exec(w, open, NotSent).value, InitialFlags(c), NotSent).value, NO_OWNER, queue, NotSent);
  }

  lemma TouchOpens(w: World, n: nat)
    requires w.runtime.scope.None?
    ensures var c := View(w, Seen(n, {LowerPrice}, {}));
      GlobalStep(Inactive(LowerTouchWatch), Plain(n, LowerTouched), c)
      == Some(Outcome([G(2), O(1), C(1), B(1)], FRESH, Opening(n, c), true))
  {
    hide UpperTouch;
    var c := View(w, Seen(n, {LowerPrice}, {}));
    assert Opening(n, c) == [ OpenLower(Named(n), Some(n), 0.01), InitialFlags(c), NO_OWNER,
                              Queue(Activate, Some(Named(n))) ];
  }

  lemma Touches()
    ensures LeadsOn(WATCHING, Hears(1, LowerTouched, {LowerPrice}, {}),
                    System(FRESH, World(Anew(NEW_RUNTIME, 1), false, None)))
  {
    var m := Seen(1, {LowerPrice}, {});
    var c := View(WATCHING.world, m);
    TouchOpens(WATCHING.world, 1);
    GlobalAnswers(WATCHING, Plain(1, LowerTouched), m);
    OpeningDone(WATCHING.world, 1, c);
    OpeningCancelsNothing(1, c);
    assert Timely(WATCHING.config, WATCHING.world, Plain(1, LowerTouched));
    hide GlobalStep, Handle, ExecAll, Anew, Timely, Opening, Seen;
  }

  lemma GlobalAnswers(s: System, e: Event, m: Market)
    requires GlobalStep(s.config, e, View(s.world, m)).Some?
    ensures Handle(s.config, e, View(s.world, m)) == GlobalStep(s.config, e, View(s.world, m)).value
  {
    hide GlobalStep, Regions;
  }

  lemma OpeningCancelsNothing(n: nat, c: Context)
    ensures !Cancels(Opening(n, c)) && !Cancels([CloseLower] + Opening(n, c))
  {
  }

  lemma TouchReopens(s: Config, w: World, n: nat)
    requires s.root == TradeManagement && w.runtime.owner.None? && w.runtime.pendingOrder.None?
    requires w.runtime.scope != Some(Named(n)) && w.runtime.touchCandle != Some(n)
    requires !w.runtime.consumed || w.runtime.recovered
    ensures var c := View(w, Seen(n, {LowerPrice}, {}));
      GlobalStep(s, Plain(n, NewLowerTouched), c)
      == Some(Outcome([G(3), O(1), C(1), B(1)], FRESH, [CloseLower] + Opening(n, c), true))
  {
    hide UpperTouch;
    var c := View(w, Seen(n, {LowerPrice}, {}));
    assert [CloseLower] + Opening(n, c) == [CloseLower] + [ OpenLower(Named(n), Some(n), 0.01), InitialFlags(c), NO_OWNER,
                                                            Queue(Activate, Some(Named(n))) ];
  }

  /** A new touch opens another scope; what was scheduled in the old one still waits. */
  lemma TouchesAnew(s: System, n: nat)
    requires Calm(s) && s.world.runtime.scope != Some(Named(n)) && s.world.runtime.touchCandle != Some(n)
    requires !s.world.runtime.consumed || s.world.runtime.recovered
    ensures LeadsOn(s, Hears(n, NewLowerTouched, {LowerPrice}, {}),
                    System(FRESH, s.world.(runtime := Anew(s.world.runtime, n))))
  {
    var e, m := Plain(n, NewLowerTouched), Seen(n, {LowerPrice}, {});
    var c := View(s.world, m);
    TouchReopens(s.config, s.world, n);
    GlobalAnswers(s, e, m);
    ReopeningDone(s.world, n, c);
    OpeningCancelsNothing(n, c);
    assert Timely(s.config, s.world, e);
    hide GlobalStep, Handle, ExecAll, Anew, Timely, Opening, Seen;
  }

  lemma ReopeningDone(w: World, n: nat, c: Context)
    requires w.order.None? && w.runtime.Valid() && c.market.bbw == 0.01
    ensures ExecAll(w, [CloseLower] + Opening(n, c), NotSent) == Some(w.(runtime := Anew(w.runtime, n)))
  {
    var w1 := w.(runtime := w.runtime.(scope := None, touchCandle := None, touchBbw := None));
    OpeningDone(w1, n, c);
    hide ExecAll, Opening;
    ExecMore(w, CloseLower, Opening(n, c), NotSent);
  }

  // The signals.

  lemma SetupAppears(s: Config, e: Event, c: Context)
    requires s.cSignal == Some(CWaitSetup) && e.kind == Activate && SetupGuard(c)
    ensures RegionC(s, e, c) == Step(C(3), s.(cSignal := Some(CSetup)),
                                     [Patch(NO_CHANGE.(setupCandle := Put(c.market.candle))), FollowUp(StartSetup, c)])
  {
    hide CCheckStep, SetupGuard;
  }

  const TOUCH_COUNTS := NO_CHANGE.(bEnabled := Put(true), signalled := Put(false))

  lemma TouchCounts(s: Config, e: Event, c: Context)
    requires s.bSignal == Some(BWaitTouch) && e.kind == Activate
    requires c.runtime.touchBbw.Some? && c.market.Met(TouchBbw)
    ensures RegionB(s, e, c) == Step(B(3), s.(bSignal := Some(BWaitSignal)),
                                     [Patch(TOUCH_COUNTS), Schedule(CandleClosed, NextClose, c.runtime.scope)])
  {
    hide BWaitSignalStep, BPullbackStep, BSignalledStep;
  }

  const WAITING := FRESH.(bSignal := Some(BWaitSignal), cSignal := Some(CSetup))
  const TOUCH_AND_SETUP: set<Condition> := {TouchBbw, SetupPctB, SetupCci}

  lemma ActivationAnswered(w: World, n: nat)
    requires w.runtime.touchBbw.Some? && w.runtime.allowSetup && !w.runtime.consumed && w.runtime.setupCandle != Some(n)
    ensures var c := View(w, Seen(n, TOUCH_AND_SETUP, {}));
      Answers(System(FRESH, w), Plain(n, Activate), c.market, WAITING,
              [ Patch(NO_CHANGE.(setupCandle := Put(Some(n)))), FollowUp(StartSetup, c) ]
              + [ Patch(TOUCH_COUNTS), Schedule(CandleClosed, NextClose, c.runtime.scope) ])
  {
    var e, c := Plain(n, Activate), View(w, Seen(n, TOUCH_AND_SETUP, {}));
    NotGlobal(FRESH, e, c);
    RegionOneLeavesSignals(FRESH, e, c);
    SetupAppears(FRESH, e, c);
    TouchCounts(FRESH.(cSignal := Some(CSetup)), e, c);
    NoBuys([Patch(TOUCH_COUNTS), Schedule(CandleClosed, NextClose, c.runtime.scope)]);
    hide Handle, GlobalStep, RegionOne, RegionC, RegionB, CaseBBuys, CaseCBuys;
    TwoRegions(FRESH, e, c);
  }

  lemma ActivationDone(w: World, n: nat, c: Context)
    requires w.order.None? && w.runtime.Valid()
    ensures ExecAll(w, [ Patch(NO_CHANGE.(setupCandle := Put(Some(n)))), FollowUp(StartSetup, c) ]
                       + [ Patch(TOUCH_COUNTS), Schedule(CandleClosed, NextClose, c.runtime.scope) ], NotSent)
         == Some(w.(runtime := w.runtime.(setupCandle := Some(n), bEnabled := true, signalled := false)))
  {
    var p, q := NO_CHANGE.(setupCandle := Put(Some(n))), FollowUp(StartSetup, c);
    var u := Schedule(CandleClosed, NextClose, c.runtime.scope);
    var w1 := w.(runtime := w.runtime.(setupCandle := Some(n)));
    assert Patched(w.runtime, p) == w1.runtime;
    assert Patched(w1.runtime, TOUCH_COUNTS) == w1.runtime.(bEnabled := true, signalled := false);
    hide ExecAll, Exec, Patched;
    ExecAppend(w, [Patch(p), q], [Patch(TOUCH_COUNTS), u], NotSent);
    PatchDone(w, p, NotSent);
    AskingChangesNothing(w1, q);
    ExecTwo(w, Patch(p), q, NotSent);
    PatchDone(w1, TOUCH_COUNTS, NotSent);
    AskingChangesNothing(w1.(runtime := Patched(w1.runtime, TOUCH_COUNTS)), u);
    ExecTwo(w1, Patch(TOUCH_COUNTS), u, NotSent);
  }

  /** Both signals start: Case B's touch counts, and Case C's setup begins. */
  lemma Activates(w: World, n: nat)
    requires w.runtime.touchBbw.Some? && w.runtime.allowSetup && !w.runtime.consumed && w.runtime.setupCandle != Some(n)
    requires w.order.None? && w.runtime.Valid()
    ensures LeadsOn(System(FRESH, w), Hears(n, Activate, TOUCH_AND_SETUP, {}),
                    System(WAITING, w.(runtime :=
                      w.runtime.(setupCandle := Some(n), bEnabled := true, signalled := false))))
  {
    var c := View(w, Seen(n, TOUCH_AND_SETUP, {}));
    ActivationAnswered(w, n);
    ActivationDone(w, n, c);
    assert Timely(FRESH, w, Plain(n, Activate));
    hide Handle, ExecAll, Timely, Seen;
  }

  const NO_LOW := NO_CHANGE.(flushLow := Put(None), entryPctB := Put(None))

  lemma SetupStarts(s: Config, e: Event, c: Context)
    requires s.cSignal == Some(CSetup) && e.kind == StartSetup
    ensures RegionC(s, e, c) == Step(C(7), s, [Patch(NO_LOW), FollowUp(RetrySetup, c)])
  {
    hide CCheckStep;
  }

  lemma SetsUp(s: System, n: nat)
    requires Calm(s) && s.config.cSignal == Some(CSetup)
    ensures LeadsOn(s, Hears(n, StartSetup, {}, {}), System(s.config, s.world.(runtime := Patched(s.world.runtime, NO_LOW))))
  {
    var e, m := Plain(n, StartSetup), Seen(n, {}, {});
    SetupStarts(s.config, e, View(s.world, m));
    CaseCOnly(s.config, e, View(s.world, m));
    hide Handle, RegionC;
    assert Answers(s, e, m, s.config, [Patch(NO_LOW), FollowUp(RetrySetup, View(s.world, m))]);
    PatchedOn(s, e, m, s.config, NO_LOW, FollowUp(RetrySetup, View(s.world, m)));
  }

  const TRACK := NO_CHANGE.(flushLow := Put(Some(1.0)), entryPctB := Put(Some(0.16)))

  lemma LowTracked(s: Config, e: Event, c: Context)
    requires s.cSignal == Some(CSetup) && e.kind == RetrySetup && !c.market.Met(Recovery)
    requires c.market.Met(Flush) && c.market.Met(NewLow)
    ensures RegionC(s, e, c) == Step(C(if c.runtime.flushLow.None? then 9 else 10), s, TrackLow(c))
  {
    hide KeepsWatching, Recovering, EntryOrder, SetupGuard;
  }

  /** The price flushes to a low, which is tracked. */
  lemma Tracks(s: System, n: nat)
    requires Calm(s) && s.config.cSignal == Some(CSetup)
    ensures LeadsOn(s, Hears(n, RetrySetup, {Flush, NewLow}, {Recovery}),
                    System(s.config, s.world.(runtime := Patched(s.world.runtime, TRACK))))
  {
    var e, m := Plain(n, RetrySetup), Seen(n, {Flush, NewLow}, {Recovery});
    TrackAnswered(s, n);
    assert Timely(s.config, s.world, e);
    assert Patched(s.world.runtime, TRACK).Valid();
    hide Answers, Timely, Seen, LeadsOn, Patched;
    PatchedOn(s, e, m, s.config, TRACK, Reevaluate(RetrySetup, View(s.world, m)));
  }

  lemma TrackAnswered(s: System, n: nat)
    requires Calm(s) && s.config.cSignal == Some(CSetup)
    ensures var m := Seen(n, {Flush, NewLow}, {Recovery});
      Answers(s, Plain(n, RetrySetup), m, s.config, [Patch(TRACK), Reevaluate(RetrySetup, View(s.world, m))])
  {
    var e, c := Plain(n, RetrySetup), View(s.world, Seen(n, {Flush, NewLow}, {Recovery}));
    LowTracked(s.config, e, c);
    hide Handle, RegionC;
    CaseCOnly(s.config, e, c);
  }

  const SPENT := NO_CHANGE.(consumed := Put(true), recovered := Put(true), allowSetup := Put(false))

  lemma RecoverySeen(s: Config, e: Event, c: Context)
    requires s.cSignal == Some(CSetup) && e.kind == RetrySetup && c.runtime.owner.None? && c.market.Met(Recovery)
    ensures RegionC(s, e, c) == Step(C(8), s.(cSignal := Some(CFinal)), [Patch(SPENT)])
  {
    hide KeepsWatching, Recovering, EntryOrder, SetupGuard;
  }

  /** The market recovers without Case C, whose setup is spent. */
  lemma Recovers(s: System, n: nat)
    requires Calm(s) && s.config.cSignal == Some(CSetup) && s.config.bSignal != Some(BFinal)
    ensures LeadsOn(s, Hears(n, RetrySetup, {Recovery}, {}),
                    System(s.config.(cSignal := Some(CFinal)), s.world.(runtime := Patched(s.world.runtime, SPENT))))
  {
    var e, m := Plain(n, RetrySetup), Seen(n, {Recovery}, {});
    var after := s.config.(cSignal := Some(CFinal));
    RecoverySeen(s.config, e, View(s.world, m));
    assert Timely(s.config, s.world, e);
    hide Handle, RegionC, Timely;
    CaseCOnly(s.config, e, View(s.world, m));
    assert Answers(s, e, m, after, [Patch(SPENT)]);
    hide Answers, Seen;
    PatchedAlone(s, e, m, after, SPENT);
  }

  const SIGNAL: set<Condition> := {SignalSlope, SignalPctB, SignalLow}
  const SIGNALLED := NO_CHANGE.(signalled := Put(true))

  lemma CandleSignals(s: Config, e: Event, c: Context)
    requires s.bSignal == Some(BWaitSignal) && e.kind == CandleClosed && SignalCandle(c) && !c.runtime.signalled
    ensures RegionB(s, e, c)
         == Step(B(5), s.(bSignal := Some(BWaitPullback)), [Patch(SIGNALLED), FollowUp(StartPullback, c)])
  {
    hide BTouchStep, BPullbackStep, BSignalledStep, BPauseStep, SignalCandle;
  }

  lemma Signals(s: System, n: nat)
    requires Calm(s) && s.config.bSignal == Some(BWaitSignal) && !s.world.runtime.signalled
    ensures LeadsOn(s, Hears(n, CandleClosed, SIGNAL, {}),
                    System(s.config.(bSignal := Some(BWaitPullback)),
                           s.world.(runtime := Patched(s.world.runtime, SIGNALLED))))
  {
    var e, m := Plain(n, CandleClosed), Seen(n, SIGNAL, {});
    var after := s.config.(bSignal := Some(BWaitPullback));
    CandleSignals(s.config, e, View(s.world, m));
    CaseBOnly(s.config, e, View(s.world, m));
    hide Handle, RegionB;
    assert Answers(s, e, m, after, [Patch(SIGNALLED), FollowUp(StartPullback, View(s.world, m))]);
    hide Answers, Seen;
    PatchedOn(s, e, m, after, SIGNALLED, FollowUp(StartPullback, View(s.world, m)));
  }

  lemma PullbackWaits(s: Config, e: Event, c: Context)
    requires s.bSignal == Some(BWaitPullback) && e.kind == StartPullback
    requires c.market.Met(SignalAge) && c.market.Unmet(Pullback)
    ensures RegionB(s, e, c) == Step(B(7), s, [Reevaluate(RetryPullback, c)])
  {
    hide BTouchStep, BWaitSignalStep, BSignalledStep, BPauseStep, EntryOrder;
  }

  lemma AwaitsPullback(s: System, n: nat)
    requires Calm(s) && s.config.bSignal == Some(BWaitPullback)
    ensures LeadsOn(s, Hears(n, StartPullback, {SignalAge}, {Pullback}), s)
  {
    var e, m := Plain(n, StartPullback), Seen(n, {SignalAge}, {Pullback});
    PullbackWaits(s.config, e, View(s.world, m));
    CaseBOnly(s.config, e, View(s.world, m));
    hide Handle, RegionB;
    assert Answers(s, e, m, s.config, [Reevaluate(RetryPullback, View(s.world, m))]);
    hide Answers, Seen;
    AskedOn(s, e, m, s.config, Reevaluate(RetryPullback, View(s.world, m)));
  }

  // A purchase asked for.

  function Purchase(id: nat, strategy: Strategy): Order {
    Order(id, strategy, Buy, Initial, None, None, false, false, false)
  }

  function KeyFor(strategy: Strategy, e: Event, r: Runtime): Intent {
    if r.pendingIntent.Some? then r.pendingIntent.value else EntryIntent(strategy, r.scope, e.sequence)
  }

  function PurchasePatch(strategy: Strategy, key: Intent): RuntimePatch {
    NO_CHANGE.(
      pendingStrategy := Put(Some(strategy)), pendingSide := Put(Some(Buy)), pendingAttempt := Put(Some(Initial)),
      pendingIntent := Put(Some(key)), phase := Put(EntryPending))
  }

  /** The context once a purchase is out, or reserved only, its preparation having failed. */
  function Asked(w: World, strategy: Strategy, key: Intent, reply: Reply): World {
    var reserved := w.(runtime := Patched(w.runtime, PurchasePatch(strategy, key)));
    if reply.NotSent? then reserved else Publish(reserved, Purchase(reply.id, strategy))
  }

  lemma PurchaseRequested(strategy: Strategy, e: Event, c: Context)
    ensures var key := KeyFor(strategy, e, c.runtime);
      EntryOrder(strategy, Initial, e, c)
      == [Patch(PurchasePatch(strategy, key)), Submit(strategy, Buy, Initial, key, None, None)]
  {
  }

  lemma PurchaseDoneWorld(w: World, strategy: Strategy, key: Intent, reply: Reply)
    requires w.order.None? && w.runtime.pendingOrder.None? && w.runtime.Valid()
    ensures var p, q := Patch(PurchasePatch(strategy, key)), Submit(strategy, Buy, Initial, key, None, None);
      && Exec(w, p, reply).Some?
      && Exec(Exec(w, p, reply).value, q, reply) == Some(Asked(w, strategy, key, reply))
  {
  }

  lemma PurchaseOn(s: System, e: Event, m: Market, reply: Reply, after: Config, strategy: Strategy)
    requires Answers(s, e, m, after, EntryOrder(strategy, Initial, e, View(s.world, m)))
    requires Timely(s.config, s.world, e) && !IsRetry(e.kind)
    requires s.world.order.None? && s.world.runtime.pendingOrder.None? && s.world.runtime.Valid()
    ensures LeadsOn(s, Deliver(e, m, reply),
                    System(after, Asked(s.world, strategy, KeyFor(strategy, e, s.world.runtime), reply)))
  {
    hide Timely, Answers, EntryOrder, KeyFor, Exec, PurchasePatch, Asked, LeadsOn;
    var key := KeyFor(strategy, e, s.world.runtime);
    PurchaseRequested(strategy, e, View(s.world, m));
    PurchaseDoneWorld(s.world, strategy, key, reply);
    var p, q := Patch(PurchasePatch(strategy, key)), Submit(strategy, Buy, Initial, key, None, None);
    var w := Exec(s.world, p, reply).value;
    On2(s, e, m, reply, after, p, q, w, Exec(w, q, reply).value);
  }

  lemma PullbackBuys(s: Config, e: Event, c: Context)
    requires s.Valid() && s.root == TradeManagement && s.bSignal == Some(BWaitPullback) && e.kind == RetryPullback
    requires c.runtime.owner.None? && c.runtime.pendingOrder.None? && !c.runtime.bPaused
    requires c.market.Met(SignalAge) && c.market.Met(Pullback)
    ensures RegionB(s, e, c) == Step(B(9), s.(bSignal := Some(BOpenSignalled)), EntryOrder(CaseB, Initial, e, c))
  {
    hide BTouchStep, BWaitSignalStep, BSignalledStep, BPauseStep, EntryOrder;
  }

  lemma PullbackAnswered(s: System, e: Event, m: Market)
    requires Calm(s) && s.config.bSignal == Some(BWaitPullback) && !s.world.runtime.bPaused
    requires e.kind == RetryPullback && m.Met(SignalAge) && m.Met(Pullback)
    ensures Answers(s, e, m, s.config.(bSignal := Some(BOpenSignalled)), EntryOrder(CaseB, Initial, e, View(s.world, m)))
  {
    PullbackBuys(s.config, e, View(s.world, m));
    hide Handle, RegionB, EntryOrder;
    CaseBOnly(s.config, e, View(s.world, m));
  }

  const PULLED_BACK: set<Condition> := {SignalAge, Pullback}

  lemma AsksForB(s: System, n: nat, reply: Reply)
    requires Calm(s) && s.config.bSignal == Some(BWaitPullback) && !s.world.runtime.bPaused
    ensures LeadsOn(s, Deliver(Plain(n, RetryPullback), Seen(n, PULLED_BACK, {}), reply),
      System(s.config.(bSignal := Some(BOpenSignalled)),
             Asked(s.world, CaseB, KeyFor(CaseB, Plain(n, RetryPullback), s.world.runtime), reply)))
  {
    var e, m := Plain(n, RetryPullback), Seen(n, PULLED_BACK, {});
    PullbackAnswered(s, e, m);
    assert Timely(s.config, s.world, e);
    hide Answers, LeadsOn, Timely, Asked, KeyFor, Seen;
    PurchaseOn(s, e, m, reply, s.config.(bSignal := Some(BOpenSignalled)), CaseB);
  }

  const REBOUND: set<Condition> := {RecoveryWindow, Rebound, EntryLimit}
  const NO_RECOVERY: set<Condition> := {Recovery, NewLow}

  lemma ReboundSeen(n: nat)
    ensures var m := Seen(n, REBOUND, NO_RECOVERY);
      && m.Met(RecoveryWindow) && m.Met(Rebound) && m.Met(EntryLimit) && m.Unmet(Recovery) && m.Unmet(NewLow)
  {
  }

  lemma Rebounds(s: System, n: nat)
    requires Calm(s) && s.world.runtime.flushLow.Some? && s.world.runtime.entryPctB.Some?
    ensures var m := Seen(n, REBOUND, NO_RECOVERY);
      Recovering(View(s.world, m)) && m.Met(EntryLimit) && m.Unmet(NewLow)
    ensures Timely(s.config, s.world, Plain(n, RetrySetup))
  {
    ReboundSeen(n);
    hide Seen;
  }

  lemma SetupAnswered(s: System, e: Event, m: Market)
    requires Calm(s) && s.config.cSignal == Some(CSetup) && e.kind == RetrySetup
    requires Recovering(View(s.world, m)) && m.Met(EntryLimit) && m.Unmet(NewLow)
    ensures Answers(s, e, m, s.config.(cSignal := Some(COpenSignalled)), EntryOrder(CaseC, Initial, e, View(s.world, m)))
  {
    SetupSelected(s.config, e, View(s.world, m));
    hide Handle, RegionC, EntryOrder, Recovering;
    CaseCOnly(s.config, e, View(s.world, m));
  }

  /** Case C's setup is complete, and it buys. */
  lemma AsksForC(s: System, n: nat, reply: Reply)
    requires Calm(s) && s.config.cSignal == Some(CSetup)
    requires s.world.runtime.flushLow.Some? && s.world.runtime.entryPctB.Some?
    ensures LeadsOn(s, Deliver(Plain(n, RetrySetup), Seen(n, REBOUND, NO_RECOVERY), reply),
      System(s.config.(cSignal := Some(COpenSignalled)),
             Asked(s.world, CaseC, KeyFor(CaseC, Plain(n, RetrySetup), s.world.runtime), reply)))
  {
    var e, m := Plain(n, RetrySetup), Seen(n, REBOUND, NO_RECOVERY);
    Rebounds(s, n);
    hide Seen, Timely, Recovering, Answers, LeadsOn, Asked, KeyFor;
    SetupAnswered(s, e, m);
    PurchaseOn(s, e, m, reply, s.config.(cSignal := Some(COpenSignalled)), CaseC);
  }

  /** A purchase that fills and settles. */
  function Held(w: World): World
    requires w.order.Some?
  {
    World(w.runtime.(owner := Some(w.order.value.strategy), pendingOrder := None, pendingStrategy := None,
                     pendingSide := None, pendingAttempt := None, pendingIntent := None, phase := Idle),
          true, None)
  }

  lemma Fills(s: System)
    requires s.world.order.Some? && s.world.order.value.side == Buy && s.world.runtime.owner.None?
    requires !s.world.order.value.forced && !s.world.order.value.stopping
    ensures FillBuy(s.world).Some?
    ensures LeadsOn(s, BuyFill, System(s.config, FillBuy(s.world).value))
    ensures LeadsOn(System(s.config, FillBuy(s.world).value), Settle, System(s.config, Held(s.world)))
  {
  }

  /** A purchase that settles without a fill leaves its key behind. */
  function Unfilled(w: World): World {
    World(w.runtime.(pendingOrder := None, pendingStrategy := None, pendingSide := None, pendingAttempt := None),
          w.open, None)
  }

  lemma SettlesUnfilled(s: System)
    requires s.world.order.Some? && s.world.order.value.side == Buy
    requires !s.world.order.value.filled && !s.world.order.value.forced
    ensures LeadsOn(s, Settle, System(s.config, Unfilled(s.world)))
  {
  }

  function Failed(n: nat, strategy: Strategy): Event {
    Event(if strategy == CaseB then BBuyFailed else CBuyFailed, BuyAttempt(Initial), 7, Some(Named(n)), None, false)
  }

  function RetryOf(strategy: Strategy): EventKind { if strategy == CaseB then BBuyRetry else CBuyRetry }

  /** The failure of a purchase is heard, and a repetition scheduled. */
  lemma FailureHeard(s: System, n: nat, strategy: Strategy)
    requires Calm(s) && !s.config.Complete()
    ensures var m := Deliver(Failed(n, strategy), Seen(n, {}, {}), NotSent);
      && LeadsOn(s, m, s)
      && forall before :: WaitsAfter(RetryOf(strategy), s.world.runtime.scope, s, m, before)
  {
    var e, m := Failed(n, strategy), Seen(n, {}, {});
    var retry := RetryLater(RetryOf(strategy), View(s.world, m));
    FailureAnswered(s, n, strategy);
    AskedOn(s, e, m, s.config, retry);
    hide Handle;
    assert Handle(s.config, e, View(s.world, m)).actions[0] == retry;
  }

  lemma FailureAnswered(s: System, n: nat, strategy: Strategy)
    requires Calm(s) && !s.config.Complete()
    ensures var m := Seen(n, {}, {});
      Answers(s, Failed(n, strategy), m, s.config, [RetryLater(RetryOf(strategy), View(s.world, m))])
  {
    var e, c := Failed(n, strategy), View(s.world, Seen(n, {}, {}));
    FailureSelected(s.config, n, strategy, c);
    hide Handle, RegionOne;
    OwnershipOnly(s.config, e, c);
  }

  lemma FailureSelected(s: Config, n: nat, strategy: Strategy, c: Context)
    requires s.Valid() && s.ownership == Some(NoPosition) && c.runtime.owner.None?
    ensures RegionOne(s, Failed(n, strategy), c)
         == Step(O(if strategy == CaseB then 3 else 7), s, [RetryLater(RetryOf(strategy), c)])
  {
    hide EntryWithdrawn, EntryOrder;
  }

  // A position opens.

  predicate Holding(s: System, strategy: Strategy) {
    && s.config.Valid() && s.config.root == TradeManagement && s.config.ownership == Some(NoPosition)
    && s.world.runtime.owner == Some(strategy) && s.world.open && s.world.order.None?
    && s.world.runtime.pendingOrder.None? && s.world.runtime.Valid()
  }

  lemma OpensB(s: System, n: nat) returns (s': System)
    requires Holding(s, CaseB)
    ensures LeadsOn(s, Hears(n, BOpened, {}, {}), s')
    ensures s'.config.bPosition == Some(BHolding) && s'.world.open && s'.world.runtime.owner == Some(CaseB)
  {
    var e, m := Plain(n, BOpened), Seen(n, {}, {});
    BOpeningHeard(s.config, e, View(s.world, m));
    s' := MildlyOn(s, e, m, Handle(s.config, e, View(s.world, m)));
  }

  lemma OpensC(s: System, n: nat) returns (s': System)
    requires Holding(s, CaseC)
    ensures LeadsOn(s, Hears(n, COpened, {}, {}), s')
    ensures s'.config
         == CTaken(s.config).(cSignal := if s.config.cSignal == Some(COpenSignalled) then Some(CFinal) else s.config.cSignal)
    ensures s'.world == s.world.(runtime := s.world.runtime.(bPaused := s'.world.runtime.bPaused,
                                                             allowSetup := s'.world.runtime.allowSetup))
  {
    var e, m := Plain(n, COpened), Seen(n, {}, {});
    COpeningHeard(s.config, e, View(s.world, m));
    s' := MildlyOn(s, e, m, Handle(s.config, e, View(s.world, m)));
  }

  lemma MildlyOn(s: System, e: Event, m: Market, o: Outcome) returns (s': System)
    requires o == Handle(s.config, e, View(s.world, m)) && AllMild(o.actions)
    requires s.world.order.None? && s.world.runtime.Valid() && Timely(s.config, s.world, e) && !IsRetry(e.kind)
    ensures LeadsOn(s, Deliver(e, m, NotSent), s') && s'.config == o.after
    ensures s'.world == s.world.(runtime := s.world.runtime.(bPaused := s'.world.runtime.bPaused,
                                                             allowSetup := s'.world.runtime.allowSetup))
  {
    hide Handle, ExecAll, Timely;
    MildExec(s.world, o.actions, NotSent);
    MildCancelsNothing(o.actions);
    hide Mild, AllMild, Cancels;
    s' := System(o.after, ExecAll(s.world, o.actions, NotSent).value);
  }

  lemma MildCancelsNothing(actions: seq<Action>)
    requires AllMild(actions)
    ensures !Cancels(actions)
  {
  }

  // Case C's position, step by step.

  predicate Manages(s: System, position: CPosition) {
    && s.config.Valid() && s.config.root == TradeManagement && s.config.cPosition == Some(position)
    && s.world.runtime.Valid() && s.world.order.None?
  }

  /** What the ownership region alone selects is the whole answer. */
  lemma Answered(s: System, e: Event, m: Market, id: TransitionId, after: Config, actions: seq<Action>)
    requires s.config.Valid() && s.config.root == TradeManagement && !ForSignals(e.kind) && !IsOpened(e)
    requires e.kind !in {SellDeferred, StopConfirmed, ForceSellFinished, ForceSellFailed, UpperTouched, LowerTouched,
                         NewLowerTouched, ManagementCompleted, LogicStarted}
    requires RegionOne(s.config, e, View(s.world, m)) == Step(id, after, actions) && !after.Complete()
    ensures Answers(s, e, m, after, actions)
  {
    hide Handle, RegionOne;
    OwnershipOnly(s.config, e, View(s.world, m));
  }

  predicate Unsold(r: Runtime) { r.pendingOrder.None? && r.exitReason.None? }

  lemma Checks(s: System, n: nat)
    requires Manages(s, CHolding) && Unsold(s.world.runtime) && s.world.runtime.owner.Some?
    ensures LeadsOn(s, Hears(n, StartCCheck, {CProfitZone}, {}), s)
  {
    var e, m := Plain(n, StartCCheck), Seen(n, {CProfitZone}, {});
    CheckSelected(s.config, e, View(s.world, m));
    Answered(s, e, m, PC(3), s.config, [FollowUp(CEnterProfit, View(s.world, m))]);
    AskedOn(s, e, m, s.config, FollowUp(CEnterProfit, View(s.world, m)));
  }

  lemma CheckSelected(s: Config, e: Event, c: Context)
    requires s.bPosition.None? && s.cPosition == Some(CHolding) && e.kind == StartCCheck
    requires c.runtime.exitReason.None? && c.market.Met(CProfitZone)
    ensures RegionOne(s, e, c) == Step(PC(3), s, [FollowUp(CEnterProfit, c)])
  {
    hide CTimeExitStep, CRetryStep, ExitOrder;
  }

  const SLOPE := NO_CHANGE.(trailSlope := Put(Some(1.0)))

  lemma EntersProfit(s: System, n: nat)
    requires Manages(s, CHolding) && Unsold(s.world.runtime) && s.world.runtime.owner.Some?
    ensures LeadsOn(s, Hears(n, CEnterProfit, {CProfitZone}, {}),
      System(s.config.(cPosition := Some(CTrailing)), s.world.(runtime := Patched(s.world.runtime, SLOPE))))
  {
    var e, m := Plain(n, CEnterProfit), Seen(n, {CProfitZone}, {});
    var after := s.config.(cPosition := Some(CTrailing));
    ProfitSelected(s.config, e, View(s.world, m));
    Answered(s, e, m, PC(10), after, [Patch(SLOPE), FollowUp(StartTrailing, View(s.world, m))]);
    hide Answers, RegionOne, Seen;
    PatchedOn(s, e, m, after, SLOPE, FollowUp(StartTrailing, View(s.world, m)));
  }

  lemma ProfitSelected(s: Config, e: Event, c: Context)
    requires s.bPosition.None? && s.cPosition == Some(CHolding) && e.kind == CEnterProfit
    requires Unsold(c.runtime) && c.market.Met(CProfitZone)
    ensures RegionOne(s, e, c)
         == Step(PC(10), s.(cPosition := Some(CTrailing)),
                 [Patch(NO_CHANGE.(trailSlope := Put(Some(c.market.trailReference)))), FollowUp(StartTrailing, c)])
  {
    hide CTimeExitStep, CRetryStep, ExitOrder, CHoldingChoice;
  }

  lemma Trails(s: System, n: nat)
    requires Manages(s, CTrailing) && Unsold(s.world.runtime) && s.world.runtime.owner.Some?
    requires s.world.runtime.trailSlope.Some?
    ensures LeadsOn(s, Hears(n, StartTrailing, {}, {TrailIncrease}), s)
  {
    var e, m := Plain(n, StartTrailing), Seen(n, {}, {TrailIncrease});
    TrailSelected(s.config, e, View(s.world, m));
    Answered(s, e, m, PC(12), s.config, [FollowUp(CDecrease, View(s.world, m))]);
    AskedOn(s, e, m, s.config, FollowUp(CDecrease, View(s.world, m)));
  }

  lemma TrailSelected(s: Config, e: Event, c: Context)
    requires s.bPosition.None? && s.cPosition == Some(CTrailing) && e.kind == StartTrailing
    requires c.runtime.exitReason.None? && c.runtime.trailSlope.Some? && c.market.closed1m
    requires c.market.Unmet(TrailIncrease) && !c.market.Met(TrailFallback)
    ensures RegionOne(s, e, c) == Step(PC(12), s, [FollowUp(CDecrease, c)])
  {
    hide CTimeExitStep, CRetryStep, ExitOrder;
  }

  // A sale.

  function Sale(id: nat, reason: ExitReason): Order {
    Order(id, CaseC, Sell, Initial, Some(reason), Some(0.1), false, false, false)
  }

  function SalePatch(reason: ExitReason, back: ReturnState, key: Intent): RuntimePatch {
    NO_CHANGE.(
      pendingStrategy := Put(Some(CaseC)), pendingSide := Put(Some(Sell)), pendingAttempt := Put(Some(Initial)),
      pendingIntent := Put(Some(key)), phase := Put(ExitPending),
      exitReason := Put(Some(reason)), exitPctB := Put(Some(0.1)), returnState := Put(Some(back)))
  }

  function SaleKeyOf(r: Runtime, reason: ExitReason): Intent { ExitIntent(CaseC, reason, r.scope, 7) }

  /** The context once the position is on sale. */
  function OnSale(w: World, id: nat, reason: ExitReason, back: ReturnState): World {
    Publish(w.(runtime := Patched(w.runtime, SalePatch(reason, back, SaleKeyOf(w.runtime, reason)))), Sale(id, reason))
  }

  /** Held by Case C with nothing pending. */
  predicate Sellable(w: World) {
    && w.open && w.order.None? && w.runtime.owner == Some(CaseC) && Unsold(w.runtime) && w.runtime.Valid()
    && w.runtime.pendingIntent.None?
  }

  lemma SaleRequested(w: World, e: Event, c: Context, reason: ExitReason, back: ReturnState)
    requires c.runtime == w.runtime && c.market.pctB == 0.1 && w.runtime.pendingIntent.None? && e.sequence == 7
    ensures var key := SaleKeyOf(w.runtime, reason);
      ExitOrder(CaseC, reason, back, e, c, Initial)
      == [Patch(SalePatch(reason, back, key)), Submit(CaseC, Sell, Initial, key, Some(reason), Some(0.1))]
  {
  }

  lemma SaleDoneWorld(w: World, id: nat, reason: ExitReason, back: ReturnState)
    requires Sellable(w)
    ensures var key := SaleKeyOf(w.runtime, reason);
      var p, q := Patch(SalePatch(reason, back, key)), Submit(CaseC, Sell, Initial, key, Some(reason), Some(0.1));
      && Exec(w, p, Sent(id)).Some?
      && Exec(Exec(w, p, Sent(id)).value, q, Sent(id)) == Some(OnSale(w, id, reason, back))
  {
  }

  lemma SaleOn(s: System, e: Event, m: Market, id: nat, reason: ExitReason, back: ReturnState)
    requires Answers(s, e, m, s.config, ExitOrder(CaseC, reason, back, e, View(s.world, m), Initial))
    requires Timely(s.config, s.world, e) && !IsRetry(e.kind) && Sellable(s.world)
    requires m.pctB == 0.1 && e.sequence == 7
    ensures LeadsOn(s, Deliver(e, m, Sent(id)), System(s.config, OnSale(s.world, id, reason, back)))
  {
    hide Timely, Answers, ExitOrder, Exec, SalePatch, OnSale, LeadsOn, SaleKeyOf;
    var key := SaleKeyOf(s.world.runtime, reason);
    SaleRequested(s.world, e, View(s.world, m), reason, back);
    SaleDoneWorld(s.world, id, reason, back);
    var p, q := Patch(SalePatch(reason, back, key)), Submit(CaseC, Sell, Initial, key, Some(reason), Some(0.1));
    var w := Exec(s.world, p, Sent(id)).value;
    On2(s, e, m, Sent(id), s.config, p, q, w, Exec(w, q, Sent(id)).value);
  }

  /** The trail falls, and the position is put on sale. */
  lemma Sells(s: System, n: nat, id: nat)
    requires Manages(s, CTrailing) && Sellable(s.world) && s.world.runtime.trailSlope.Some?
    ensures LeadsOn(s, Sends(n, CDecrease, {}, {TrailIncrease}, id),
                    System(s.config, OnSale(s.world, id, Trail, ToCTrailing)))
  {
    var e, m := Plain(n, CDecrease), Seen(n, {}, {TrailIncrease});
    DecreaseSelected(s.config, e, View(s.world, m));
    Answered(s, e, m, PC(18), s.config, ExitOrder(CaseC, Trail, ToCTrailing, e, View(s.world, m), Initial));
    assert Timely(s.config, s.world, e);
    hide Answers, OnSale, Timely, ExitOrder;
    SaleOn(s, e, m, id, Trail, ToCTrailing);
  }

  lemma DecreaseSelected(s: Config, e: Event, c: Context)
    requires s.bPosition.None? && s.cPosition == Some(CTrailing) && e.kind == CDecrease
    requires Unsold(c.runtime) && c.runtime.trailSlope.Some? && c.market.closed1m && c.market.Unmet(TrailIncrease)
    ensures RegionOne(s, e, c) == Step(PC(18), s, ExitOrder(CaseC, Trail, ToCTrailing, e, c, Initial))
  {
    hide CTimeExitStep, CRetryStep, ExitOrder, CTrailingChoice;
  }

  /** Held at a loss, or too long. */
  function Urgency(reason: ExitReason): EventKind { if reason == StopLoss then CStop else CTime }

  lemma SellsUrgently(s: System, n: nat, id: nat, reason: ExitReason)
    requires Manages(s, CHolding) && Sellable(s.world) && (reason == StopLoss || reason == TimeExit)
    ensures LeadsOn(s, Sends(n, Urgency(reason), {CStopSlope, CTimeLimit}, {}, id),
                    System(s.config, OnSale(s.world, id, reason, ToCHolding)))
  {
    var e, m := Plain(n, Urgency(reason)), Seen(n, {CStopSlope, CTimeLimit}, {});
    UrgencySelected(s.config, e, View(s.world, m), reason);
    Answered(s, e, m, PC(if reason == StopLoss then 6 else 8), s.config,
             ExitOrder(CaseC, reason, ToCHolding, e, View(s.world, m), Initial));
    assert Timely(s.config, s.world, e);
    hide Answers, OnSale, Timely, ExitOrder;
    SaleOn(s, e, m, id, reason, ToCHolding);
  }

  lemma UrgencySelected(s: Config, e: Event, c: Context, reason: ExitReason)
    requires s.bPosition.None? && s.cPosition == Some(CHolding) && e.kind == Urgency(reason)
    requires reason == StopLoss || reason == TimeExit
    requires Unsold(c.runtime) && c.market.Met(CStopSlope) && c.market.Met(CTimeLimit)
    ensures RegionOne(s, e, c)
         == Step(PC(if reason == StopLoss then 6 else 8), s, ExitOrder(CaseC, reason, ToCHolding, e, c, Initial))
  {
    hide CRetryStep, ExitOrder, CHoldingChoice;
  }

  /** The position sold, and the reason published. */
  function Sold(w: World): World {
    World(w.runtime.(owner := None, exitReason := Some(Trail), exitPctB := Some(0.1), returnState := Some(ToCTrailing),
                     cExit := Some(Trail), cExitPctB := Some(0.1), pendingOrder := None, pendingStrategy := None,
                     pendingSide := None, pendingAttempt := None, pendingIntent := None, phase := ExitPending),
          false, None)
  }

  lemma SellsOut(s: System, w: World, id: nat) returns (s': System)
    requires s.world == OnSale(w, id, Trail, ToCTrailing) && w.open && w.runtime.owner == Some(CaseC)
    requires w.runtime.cExit.None? && w.runtime.cExitPctB.None?
    ensures LeadsOn(s, SellOut(Some(0.1)), s') && LeadsOn(s', Settle, System(s.config, Sold(w)))
  {
    s' := System(s.config, FillOut(s.world, Some(0.1)).value);
  }

  /** The reason for a sale cannot be published beside another that is still there. */
  lemma CannotPublish(w: World, id: nat, reason: ExitReason, back: ReturnState, pctB: Option<real>)
    requires Sellable(w) && w.runtime.cExit.Some? && w.runtime.cExit != Some(reason)
    ensures Selling(OnSale(w, id, reason, back)) && FillOut(OnSale(w, id, reason, back), pctB).None?
  {
  }

  // The position closed, and Case B's turn.

  lemma Closes(s: System, n: nat)
    requires Manages(s, CTrailing) && s.world.runtime.pendingOrder.None?
    requires s.world.runtime.owner.None? && s.world.runtime.exitReason.Some?
    requires s.world.runtime.cExit == s.world.runtime.exitReason
    ensures LeadsOn(s, Hears(n, CSellFilled, {}, {}),
      System(s.config.(cPosition := Some(CClosed)), s.world.(runtime := Patched(s.world.runtime, FORGET_PENDING))))
  {
    var e, m := Plain(n, CSellFilled), Seen(n, {}, {});
    var after := s.config.(cPosition := Some(CClosed));
    CloseSelected(s.config, e, View(s.world, m));
    Answered(s, e, m, PC23F, after, [Patch(FORGET_PENDING), FollowUp(CSellFinished, View(s.world, m))]);
    hide Answers, RegionOne;
    PatchedOn(s, e, m, after, FORGET_PENDING, FollowUp(CSellFinished, View(s.world, m)));
  }

  lemma CloseSelected(s: Config, e: Event, c: Context)
    requires s.bPosition.None? && s.cPosition == Some(CTrailing) && e.kind == CSellFilled
    requires c.runtime.owner.None? && c.runtime.exitReason.Some? && c.runtime.cExit == c.runtime.exitReason
    ensures RegionOne(s, e, c)
         == Step(PC23F, s.(cPosition := Some(CClosed)), [Patch(FORGET_PENDING), FollowUp(CSellFinished, c)])
  {
  }

  const FINISHED := NO_CHANGE.(consumed := Put(true), allowSetup := Put(false), bPaused := Put(true))
  const RECOVERED := NO_CHANGE.(recovered := Put(true))
  const HANDED_OVER := NO_CHANGE.(bPaused := Put(false), bOnly := Put(true), allowSetup := Put(false))
  const RESUMED := NO_CHANGE.(bPaused := Put(false))

  lemma ClosedSelected(s: Config, e: Event, c: Context)
    requires s.bPosition.None? && s.cPosition == Some(CClosed)
    ensures e.kind == CSellFinished ==>
              RegionOne(s, e, c) == Step(PC(24), s, [Patch(FINISHED), FollowUp(CheckRecovery, c)])
    ensures e.kind == CheckRecovery && c.market.Met(Recovery) ==>
              RegionOne(s, e, c)
              == Step(PC(26), s.(cPosition := Some(CRecovered)), [Patch(RECOVERED), FollowUp(CheckHandoff, c)])
  {
  }

  lemma Finishes(s: System, n: nat)
    requires Manages(s, CClosed)
    ensures LeadsOn(s, Hears(n, CSellFinished, {}, {}),
                    System(s.config, s.world.(runtime := Patched(s.world.runtime, FINISHED))))
  {
    var e, m := Plain(n, CSellFinished), Seen(n, {}, {});
    ClosedSelected(s.config, e, View(s.world, m));
    Answered(s, e, m, PC(24), s.config, [Patch(FINISHED), FollowUp(CheckRecovery, View(s.world, m))]);
    hide Answers, RegionOne;
    PatchedOn(s, e, m, s.config, FINISHED, FollowUp(CheckRecovery, View(s.world, m)));
  }

  lemma RecoversAfterSale(s: System, n: nat)
    requires Manages(s, CClosed)
    ensures LeadsOn(s, Hears(n, CheckRecovery, {Recovery}, {}),
      System(s.config.(cPosition := Some(CRecovered)), s.world.(runtime := Patched(s.world.runtime, RECOVERED))))
  {
    var e, m := Plain(n, CheckRecovery), Seen(n, {Recovery}, {});
    var after := s.config.(cPosition := Some(CRecovered));
    ClosedSelected(s.config, e, View(s.world, m));
    Answered(s, e, m, PC(26), after, [Patch(RECOVERED), FollowUp(CheckHandoff, View(s.world, m))]);
    hide Answers, RegionOne;
    PatchedOn(s, e, m, after, RECOVERED, FollowUp(CheckHandoff, View(s.world, m)));
  }

  predicate TrailedOut(r: Runtime) { r.cExit == Some(Trail) && r.cExitPctB.Some? }

  lemma HandsCaseBOver(s: System, n: nat)
    requires Manages(s, CRecovered) && TrailedOut(s.world.runtime) && s.config.bSignal != Some(BFinal)
    ensures LeadsOn(s, Hears(n, CheckHandoff, {Handoff}, {}),
                    System(s.config.(ownership := Some(NoPosition), cPosition := None),
                           s.world.(runtime := Patched(s.world.runtime, HANDED_OVER))))
  {
    var e, m := Plain(n, CheckHandoff), Seen(n, {Handoff}, {});
    var after := s.config.(ownership := Some(NoPosition), cPosition := None);
    HandoffSelected(s.config, e, View(s.world, m));
    Answered(s, e, m, PC(27), after, [Patch(HANDED_OVER), FollowUp(BResume, View(s.world, m))]);
    hide Answers, RegionOne;
    PatchedOn(s, e, m, after, HANDED_OVER, FollowUp(BResume, View(s.world, m)));
  }

  lemma HandoffSelected(s: Config, e: Event, c: Context)
    requires s.bPosition.None? && s.cPosition == Some(CRecovered) && e.kind == CheckHandoff && HandsOver(c)
    ensures RegionOne(s, e, c) == Step(PC(27), s.(ownership := Some(NoPosition), cPosition := None),
                                       [Patch(HANDED_OVER), FollowUp(BResume, c)])
  {
  }

  lemma Resumes(s: System, n: nat)
    requires Calm(s) && s.config.bSignal == Some(BWaitPullback) && s.world.runtime.recovered
    requires TrailedOut(s.world.runtime)
    ensures LeadsOn(s, Hears(n, BResume, {Handoff}, {}),
                    System(s.config, s.world.(runtime := Patched(s.world.runtime, RESUMED))))
  {
    var e, m := Plain(n, BResume), Seen(n, {Handoff}, {});
    ResumeSelected(s.config, e, View(s.world, m));
    CaseBOnly(s.config, e, View(s.world, m));
    hide RegionB, Handle;
    assert Answers(s, e, m, s.config, [Patch(RESUMED)]);
    hide Answers, Seen;
    PatchedAlone(s, e, m, s.config, RESUMED);
  }

  lemma ResumeSelected(s: Config, e: Event, c: Context)
    requires s.bSignal == Some(BWaitPullback) && e.kind == BResume && c.runtime.recovered && HandsOver(c)
    ensures RegionB(s, e, c) == Step(B(15), s, [Patch(RESUMED)])
  {
    hide HandsOver, EntryOrder;
  }
}
