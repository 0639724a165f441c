/** The keys under which orders are submitted, and whose they are. */
module TradingKeys {
  import opened Bytes
  import opened TradingTypes
  import opened TradingMachine
  import opened TradingLoop
  import opened TradingRuns
  import opened TradingProperties
  import opened TradingErrors
  import opened TradingTheorems

  /** The key was made for an intention of this strategy. */
  predicate Names(key: Intent, strategy: Strategy) {
    !key.ForcedIntent? && key.strategy == strategy
  }

  /** The key was made for a sale of this strategy. */
  predicate SaleKey(key: Intent, strategy: Strategy) {
    key.ExitIntent? && key.strategy == strategy
  }

  // One microstep.

  /** Every order goes out under a key of its own strategy exactly if none is kept that names another. */
  predicate OwnIff(c: Context, actions: seq<Action>) {
    var kept := c.runtime.pendingIntent;
    forall i :: 0 <= i < |actions| && actions[i].Submit? ==>
      (Names(actions[i].key, actions[i].strategy) <==> kept.None? || Names(kept.value, actions[i].strategy))
  }

  lemma LeavingOwn(c: Context, actions: seq<Action>)
    requires AllLeave(actions)
    ensures OwnIff(c, actions)
  {
  }

  lemma ForgettingOwn(c: Context, o: Option<Outcome>)
    requires Forgets(o)
    ensures OwnIff(c, o.value.actions)
  {
    var actions := o.value.actions;
    assert forall i :: 1 <= i < |actions| ==> actions[i] == actions[1..][i - 1];
  }

  lemma ModestOwn(s: Config, e: Event, c: Context, o: Option<Outcome>)
    requires Modest(s, e, c, o) && o.Some?
    ensures OwnIff(c, o.value.actions)
  {
    var actions := o.value.actions;
    if AllLeave(actions) {
      LeavingOwn(c, actions);
    }
    hide AllLeave;
  }

  lemma OwnAppended(c: Context, xs: seq<Action>, ys: seq<Action>)
    requires OwnIff(c, xs) && OwnIff(c, ys)
    ensures OwnIff(c, xs + ys)
  {
    hide Names;
  }

  lemma RegionsOwn(s: Config, e: Event, c: Context)
    requires s.Valid() && s.root == TradeManagement
    ensures OwnIff(c, Regions(s, e, c).actions)
  {
    hide RegionOne, RegionC, RegionB, Modest, Forgets, OwnIff, Enters;
    var one := RegionOne(s, e, c);
    RegionOneModest(s, e, c);
    if one.Some? {
      if Concludes(s, e, c) { ForgettingOwn(c, one); } else { ModestOwn(s, e, c, one); }
    }
    var first := Then(Outcome([], s, [], false), one);
    LeavingOwn(c, []);
    OwnAppended(c, [], if one.Some? then one.value.actions else []);
    if !first.exclusive {
      var forC := RegionC(first.after, e, c);
      CEnters(first.after, e, c);
      EnteringIsModest(s, CaseC, Initial, e, c, forC);
      if forC.Some? { ModestOwn(s, e, c, forC); OwnAppended(c, first.actions, forC.value.actions); }
      var second := Then(first, forC);
      var forB := RegionB(second.after, e, c);
      BEnters(second.after, e, c);
      EnteringIsModest(s, CaseB, Initial, e, c, forB);
      if forB.Some? { ModestOwn(s, e, c, forB); OwnAppended(c, second.actions, forB.value.actions); }
    }
  }

  lemma QuietOwn(s: Config, c: Context, o: Option<Outcome>)
    requires Quiet(s, c, o) && o.Some?
    ensures OwnIff(c, o.value.actions)
  {
  }

  /** Whatever happens: an order that the machine asks for carries a key of its own strategy exactly if no intention is
    * kept, or the kept one is of that strategy. */
  lemma KeyIsOwnIff(s: Config, e: Event, c: Context)
    requires s.Valid()
    ensures OwnIff(c, Handle(s, e, c).actions)
  {
    GlobalQuiet(s, e, c);
    hide GlobalStep, Regions, Quiet, OwnIff;
    LeavingOwn(c, []);
    if GlobalStep(s, e, c).Some? {
      QuietOwn(s, c, GlobalStep(s, e, c));
    } else if s.root == TradeManagement {
      RegionsOwn(s, Reread(e), c);
      LeavingOwn(c, [FollowUp(ManagementCompleted, c)]);
      OwnAppended(c, Regions(s, Reread(e), c).actions, [FollowUp(ManagementCompleted, c)]);
    }
  }

  // Whole runs: a managed position keeps no foreign key, so a sale always carries its own.

  /** The kept key while a position is managed, and that none is left when one is about to be. */
  predicate KeysKept(s: Config, w: World) {
    var kept := w.runtime.pendingIntent;
    s.root == TradeManagement ==>
      && (s.bPosition == Some(BHolding) || s.bPosition == Some(BTrendHold) ==> kept.None? || SaleKey(kept.value, CaseB))
      && (s.cPosition == Some(CHolding) || s.cPosition == Some(CTrailing) ==> kept.None? || SaleKey(kept.value, CaseC))
      && (s.ownership == Some(NoPosition) && w.runtime.owner.Some? ==>
            if w.order.Some? then w.order.value.filled else kept.None?)
  }

  type Kept = Option<Intent>

  /** The requests put only such keys aside. */
  predicate Keyed(actions: seq<Action>, ok: Kept -> bool) {
    forall i :: 0 <= i < |actions| && actions[i].Patch? ==>
      actions[i].patch.pendingIntent.Keep? || ok(actions[i].patch.pendingIntent.value)
  }

  lemma {:induction false} KeyedExec(w: World, actions: seq<Action>, reply: Reply, ok: Kept -> bool)
    requires Keyed(actions, ok) && ok(w.runtime.pendingIntent)
    ensures var w' := ExecAll(w, actions, reply); w'.Some? ==> ok(w'.value.runtime.pendingIntent)
    decreases |actions|
  {
    if actions != [] && Exec(w, actions[0], reply).Some? {
      KeyedOne(w, actions[0], reply, ok);
      hide Exec;
      KeyedExec(Exec(w, actions[0], reply).value, actions[1..], reply, ok);
    }
  }

  lemma KeyedOne(w: World, a: Action, reply: Reply, ok: Kept -> bool)
    requires a.Patch? ==> a.patch.pendingIntent.Keep? || ok(a.patch.pendingIntent.value)
    requires ok(w.runtime.pendingIntent)
    ensures var w' := Exec(w, a, reply); w'.Some? ==> ok(w'.value.runtime.pendingIntent)
  {
    KeyAfter(w, a, reply);
    hide Exec;
  }

  lemma KeyAfter(w: World, a: Action, reply: Reply)
    ensures var w' := Exec(w, a, reply);
      w'.Some? ==>
        w'.value.runtime.pendingIntent == if a.Patch? then a.patch.pendingIntent.On(w.runtime.pendingIntent)
                                          else w.runtime.pendingIntent
  {
  }

  lemma KeyedAppended(xs: seq<Action>, ys: seq<Action>, ok: Kept -> bool)
    requires Keyed(xs, ok) && Keyed(ys, ok)
    ensures Keyed(xs + ys, ok)
  {
  }

  lemma LeavingKeyed(actions: seq<Action>, ok: Kept -> bool)
    requires AllLeave(actions)
    ensures Keyed(actions, ok)
  {
  }

  lemma ForgettingKeyed(o: Option<Outcome>, ok: Kept -> bool)
    requires Forgets(o) && ok(None)
    ensures Keyed(o.value.actions, ok)
  {
    var actions := o.value.actions;
    assert forall i :: 1 <= i < |actions| ==> actions[i] == actions[1..][i - 1];
  }

  lemma TidyKeyed(actions: seq<Action>, k: nat, ok: Kept -> bool)
    requires Tidies(actions, k) && ok(None)
    ensures Keyed(actions, ok)
  {
    assert forall i :: 0 <= i < k ==> actions[i] == actions[..k][i];
    assert forall i :: k < i < |actions| ==> actions[i] == actions[k + 1..][i - k - 1];
  }

  lemma GlobalKeyed(s: Config, e: Event, c: Context, ok: Kept -> bool)
    requires GlobalStep(s, e, c).Some? && ok(None)
    ensures Keyed(GlobalStep(s, e, c).value.actions, ok)
  {
    GlobalIsGlobal(s, e, c);
    var actions := GlobalStep(s, e, c).value.actions;
    hide GlobalStep, Tidies;
    if AllLeave(actions) {
      LeavingKeyed(actions, ok);
    } else {
      var k: nat :| Tidies(actions, k);
      TidyKeyed(actions, k, ok);
    }
  }

  lemma ExitKeyed(strategy: Strategy, e: Event, c: Context, o: Option<Outcome>, ok: Kept -> bool)
    requires Exits(strategy, e, c, o) && o.Some?
    requires ok(c.runtime.pendingIntent) && forall k: Intent :: SaleKey(k, strategy) ==> ok(Some(k))
    ensures Keyed(o.value.actions, ok)
  {
  }

  lemma PositionKeyed(s: Config, e: Event, c: Context, strategy: Strategy, ok: Kept -> bool)
    requires s.Valid() && s.root == TradeManagement && RegionOne(s, e, c).Some?
    requires s.ownership == Some(if strategy == CaseB then CaseBPosition else CaseCPosition)
    requires ok(None) && ok(c.runtime.pendingIntent) && forall k: Intent :: SaleKey(k, strategy) ==> ok(Some(k))
    ensures Keyed(RegionOne(s, e, c).value.actions, ok)
  {
    var e' := ForPosition(s, e);
    hide BPositionStep, CPositionStep, Exits, Forgets, Keyed;
    if strategy == CaseB { BPositionExits(s, e', c); } else { CPositionExits(s, e', c); }
    if Notices(s, e', c) {
      ForgettingKeyed(RegionOne(s, e, c), ok);
    } else {
      ExitKeyed(strategy, e', c, RegionOne(s, e, c), ok);
    }
  }

  lemma BLeaves(s: Config, e: Event, c: Context)
    requires RegionB(s, e, c).Some? && !HasBuy(RegionB(s, e, c).value.actions)
    ensures AllLeave(RegionB(s, e, c).value.actions)
  {
    BEnters(s, e, c);
    EntryBuys(CaseB, Initial, e, c);
    hide RegionB, EntryOrder;
  }

  lemma ManagedKeyed(s: Config, e: Event, c: Context, strategy: Strategy, ok: Kept -> bool)
    requires s.Valid() && s.root == TradeManagement
    requires s.ownership == Some(if strategy == CaseB then CaseBPosition else CaseCPosition)
    requires s.cSignal == Some(CFinal) && (c.runtime.bPaused || s.bSignal == Some(BFinal))
    requires ok(None) && ok(c.runtime.pendingIntent) && forall k: Intent :: SaleKey(k, strategy) ==> ok(Some(k))
    ensures Keyed(Regions(s, e, c).actions, ok)
  {
    var one := RegionOne(s, e, c);
    if one.Some? { PositionKeyed(s, e, c, strategy, ok); }
    RegionOneOnlySells(s, e, c);
    var first := Then(Outcome([], s, [], false), one);
    hide RegionOne, RegionB, Keyed, AllLeave;
    assert first.actions == if one.Some? then one.value.actions else [];
    LeavingKeyed([], ok) by { assert AllLeave([]) by { NothingLeaves(); } }
    if !first.exclusive {
      assert RegionC(first.after, e, c).None?;
      var b := RegionB(first.after, e, c);
      PausedBuysNothing(first.after, e, c);
      if b.Some? {
        BLeaves(first.after, e, c);
        LeavingKeyed(b.value.actions, ok);
        KeyedAppended(first.actions, b.value.actions, ok);
      }
    }
  }

  lemma NothingLeaves()
    ensures AllLeave([])
  {
  }

  /** What is requested without an order keeps or drops the key. */
  lemma UnorderedKeyed(s: Config, e: Event, c: Context, ok: Kept -> bool)
    requires s.Valid() && s.root == TradeManagement && !HasSubmit(Regions(s, e, c).actions) && ok(None)
    ensures Keyed(Regions(s, e, c).actions, ok)
  {
    hide RegionOne, RegionC, RegionB, Modest, Forgets, Enters, Keyed, AllLeave, HasSubmit;
    var one := RegionOne(s, e, c);
    RegionOneModest(s, e, c);
    var first := Then(Outcome([], s, [], false), one);
    assert first.actions == if one.Some? then one.value.actions else [];
    if first.exclusive {
      UnorderedOne(s, e, c, one, ok);
    } else {
      var forC := RegionC(first.after, e, c);
      var second := Then(first, forC);
      var b := Arbitrated(second.actions, RegionB(second.after, e, c));
      PartsUnordered(first.actions, if forC.Some? then forC.value.actions else []);
      PartsUnordered(second.actions, if b.Some? then b.value.actions else []);
      assert first.actions + [] == first.actions && second.actions + [] == second.actions;
      UnorderedOne(s, e, c, one, ok);
      CEnters(first.after, e, c);
      UnorderedRegion(s, CaseC, e, c, forC, ok);
      BEnters(second.after, e, c);
      NothingEnters(CaseB, e, c);
      UnorderedRegion(s, CaseB, e, c, b, ok);
      KeyedAppended(first.actions, if forC.Some? then forC.value.actions else [], ok);
      KeyedAppended(second.actions, if b.Some? then b.value.actions else [], ok);
    }
  }

  lemma NothingEnters(strategy: Strategy, e: Event, c: Context)
    ensures Enters(strategy, Initial, e, c, None)
  {
  }

  lemma PartsUnordered(xs: seq<Action>, ys: seq<Action>)
    ensures !HasSubmit(xs + ys) ==> !HasSubmit(xs) && !HasSubmit(ys)
  {
    var zs := xs + ys;
    assert forall i :: 0 <= i < |xs| ==> zs[i] == xs[i];
    assert forall i :: 0 <= i < |ys| ==> zs[i + |xs|] == ys[i];
  }

  lemma UnorderedOne(s: Config, e: Event, c: Context, one: Option<Outcome>, ok: Kept -> bool)
    requires if Concludes(s, e, c) then Forgets(one) else Modest(s, e, c, one)
    requires !HasSubmit(if one.Some? then one.value.actions else []) && ok(None)
    ensures Keyed(if one.Some? then one.value.actions else [], ok)
  {
    hide Concludes, HasSubmit, AllLeave;
    if Concludes(s, e, c) {
      ForgettingKeyed(one, ok);
    } else if one.Some? {
      if !AllLeave(one.value.actions) { ModestSubmits(s, e, c, one); }
      LeavingKeyed(one.value.actions, ok);
    }
  }

  lemma UnorderedRegion(s: Config, strategy: Strategy, e: Event, c: Context, o: Option<Outcome>, ok: Kept -> bool)
    requires Enters(strategy, Initial, e, c, o) && !HasSubmit(if o.Some? then o.value.actions else [])
    ensures Keyed(if o.Some? then o.value.actions else [], ok)
  {
    EnteringIsModest(s, strategy, Initial, e, c, o);
    hide HasSubmit, AllLeave, Enters;
    if o.Some? {
      if !AllLeave(o.value.actions) { ModestSubmits(s, e, c, o); }
      LeavingKeyed(o.value.actions, ok);
    }
  }

  lemma {:induction false} UnorderedExec(w: World, actions: seq<Action>, reply: Reply)
    requires !HasSubmit(actions)
    ensures var w' := ExecAll(w, actions, reply);
      w'.Some? ==>
        && (w'.value.order.Some? <==> w.order.Some?)
        && (w.order.Some? ==> w'.value.order.value.filled == w.order.value.filled)
    decreases |actions|
  {
    if actions != [] && Exec(w, actions[0], reply).Some? {
      assert !actions[0].Submit?;
      UnorderedStep(w, actions[0], reply);
      assert forall i :: 0 <= i < |actions[1..]| ==> actions[1..][i] == actions[i + 1];
      hide Exec;
      UnorderedExec(Exec(w, actions[0], reply).value, actions[1..], reply);
    }
  }

  lemma UnorderedStep(w: World, a: Action, reply: Reply)
    requires !a.Submit?
    ensures var w' := Exec(w, a, reply);
      w'.Some? ==>
        && (w'.value.order.Some? <==> w.order.Some?)
        && (w.order.Some? ==> w'.value.order.value.filled == w.order.value.filled)
  {
  }

  // Where a managed position comes from.

  predicate Holds(s: Config, strategy: Strategy) {
    match strategy
    case CaseB => s.bPosition == Some(BHolding) || s.bPosition == Some(BTrendHold)
    case CaseC => s.cPosition == Some(CHolding) || s.cPosition == Some(CTrailing)
  }

  predicate Opens(e: Event, c: Context, strategy: Strategy) {
    && e.kind == (if strategy == CaseB then BOpened else COpened)
    && c.runtime.owner == Some(strategy)
  }

  /** A position is managed because it was before, or because it has just opened; and management ends without a
    * position, or with the scope. */
  predicate Follows(s: Config, e: Event, c: Context, a: Config) {
    && (forall strategy :: Holds(a, strategy) ==> Holds(s, strategy) || Opens(e, c, strategy))
    && (a.ownership == Some(NoPosition) ==>
          || s.ownership == Some(NoPosition) || s.root != TradeManagement || c.runtime.owner.None?
          || s.bPosition == Some(BClosed) || s.cPosition == Some(CRecovered))
  }

  lemma OwnershipFollows(s: Config, e: Event, c: Context)
    requires s.bPosition.None? && s.cPosition.None? && s.ownership == Some(NoPosition)
    ensures OwnershipStep(s, e, c).Some? ==> Follows(s, e, c, OwnershipStep(s, e, c).value.after)
  {
    hide EntryOrder;
  }

  lemma BHoldingAfter(s: Config, e: Event, c: Context)
    ensures var o := BHoldingStep(s, e, c);
      o.Some? ==> o.value.after == s || o.value.after == s.(bPosition := Some(BTrendHold))
    ensures BTrendStep(s, e, c).Some? ==> BTrendStep(s, e, c).value.after == s
  {
    hide ExitOrder, BExitGuard, BExitChoice, TrendWeakened, CanStartExit;
  }

  lemma BPositionFollows(s: Config, e: Event, c: Context)
    requires s.Valid() && s.bPosition.Some?
    ensures BPositionStep(s, e, c).Some? ==> Follows(s, e, c, BPositionStep(s, e, c).value.after)
  {
    BHoldingAfter(s, e, c);
    hide BHoldingStep, BTrendStep, ScopeFor;
  }

  lemma CHoldingAfter(s: Config, e: Event, c: Context)
    ensures var o := CHoldingStep(s, e, c);
      o.Some? ==> o.value.after == s || o.value.after == s.(cPosition := Some(CTrailing))
  {
    CSharedFollows(s, e, c, ToCHolding, 21, 20);
    hide ExitOrder, CHoldingChoice, CTimeExitStep, CRetryStep, CanStartExit;
  }

  lemma CHoldingFollows(s: Config, e: Event, c: Context)
    requires s.Valid() && Holds(s, CaseC)
    ensures CHoldingStep(s, e, c).Some? ==> Follows(s, e, c, CHoldingStep(s, e, c).value.after)
    ensures CTrailingStep(s, e, c).Some? ==> Follows(s, e, c, CTrailingStep(s, e, c).value.after)
  {
    CHoldingAfter(s, e, c);
    CTrailingAfter(s, e, c);
    hide CHoldingStep, CTrailingStep;
  }

  lemma CPositionFollows(s: Config, e: Event, c: Context)
    requires s.Valid() && s.cPosition.Some?
    ensures CPositionStep(s, e, c).Some? ==> Follows(s, e, c, CPositionStep(s, e, c).value.after)
  {
    if Holds(s, CaseC) {
      CHoldingFollows(s, e, c);
    }
    hide CHoldingStep, CTrailingStep, HandsOver;
  }

  lemma RegionOneFollows(s: Config, e: Event, c: Context)
    requires s.Valid() && s.root == TradeManagement
    ensures RegionOne(s, e, c).Some? ==> Follows(s, e, c, RegionOne(s, e, c).value.after)
  {
    var e' := ForPosition(s, e);
    hide BPositionStep, CPositionStep, OwnershipStep;
    if s.bPosition.Some? {
      BPositionFollows(s, e', c);
    } else if s.cPosition.Some? {
      CPositionFollows(s, e', c);
    } else {
      OwnershipFollows(s, e', c);
    }
  }

  lemma RegionsFollow(s: Config, e: Event, c: Context)
    requires s.Valid() && s.root == TradeManagement
    ensures Follows(s, e, c, Regions(s, e, c).after)
  {
    RegionOneFollows(s, e, c);
    RegionOneSound(s, e, c);
    var one := RegionOne(s, e, c);
    var first := Then(Outcome([], s, [], false), one);
    assert Follows(s, e, c, first.after) && first.after.Valid();
    hide RegionOne, RegionC, RegionB, Sound, Opens;
    if !first.exclusive {
      RegionCSound(first.after, e, c);
      var second := Then(first, RegionC(first.after, e, c));
      assert second.after == first.after.(cSignal := second.after.cSignal) && second.after.Valid();
      RegionBSound(second.after, e, c);
    }
  }

  /** A global outcome stays, leaves trade management, or begins it afresh with nothing owned. */
  predicate Departs(s: Config, c: Context, o: Option<Outcome>) {
    o.Some? ==>
      || o.value.after == s || o.value.after.root != TradeManagement
      || (o.value.after == FRESH && (s.root != TradeManagement || c.runtime.owner.None?))
  }

  lemma TouchDeparts(s: Config, e: Event, c: Context)
    ensures Departs(s, c, UpperTouch(s, e, c)) && Departs(s, c, LowerTouch(s, e, c))
  {
    hide ScopeFor;
  }

  lemma StopDeparts(s: Config, e: Event, c: Context)
    ensures Departs(s, c, SaleDeferred(s, e, c)) && Departs(s, c, StopSession(s, c))
    ensures Departs(s, c, ForcedSaleOutcome(s, e, c))
  {
  }

  lemma GlobalDeparts(s: Config, e: Event, c: Context)
    ensures Departs(s, c, GlobalStep(s, e, c))
  {
    TouchDeparts(s, e, c);
    StopDeparts(s, e, c);
    hide SaleDeferred, StopSession, ForcedSaleOutcome, UpperTouch, LowerTouch;
  }

  lemma GlobalFollows(s: Config, e: Event, c: Context)
    requires s.Valid() && GlobalStep(s, e, c).Some?
    ensures Follows(s, e, c, GlobalStep(s, e, c).value.after)
  {
    GlobalDeparts(s, e, c);
    FollowsItself(s, e, c);
    GlobalQuiet(s, e, c);
    hide GlobalStep, Follows, HasSubmit, Filed;
    LeavingFollows(s, e, c, GlobalStep(s, e, c).value.after);
  }

  lemma LeavingFollows(s: Config, e: Event, c: Context, a: Config)
    ensures a.root != TradeManagement && a.Valid() ==> Follows(s, e, c, a)
    ensures a == FRESH && (s.root != TradeManagement || c.runtime.owner.None?) ==> Follows(s, e, c, a)
  {
  }

  lemma HandleFollows(s: Config, e: Event, c: Context)
    requires s.Valid()
    ensures Follows(s, e, c, Handle(s, e, c).after)
  {
    hide GlobalStep, Regions, Follows, Opens;
    assert Follows(s, e, c, s) by { FollowsItself(s, e, c); }
    if GlobalStep(s, e, c).Some? {
      GlobalFollows(s, e, c);
    } else if s.root == TradeManagement {
      RegionsFollow(s, Reread(e), c);
      SameFollows(s, e, c, Regions(s, Reread(e), c).after);
    }
  }

  lemma FollowsItself(s: Config, e: Event, c: Context)
    requires s.Valid()
    ensures Follows(s, e, c, s)
  {
  }

  lemma SameFollows(s: Config, e: Event, c: Context, a: Config)
    ensures Follows(s, Reread(e), c, a) <==> Follows(s, e, c, a)
  {
  }

  lemma HandleKeyed(s: Config, e: Event, c: Context, ok: Kept -> bool)
    requires s.Valid() && ok(None)
    requires s.root == TradeManagement ==> Keyed(Regions(s, Reread(e), c).actions, ok)
    ensures Keyed(Handle(s, e, c).actions, ok)
  {
    if GlobalStep(s, e, c).Some? { GlobalKeyed(s, e, c, ok); }
    assert Keyed([FollowUp(ManagementCompleted, c)], ok);
    assert Keyed([], ok);
    hide GlobalStep, Regions, Keyed;
    if s.root == TradeManagement {
      KeyedAppended(Regions(s, Reread(e), c).actions, [FollowUp(ManagementCompleted, c)], ok);
    }
  }

  /** While a position is managed, the kept key stays one of its own sales. */
  lemma ManagedKeepsKey(s: Config, e: Event, c: Context, w: World, strategy: Strategy, reply: Reply, w': World)
    requires Inv(s, w) && c.runtime == w.runtime && s.root == TradeManagement && Holds(s, strategy)
    requires w.runtime.pendingIntent.None? || SaleKey(w.runtime.pendingIntent.value, strategy)
    requires ExecAll(w, Handle(s, e, c).actions, reply) == Some(w')
    ensures w'.runtime.pendingIntent.None? || SaleKey(w'.runtime.pendingIntent.value, strategy)
  {
    var ok := (kept: Kept) => kept.None? || SaleKey(kept.value, strategy);
    hide Handle, ExecAll, Regions;
    ManagedKeyed(s, Reread(e), c, strategy, ok);
    HandleKeyed(s, e, c, ok);
    KeyedExec(w, Handle(s, e, c).actions, reply, ok);
  }

  /** While a purchase is filling, nothing is ordered. */
  lemma FillingOrdersNothing(s: Config, e: Event, c: Context)
    requires s.Valid() && s.root == TradeManagement && s.ownership == Some(NoPosition) && c.runtime.owner.Some?
    ensures !HasSubmit(Handle(s, e, c).actions)
  {
    EveryMicrostepIsSound(s, e, c);
    hide Handle;
  }

  /** So the key that is dropped with the filled order is not replaced. */
  lemma FillingKeepsNoKey(s: Config, e: Event, c: Context, w: World, reply: Reply, w': World)
    requires Inv(s, w) && c.runtime == w.runtime && KeysKept(s, w)
    requires s.root == TradeManagement && s.ownership == Some(NoPosition) && w.runtime.owner.Some?
    requires ExecAll(w, Handle(s, e, c).actions, reply) == Some(w')
    ensures if w'.order.Some? then w.order.Some? && w'.order.value.filled else w'.runtime.pendingIntent.None?
  {
    var kept := w.runtime.pendingIntent;
    var ok := (k: Kept) => k.None? || k == kept;
    FillingOrdersNothing(s, e, c);
    hide ExecAll, Regions, HasSubmit, Keyed;
    NoGlobalSubmit(s, e, c);
    if GlobalStep(s, e, c).None? {
      UnorderedKeyed(s, Reread(e), c, ok);
    } else {
      GlobalKeyed(s, e, c, ok);
    }
    hide GlobalStep;
    assert Keyed([FollowUp(ManagementCompleted, c)], ok) by { FollowUpKeyed(c, ok); }
    if GlobalStep(s, e, c).None? {
      KeyedAppended(Regions(s, Reread(e), c).actions, [FollowUp(ManagementCompleted, c)], ok);
    }
    hide Handle;
    UnorderedExec(w, Handle(s, e, c).actions, reply);
    KeyedExec(w, Handle(s, e, c).actions, reply, ok);
  }

  lemma FollowUpKeyed(c: Context, ok: Kept -> bool)
    ensures Keyed([FollowUp(ManagementCompleted, c)], ok)
  {
  }

  lemma NoGlobalSubmit(s: Config, e: Event, c: Context)
    requires s.Valid() && s.root == TradeManagement && !HasSubmit(Handle(s, e, c).actions)
    ensures GlobalStep(s, e, c).None? ==> !HasSubmit(Regions(s, Reread(e), c).actions)
  {
    hide GlobalStep, Regions, HasSubmit;
    if GlobalStep(s, e, c).None? {
      PartsUnordered(Regions(s, Reread(e), c).actions, [FollowUp(ManagementCompleted, c)]);
    }
  }

  lemma DeliveryKeepsKeys(s: System, e: Event, m: Market, reply: Reply, s': System)
    requires Inv(s.config, s.world) && KeysKept(s.config, s.world) && Timely(s.config, s.world, e)
    requires DeliverTo(s, e, m, reply) == Some(s')
    ensures KeysKept(s'.config, s'.world)
  {
    var c := View(s.world, m);
    var w, w' := s.world, s'.world;
    NextKeeps(s, Deliver(e, m, reply), s');
    HandleFollows(s.config, e, c);
    RequestsKeepOpen(w, Handle(s.config, e, c).actions, reply);
    assert s.config.Valid() && s'.config.Valid();
    OwnersAreOpen(s, s');
    hide Handle, ExecAll;
    if s'.config.root == TradeManagement {
      if Holds(s'.config, CaseB) && Holds(s.config, CaseB) {
        ManagedKeepsKey(s.config, e, c, w, CaseB, reply, w');
      } else if Holds(s'.config, CaseC) && Holds(s.config, CaseC) {
        ManagedKeepsKey(s.config, e, c, w, CaseC, reply, w');
      } else if s.config.root == TradeManagement && s.config.ownership == Some(NoPosition) && w.runtime.owner.Some? {
        FillingKeepsNoKey(s.config, e, c, w, reply, w');
      }
      hide Inv;
    }
  }

  /** Only where something is held, or has just been, is there an owner. */
  lemma OwnersAreOpen(s: System, s': System)
    requires Inv(s.config, s.world) && Inv(s'.config, s'.world) && s'.world.open == s.world.open
    ensures s'.world.runtime.owner.Some? <==> s.world.runtime.owner.Some?
    ensures s.world.runtime.owner.Some? ==>
              && s.config.root != NotStarted && s.config.root != LowerTouchWatch && s.config.root != LogicTerminated
              && s.config.bPosition != Some(BClosed) && s.config.cPosition != Some(CClosed)
              && s.config.cPosition != Some(CRecovered)
  {
  }

  lemma NextKeepsKeys(s: System, m: Move, s': System)
    requires Inv(s.config, s.world) && KeysKept(s.config, s.world) && MoveTimely(s, m) && Next(s, m) == Some(s')
    ensures KeysKept(s'.config, s'.world)
  {
    if m.Deliver? {
      DeliveryKeepsKeys(s, m.event, m.market, m.reply, s');
    }
  }

  lemma {:induction false} RunsKeepKeys(s: System, moves: seq<Move>)
    requires Inv(s.config, s.world) && KeysKept(s.config, s.world) && Run(s, moves).Some?
    ensures KeysKept(Run(s, moves).value.config, Run(s, moves).value.world)
    decreases |moves|
  {
    if moves != [] {
      var s' := Next(s, moves[0]).value;
      NextKeeps(s, moves[0], s');
      NextKeepsKeys(s, moves[0], s');
      hide Inv, KeysKept, Next, MoveTimely;
      RunsKeepKeys(s', moves[1..]);
    }
  }

  /** In every reachable state, a sale that the machine asks for carries a key of its own strategy. */
  lemma SalesCarryTheirOwnKey(s: System, e: Event, m: Market, i: nat)
    requires Reachable(s)
    requires var actions := Handle(s.config, e, View(s.world, m)).actions;
      i < |actions| && actions[i].Submit? && actions[i].side == Sell
    ensures var a := Handle(s.config, e, View(s.world, m)).actions[i]; Names(a.key, a.strategy)
  {
    var moves :| Run(START, moves) == Some(s);
    RunsKeepKeys(START, moves);
    ReachableInv(s);
    var c := View(s.world, m);
    EveryMicrostepIsSound(s.config, e, c);
    KeyIsOwnIff(s.config, e, c);
    hide Reachable, Run;
    var a := Handle(s.config, e, c).actions[i];
    GlobalQuiet(s.config, e, c);
    assert s.config.root == TradeManagement && Allowed(s.config, c, a);
    hide Handle;
  }
}
