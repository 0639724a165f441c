/** Every timely run of the trading loop keeps its invariant: each transition, fill and settlement does. */
module TradingSafety {
  import opened Bytes
  import opened TradingTypes
  import opened TradingMachine
  import opened TradingLoop

  // The exchange's moves.

  lemma BuyFillKeeps(s: Config, w: World, w': World)
    requires Inv(s, w) && FillBuy(w) == Some(w')
    ensures Inv(s, w')
  {
  }

  lemma SellFillKeeps(s: Config, w: World, w': World)
    requires Inv(s, w) && FillSell(w) == Some(w')
    ensures Inv(s, w')
  {
  }

  lemma SellOutKeeps(s: Config, w: World, pctB: Option<real>, w': World)
    requires Inv(s, w) && FillOut(w, pctB) == Some(w')
    ensures Inv(s, w')
  {
  }

  lemma SettleKeeps(s: Config, w: World, w': World)
    requires Inv(s, w) && SettleOrder(w) == Some(w')
    ensures Inv(s, w')
  {
  }

  lemma ForcedKeeps(s: System, id: nat, session: nat, w': World)
    requires Inv(s.config, s.world) && SubmitForced(s, id, session) == Some(w')
    ensures Inv(s.config, w')
  {
  }

  // Global transitions.

  lemma SaleDeferredKeeps(s: Config, e: Event, c: Context, w: World, reply: Reply, w': World)
    requires Inv(s, w) && c.runtime == w.runtime && c.open == w.open
    requires SaleDeferred(s, e, c).Some?
    requires ExecAll(w, SaleDeferred(s, e, c).value.actions, reply) == Some(w')
    ensures Inv(s, w')
  {
    ExecOne(w, Patch(FORGET_PENDING), reply);
  }

  lemma ExecThree(w: World, a: Action, b: Action, c: Action, reply: Reply)
    ensures ExecAll(w, [a, b, c], reply)
         == var w' := Exec(w, a, reply);
            if w'.None? then None
            else var w'' := Exec(w'.value, b, reply); if w''.None? then None else Exec(w''.value, c, reply)
  {
    assert [a, b, c] == [a] + [b, c];
    ExecMore(w, a, [b, c], reply);
    if Exec(w, a, reply).Some? {
      ExecTwo(Exec(w, a, reply).value, b, c, reply);
    }
  }

  /** The clean-up that ends a scope or a session: the scope and both strategies cleared, then the patch. */
  lemma CleanedUp(w: World, p: RuntimePatch, rest: seq<Action>, reply: Reply)
    requires forall i :: 0 <= i < |rest| ==> rest[i].CancelScheduled? || rest[i].StopRuntime?
    ensures ExecAll(w, [CloseLower, ResetB, ResetC(false), Patch(p)] + rest, reply)
         == ApplyPatch(w.(runtime :=
              ClearC(ClearB(w.runtime.(scope := None, touchCandle := None, touchBbw := None)), false)), p)
  {
    var w0 := w.(runtime := w.runtime.(scope := None, touchCandle := None, touchBbw := None));
    var w1 := w0.(runtime := ClearB(w0.runtime));
    var w2 := w1.(runtime := ClearC(w1.runtime, false));
    assert [CloseLower, ResetB, ResetC(false), Patch(p)] + rest
        == [CloseLower, ResetB, ResetC(false)] + ([Patch(p)] + rest);
    ExecAppend(w, [CloseLower, ResetB, ResetC(false)], [Patch(p)] + rest, reply);
    ExecThree(w, CloseLower, ResetB, ResetC(false), reply);
    ExecMore(w2, Patch(p), rest, reply);
    if ApplyPatch(w2, p).Some? {
      ExecInert(ApplyPatch(w2, p).value, rest, reply);
    }
  }

  predicate Inert(a: Action) {
    a.Queue? || a.Schedule? || a.CancelScheduled? || a.StopRuntime? || a.CancelOrder? || a.ForceSell?
  }

  lemma {:induction false} ExecInert(w: World, actions: seq<Action>, reply: Reply)
    requires forall i :: 0 <= i < |actions| ==> Inert(actions[i])
    ensures ExecAll(w, actions, reply) == Some(w)
    decreases |actions|
  {
    if actions != [] {
      ExecInert(w, actions[1..], reply);
    }
  }

  lemma StopPendingKeeps(s: Config, w: World, order: nat, buying: bool, reply: Reply, w': World)
    requires Inv(s, w)
    requires ExecAll(w, [Patch(NO_CHANGE.(phase := Put(PhaseStopping)))]
                        + (if buying then [CancelOrder(Some(order))] else []) + [ReconcileOrder(order)], reply) == Some(w')
    ensures Inv(Inactive(Stopping), w')
  {
    hide ExecAll;
    var mark := Patch(NO_CHANGE.(phase := Put(PhaseStopping)));
    var cancel := if buying then [CancelOrder(Some(order))] else [];
    assert [mark] + cancel + [ReconcileOrder(order)] == [mark] + (cancel + [ReconcileOrder(order)]);
    ExecMore(w, mark, cancel + [ReconcileOrder(order)], reply);
    var w0 := Exec(w, mark, reply).value;
    ExecAppend(w0, cancel, [ReconcileOrder(order)], reply);
    ExecInert(w0, cancel, reply);
    ExecOne(w0, ReconcileOrder(order), reply);
  }

  lemma StopHoldingKeeps(s: Config, w: World, reply: Reply, w': World)
    requires Inv(s, w)
    requires ExecAll(w, [Patch(NO_CHANGE.(phase := Put(PhaseStopping))), CancelScheduled(StrategyScope), ForceSell(false)],
                     reply) == Some(w')
    ensures Inv(Inactive(Stopping), w')
  {
    hide ExecAll;
    ExecThree(w, Patch(NO_CHANGE.(phase := Put(PhaseStopping))), CancelScheduled(StrategyScope), ForceSell(false), reply);
  }

  lemma StopFlatKeeps(s: Config, w: World, p: RuntimePatch, reply: Reply, w': World)
    requires Inv(s, w) && Flat(w)
    requires p == NO_CHANGE.(
      owner := Put(None), pendingStrategy := Put(None), pendingSide := Put(None), pendingOrder := Put(None),
      pendingAttempt := Put(None), pendingIntent := Put(None), phase := Put(Terminated))
    requires ExecAll(w, [CloseLower, ResetB, ResetC(false), Patch(p), CancelScheduled(SessionScope), StopRuntime], reply)
          == Some(w')
    ensures Inv(Inactive(LogicTerminated), w')
  {
    hide ExecAll;
    var ending := [CancelScheduled(SessionScope), StopRuntime];
    assert [CloseLower, ResetB, ResetC(false), Patch(p), CancelScheduled(SessionScope), StopRuntime]
        == [CloseLower, ResetB, ResetC(false), Patch(p)] + ending;
    CleanedUp(w, p, ending, reply);
  }

  lemma StopKeeps(s: Config, c: Context, w: World, reply: Reply, w': World)
    requires Inv(s, w) && c.runtime == w.runtime && c.open == w.open
    requires StopSession(s, c).Some?
    requires ExecAll(w, StopSession(s, c).value.actions, reply) == Some(w')
    ensures Inv(StopSession(s, c).value.after, w')
  {
    hide ExecAll;
    assert Base(w);
    hide Inv;
    if c.runtime.pendingOrder.Some? {
      StopPendingKeeps(s, w, c.runtime.pendingOrder.value, c.runtime.pendingSide == Some(Buy), reply, w');
    } else if c.open {
      StopHoldingKeeps(s, w, reply, w');
    } else {
      var p := NO_CHANGE.(
        owner := Put(None), pendingStrategy := Put(None), pendingSide := Put(None), pendingOrder := Put(None),
        pendingAttempt := Put(None), pendingIntent := Put(None), phase := Put(Terminated));
      StopFlatKeeps(s, w, p, reply, w');
    }
  }

  lemma ForcedOutcomeKeeps(s: Config, e: Event, c: Context, w: World, reply: Reply, w': World)
    requires Inv(s, w) && c.runtime == w.runtime && c.open == w.open
    requires ForcedSaleOutcome(s, e, c).Some?
    requires ExecAll(w, ForcedSaleOutcome(s, e, c).value.actions, reply) == Some(w')
    ensures Inv(ForcedSaleOutcome(s, e, c).value.after, w')
  {
    var actions := ForcedSaleOutcome(s, e, c).value.actions;
    if e.kind == ForceSellFinished {
      var p := FORGET_PENDING.(owner := Put(None), phase := Put(Terminated));
      assert actions == [CloseLower, ResetB, ResetC(false), Patch(p)] + [CancelScheduled(SessionScope), StopRuntime];
      CleanedUp(w, p, [CancelScheduled(SessionScope), StopRuntime], reply);
    } else {
      ExecOne(w, ForceSell(true), reply);
    }
  }

  lemma UpperKeeps(s: Config, e: Event, c: Context, w: World, reply: Reply, w': World)
    requires Inv(s, w) && c.runtime == w.runtime && c.open == w.open
    requires UpperTouch(s, e, c).Some?
    requires ExecAll(w, UpperTouch(s, e, c).value.actions, reply) == Some(w')
    ensures Inv(UpperTouch(s, e, c).value.after, w')
  {
    var actions := UpperTouch(s, e, c).value.actions;
    if actions != [] {
      var p := FORGET_PENDING.(owner := Put(None));
      assert actions == [CloseLower, ResetB, ResetC(false), Patch(p)] + [CancelScheduled(LowerScope)];
      CleanedUp(w, p, [CancelScheduled(LowerScope)], reply);
    }
  }

  /** Opening a scope: only the scope, the per-scope flags and the owner are written. */
  lemma ScopeOpened(w: World, e: Event, c: Context, reply: Reply, w': World)
    requires w.runtime.Valid() && Aligned(w.runtime, w.order)
    requires ExecAll(w, [OpenScope(e, c), InitialFlags(c), NO_OWNER, Queue(Activate, Some(ScopeFor(e, c)))], reply)
          == Some(w')
    ensures w'.open == w.open && w'.order == w.order
    ensures w'.runtime.Valid() && Aligned(w'.runtime, w'.order)
    ensures w'.runtime.owner.None? && w'.runtime.pendingOrder == w.runtime.pendingOrder
    ensures w'.runtime.exitReason == w.runtime.exitReason && w'.runtime.bExit == w.runtime.bExit
    ensures !w'.runtime.recovered && w'.runtime.cExit.None? && w'.runtime.cExitPctB.None?
  {
    var last := Queue(Activate, Some(ScopeFor(e, c)));
    assert [OpenScope(e, c), InitialFlags(c), NO_OWNER, last] == [OpenScope(e, c)] + [InitialFlags(c), NO_OWNER, last];
    ExecMore(w, OpenScope(e, c), [InitialFlags(c), NO_OWNER, last], reply);
    ExecThree(Exec(w, OpenScope(e, c), reply).value, InitialFlags(c), NO_OWNER, last, reply);
  }

  lemma LowerKeeps(s: Config, e: Event, c: Context, w: World, reply: Reply, w': World)
    requires Inv(s, w) && c.runtime == w.runtime && c.open == w.open && Timely(s, w, e)
    requires e.kind != StopConfirmed
    requires LowerTouch(s, e, c).Some?
    requires ExecAll(w, LowerTouch(s, e, c).value.actions, reply) == Some(w')
    ensures Inv(LowerTouch(s, e, c).value.after, w')
  {
    var opening := [OpenScope(e, c), InitialFlags(c), NO_OWNER, Queue(Activate, Some(ScopeFor(e, c)))];
    if s.root == LowerTouchWatch {
      ScopeOpened(w, e, c, reply, w');
    } else {
      ExecMore(w, CloseLower, opening, reply);
      var w0 := Exec(w, CloseLower, reply).value;
      ScopeOpened(w0, e, c, reply, w');
      assert !s.bPosition.Some? && !s.cPosition.Some? ==> Entering(s, w);
    }
  }

  lemma StartKeeps(s: Config, w: World, reply: Reply, w': World)
    requires Inv(s, w) && s.root == NotStarted
    requires ExecAll(w, [ResetB, ResetC(false), Patch(FORGET_PENDING.(owner := Put(None)))], reply) == Some(w')
    ensures Inv(Inactive(LowerTouchWatch), w')
  {
    ExecThree(w, ResetB, ResetC(false), Patch(FORGET_PENDING.(owner := Put(None))), reply);
  }

  lemma CompletionKeeps(s: Config, w: World, reply: Reply, w': World)
    requires Inv(s, w) && s.Complete() && w.runtime.owner.None?
    requires ExecAll(w, [CloseLower, CancelScheduled(LowerScope)], reply) == Some(w')
    ensures Inv(Inactive(LowerTouchWatch), w')
  {
    ExecTwo(w, CloseLower, CancelScheduled(LowerScope), reply);
  }

  /** Whatever the global transitions select keeps the invariant. */
  lemma GlobalKeeps(s: Config, e: Event, c: Context, w: World, reply: Reply, w': World)
    requires Inv(s, w) && c.runtime == w.runtime && c.open == w.open && Timely(s, w, e)
    requires GlobalStep(s, e, c).Some?
    requires ExecAll(w, GlobalStep(s, e, c).value.actions, reply) == Some(w')
    ensures Inv(GlobalStep(s, e, c).value.after, w')
  {
    hide ExecAll, Inv, Timely, SaleDeferred, StopSession, ForcedSaleOutcome, UpperTouch, LowerTouch;
    if e.kind == SellDeferred {
      assert SaleDeferred(s, e, c).Some? ==> SaleDeferred(s, e, c).value.after == s by {
        DeferralKeepsConfig(s, e, c);
      }
      SaleDeferredKeeps(s, e, c, w, reply, w');
    } else if e.kind == StopConfirmed {
      StopKeeps(s, c, w, reply, w');
    } else if ForcedSaleOutcome(s, e, c).Some? {
      ForcedOutcomeKeeps(s, e, c, w, reply, w');
    } else if BandTouch(s, e, c).Some? {
      if BandTouch(s, e, c) == UpperTouch(s, e, c) {
        UpperKeeps(s, e, c, w, reply, w');
      } else {
        LowerKeeps(s, e, c, w, reply, w');
      }
    } else if s.root == NotStarted {
      StartKeeps(s, w, reply, w');
    } else {
      CompletionKeeps(s, w, reply, w');
    }
  }

  lemma DeferralKeepsConfig(s: Config, e: Event, c: Context)
    requires SaleDeferred(s, e, c).Some?
    ensures SaleDeferred(s, e, c).value.after == s
  {
  }
}
