/** The replay runtime as an object: each step updates it in place or is refused without a trace. */
module ReplayRuntime {
  import opened Bytes
  import opened OrderAggregate
  import opened Replay
  import opened ReplayRuns
  import T = TradingTypes

  /** A conflict among the first fills is a conflict of the whole answer. */
  lemma {:induction false} RefusedStays(known: seq<Fill>, incoming: seq<Fill>, i: nat)
    requires i <= |incoming| && Merge(known, incoming[..i]).None?
    ensures Merge(known, incoming).None?
    decreases |incoming|
  {
    if i == |incoming| {
      assert incoming[..i] == incoming;
    } else {
      assert incoming[..|incoming| - 1][..i] == incoming[..i];
      RefusedStays(known, incoming[..|incoming| - 1], i);
    }
  }

  /** The order aggregate: answers and applied fills change it in place, its intent does not. */
  class LiveOrder {
    const intent: Order
    var exchange: Option<nat>
    var status: Option<Status>
    var fills: seq<Fill>
    var applied: set<FillKey>

    function Value(): Order
      reads this
    {
      intent.(exchange := exchange, status := status, fills := fills, applied := applied)
    }

    constructor (begun: Order)
      ensures Value() == begun
    {
      intent := begun;
      exchange, status, fills, applied := begun.exchange, begun.status, begun.fills, begun.applied;
    }

    /** The fills known after an answer: a copy grows, and only a clean copy replaces the original. */
    method KnownAfter(incoming: seq<Fill>) returns (known: Option<seq<Fill>>)
      ensures known == Merge(fills, incoming)
    {
      var next := fills;
      for i := 0 to |incoming|
        invariant Merge(fills, incoming[..i]) == Some(next)
      {
        var f := incoming[i];
        assert incoming[..i + 1][..i] == incoming[..i];
        if f !in next {
          if Holds(next, f.Key()) {
            RefusedStays(fills, incoming, i + 1);
            return None;
          }
          next := next + [f];
        }
      }
      assert incoming[..|incoming|] == incoming;
      known := Some(next);
    }

    /** Everything is checked before anything is changed. */
    method ApplyResult(r: Result) returns (ok: bool)
      modifies this
      ensures ok <==> OrderAggregate.ApplyResult(old(Value()), r).Some?
      ensures ok ==> Value() == OrderAggregate.ApplyResult(old(Value()), r).value
      ensures !ok ==> Value() == old(Value())
    {
      if !r.Valid() || !Identified(Value(), r) {
        return false;
      }
      var known := KnownAfter(r.fills);
      var next := Resolve(status, r.status);
      if known.None? || next.None? || !Fits(next.value, known.value, intent.submitted) {
        return false;
      }
      if exchange.None? {
        exchange := r.exchange;
      }
      status := next;
      fills := known.value;
      ok := true;
    }

    method MarkFillsApplied(handed: seq<Fill>)
      modifies this`applied
      ensures Value() == MarkApplied(old(Value()), handed)
    {
      applied := applied + Keys(handed);
    }
  }

  /** The replay runtime, its fields updated step by step. */
  class Runtime {
    var order: LiveOrder?
    var mutations: nat
    var position: Position
    var history: seq<Trade>
    var events: seq<nat>
    var owner: Owner
    var phase: Phase
    var allowed: bool
    var recovery: Recovery
    var fault: bool

    function Value(): State
      reads this, order
    {
      State(if order == null then None else Some(order.Value()),
            mutations, position, history, events, owner, phase, allowed, recovery, fault)
    }

    constructor ()
      ensures Value() == Replay.FRESH && order == null
    {
      order, mutations, position, history, events := null, 0, CLOSED, [], [];
      owner, phase, allowed, recovery, fault := NoOwner, Running, true, NoRecovery, false;
    }

    method BeginFrom(begun: Option<Order>) returns (ok: bool)
      modifies this`order
      ensures ok <==> old(order) == null && begun.Some?
      ensures ok ==> order != null && fresh(order) && order.Value() == begun.value
      ensures !ok ==> order == old(order)
    {
      if order != null || begun.None? {
        return false;
      }
      order := new LiveOrder(begun.value);
      ok := true;
    }

    method HandOver() returns (ok: bool)
      modifies this`position, order
      ensures order == old(order)
      ensures ok <==> Fed(old(Value())).Some?
      ensures ok ==> Value() == Fed(old(Value())).value
      ensures !ok ==> Value() == old(Value())
    {
      if order == null {
        return false;
      }
      var o := order.Value();
      var handed := Unapplied(o);
      if handed == [] || o.exchange.None? || !OneFeeAsset(handed) {
        return false;
      }
      var next := Executed(position, o, handed);
      if next.None? {
        return false;
      }
      position := next.value;
      order.MarkFillsApplied(handed);
      ok := true;
    }

    method Commit() returns (ok: bool)
      modifies this`history
      ensures ok <==> Committed(old(Value())).Some?
      ensures ok ==> Value() == Committed(old(Value())).value
      ensures !ok ==> Value() == old(Value())
    {
      if order == null {
        return false;
      }
      var o := order.Value();
      if o.status.None? || !Terminal(o.status.value) || Unapplied(o) != [] {
        return false;
      }
      if o.exchange.None? || o.fills == [] || !OneFeeAsset(o.fills) || o.side == T.Sell {
        return false;
      }
      var next := AddTrade(history, TradeOf(o, o.fills));
      if next.None? {
        return false;
      }
      history := next.value;
      ok := true;
    }

    /** One step: the state the specification gives, or a refusal that leaves everything as it was. */
    method ApplyStep(step: Step, policy: Policy) returns (ok: bool)
      modifies this, order
      ensures ok <==> Apply(old(Value()), step, policy).Some?
      ensures ok ==> Value() == Apply(old(Value()), step, policy).value
      ensures !ok ==> Value() == old(Value())
      ensures order == old(order) || (old(order) == null && order != null && fresh(order))
    {
      ok := false;
      match step {
        case BeginOrder(clientId, side, strategy, requested, submitted, price, exitReason) =>
          ok := BeginFrom(Begun(clientId, side, strategy, requested, submitted, price, exitReason));
        case SubmitOrder =>
          if order != null && allowed && mutations == 0 {
            mutations := mutations + 1;
            ok := true;
          }
        case Answer(result) =>
          if order != null {
            ok := order.ApplyResult(result);
          }
        case ApplyNewFills =>
          ok := HandOver();
        case CommitTrade =>
          ok := Commit();
        case PublishEvent(event) =>
          events := events + [event];
          ok := true;
        case FaultObserved =>
          if !fault {
            owner, phase, allowed, recovery, fault :=
              policy.owner, policy.phase, policy.allowed, policy.recovery, true;
            ok := true;
          }
      }
    }
  }

  /** A whole scenario: accepted exactly if its category is the fault's, every step is, and the fault was observed;
    * and then it ends in the state the trace leads to. */
  method BuildScenarioOutcome(category: Category, f: Fault, trace: seq<Step>) returns (outcome: Option<State>)
    ensures outcome.Some? <==>
      && category == PolicyOf(f).category
      && Run(Replay.FRESH, trace, PolicyOf(f)).Some?
      && Run(Replay.FRESH, trace, PolicyOf(f)).value.fault
    ensures outcome.Some? ==> outcome == Run(Replay.FRESH, trace, PolicyOf(f))
    ensures outcome.Some? ==> Governed(outcome.value, PolicyOf(f)) && outcome.value.mutations <= 1
  {
    var policy := PolicyOf(f);
    if category != policy.category {
      return None;
    }
    var runtime := new Runtime();
    for i := 0 to |trace|
      invariant fresh(runtime) && (runtime.order != null ==> fresh(runtime.order))
      invariant Run(Replay.FRESH, trace[..i], policy) == Some(runtime.Value())
    {
      assert trace[..i + 1][..i] == trace[..i];
      var ok := runtime.ApplyStep(trace[i], policy);
      if !ok {
        RefusedTrace(trace, i + 1, policy);
        return None;
      }
    }
    assert trace[..|trace|] == trace;
    if !runtime.fault {
      return None;
    }
    var n, k := RunKeeps(trace, policy);
    outcome := Some(runtime.Value());
  }

  /** A refused step refuses the whole trace. */
  lemma {:induction false} RefusedTrace(trace: seq<Step>, i: nat, policy: Policy)
    requires i <= |trace| && Run(Replay.FRESH, trace[..i], policy).None?
    ensures Run(Replay.FRESH, trace, policy).None?
    decreases |trace|
  {
    if i == |trace| {
      assert trace[..i] == trace;
    } else {
      assert trace[..|trace| - 1][..i] == trace[..i];
      RefusedTrace(trace[..|trace| - 1], i, policy);
    }
  }
}
