/** What every accepted replay trace promises, and the runtime object that applies one. */
module ReplayRuns {
  import opened Bytes
  import opened OrderAggregate
  import opened Replay
  import T = TradingTypes

  lemma {:induction false} RunKeeps(trace: seq<Step>, policy: Policy) returns (n: nat, k: nat)
    requires Run(FRESH, trace, policy).Some?
    ensures Inv(Run(FRESH, trace, policy).value, n, k) && Governed(Run(FRESH, trace, policy).value, policy)
  {
    if trace == [] {
      n, k := 0, 0;
    } else {
      n, k := RunKeeps(trace[..|trace| - 1], policy);
      var s := Run(FRESH, trace[..|trace| - 1], policy).value;
      n, k := StepKeeps(s, trace[|trace| - 1], policy, n, k);
    }
  }

  lemma {:induction false} RunAppend(s: State, pre: seq<Step>, post: seq<Step>, policy: Policy)
    ensures Run(s, pre + post, policy)
         == var m := Run(s, pre, policy); if m.None? then None else Run(m.value, post, policy)
    decreases |post|
  {
    if post == [] {
      assert pre + post == pre;
    } else {
      RunAppend(s, pre, post[..|post| - 1], policy);
      assert (pre + post)[..|pre + post| - 1] == pre + post[..|post| - 1];
    }
  }

  // Conservation.

  /** The fills handed to the position, in the order they were learnt. */
  function Handed(o: Order): seq<Fill> {
    Inside(o.fills, o.applied)
  }

  function Inside(fills: seq<Fill>, applied: set<FillKey>): seq<Fill> {
    if fills == [] then []
    else
      var before := Inside(fills[..|fills| - 1], applied);
      var f := fills[|fills| - 1];
      if f.Key() in applied then before + [f] else before
  }

  lemma {:induction false} InsideAll(fills: seq<Fill>, keys: set<FillKey>)
    requires forall i :: 0 <= i < |fills| ==> fills[i].Key() in keys
    ensures Inside(fills, keys) == fills
  {
    if fills != [] {
      InsideAll(fills[..|fills| - 1], keys);
    }
  }

  lemma {:induction false} InsidePrefix(fills: seq<Fill>, n: nat)
    requires Distinct(fills) && n <= |fills|
    ensures Inside(fills, Keys(fills[..n])) == fills[..n]
    decreases |fills|
  {
    if |fills| == n {
      assert fills[..n] == fills;
      InsideAll(fills, Keys(fills[..n]));
    } else {
      var before := fills[..|fills| - 1];
      assert before[..n] == fills[..n];
      InsidePrefix(before, n);
      assert fills[|fills| - 1].Key() !in Keys(fills[..n]);
    }
  }

  lemma HandedIsPrefix(o: Order, n: nat)
    requires Kept(o, n)
    ensures Handed(o) == o.fills[..n]
  {
    InsidePrefix(o.fills, n);
  }

  /** A position and the fills behind it. */
  ghost predicate Conserves(p: Position, o: Order, f: seq<Fill>) {
    if f == [] then p == CLOSED
    else
      && o.side == T.Buy
      && p == Position(Some(o.strategy), Gross(f) - BaseFee(f), Amount(f) + QuoteFee(f), Gross(f), Amount(f))
  }

  lemma InvConserves(s: State, n: nat, k: nat)
    requires Inv(s, n, k) && s.order.Some?
    ensures var o := s.order.value; var f := Handed(o);
      Distinct(f) && (f != [] ==> Gross(f) <= o.submitted) && Conserves(s.position, o, f)
  {
    var o := s.order.value;
    HandedIsPrefix(o, n);
    GrossOfPrefix(o.fills, n);
    hide Gross, Amount, BaseFee, QuoteFee, Handed, Inside;
  }

  /** The position always equals the sum of the fills handed to it, each counted once, however the answers that
    * reported them overlapped and however they were batched. A sale never reaches the position. */
  lemma FillsAreConserved(trace: seq<Step>, policy: Policy)
    requires Run(FRESH, trace, policy).Some? && Run(FRESH, trace, policy).value.order.Some?
    ensures var s := Run(FRESH, trace, policy).value; var o := s.order.value; var f := Handed(o);
      Distinct(f) && (f != [] ==> Gross(f) <= o.submitted) && Conserves(s.position, o, f)
  {
    var n, k := RunKeeps(trace, policy);
    InvConserves(Run(FRESH, trace, policy).value, n, k);
  }

  lemma GrossOfPrefix(fills: seq<Fill>, n: nat)
    requires n <= |fills| && forall i :: 0 <= i < |fills| ==> fills[i].Valid()
    ensures Gross(fills[..n]) <= Gross(fills)
  {
    assert fills == fills[..n] + fills[n..];
    SumsAppend(fills[..n], fills[n..]);
    GrossPositive(fills[n..]);
  }

  predicate Reported(trace: seq<Step>, f: Fill) {
    exists i :: 0 <= i < |trace| && trace[i].Answer? && f in trace[i].result.fills
  }

  lemma ReportedMore(trace: seq<Step>, f: Fill)
    requires trace != []
    ensures Reported(trace, f) <==>
      Reported(trace[..|trace| - 1], f) || (trace[|trace| - 1].Answer? && f in trace[|trace| - 1].result.fills)
  {
    var before := trace[..|trace| - 1];
    if Reported(before, f) {
      var i :| 0 <= i < |before| && before[i].Answer? && f in before[i].result.fills;
      assert trace[i] == before[i];
    }
    if Reported(trace, f) {
      var i :| 0 <= i < |trace| && trace[i].Answer? && f in trace[i].result.fills;
      assert i < |before| ==> before[i] == trace[i];
    }
  }

  function KnownFills(s: State): seq<Fill> {
    if s.order.None? then [] else s.order.value.fills
  }

  /** The order knows exactly the fills that were ever reported, duplicates and stale answers notwithstanding. */
  lemma {:induction false} KnowsExactlyTheReported(trace: seq<Step>, policy: Policy, f: Fill)
    requires Run(FRESH, trace, policy).Some?
    ensures f in KnownFills(Run(FRESH, trace, policy).value) <==> Reported(trace, f)
  {
    if trace != [] {
      var before := trace[..|trace| - 1];
      var step := trace[|trace| - 1];
      var s := Run(FRESH, before, policy).value;
      KnowsExactlyTheReported(before, policy, f);
      ReportedMore(trace, f);
      hide Run, Reported;
      var n, k := RunKeepsThere(before, policy, s);
      StepKnows(s, step, policy, n, k, f);
    }
  }

  lemma RunKeepsThere(trace: seq<Step>, policy: Policy, s: State) returns (n: nat, k: nat)
    requires Run(FRESH, trace, policy) == Some(s)
    ensures Inv(s, n, k)
  {
    n, k := RunKeeps(trace, policy);
  }

  lemma StepKnows(s: State, step: Step, policy: Policy, n: nat, k: nat, f: Fill)
    requires Inv(s, n, k) && Apply(s, step, policy).Some?
    ensures f in KnownFills(Apply(s, step, policy).value) <==>
      f in KnownFills(s) || (step.Answer? && f in step.result.fills)
  {
    if step.Answer? {
      ResultKeeps(s.order.value, n, step.result);
    }
  }

  // The order of arrival.

  function Without(fills: seq<Fill>, j: nat): seq<Fill>
    requires j < |fills|
  {
    fills[..j] + fills[j + 1..]
  }

  lemma SumsWithout(fills: seq<Fill>, j: nat)
    requires j < |fills|
    ensures Gross(fills) == Gross(Without(fills, j)) + Gross([fills[j]])
    ensures Amount(fills) == Amount(Without(fills, j)) + Amount([fills[j]])
    ensures BaseFee(fills) == BaseFee(Without(fills, j)) + BaseFee([fills[j]])
    ensures QuoteFee(fills) == QuoteFee(Without(fills, j)) + QuoteFee([fills[j]])
  {
    hide Gross, Amount, BaseFee, QuoteFee;
    assert fills == fills[..j] + ([fills[j]] + fills[j + 1..]);
    SumsAppend(fills[..j], [fills[j]] + fills[j + 1..]);
    SumsAppend([fills[j]], fills[j + 1..]);
    SumsAppend(fills[..j], fills[j + 1..]);
  }

  /** Two lists of the same fills, in any two orders, sum to the same. */
  lemma {:induction false} SameFillsSameSums(xs: seq<Fill>, ys: seq<Fill>)
    requires Distinct(xs) && Distinct(ys)
    requires forall f :: f in xs <==> f in ys
    ensures Gross(xs) == Gross(ys) && Amount(xs) == Amount(ys)
    ensures BaseFee(xs) == BaseFee(ys) && QuoteFee(xs) == QuoteFee(ys)
    decreases |xs|
  {
    if xs == [] {
      assert forall i :: 0 <= i < |ys| ==> ys[i] in xs;
    } else {
      var last := |xs| - 1;
      var f := xs[last];
      assert f in ys;
      var j :| 0 <= j < |ys| && ys[j] == f;
      var rest := Without(ys, j);
      var before := xs[..last];
      RemovedOnce(ys, j);
      assert Without(xs, last) == before;
      RemovedOnce(xs, last);
      SameFillsSameSums(before, rest);
      SumsWithout(ys, j);
      SumsWithout(xs, last);
    }
  }

  lemma RemovedOnce(fills: seq<Fill>, j: nat)
    requires Distinct(fills) && j < |fills|
    ensures Distinct(Without(fills, j))
    ensures forall f :: f in Without(fills, j) <==> f in fills && f != fills[j]
  {
    var rest := Without(fills, j);
    forall i | 0 <= i < |rest|
      ensures rest[i] == fills[if i < j then i else i + 1]
    {
    }
    forall f | f in fills && f != fills[j]
      ensures f in rest
    {
      var i :| 0 <= i < |fills| && fills[i] == f;
      assert rest[if i < j then i else i - 1] == f;
    }
  }

  /** Two accepted traces of the same strategy that report the same fills, and hand all of them over, end with the
    * same position: neither the order of arrival, nor repetition, nor batching shows. */
  lemma ArrivalOrderDoesNotShow(first: seq<Step>, second: seq<Step>, policy: Policy)
    requires Run(FRESH, first, policy).Some? && Run(FRESH, second, policy).Some?
    requires Run(FRESH, first, policy).value.order.Some? && Run(FRESH, second, policy).value.order.Some?
    requires var a := Run(FRESH, first, policy).value.order.value; var b := Run(FRESH, second, policy).value.order.value;
      a.strategy == b.strategy && Unapplied(a) == [] && Unapplied(b) == []
    requires forall f :: Reported(first, f) <==> Reported(second, f)
    ensures Run(FRESH, first, policy).value.position == Run(FRESH, second, policy).value.position
  {
    var a := Run(FRESH, first, policy).value.order.value;
    var b := Run(FRESH, second, policy).value.order.value;
    forall f
      ensures f in a.fills <==> f in b.fills
    {
      KnowsExactlyTheReported(first, policy, f);
      KnowsExactlyTheReported(second, policy, f);
    }
    var n, k := RunKeeps(first, policy);
    var n', k' := RunKeeps(second, policy);
    hide Run, Reported;
    SameFillsSamePosition(Run(FRESH, first, policy).value, n, k, Run(FRESH, second, policy).value, n', k');
  }

  lemma SameFillsSamePosition(s: State, n: nat, k: nat, s': State, n': nat, k': nat)
    requires Inv(s, n, k) && Inv(s', n', k') && s.order.Some? && s'.order.Some?
    requires s.order.value.strategy == s'.order.value.strategy
    requires Unapplied(s.order.value) == [] && Unapplied(s'.order.value) == []
    requires forall f :: f in s.order.value.fills <==> f in s'.order.value.fills
    ensures s.position == s'.position
  {
    var a, b := s.order.value, s'.order.value;
    UnappliedIsTheRest(a, n);
    UnappliedIsTheRest(b, n');
    assert a.fills[..n] == a.fills && b.fills[..n'] == b.fills;
    SameFillsSameSums(a.fills, b.fills);
    assert forall i :: 0 <= i < |a.fills| ==> a.fills[i] in b.fills;
    assert forall i :: 0 <= i < |b.fills| ==> b.fills[i] in a.fills;
    hide Gross, Amount, BaseFee, QuoteFee, Unapplied;
  }

  // The committed trade.

  /** At the moment of commitment the trade carries exactly what the position has received. */
  lemma CommittedTradeMatches(trace: seq<Step>, policy: Policy)
    requires Run(FRESH, trace + [CommitTrade], policy).Some?
    ensures var s := Run(FRESH, trace + [CommitTrade], policy).value;
      && |s.history| == 1 && s.order.Some? && s.order.value.side == T.Buy && Unapplied(s.order.value) == []
      && var t := s.history[0];
         && t.quantity == s.position.entryQuantity && t.amount == s.position.entryAmount
         && t.quantity - t.baseFee == s.position.quantity && t.amount + t.quoteFee == s.position.cost
  {
    var whole := trace + [CommitTrade];
    assert whole[..|whole| - 1] == trace;
    var s := Run(FRESH, trace, policy).value;
    var n, k := RunKeeps(trace, policy);
    CommitKeeps(s, n, k);
    UnappliedIsTheRest(s.order.value, n);
    assert s.order.value.fills[..n] == s.order.value.fills;
  }

  predicate HandsOver(post: seq<Step>) {
    exists i :: 0 <= i < |post| && post[i] == ApplyNewFills
  }

  lemma HandsOverMore(post: seq<Step>)
    requires post != []
    ensures HandsOver(post) <==> HandsOver(post[..|post| - 1]) || post[|post| - 1] == ApplyNewFills
  {
    var before := post[..|post| - 1];
    if HandsOver(before) {
      var i :| 0 <= i < |before| && before[i] == ApplyNewFills;
      assert post[i] == ApplyNewFills;
    }
    if HandsOver(post) {
      var i :| 0 <= i < |post| && post[i] == ApplyNewFills;
      assert i < |before| ==> before[i] == ApplyNewFills;
    }
  }

  /** After a commitment the count of fills handed over grows exactly when the rest of the trace hands over. */
  lemma {:induction false} AfterCommitment(s: State, n: nat, post: seq<Step>, policy: Policy) returns (n': nat)
    requires Inv(s, n, n) && n > 0 && Run(s, post, policy).Some?
    ensures Inv(Run(s, post, policy).value, n', n) && n' >= n
    ensures n' == n <==> !HandsOver(post)
    ensures Run(s, post, policy).value.history == s.history && Run(s, post, policy).value.order.Some?
    decreases |post|
  {
    n' := n;
    if post != [] {
      var before := post[..|post| - 1];
      var step := post[|post| - 1];
      var m := Run(s, before, policy).value;
      n' := AfterCommitment(s, n, before, policy);
      HandsOverMore(post);
      hide Run, HandsOver;
      n' := OneStepLater(m, n', n, step, policy);
    }
  }

  lemma OneStepLater(s: State, n: nat, k: nat, step: Step, policy: Policy) returns (n': nat)
    requires Inv(s, n, k) && k > 0 && Apply(s, step, policy).Some?
    ensures Inv(Apply(s, step, policy).value, n', k) && n' >= n
    ensures step == ApplyNewFills ==> n' > n
    ensures step != ApplyNewFills ==> n' == n
    ensures Apply(s, step, policy).value.history == s.history && Apply(s, step, policy).value.order.Some?
  {
    KeptParts(s.order.value, n);
    n' := n;
    match step
    case Answer(r) => AnswerKeeps(s, r, policy, n, k);
    case ApplyNewFills =>
      UnappliedIsTheRest(s.order.value, n);
      FeedKeeps(s, n, k);
      n' := |s.order.value.fills|;
    case CommitTrade => CommitKeeps(s, n, k);
    case _ =>
  }

  /** Later in the trace the trade still equals what the position received exactly if no fill was handed over after
    * the commitment; the history keeps the trade of that moment. */
  lemma TradeStaysExactIffNothingFollows(pre: seq<Step>, post: seq<Step>, policy: Policy)
    requires Run(FRESH, pre + [CommitTrade] + post, policy).Some?
    ensures var s := Run(FRESH, pre + [CommitTrade] + post, policy).value;
      |s.history| == 1 && (s.history[0].quantity == s.position.entryQuantity <==> !HandsOver(post))
  {
    RunAppend(FRESH, pre + [CommitTrade], post, policy);
    var m := Run(FRESH, pre + [CommitTrade], policy).value;
    assert (pre + [CommitTrade])[..|pre + [CommitTrade]| - 1] == pre;
    var before := Run(FRESH, pre, policy).value;
    var n, k := RunKeeps(pre, policy);
    CommitKeeps(before, n, k);
    assert m == Committed(before).value;
    var n' := AfterCommitment(m, n, post, policy);
    hide Run, Committed, Inv;
    ExactIffNothingSince(Run(m, post, policy).value, n', n);
  }

  lemma ExactIffNothingSince(s: State, n: nat, k: nat)
    requires Inv(s, n, k) && k > 0 && s.order.Some?
    ensures |s.history| == 1 && (s.history[0].quantity == s.position.entryQuantity <==> n == k)
  {
    var o := s.order.value;
    KeptParts(o, n);
    assert s.history == [TradeOf(o, o.fills[..k])];
    if n > k {
      assert o.fills[..n] == o.fills[..k] + o.fills[k..n];
      SumsAppend(o.fills[..k], o.fills[k..n]);
      GrossPositive(o.fills[k..n]);
    }
  }

  /** An order that was completely filled when its trade was committed has no later fill to hand over. */
  lemma FilledTradeIsFinal(pre: seq<Step>, post: seq<Step>, policy: Policy)
    requires Run(FRESH, pre + [CommitTrade] + post, policy).Some?
    requires Run(FRESH, pre, policy).Some? && Run(FRESH, pre, policy).value.order.Some?
    requires Run(FRESH, pre, policy).value.order.value.status == Some(Filled)
    ensures var s := Run(FRESH, pre + [CommitTrade] + post, policy).value;
      |s.history| == 1 && s.history[0].quantity == s.position.entryQuantity
  {
    RunAppend(FRESH, pre + [CommitTrade], post, policy);
    var m := Run(FRESH, pre + [CommitTrade], policy).value;
    assert (pre + [CommitTrade])[..|pre + [CommitTrade]| - 1] == pre;
    var n, k := RunKeeps(pre, policy);
    CommitKeeps(Run(FRESH, pre, policy).value, n, k);
    StaysFilled(m, n, post, policy);
    TradeStaysExactIffNothingFollows(pre, post, policy);
  }

  lemma {:induction false} StaysFilled(s: State, n: nat, post: seq<Step>, policy: Policy)
    requires Inv(s, n, n) && s.order.Some? && s.order.value.status == Some(Filled) && n == |s.order.value.fills|
    requires Run(s, post, policy).Some? && n > 0
    ensures !HandsOver(post)
    ensures Inv(Run(s, post, policy).value, n, n)
    ensures var o := Run(s, post, policy).value.order;
      o.Some? && o.value.status == Some(Filled) && n == |o.value.fills|
    decreases |post|
  {
    if post != [] {
      var before := post[..|post| - 1];
      var step := post[|post| - 1];
      var m := Run(s, before, policy).value;
      StaysFilled(s, n, before, policy);
      HandsOverMore(post);
      assert Run(s, post, policy) == Apply(m, step, policy);
      hide Run, HandsOver;
      UnappliedIsTheRest(m.order.value, n);
      if step.Answer? {
        FilledTakesNoMore(m.order.value, n, step.result);
      }
      var n' := OneStepLater(m, n, n, step, policy);
    }
  }

  const BEGIN := BeginOrder(7, T.Buy, T.CaseB, 3.0, 3.0, 10.0, None)

  /** The last answer of a cancelled order, with one more fill each time it is heard. */
  function CanceledWith(f: Fill): Step {
    Answer(Result(7, Canceled, Some(1), [f]))
  }

  lemma UntilCommitment(f: Fill, policy: Policy) returns (s0: State, s1: State, s2: State, s3: State)
    requires f == Fill(1, 1, 1.0, 10.0, 0.0, Usdt, 0.0, 0)
    ensures Apply(FRESH, BEGIN, policy) == Some(s0) && Apply(s0, CanceledWith(f), policy) == Some(s1)
    ensures Apply(s1, ApplyNewFills, policy) == Some(s2) && Apply(s2, CommitTrade, policy) == Some(s3)
    ensures s3.order == Some(Order(7, T.Buy, T.CaseB, 3.0, 3.0, None, Some(1), Some(Canceled), [f], {f.Key()}))
    ensures s3.position == Position(Some(T.CaseB), 1.0, 10.0, 1.0, 10.0) && !s3.fault
    ensures |s3.history| == 1 && s3.history[0].quantity == 1.0
  {
    var o0 := Order(7, T.Buy, T.CaseB, 3.0, 3.0, None, None, None, [], {});
    var o1 := o0.(exchange := Some(1), status := Some(Canceled), fills := [f]);
    OneFillTaken(o0, f);
    hide ApplyResult, Fed, Committed;
    s0 := FRESH.(order := Some(o0));
    s1 := s0.(order := Some(o1));
    FirstFillHandedOver(s1, o1, f);
    s2 := Fed(s1).value;
    FirstFillCommitted(s2, s2.order.value, f);
    s3 := Committed(s2).value;
  }

  lemma AfterLateFill(s3: State, f: Fill, g: Fill, policy: Policy) returns (s4: State, s5: State, s6: State)
    requires f == Fill(1, 1, 1.0, 10.0, 0.0, Usdt, 0.0, 0) && g == f.(tradeId := 2)
    requires s3.order == Some(Order(7, T.Buy, T.CaseB, 3.0, 3.0, None, Some(1), Some(Canceled), [f], {f.Key()}))
    requires s3.position == Position(Some(T.CaseB), 1.0, 10.0, 1.0, 10.0) && !s3.fault
    ensures Apply(s3, CanceledWith(g), policy) == Some(s4) && Apply(s4, ApplyNewFills, policy) == Some(s5)
    ensures Apply(s5, FaultObserved, policy) == Some(s6)
    ensures s6.history == s3.history && s6.position.quantity == 2.0
  {
    var o := s3.order.value;
    SecondFillTaken(o, f, g);
    hide ApplyResult, Fed, Committed;
    s4 := s3.(order := Some(o.(fills := [f, g])));
    LateFillHandedOver(s4, o.(fills := [f, g]), f, g);
    s5 := Fed(s4).value;
    s6 := Apply(s5, FaultObserved, policy).value;
  }

  function LateFillTrace(f: Fill, g: Fill): seq<Step> {
    [] + [BEGIN] + [CanceledWith(f)] + [ApplyNewFills] + [CommitTrade]
       + [CanceledWith(g)] + [ApplyNewFills] + [FaultObserved]
  }

  /** Without that, it does: a cancelled order may report another fill after its trade stands. */
  lemma LateFillDrifts(f: Fill, g: Fill)
    requires f == Fill(1, 1, 1.0, 10.0, 0.0, Usdt, 0.0, 0) && g == f.(tradeId := 2)
    ensures var s := Run(FRESH, LateFillTrace(f, g), PolicyOf(WsOutOfOrderEvent));
      && s.Some? && |s.value.history| == 1
      && s.value.history[0].quantity == 1.0 && s.value.position.quantity == 2.0
  {
    var policy := PolicyOf(WsOutOfOrderEvent);
    var s0, s1, s2, s3 := UntilCommitment(f, policy);
    var s4, s5, s6 := AfterLateFill(s3, f, g, policy);
    assert Run(FRESH, [], policy) == Some(FRESH);
    hide Apply, Run, PolicyOf, CanceledWith;
    RunOn([], BEGIN, policy, FRESH, s0);
    RunOn([] + [BEGIN], CanceledWith(f), policy, s0, s1);
    RunOn([] + [BEGIN] + [CanceledWith(f)], ApplyNewFills, policy, s1, s2);
    var until := [] + [BEGIN] + [CanceledWith(f)] + [ApplyNewFills];
    RunOn(until, CommitTrade, policy, s2, s3);
    RunOn(until + [CommitTrade], CanceledWith(g), policy, s3, s4);
    RunOn(until + [CommitTrade] + [CanceledWith(g)], ApplyNewFills, policy, s4, s5);
    RunOn(until + [CommitTrade] + [CanceledWith(g)] + [ApplyNewFills], FaultObserved, policy, s5, s6);
  }

  lemma OneKey(f: Fill)
    ensures Keys([f]) == {f.Key()}
  {
    assert [f][0] == f;
  }

  lemma OneFillLeft(f: Fill)
    ensures Outside([f], {}) == [f] && Keys([f]) == {f.Key()} && Outside([f], {f.Key()}) == []
  {
    OneKey(f);
    hide Keys;
    assert [f][..0] == [] && [] + [f] == [f];
  }

  lemma SecondFillLeft(f: Fill, g: Fill)
    requires f.Key() != g.Key()
    ensures Outside([f, g], {f.Key()}) == [g]
  {
    OneFillLeft(f);
    OutsidePrefix([f, g], 1);
    assert [f, g][..1] == [f] && [f, g][1..] == [g];
  }

  lemma FirstFillHandedOver(s: State, o: Order, f: Fill)
    requires s.order == Some(o) && o.side == T.Buy && o.exchange.Some? && o.fills == [f] && o.applied == {}
    requires s.position == CLOSED && f == Fill(1, 1, 1.0, 10.0, 0.0, Usdt, 0.0, 0)
    ensures Fed(s) == Some(s.(order := Some(o.(applied := {f.Key()})),
                              position := Position(Some(o.strategy), 1.0, 10.0, 1.0, 10.0)))
  {
    OneFillSums(f);
    OneFillLeft(f);
    hide Gross, Amount, BaseFee, QuoteFee, Outside, Keys;
    assert {} + {f.Key()} == {f.Key()};
    assert MarkApplied(o, [f]) == o.(applied := {f.Key()});
    assert Executed(CLOSED, o, [f]) == Some(Position(Some(o.strategy), 1.0, 10.0, 1.0, 10.0));
  }

  lemma FirstFillCommitted(s: State, o: Order, f: Fill)
    requires s.order == Some(o) && o.side == T.Buy && o.exchange.Some? && o.fills == [f] && o.applied == {f.Key()}
    requires o.status == Some(Canceled) && s.history == [] && f == Fill(1, 1, 1.0, 10.0, 0.0, Usdt, 0.0, 0)
    ensures Committed(s) == Some(s.(history :=
      [Trade(o.exchange.value, o.clientId, o.strategy, o.requested, 1.0, 10.0, 0.0, 0.0, Usdt)]))
  {
    OneFillSums(f);
    OneFillLeft(f);
    hide Gross, Amount, BaseFee, QuoteFee, Outside, Keys;
    assert Unapplied(o) == [];
    var t := TradeOf(o, o.fills);
    assert t == Trade(o.exchange.value, o.clientId, o.strategy, o.requested, 1.0, 10.0, 0.0, 0.0, Usdt);
    assert s.history + [t] == [t];
    assert AddTrade(s.history, t) == Some([t]);
    assert OneFeeAsset(o.fills);
    assert Committed(s) == Some(s.(history := [t]));
  }

  lemma LateFillHandedOver(s: State, o: Order, f: Fill, g: Fill)
    requires s.order == Some(o) && o.side == T.Buy && o.exchange.Some? && o.fills == [f, g] && o.applied == {f.Key()}
    requires f == Fill(1, 1, 1.0, 10.0, 0.0, Usdt, 0.0, 0) && g == f.(tradeId := 2)
    requires s.position == Position(Some(o.strategy), 1.0, 10.0, 1.0, 10.0)
    ensures Fed(s).Some? && Fed(s).value.position.quantity == 2.0
    ensures Fed(s).value == s.(order := Fed(s).value.order, position := Fed(s).value.position)
  {
    OneFillSums(g);
    SecondFillLeft(f, g);
    hide Gross, Amount, BaseFee, QuoteFee, Outside, Keys;
  }

  lemma OneFillSums(f: Fill)
    ensures Gross([f]) == f.quantity && Amount([f]) == f.quantity * f.price
    ensures BaseFee([f]) == (if f.feeAsset == Eth then f.fee else 0.0)
    ensures QuoteFee([f]) == (if f.feeAsset == Eth then 0.0 else f.feeQuote)
  {
    assert [f][..0] == [];
  }

  lemma OneFillTaken(o: Order, f: Fill)
    requires o.fills == [] && o.status.None? && o.exchange.None? && o.clientId == 7 && f.exchange == 1
    requires f.Valid() && f.quantity <= o.submitted
    ensures ApplyResult(o, Result(7, Canceled, Some(1), [f]))
         == Some(o.(exchange := Some(1), status := Some(Canceled), fills := [f]))
  {
    assert [f][..0] == [];
    OneFillSums(f);
    assert [] + [f] == [f];
    assert Merge([], [f]) == Learn([], f);
  }

  lemma SecondFillTaken(o: Order, f: Fill, g: Fill)
    requires o.fills == [f] && o.status == Some(Canceled) && o.exchange == Some(1) && o.clientId == 7
    requires f.Valid() && g.Valid() && g.exchange == 1 && f.Key() != g.Key() && f.feeAsset == g.feeAsset
    requires f.quantity + g.quantity <= o.submitted
    ensures ApplyResult(o, Result(7, Canceled, Some(1), [g])) == Some(o.(fills := [f, g]))
  {
    assert [g][..0] == [];
    OneFillSums(f);
    assert [f, g][..1] == [f];
    assert [f] + [g] == [f, g];
    assert Merge([f], [g]) == Learn([f], g);
  }

  /** One more accepted step. */
  lemma RunOn(trace: seq<Step>, step: Step, policy: Policy, s: State, s': State)
    requires Run(FRESH, trace, policy) == Some(s) && Apply(s, step, policy) == Some(s')
    ensures Run(FRESH, trace + [step], policy) == Some(s')
  {
    assert (trace + [step])[..|trace + [step]| - 1] == trace;
  }

  // Submission and the fault.

  function Count(trace: seq<Step>, step: Step): nat {
    if trace == [] then 0
    else Count(trace[..|trace| - 1], step) + if trace[|trace| - 1] == step then 1 else 0
  }

  /** At most one order is sent, at most one fault observed, and the counters say so. */
  lemma {:induction false} OneSubmissionOneFault(trace: seq<Step>, policy: Policy)
    requires Run(FRESH, trace, policy).Some?
    ensures var s := Run(FRESH, trace, policy).value;
      && Count(trace, SubmitOrder) == s.mutations <= 1
      && Count(trace, FaultObserved) == if s.fault then 1 else 0
  {
    if trace != [] {
      OneSubmissionOneFault(trace[..|trace| - 1], policy);
      var s := Run(FRESH, trace[..|trace| - 1], policy).value;
      StepCounts(s, trace[|trace| - 1], policy);
    }
  }

  lemma StepCounts(s: State, step: Step, policy: Policy)
    requires Apply(s, step, policy).Some?
    ensures var s' := Apply(s, step, policy).value;
      && s'.mutations == s.mutations + (if step == SubmitOrder then 1 else 0)
      && (step == SubmitOrder ==> s.mutations == 0 && s.allowed)
      && (s'.fault <==> s.fault || step == FaultObserved) && (step == FaultObserved ==> !s.fault)
      && (step != FaultObserved ==> s'.allowed == s.allowed)
      && (s.order.Some? ==> s'.order.Some? && SameOrder(s.order.value, s'.order.value))
  {
    hide ApplyResult, Unapplied;
    if step.Answer? {
      AnswerKeepsIdentity(s.order.value, step.result);
    }
  }

  predicate SameOrder(o: Order, o': Order) {
    && o'.clientId == o.clientId && o'.side == o.side && o'.strategy == o.strategy
    && o'.requested == o.requested && o'.submitted == o.submitted && o'.exitReason == o.exitReason
    && (o.exchange.Some? ==> o'.exchange == o.exchange)
  }

  /** Permission once taken away does not come back, nothing is submitted after that, and an order begun is never
    * exchanged for another. */
  lemma {:induction false} BlockedForGood(s: State, post: seq<Step>, policy: Policy)
    requires Run(s, post, policy).Some? && s.fault
    ensures var s' := Run(s, post, policy).value;
      && s'.fault && s'.allowed == s.allowed
      && (!s.allowed ==> Count(post, SubmitOrder) == 0 && s'.mutations == s.mutations)
      && (s.order.Some? ==> s'.order.Some? && SameOrder(s.order.value, s'.order.value))
    decreases |post|
  {
    if post != [] {
      BlockedForGood(s, post[..|post| - 1], policy);
      StepCounts(Run(s, post[..|post| - 1], policy).value, post[|post| - 1], policy);
    }
  }

  /** A completed scenario ends under its fault's policy, whatever else its trace did. */
  lemma ScenarioEndsUnderItsPolicy(trace: seq<Step>, f: Fault)
    requires Run(FRESH, trace, PolicyOf(f)).Some? && Run(FRESH, trace, PolicyOf(f)).value.fault
    ensures var s := Run(FRESH, trace, PolicyOf(f)).value; var p := PolicyOf(f);
      && s.owner == p.owner && s.phase == p.phase && s.allowed == p.allowed && s.recovery == p.recovery
      && Count(trace, FaultObserved) == 1 && Count(trace, SubmitOrder) <= 1
  {
    var n, k := RunKeeps(trace, PolicyOf(f));
    OneSubmissionOneFault(trace, PolicyOf(f));
  }
}
