/** One order as the exchange's answers accumulate in it: fills known once each, a status that never runs backwards,
  * and the fills already handed to the position. Amounts are exact. */
module OrderAggregate {
  import opened Bytes
  import T = TradingTypes

  datatype FeeAsset = Eth | Usdt

  type FillKey = (nat, nat)

  datatype Fill = Fill(
    exchange: nat,
    tradeId: nat,
    quantity: real,
    price: real,
    fee: real,
    feeAsset: FeeAsset,
    feeQuote: real,
    at: int
  )
  {
    function Key(): FillKey { (exchange, tradeId) }

    /** The checks a fill makes of itself; a fee in ETH is valued at the fill's own price. */
    predicate Valid() {
      && quantity > 0.0
      && price > 0.0
      && fee >= 0.0
      && feeQuote == if feeAsset == Usdt then fee else fee * price
    }
  }

  datatype Status =
    | Unknown
    | PendingNew | New | PartiallyFilled | PendingCancel
    | Filled | Canceled | Rejected | Expired | ExpiredInMatch

  predicate Terminal(s: Status) {
    s == Filled || s == Canceled || s == Rejected || s == Expired || s == ExpiredInMatch
  }

  /** How far an active status has come; an unknown one has come nowhere, and a terminal one is at the end. */
  function Progress(s: Status): nat {
    match s
    case Unknown => 0
    case PendingNew => 1
    case New => 2
    case PartiallyFilled => 3
    case PendingCancel => 4
    case _ => 5
  }

  datatype Result = Result(clientId: nat, status: Status, exchange: Option<nat>, fills: seq<Fill>)
  {
    predicate Valid() {
      forall i :: 0 <= i < |fills| ==> fills[i].Valid() && exchange == Some(fills[i].exchange)
    }
  }

  datatype Order = Order(
    clientId: nat,
    side: T.Side,
    strategy: T.Strategy,
    requested: real,
    submitted: real,
    exitReason: Option<T.ExitReason>,
    exchange: Option<nat>,
    status: Option<Status>,
    fills: seq<Fill>,
    applied: set<FillKey>
  )

  /** The checks an order makes of itself: a purchase has no exit reason, and no more is sent than was asked for. */
  function Begun(
      clientId: nat, side: T.Side, strategy: T.Strategy, requested: real, submitted: real, price: real,
      exitReason: Option<T.ExitReason>): Option<Order>
  {
    if 0.0 < submitted <= requested && price > 0.0 && (side == T.Buy ==> exitReason.None?) then
      Some(Order(clientId, side, strategy, requested, submitted, exitReason, None, None, [], {}))
    else None
  }

  // Sums over fills.

  function Gross(fills: seq<Fill>): real {
    if fills == [] then 0.0 else Gross(fills[..|fills| - 1]) + fills[|fills| - 1].quantity
  }

  function Amount(fills: seq<Fill>): real {
    if fills == [] then 0.0
    else Amount(fills[..|fills| - 1]) + fills[|fills| - 1].quantity * fills[|fills| - 1].price
  }

  /** The fee paid out of the bought asset itself. */
  function BaseFee(fills: seq<Fill>): real {
    if fills == [] then 0.0
    else BaseFee(fills[..|fills| - 1]) + if fills[|fills| - 1].feeAsset == Eth then fills[|fills| - 1].fee else 0.0
  }

  /** The fee paid beside it, in the quote asset. */
  function QuoteFee(fills: seq<Fill>): real {
    if fills == [] then 0.0
    else
      QuoteFee(fills[..|fills| - 1])
      + if fills[|fills| - 1].feeAsset == Eth then 0.0 else fills[|fills| - 1].feeQuote
  }

  lemma {:induction false} SumsAppend(xs: seq<Fill>, ys: seq<Fill>)
    ensures Gross(xs + ys) == Gross(xs) + Gross(ys)
    ensures Amount(xs + ys) == Amount(xs) + Amount(ys)
    ensures BaseFee(xs + ys) == BaseFee(xs) + BaseFee(ys)
    ensures QuoteFee(xs + ys) == QuoteFee(xs) + QuoteFee(ys)
  {
    if ys == [] {
      assert xs + ys == xs;
    } else {
      SumsAppend(xs, ys[..|ys| - 1]);
      assert (xs + ys)[..|xs + ys| - 1] == xs + ys[..|ys| - 1];
    }
  }

  lemma {:induction false} GrossPositive(fills: seq<Fill>)
    requires forall i :: 0 <= i < |fills| ==> fills[i].Valid()
    ensures Gross(fills) >= 0.0 && (fills != [] ==> Gross(fills) > 0.0)
  {
    if fills != [] {
      GrossPositive(fills[..|fills| - 1]);
    }
  }

  predicate OneFeeAsset(fills: seq<Fill>) {
    forall i, j :: 0 <= i < |fills| && 0 <= j < |fills| ==> fills[i].feeAsset == fills[j].feeAsset
  }

  // New fills among known ones.

  predicate Holds(fills: seq<Fill>, key: FillKey) {
    exists i :: 0 <= i < |fills| && fills[i].Key() == key
  }

  predicate Distinct(fills: seq<Fill>) {
    forall i, j :: 0 <= i < j < |fills| ==> fills[i].Key() != fills[j].Key()
  }

  /** A fill already known is not taken twice, and may not come back with another content. */
  function Merge(known: seq<Fill>, incoming: seq<Fill>): Option<seq<Fill>> {
    if incoming == [] then Some(known)
    else
      var rest := Merge(known, incoming[..|incoming| - 1]);
      if rest.None? then None else Learn(rest.value, incoming[|incoming| - 1])
  }

  function Learn(known: seq<Fill>, f: Fill): Option<seq<Fill>> {
    if f in known then Some(known)
    else if Holds(known, f.Key()) then None
    else Some(known + [f])
  }

  lemma {:induction false} MergeExtends(known: seq<Fill>, incoming: seq<Fill>)
    requires Distinct(known)
    requires Merge(known, incoming).Some?
    ensures known <= Merge(known, incoming).value && Distinct(Merge(known, incoming).value)
    ensures forall f :: f in Merge(known, incoming).value <==> f in known || f in incoming
  {
    var merged := Merge(known, incoming).value;
    if incoming != [] {
      var before := incoming[..|incoming| - 1];
      var f := incoming[|incoming| - 1];
      MergeExtends(known, before);
      var m := Merge(known, before).value;
      assert incoming == before + [f];
      if f !in m {
        assert merged == m + [f];
        forall i, j | 0 <= i < j < |merged|
          ensures merged[i].Key() != merged[j].Key()
        {
          if j == |m| {
            assert merged[j] == f && merged[i] == m[i];
          }
        }
      }
    }
  }

  /** Answers already taken in add nothing. */
  lemma {:induction false} MergeKnown(known: seq<Fill>, incoming: seq<Fill>)
    requires forall i :: 0 <= i < |incoming| ==> incoming[i] in known
    ensures Merge(known, incoming) == Some(known)
  {
    if incoming != [] {
      MergeKnown(known, incoming[..|incoming| - 1]);
    }
  }

  // The status.

  /** A terminal status stays, an unknown answer says nothing, and an active status only advances. */
  function Resolve(current: Option<Status>, observed: Status): Option<Status> {
    if current.None? then Some(observed)
    else
      var s := current.value;
      if Terminal(s) then
        if observed == s || !Terminal(observed) then Some(s) else None
      else if observed == Unknown then Some(s)
      else if s == Unknown then Some(observed)
      else if !Terminal(observed) && Progress(observed) < Progress(s) then Some(s)
      else Some(observed)
  }

  /** Whatever order the answers come in, the status never goes back, and a terminal one never changes. */
  lemma StatusNeverRetreats(current: Status, observed: Status)
    requires Resolve(Some(current), observed).Some?
    ensures Progress(Resolve(Some(current), observed).value) >= Progress(current)
    ensures Terminal(current) ==> Resolve(Some(current), observed).value == current
    ensures Resolve(Some(current), observed).value == current || Resolve(Some(current), observed).value == observed
  {
  }

  /** Two different ends are the one conflict. */
  lemma OnlyEndsConflict(current: Option<Status>, observed: Status)
    ensures Resolve(current, observed).None? <==>
      current.Some? && Terminal(current.value) && Terminal(observed) && current.value != observed
  {
  }

  // An answer taken in.

  predicate Identified(o: Order, r: Result) {
    && r.clientId == o.clientId
    && (o.exchange.Some? && r.exchange.Some? ==> r.exchange == o.exchange)
  }

  /** What the quantities must say for a status to stand. */
  predicate Fits(status: Status, fills: seq<Fill>, submitted: real) {
    && (fills != [] ==> OneFeeAsset(fills) && Gross(fills) <= submitted)
    && (status == PartiallyFilled ==> fills != [] && Gross(fills) < submitted)
    && (status == Filled ==> fills != [] && Gross(fills) == submitted)
  }

  function ApplyResult(o: Order, r: Result): Option<Order> {
    if !r.Valid() || !Identified(o, r) then None
    else
      var fills := Merge(o.fills, r.fills);
      var status := Resolve(o.status, r.status);
      if fills.None? || status.None? || !Fits(status.value, fills.value, o.submitted) then None
      else
        Some(o.(
          exchange := if o.exchange.None? then r.exchange else o.exchange,
          status := status,
          fills := fills.value))
  }

  function Keys(fills: seq<Fill>): set<FillKey> {
    set i | 0 <= i < |fills| :: fills[i].Key()
  }

  /** The fills that no position has seen. */
  function Unapplied(o: Order): seq<Fill> {
    Outside(o.fills, o.applied)
  }

  function Outside(fills: seq<Fill>, applied: set<FillKey>): seq<Fill> {
    if fills == [] then []
    else
      var before := Outside(fills[..|fills| - 1], applied);
      var f := fills[|fills| - 1];
      if f.Key() in applied then before else before + [f]
  }

  function MarkApplied(o: Order, fills: seq<Fill>): Order {
    o.(applied := o.applied + Keys(fills))
  }

  // What every order keeps.

  /** The fills handed on are always the first ones learnt. */
  ghost predicate AppliedIs(o: Order, n: nat) {
    n <= |o.fills| && o.applied == Keys(o.fills[..n])
  }

  ghost predicate Kept(o: Order, n: nat) {
    && Distinct(o.fills)
    && AppliedIs(o, n)
    && (forall i :: 0 <= i < |o.fills| ==> o.fills[i].Valid() && o.exchange == Some(o.fills[i].exchange))
    && OneFeeAsset(o.fills)
    && (o.fills != [] ==> Gross(o.fills) <= o.submitted)
    && (o.status.None? ==> o.fills == [])
    && (o.status.Some? ==> Fits(o.status.value, o.fills, o.submitted))
  }

  lemma {:induction false} OutsidePrefix(fills: seq<Fill>, n: nat)
    requires Distinct(fills) && n <= |fills|
    ensures Outside(fills, Keys(fills[..n])) == fills[n..]
    decreases |fills|
  {
    if |fills| == n {
      OutsideAll(fills, Keys(fills[..n]));
    } else {
      var before := fills[..|fills| - 1];
      assert before[..n] == fills[..n];
      OutsidePrefix(before, n);
      assert fills[|fills| - 1].Key() !in Keys(fills[..n]);
      assert fills[n..] == before[n..] + [fills[|fills| - 1]];
    }
  }

  lemma {:induction false} OutsideAll(fills: seq<Fill>, keys: set<FillKey>)
    requires forall i :: 0 <= i < |fills| ==> fills[i].Key() in keys
    ensures Outside(fills, keys) == []
  {
    if fills != [] {
      OutsideAll(fills[..|fills| - 1], keys);
    }
  }

  /** What is left for the position is exactly what was learnt since it was last told. */
  lemma UnappliedIsTheRest(o: Order, n: nat)
    requires Kept(o, n)
    ensures Unapplied(o) == o.fills[n..]
  {
    OutsidePrefix(o.fills, n);
  }

  lemma MarkingTellsAll(o: Order, n: nat)
    requires Kept(o, n)
    ensures Kept(MarkApplied(o, o.fills[n..]), |o.fills|)
  {
    var f := o.fills;
    assert f[..|f|] == f;
    forall k | k in Keys(f)
      ensures k in Keys(f[..n]) + Keys(f[n..])
    {
      var i :| 0 <= i < |f| && f[i].Key() == k;
      if i < n {
        assert f[..n][i] == f[i];
      } else {
        assert f[n..][i - n] == f[i];
      }
    }
    forall k | k in Keys(f[n..])
      ensures k in Keys(f)
    {
      var i :| 0 <= i < |f[n..]| && f[n..][i].Key() == k;
      assert f[n + i].Key() == k;
    }
    forall k | k in Keys(f[..n])
      ensures k in Keys(f)
    {
      var i :| 0 <= i < |f[..n]| && f[..n][i].Key() == k;
      assert f[i].Key() == k;
    }
    assert Keys(f) == Keys(f[..n]) + Keys(f[n..]);
  }

  /** An accepted answer keeps all of it: every fill once, never more than was submitted, and the position's share
    * untouched. */
  lemma ResultKeeps(o: Order, n: nat, r: Result)
    requires Kept(o, n) && ApplyResult(o, r).Some?
    ensures Kept(ApplyResult(o, r).value, n)
    ensures o.fills <= ApplyResult(o, r).value.fills
    ensures forall f :: f in ApplyResult(o, r).value.fills <==> f in o.fills || f in r.fills
  {
    var o' := ApplyResult(o, r).value;
    MergeExtends(o.fills, r.fills);
    assert o'.fills[..n] == o.fills[..n];
    forall i | 0 <= i < |o'.fills|
      ensures o'.fills[i].Valid() && o'.exchange == Some(o'.fills[i].exchange)
    {
      var f := o'.fills[i];
      assert f in o.fills || f in r.fills;
    }
  }

  /** An answer that brings no new fill and no further status changes nothing. */
  lemma StaleAnswerChangesNothing(o: Order, n: nat, r: Result)
    requires Kept(o, n) && r.Valid() && Identified(o, r) && o.status.Some?
    requires o.exchange.Some? || r.exchange.None?
    requires forall i :: 0 <= i < |r.fills| ==> r.fills[i] in o.fills
    requires Resolve(o.status, r.status) == o.status
    ensures ApplyResult(o, r) == Some(o)
  {
    MergeKnown(o.fills, r.fills);
  }

  /** A filled order has no room for another fill. */
  lemma FilledTakesNoMore(o: Order, n: nat, r: Result)
    requires Kept(o, n) && o.status == Some(Filled) && ApplyResult(o, r).Some?
    ensures ApplyResult(o, r).value.fills == o.fills && ApplyResult(o, r).value.status == o.status
  {
    var o' := ApplyResult(o, r).value;
    ResultKeeps(o, n, r);
    var more := o'.fills[|o.fills|..];
    assert o'.fills == o.fills + more;
    SumsAppend(o.fills, more);
    GrossPositive(more);
  }
}
