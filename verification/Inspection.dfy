/** Inspecting the rows of one checkout: its conversion state, its issues and its amount. */
module Inspection {
  import opened Prelude
  import opened Text
  import opened Contract
  import opened Payment

  datatype Conversion = PartiallyValidated | Validated | Rejected | ManualReview

  datatype IssueType =
    | UnknownCommissionStatus
    | PartialCheckoutReview
    | UnknownStatus
    | McnFeeReview
    | CancelledCommission
    | InvalidItemReference
    | AmbiguousItemIdentity
    | AccountUnitUnverified
    | AffiliateAccountMismatch
    | CrossProviderDuplicate
    | InvalidAttribution
    | AttributionChanged
    | PaidCommissionChanged

  datatype Inspected = Inspected(conversion: Conversion, issues: seq<IssueType>, amount: nat)

  function Codes(rows: seq<Item>): set<string> {
    set r | r in rows :: r.statusCode
  }

  function ConversionOf(rows: seq<Item>): Conversion {
    var states := Codes(rows);
    if |states| > 1 then PartiallyValidated
    else if "completed" in states || "paid" in states then Validated
    else if "cancelled" in states then Conversion.Rejected
    else ManualReview
  }

  /** The rows are partially validated when they do not all report the same status. */
  lemma PartialExact(rows: seq<Item>)
    ensures ConversionOf(rows).PartiallyValidated? <==> |Codes(rows)| > 1
    ensures |Codes(rows)| > 1 <==> exists r, s :: r in rows && s in rows && r.statusCode != s.statusCode
  {
    if r, s :| r in rows && s in rows && r.statusCode != s.statusCode {
      assert {r.statusCode, s.statusCode} <= Codes(rows);
      SubsetSize({r.statusCode, s.statusCode}, Codes(rows));
    }
    if rows != [] && forall s :: s in rows ==> s.statusCode == rows[0].statusCode {
      assert rows[0] in rows;
      assert Codes(rows) == {rows[0].statusCode};
    }
    if rows == [] { assert Codes(rows) == {}; }
  }

  lemma {:induction false} SubsetSize<T>(a: set<T>, b: set<T>)
    requires a <= b
    ensures |a| <= |b|
    decreases |a|
  {
    if a != {} {
      var x :| x in a;
      SubsetSize(a - {x}, b - {x});
    }
  }

  predicate HasUnknownPayment(env: Env, rows: seq<Item>) {
    exists r :: r in rows && Counts(r) && RowState(env, r).Unknown?
  }

  predicate HasUnknownStatus(rows: seq<Item>) {
    exists r :: r in rows && CodeOf(r).Other?
  }

  predicate HasMcnFee(rows: seq<Item>) {
    exists r :: r in rows && BigIntOf(r.mcnFee) != 0
  }

  predicate HasCancelledCommission(rows: seq<Item>) {
    exists r :: r in rows && CodeOf(r).Cancelled? && BigIntOf(r.commission) != 0
  }

  /** The issues raised before the rows are walked one by one. */
  function SummaryIssues(env: Env, rows: seq<Item>): (s: seq<IssueType>)
    ensures Distinct(s)
    ensures forall t :: t in s <==>
      || (t == UnknownCommissionStatus && HasUnknownPayment(env, rows))
      || (t == PartialCheckoutReview && ConversionOf(rows).PartiallyValidated?)
      || (t == UnknownStatus && HasUnknownStatus(rows))
      || (t == McnFeeReview && HasMcnFee(rows))
      || (t == CancelledCommission && HasCancelledCommission(rows))
  {
    var s := AddIf([], HasUnknownPayment(env, rows), UnknownCommissionStatus);
    var s := AddIf(s, ConversionOf(rows).PartiallyValidated?, PartialCheckoutReview);
    var s := AddIf(s, HasUnknownStatus(rows), UnknownStatus);
    var s := AddIf(s, HasMcnFee(rows), McnFeeReview);
    AddIf(s, HasCancelledCommission(rows), CancelledCommission)
  }

  predicate ValidReference(env: Env, r: Item) {
    var id := env.itemId(r.itemUrl);
    id.Some? && id.value != "" && AllDigits(id.value)
  }

  /** What identifies an item inside a checkout. */
  function ItemKey(env: Env, r: Item): (string, Option<string>) {
    (r.orderSn, env.itemId(r.itemUrl))
  }

  function KeysOf(env: Env, rows: seq<Item>): set<(string, Option<string>)> {
    set r | r in rows :: ItemKey(env, r)
  }

  /** The issues after the first rows were walked; `KeysOf` is the seen-set. */
  function WalkIssues(env: Env, rows: seq<Item>): (s: seq<IssueType>)
    ensures Distinct(s)
  {
    if rows == [] then []
    else
      var n := |rows| - 1;
      WalkOne(env, rows[n], KeysOf(env, rows[..n]), WalkIssues(env, rows[..n]))
  }

  function WalkOne(env: Env, row: Item, seen: set<(string, Option<string>)>,
        issues: seq<IssueType>): (s: seq<IssueType>)
    ensures Distinct(issues) ==> Distinct(s)
    ensures forall t :: t in s <==>
      || t in issues
      || (t == InvalidItemReference && !ValidReference(env, row))
      || (t == AmbiguousItemIdentity && ItemKey(env, row) in seen)
  {
    var s := AddIf(issues, !ValidReference(env, row), InvalidItemReference);
    AddIf(s, ItemKey(env, row) in seen, AmbiguousItemIdentity)
  }

  /** `inspectCheckout(rows)`. */
  function Inspect(env: Env, rows: seq<Item>): (i: Inspected)
    ensures Distinct(i.issues)
  {
    var s := SummaryIssues(env, rows) + WalkIssues(env, rows);
    WalkIssuesExact(env, rows);
    DistinctConcat(SummaryIssues(env, rows), WalkIssues(env, rows));
    Inspected(ConversionOf(rows), s, Amount(rows))
  }

  lemma DistinctConcat<T>(s: seq<T>, t: seq<T>)
    requires Distinct(s) && Distinct(t)
    requires forall x :: x in s ==> x !in t
    ensures Distinct(s + t)
  {
    forall i, j | 0 <= i < j < |s + t| ensures (s + t)[i] != (s + t)[j] {
      if i < |s| <= j { assert s[i] in s && t[j - |s|] in t; }
    }
  }

  /** The row's product URL carries an item id of digits. */
  ghost predicate NamesItem(env: Env, r: Item) {
    var id := env.itemId(r.itemUrl);
    id.Some? && id.value != "" && forall i :: 0 <= i < |id.value| ==> '0' <= id.value[i] <= '9'
  }

  /** Two rows of the checkout report the same order and the same item id, or both no id. */
  ghost predicate Ambiguous(env: Env, rows: seq<Item>) {
    exists i, j :: 0 <= i < j < |rows| && rows[i].orderSn == rows[j].orderSn
      && env.itemId(rows[i].itemUrl) == env.itemId(rows[j].itemUrl)
  }

  /** Walking the rows with a seen-set finds exactly the bad references and the items reported twice. */
  lemma {:induction false} WalkIssuesExact(env: Env, rows: seq<Item>)
    ensures forall t :: t in WalkIssues(env, rows) <==>
      || (t == InvalidItemReference && exists r :: r in rows && !NamesItem(env, r))
      || (t == AmbiguousItemIdentity && Ambiguous(env, rows))
    decreases |rows|
  {
    if rows != [] {
      var n := |rows| - 1;
      WalkIssuesExact(env, rows[..n]);
      assert rows == rows[..n] + [rows[n]];
      assert forall r :: r in rows <==> r in rows[..n] || r == rows[n];
      AmbiguousStep(env, rows);
    }
  }

  lemma AmbiguousStep(env: Env, rows: seq<Item>)
    requires rows != []
    ensures Ambiguous(env, rows) <==>
      Ambiguous(env, rows[..|rows| - 1]) || ItemKey(env, rows[|rows| - 1]) in KeysOf(env, rows[..|rows| - 1])
  {
    var n := |rows| - 1;
    var before := rows[..n];
    KeyAt(env, before, ItemKey(env, rows[n]));
    assert forall i :: 0 <= i < n ==> before[i] == rows[i];
  }

  lemma KeyAt(env: Env, rows: seq<Item>, key: (string, Option<string>))
    ensures key in KeysOf(env, rows) <==> exists i :: 0 <= i < |rows| && ItemKey(env, rows[i]) == key
  {
  }

  method InspectCheckout(env: Env, rows: seq<Item>) returns (i: Inspected)
    ensures i == Inspect(env, rows)
  {
    var issues := WalkItems(env, rows, SummaryIssues(env, rows));
    i := Inspected(ConversionOf(rows), issues, Amount(rows));
  }

  lemma WalkStep(env: Env, rows: seq<Item>, k: nat)
    requires k < |rows|
    ensures KeysOf(env, rows[..k + 1]) == KeysOf(env, rows[..k]) + {ItemKey(env, rows[k])}
    ensures WalkIssues(env, rows[..k + 1]) == WalkOne(env, rows[k], KeysOf(env, rows[..k]), WalkIssues(env, rows[..k]))
  {
    assert rows[..k + 1] == rows[..k] + [rows[k]];
    assert rows[..k + 1][..k] == rows[..k];
  }

  method WalkItems(env: Env, rows: seq<Item>, raised: seq<IssueType>) returns (issues: seq<IssueType>)
    requires InvalidItemReference !in raised && AmbiguousItemIdentity !in raised
    ensures issues == raised + WalkIssues(env, rows)
  {
    issues := raised;
    var seen: set<(string, Option<string>)> := {};
    for k := 0 to |rows|
      invariant seen == KeysOf(env, rows[..k])
      invariant issues == raised + WalkIssues(env, rows[..k])
    {
      ghost var before := rows[..k];
      WalkStep(env, rows, k);
      var key := ItemKey(env, rows[k]);
      AddAfter(raised, WalkIssues(env, before), InvalidItemReference);
      if !ValidReference(env, rows[k]) { issues := Add(issues, InvalidItemReference); }
      AddAfter(raised, issues[|raised|..], AmbiguousItemIdentity);
      if key in seen { issues := Add(issues, AmbiguousItemIdentity); }
      seen := seen + {key};
    }
    assert rows[..|rows|] == rows;
  }

  lemma AddAfter<T(!new)>(s: seq<T>, t: seq<T>, x: T)
    requires x !in s
    ensures Add(s + t, x) == s + Add(t, x)
  {
  }

  /** A repeated row occurs at two positions. */
  lemma TwoPositions(rows: seq<Item>, x: Item) returns (i: nat, j: nat)
    requires multiset(rows)[x] >= 2
    ensures i < j < |rows| && rows[i] == x && rows[j] == x
  {
    assert x in rows;
    i :| 0 <= i < |rows| && rows[i] == x;
    var rest := rows[..i] + rows[i + 1..];
    assert rows == rows[..i] + [x] + rows[i + 1..];
    assert multiset(rows) == multiset(rest) + multiset{x};
    assert x in rest;
    var k :| 0 <= k < |rest| && rest[k] == x;
    if k < i { i, j := k, i; } else { j := k + 1; }
  }

  /** A row at two positions counts twice. */
  lemma CountsTwice(rows: seq<Item>, i: nat, j: nat)
    requires i < j < |rows| && rows[i] == rows[j]
    ensures multiset(rows)[rows[i]] >= 2
  {
    assert rows == rows[..j] + [rows[j]] + rows[j + 1..];
    assert rows[..j][i] == rows[i];
  }

  lemma AmbiguousPermutation(env: Env, a: seq<Item>, b: seq<Item>)
    requires multiset(a) == multiset(b) && Ambiguous(env, a)
    ensures Ambiguous(env, b)
  {
    var i, j :| 0 <= i < j < |a| && a[i].orderSn == a[j].orderSn
      && env.itemId(a[i].itemUrl) == env.itemId(a[j].itemUrl);
    if a[i] == a[j] {
      CountsTwice(a, i, j);
      var p, q := TwoPositions(b, a[i]);
    } else {
      assert a[i] in multiset(b) && a[j] in multiset(b);
      var p :| 0 <= p < |b| && b[p] == a[i];
      var q :| 0 <= q < |b| && b[q] == a[j];
      var k, l := if p < q then p else q, if p < q then q else p;
      assert b[k].orderSn == b[l].orderSn && env.itemId(b[k].itemUrl) == env.itemId(b[l].itemUrl);
    }
  }

  lemma SamePredicates(env: Env, a: seq<Item>, b: seq<Item>)
    requires forall r :: r in a <==> r in b
    ensures HasUnknownPayment(env, a) <==> HasUnknownPayment(env, b)
    ensures HasUnknownStatus(a) <==> HasUnknownStatus(b)
    ensures HasMcnFee(a) <==> HasMcnFee(b)
    ensures HasCancelledCommission(a) <==> HasCancelledCommission(b)
    ensures ConversionOf(a) == ConversionOf(b)
  {
    assert Codes(a) == Codes(b);
  }

  /** Inspection depends on the rows as a multiset: same conversion, same issues, same amount. */
  lemma InspectPermutation(env: Env, a: seq<Item>, b: seq<Item>)
    requires multiset(a) == multiset(b)
    ensures var x, y := Inspect(env, a), Inspect(env, b);
      && x.conversion == y.conversion
      && x.amount == y.amount
      && (forall t :: t in x.issues <==> t in y.issues)
  {
    hide WalkIssues, HasUnknownPayment, HasUnknownStatus, HasMcnFee, HasCancelledCommission, ConversionOf, Ambiguous;
    hide NamesItem;
    assert forall r :: r in a <==> r in multiset(a);
    assert forall r :: r in b <==> r in multiset(b);
    SumPermutation(a, b, CommissionVnd());
    WalkIssuesExact(env, a);
    WalkIssuesExact(env, b);
    if Ambiguous(env, a) { AmbiguousPermutation(env, a, b); }
    if Ambiguous(env, b) { AmbiguousPermutation(env, b, a); }
    SamePredicates(env, a, b);
  }
}
