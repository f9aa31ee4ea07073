/** The provider contract: conversion rows, the account-qualified provider key and date chunking. */
module Contract {
  import opened Prelude
  import opened Text

  /** One row of the provider's conversion report, as the schema decodes it. */
  datatype Item = Item(
    purchaseTime: nat,
    clickTime: nat,
    checkoutId: string,
    orderSn: string,
    status: string,
    statusCode: string,
    commissionStatus: string,
    affiliate: string,
    itemName: string,
    image: string,
    itemUrl: string,
    price: Decimal,
    qty: nat,
    orderValue: Decimal,
    commission: Decimal,
    mcnFee: Decimal,
    utm: string,
    subId1: string)

  function CommissionVnd(): Item -> int {
    (r: Item) => BigIntOf(r.commission)
  }

  /** The commission of a group of rows, in VND. */
  function Amount(rows: seq<Item>): (a: nat)
  {
    AmountNonNegative(rows);
    Sum(rows, CommissionVnd())
  }

  lemma {:induction false} AmountNonNegative(rows: seq<Item>)
    ensures Sum(rows, CommissionVnd()) >= 0
    decreases |rows|
  {
    if |rows| > 0 { AmountNonNegative(rows[..|rows| - 1]); }
  }

  const PROVIDER_PREFIX := "ADDLIVETAG:"

  function ProviderScope(accountId: string): string {
    PROVIDER_PREFIX + accountId
  }

  /** `provider.startsWith('ADDLIVETAG:')`. */
  predicate IsAddLiveTag(provider: string) {
    PROVIDER_PREFIX <= provider
  }

  lemma ProviderScopeInjective(a: string, b: string)
    requires ProviderScope(a) == ProviderScope(b)
    ensures a == b
  {
    assert a == ProviderScope(a)[|PROVIDER_PREFIX|..];
    assert b == ProviderScope(b)[|PROVIDER_PREFIX|..];
  }

  /** A run of calendar days, both ends included. */
  datatype Chunk = Chunk(start: int, end: int)

  /** Chunks cover `first..last` without gap or overlap, each at most `maxDays` long. */
  ghost predicate Covers(chunks: seq<Chunk>, first: int, last: int, maxDays: int) {
    if chunks == [] then first == last + 1
    else
      && chunks[0].start == first
      && chunks[0].start <= chunks[0].end <= last
      && chunks[0].end - chunks[0].start + 1 <= maxDays
      && Covers(chunks[1..], chunks[0].end + 1, last, maxDays)
  }

  lemma {:induction false} CoversAppend(chunks: seq<Chunk>, first: int, middle: int, c: Chunk, maxDays: int)
    requires Covers(chunks, first, middle, maxDays)
    requires c.start == middle + 1 && c.start <= c.end && c.end - c.start + 1 <= maxDays
    ensures Covers(chunks + [c], first, c.end, maxDays)
    decreases |chunks|
  {
    if chunks == [] {
      assert [c][1..] == [];
      assert Covers([], c.end + 1, c.end, maxDays);
    } else {
      CoversAppend(chunks[1..], chunks[0].end + 1, middle, c, maxDays);
      assert (chunks + [c])[1..] == chunks[1..] + [c];
    }
  }

  /** Days are counted from the epoch; the original adds days to UTC dates. */
  method SplitDateRange(first: int, last: int, maxDays: int) returns (r: Result<seq<Chunk>>)
    requires maxDays >= 1
    ensures r.Err? <==> first > last
    ensures r.Ok? ==> Covers(r.value, first, last, maxDays)
    ensures r.Ok? ==> forall k :: 0 <= k < |r.value| - 1 ==> r.value[k].end - r.value[k].start + 1 == maxDays
  {
    if first > last {
      return Err(InvalidDateRange);
    }
    var current := first;
    var chunks: seq<Chunk> := [];
    while current <= last
      invariant current <= last + 1
      invariant Covers(chunks, first, current - 1, maxDays)
      invariant forall k :: 0 <= k < |chunks| - 1 ==> chunks[k].end - chunks[k].start + 1 == maxDays
      invariant current <= last && chunks != [] ==>
        chunks[|chunks| - 1].end - chunks[|chunks| - 1].start + 1 == maxDays
      decreases last - current
    {
      var chunkEnd := current + (maxDays - 1);
      var effectiveEnd := if chunkEnd < last then chunkEnd else last;
      CoversAppend(chunks, first, current - 1, Chunk(current, effectiveEnd), maxDays);
      chunks := chunks + [Chunk(current, effectiveEnd)];
      current := effectiveEnd + 1;
    }
    r := Ok(chunks);
  }
}
