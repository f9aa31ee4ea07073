/**
 * The checkout digest. SHA-256 is taken to be collision free, so a digest is represented by what is
 * hashed: the sorted list of the rows' JSON texts. The prefix and the paid labels are fixed.
 */
module Digests {
  import opened Text
  import opened Contract

  type Digest = seq<string>

  datatype Member = Number(n: nat) | Raw(text: string)

  const KEYS: seq<string> := [
    "purchase_time", "click_time", "checkout_id", "order_sn", "status", "status_code",
    "commission_status", "affiliate", "item_name", "image", "item_url", "price", "qty",
    "order_value", "commission", "mcn_fee", "utm", "sub_id1"]

  function Members(r: Item): (m: seq<Member>)
    ensures |m| == |KEYS|
  {
    [Number(r.purchaseTime), Number(r.clickTime), Raw(r.checkoutId), Raw(r.orderSn), Raw(r.status),
     Raw(r.statusCode), Raw(r.commissionStatus), Raw(r.affiliate), Raw(r.itemName), Raw(r.image),
     Raw(r.itemUrl), Raw(r.price), Number(r.qty), Raw(r.orderValue), Raw(r.commission), Raw(r.mcnFee),
     Raw(r.utm), Raw(r.subId1)]
  }

  function MemberText(m: Member): string {
    match m
    case Number(n) => NatText(n)
    case Raw(text) => Quote(text)
  }

  /** The members of a JSON object, closing brace included. */
  function ObjectText(keys: seq<string>, members: seq<Member>): string
    requires |keys| == |members| > 0
    decreases |keys|, 1
  {
    (Quote(keys[0]) + ":") + (MemberText(members[0]) + ObjectRest(keys, members))
  }

  function ObjectRest(keys: seq<string>, members: seq<Member>): (s: string)
    requires |keys| == |members| > 0
    ensures s != "" && !IsDigit(s[0])
    decreases |keys|, 0
  {
    if |keys| == 1 then "}" else "," + ObjectText(keys[1..], members[1..])
  }

  lemma Cancel(prefix: string, x: string, y: string)
    requires prefix + x == prefix + y
    ensures x == y
  {
    assert x == (prefix + x)[|prefix|..];
    assert y == (prefix + y)[|prefix|..];
  }

  /** `JSON.stringify(row)`. */
  function RowText(r: Item): string {
    "{" + ObjectText(KEYS, Members(r))
  }

  lemma MemberInjective(m: Member, n: Member, x: string, y: string)
    requires x != "" && !IsDigit(x[0]) && y != "" && !IsDigit(y[0])
    requires MemberText(m) + x == MemberText(n) + y
    ensures m == n && x == y
  {
    assert (MemberText(m) + x)[0] == MemberText(m)[0];
    assert (MemberText(n) + y)[0] == MemberText(n)[0];
    assert m.Raw? <==> n.Raw?;
    match m
    case Number(k) => DigitsInjective(NatText(k), NatText(n.n), x, y);
    case Raw(text) => QuoteInjective(text, n.text, x, y);
  }

  lemma {:induction false} ObjectInjective(keys: seq<string>, m: seq<Member>, n: seq<Member>)
    requires |keys| == |m| == |n| > 0
    requires ObjectText(keys, m) == ObjectText(keys, n)
    ensures m == n
    decreases |keys|
  {
    var x, y := ObjectRest(keys, m), ObjectRest(keys, n);
    Cancel(Quote(keys[0]) + ":", MemberText(m[0]) + x, MemberText(n[0]) + y);
    MemberInjective(m[0], n[0], x, y);
    if |keys| > 1 {
      Cancel(",", ObjectText(keys[1..], m[1..]), ObjectText(keys[1..], n[1..]));
      ObjectInjective(keys[1..], m[1..], n[1..]);
    }
    assert m == [m[0]] + m[1..] && n == [n[0]] + n[1..];
  }

  /** Two rows with the same JSON text are the same row. */
  lemma RowTextInjective(r: Item, s: Item)
    requires RowText(r) == RowText(s)
    ensures r == s
  {
    hide ObjectText;
    BracedInjective(KEYS, Members(r), Members(s));
    MembersInjective(r, s);
  }

  lemma BracedInjective(keys: seq<string>, m: seq<Member>, n: seq<Member>)
    requires |keys| == |m| == |n| > 0
    requires "{" + ObjectText(keys, m) == "{" + ObjectText(keys, n)
    ensures m == n
  {
    Cancel("{", ObjectText(keys, m), ObjectText(keys, n));
    ObjectInjective(keys, m, n);
  }

  lemma MembersInjective(r: Item, s: Item)
    requires Members(r) == Members(s)
    ensures r == s
  {
    var m, n := Members(r), Members(s);
    assert m[0] == n[0] && m[1] == n[1] && m[2] == n[2] && m[3] == n[3] && m[4] == n[4] && m[5] == n[5];
    assert m[6] == n[6] && m[7] == n[7] && m[8] == n[8] && m[9] == n[9] && m[10] == n[10] && m[11] == n[11];
    assert m[12] == n[12] && m[13] == n[13] && m[14] == n[14] && m[15] == n[15] && m[16] == n[16] && m[17] == n[17];
  }

  /** Lexicographic order on texts. */
  predicate Leq(a: string, b: string) {
    a == "" || (b != "" && (a[0] < b[0] || (a[0] == b[0] && Leq(a[1..], b[1..]))))
  }

  lemma {:induction false} LeqTotal(a: string, b: string)
    ensures Leq(a, b) || Leq(b, a)
    ensures Leq(a, b) && Leq(b, a) ==> a == b
    decreases |a|
  {
    if a != "" && b != "" {
      LeqTotal(a[1..], b[1..]);
      assert a == [a[0]] + a[1..] && b == [b[0]] + b[1..];
    }
  }

  lemma {:induction false} LeqTransitive(a: string, b: string, c: string)
    requires Leq(a, b) && Leq(b, c)
    ensures Leq(a, c)
    decreases |a|
  {
    if a != "" && a[0] == b[0] == c[0] {
      LeqTransitive(a[1..], b[1..], c[1..]);
    }
  }

  ghost predicate Sorted(s: seq<string>) {
    forall i, j :: 0 <= i < j < |s| ==> Leq(s[i], s[j])
  }

  function Insert(x: string, s: seq<string>): (r: seq<string>)
    ensures multiset(r) == multiset(s) + multiset{x}
  {
    if s == [] then [x]
    else if Leq(x, s[0]) then [x] + s
    else
      assert s == [s[0]] + s[1..];
      [s[0]] + Insert(x, s[1..])
  }

  lemma {:induction false} InsertSorted(x: string, s: seq<string>)
    requires Sorted(s)
    ensures Sorted(Insert(x, s))
    decreases |s|
  {
    if s != [] {
      LeqTotal(x, s[0]);
      if Leq(x, s[0]) {
        forall j | 0 <= j < |s| ensures Leq(x, s[j]) { if j > 0 { LeqTransitive(x, s[0], s[j]); } }
      } else {
        InsertSorted(x, s[1..]);
        var r := Insert(x, s[1..]);
        forall j | 0 <= j < |r| ensures Leq(s[0], r[j]) {
          assert r[j] in multiset(r);
          assert r[j] == x || r[j] in s[1..];
        }
      }
    }
  }

  /** `texts.sort()`. */
  function Sort(s: seq<string>): (r: seq<string>)
    ensures multiset(r) == multiset(s)
  {
    if s == [] then []
    else
      assert s == [s[0]] + s[1..];
      Insert(s[0], Sort(s[1..]))
  }

  lemma {:induction false} SortSorted(s: seq<string>)
    ensures Sorted(Sort(s))
    decreases |s|
  {
    if s != [] {
      SortSorted(s[1..]);
      InsertSorted(s[0], Sort(s[1..]));
    }
  }

  lemma {:induction false} SortedUnique(a: seq<string>, b: seq<string>)
    requires Sorted(a) && Sorted(b) && multiset(a) == multiset(b)
    ensures a == b
    decreases |a|
  {
    hide Leq;
    assert |a| == |multiset(a)| == |multiset(b)| == |b|;
    if a != [] {
      SameHead(a, b);
      TailMultiset(a);
      TailMultiset(b);
      SortedUnique(a[1..], b[1..]);
    }
  }

  lemma TailMultiset(a: seq<string>)
    requires a != []
    ensures multiset(a[1..]) == multiset(a) - multiset{a[0]}
  {
    assert a == [a[0]] + a[1..];
  }

  lemma SameHead(a: seq<string>, b: seq<string>)
    requires Sorted(a) && Sorted(b) && a != [] && b != [] && multiset(a) == multiset(b)
    ensures a[0] == b[0]
  {
    assert a[0] in multiset(a) && b[0] in multiset(b);
    SortedHead(a, b[0]);
    SortedHead(b, a[0]);
    LeqTotal(a[0], b[0]);
  }

  lemma SortedHead(a: seq<string>, x: string)
    requires a != [] && Sorted(a)
    ensures x in multiset(a) ==> Leq(a[0], x)
  {
    LeqTotal(a[0], a[0]);
  }

  function Texts<T>(rows: seq<T>, text: T -> string): seq<string> {
    if rows == [] then [] else [text(rows[0])] + Texts(rows[1..], text)
  }

  ghost predicate Injective<T(!new)>(text: T -> string) {
    forall r, s :: text(r) == text(s) ==> r == s
  }

  /** A row occurs as often as its text. */
  lemma {:induction false} TextMultiplicity<T(!new)>(rows: seq<T>, text: T -> string, r: T)
    requires Injective(text)
    ensures multiset(Texts(rows, text))[text(r)] == multiset(rows)[r]
    decreases |rows|
  {
    if rows != [] {
      TextMultiplicity(rows[1..], text, r);
      assert rows == [rows[0]] + rows[1..];
      assert Texts(rows, text) == [text(rows[0])] + Texts(rows[1..], text);
    }
  }

  lemma {:induction false} TextInRow<T>(rows: seq<T>, text: T -> string, t: string) returns (r: T)
    requires t in Texts(rows, text)
    ensures r in rows && text(r) == t
    decreases |rows|
  {
    if t == text(rows[0]) {
      r := rows[0];
    } else {
      r := TextInRow(rows[1..], text, t);
    }
  }

  lemma TextsIffSameRows<T(!new)>(a: seq<T>, b: seq<T>, text: T -> string)
    requires Injective(text)
    ensures multiset(Texts(a, text)) == multiset(Texts(b, text)) <==> multiset(a) == multiset(b)
  {
    if multiset(Texts(a, text)) == multiset(Texts(b, text)) {
      forall r ensures multiset(a)[r] == multiset(b)[r] {
        TextMultiplicity(a, text, r);
        TextMultiplicity(b, text, r);
      }
    }
    if multiset(a) == multiset(b) {
      forall t ensures multiset(Texts(a, text))[t] == multiset(Texts(b, text))[t] {
        if t in Texts(a, text) || t in Texts(b, text) {
          var r := TextInRow(if t in Texts(a, text) then a else b, text, t);
          TextMultiplicity(a, text, r);
          TextMultiplicity(b, text, r);
        }
      }
    }
  }

  function JsonText(): Item -> string {
    (r: Item) => RowText(r)
  }

  lemma JsonTextInjective()
    ensures Injective(JsonText())
  {
    forall r, s | JsonText()(r) == JsonText()(s) ensures r == s {
      RowTextInjective(r, s);
    }
  }

  /** `checkoutDigest(rows)`, for a given JSON text of a row. */
  function DigestOf(json: Item -> string, rows: seq<Item>): Digest {
    Sort(Texts(rows, json))
  }

  /** Two snapshots of a checkout have the same digest exactly when they hold the same rows. */
  lemma DigestIffSameRows(json: Item -> string, a: seq<Item>, b: seq<Item>)
    requires Injective(json)
    ensures DigestOf(json, a) == DigestOf(json, b) <==> multiset(a) == multiset(b)
  {
    var x, y := Texts(a, json), Texts(b, json);
    TextsIffSameRows(a, b, json);
    if multiset(x) == multiset(y) {
      SortSorted(x);
      SortSorted(y);
      SortedUnique(DigestOf(json, a), DigestOf(json, b));
    } else {
      assert multiset(DigestOf(json, a)) == multiset(x) && multiset(DigestOf(json, b)) == multiset(y);
    }
  }

  /** ... and the JSON text the service writes qualifies. */
  lemma CheckoutDigestIffSameRows(a: seq<Item>, b: seq<Item>)
    ensures DigestOf(JsonText(), a) == DigestOf(JsonText(), b) <==> multiset(a) == multiset(b)
  {
    JsonTextInjective();
    DigestIffSameRows(JsonText(), a, b);
  }
}
