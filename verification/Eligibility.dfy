/**
 * Why a commission cannot be settled: the row-by-row form used inside the settlement transaction, and the
 * batched form behind the list view.
 */
module Eligibility {
  import opened Prelude
  import opened Text
  import opened Contract
  import opened Payment
  import opened Tables

  function When(condition: bool, b: Blocker): seq<Blocker> {
    if condition then [b] else []
  }

  /** The account behind the credential is not verified, not active, or not this checkout's. */
  predicate Unverified(credential: Option<Credential>, accountId: string) {
    || credential.None?
    || !credential.value.verified
    || !credential.value.active
    || credential.value.accountId != accountId
  }

  /** `providerSettlementBlockers(db, checkout)`. */
  function ProviderBlockers(env: Env, db: Db, c: Checkout): seq<Blocker> {
    if !IsAddLiveTag(c.provider) then [AddLiveTagCheckoutRequired]
    else
      When(PaymentBlockers(env, c.payload) != [], ProviderCommissionNotPaid)
      + When(Unverified(db.credential, c.accountId), VerifyAccountFirst)
      + When(HasOpenIssue(db.issues, c.provider, c.checkoutId), OpenReconciliationIssues)
      + When(ClaimedElsewhere(db.checkouts, c.provider, c.checkoutId), CrossProvider)
  }

  method FindProviderBlockers(env: Env, db: Db, c: Checkout) returns (blockers: seq<Blocker>)
    ensures blockers == ProviderBlockers(env, db, c)
  {
    if !IsAddLiveTag(c.provider) { return [AddLiveTagCheckoutRequired]; }
    blockers := [];
    var payment := FindPaymentBlockers(env, c.payload);
    if payment != [] { blockers := blockers + [ProviderCommissionNotPaid]; }
    if Unverified(db.credential, c.accountId) { blockers := blockers + [VerifyAccountFirst]; }
    if HasOpenIssue(db.issues, c.provider, c.checkoutId) { blockers := blockers + [OpenReconciliationIssues]; }
    if ClaimedElsewhere(db.checkouts, c.provider, c.checkoutId) { blockers := blockers + [CrossProvider]; }
  }

  /** `commissionSettlementBlockers(row)`. */
  function CommissionBlockers(db: Db, id: nat): seq<Blocker>
    requires id < |db.checkouts|
  {
    var c := db.checkouts[id].commission;
    When(!c.state.Validated?, CommissionNotValidated)
    + When(c.user.None?, NoAttributedUser)
    + When(InSettlement(db.batches, id), AlreadyInSettlement)
  }

  // ---------- What the blockers say ----------

  /** What a blocker says about a checkout or its commission; only one supported by the provider can have others. */
  ghost predicate Blocks(env: Env, db: Db, id: nat, b: Blocker)
    requires id < |db.checkouts|
  {
    var c := db.checkouts[id].commission;
    match b
    case CommissionNotValidated => !c.state.Validated?
    case NoAttributedUser => c.user.None?
    case AlreadyInSettlement => exists s :: s in db.batches && exists item :: item in s.items && item.commission == id
    case _ => ProviderBlocks(env, db, db.checkouts[id], b)
  }

  ghost predicate ProviderBlocks(env: Env, db: Db, c: Checkout, b: Blocker) {
    match b
    case AddLiveTagCheckoutRequired => !("ADDLIVETAG:" <= c.provider)
    case ProviderCommissionNotPaid => "ADDLIVETAG:" <= c.provider && !FullyPaid(env, c.payload)
    case VerifyAccountFirst =>
      "ADDLIVETAG:" <= c.provider && !(db.credential.Some? && db.credential.value.verified
        && db.credential.value.active && db.credential.value.accountId == c.accountId)
    case OpenReconciliationIssues =>
      "ADDLIVETAG:" <= c.provider
      && exists i :: i in db.issues && i.open && i.provider == c.provider && i.checkoutId == c.checkoutId
    case CrossProvider =>
      "ADDLIVETAG:" <= c.provider
      && exists d :: d in db.checkouts && d.checkoutId == c.checkoutId && d.provider != c.provider
           && !d.commission.state.Rejected?
    case _ => false
  }

  /** The order in which blockers are listed: the commission's own, then its provider's. */
  function Rank(b: Blocker): nat {
    match b
    case CommissionNotValidated => 0
    case NoAttributedUser => 1
    case AlreadyInSettlement => 2
    case AddLiveTagCheckoutRequired => 3
    case ProviderCommissionNotPaid => 4
    case VerifyAccountFirst => 5
    case OpenReconciliationIssues => 6
    case CrossProvider => 7
  }

  predicate Ranked(blockers: seq<Blocker>) {
    forall i, j :: 0 <= i < j < |blockers| ==> Rank(blockers[i]) < Rank(blockers[j])
  }

  lemma OpenIssueExact(issues: seq<Issue>, provider: string, checkoutId: string)
    ensures HasOpenIssue(issues, provider, checkoutId) <==>
      exists i :: i in issues && i.open && i.provider == provider && i.checkoutId == checkoutId
  {
    if i :| i in issues && i.open && i.provider == provider && i.checkoutId == checkoutId {
      var k :| 0 <= k < |issues| && issues[k] == i;
      assert IssueOf(issues[k], provider, checkoutId);
    }
  }

  lemma ClaimExact(checkouts: seq<Checkout>, provider: string, checkoutId: string)
    ensures ClaimedElsewhere(checkouts, provider, checkoutId) <==>
      exists d :: d in checkouts && d.checkoutId == checkoutId && d.provider != provider
        && !d.commission.state.Rejected?
  {
  }

  lemma SettlementExact(batches: seq<SettlementBatch>, id: nat)
    ensures InSettlement(batches, id) <==>
      exists s :: s in batches && exists item :: item in s.items && item.commission == id
  {
    if InSettlement(batches, id) {
      var b :| 0 <= b < |batches| && exists k :: 0 <= k < |batches[b].items| && batches[b].items[k].commission == id;
      var k :| 0 <= k < |batches[b].items| && batches[b].items[k].commission == id;
      assert batches[b] in batches && batches[b].items[k] in batches[b].items;
    }
    if s :| s in batches && exists item :: item in s.items && item.commission == id {
      var item :| item in s.items && item.commission == id;
      var b :| 0 <= b < |batches| && batches[b] == s;
      var k :| 0 <= k < |s.items| && s.items[k] == item;
      assert batches[b].items[k].commission == id;
    }
  }

  /** The provider's blockers are those that say something true, in their order. */
  lemma ProviderBlockersExact(env: Env, db: Db, c: Checkout)
    ensures forall b :: b in ProviderBlockers(env, db, c) <==> ProviderBlocks(env, db, c, b)
    ensures Ranked(ProviderBlockers(env, db, c))
    ensures ProviderBlockers(env, db, c) == [] <==> forall b :: !ProviderBlocks(env, db, c, b)
  {
    hide PaymentBlockers, FullyPaid, HasOpenIssue, ClaimedElsewhere;
    PaymentGate(env, c.payload);
    OpenIssueExact(db.issues, c.provider, c.checkoutId);
    ClaimExact(db.checkouts, c.provider, c.checkoutId);
    assert ProviderBlockers(env, db, c) != [] ==> ProviderBlockers(env, db, c)[0] in ProviderBlockers(env, db, c);
  }

  /** The blocker a settlement reports first is the first in order of those that say something true. */
  ghost predicate BlocksFirst(env: Env, db: Db, c: Checkout, b: Blocker) {
    ProviderBlocks(env, db, c, b) && forall other :: ProviderBlocks(env, db, c, other) ==> Rank(b) <= Rank(other)
  }

  lemma FirstListed(env: Env, db: Db, c: Checkout)
    requires ProviderBlockers(env, db, c) != []
    ensures BlocksFirst(env, db, c, ProviderBlockers(env, db, c)[0])
  {
    hide ProviderBlockers, ProviderBlocks, Rank;
    ProviderBlockersExact(env, db, c);
    var blockers := ProviderBlockers(env, db, c);
    forall b | ProviderBlocks(env, db, c, b) ensures Rank(blockers[0]) <= Rank(b) {
      var k :| 0 <= k < |blockers| && blockers[k] == b;
    }
  }

  /** The commission's own blockers are those that say something true, in their order. */
  lemma CommissionBlockersExact(env: Env, db: Db, id: nat)
    requires id < |db.checkouts|
    ensures forall b :: b in CommissionBlockers(db, id) <==> Rank(b) <= 2 && Blocks(env, db, id, b)
    ensures Ranked(CommissionBlockers(db, id))
  {
    hide InSettlement;
    SettlementExact(db.batches, id);
  }

  // ---------- The batched form ----------

  /** The joined text key of the read model. */
  function JoinKey(provider: string, checkoutId: string): string {
    provider + ":" + checkoutId
  }

  const BARE_PREFIX := "ADDLIVETAG"

  /** An account-qualified provider, or one that cannot be mistaken for it. */
  predicate WellFormedProvider(provider: string) {
    if IsAddLiveTag(provider) then AllDigits(provider[|PROVIDER_PREFIX|..]) else provider != BARE_PREFIX
  }

  lemma SharedPrefix(p: string, q: string, s: string)
    requires p <= s && q <= s
    ensures |p| <= |q| ==> p <= q
  {
  }

  /** A provider that is not account-qualified reaches a supported key only as the bare prefix. */
  lemma UnsupportedKey(p: string, e: string, q: string, f: string)
    requires IsAddLiveTag(p) && !IsAddLiveTag(q) && JoinKey(p, e) == JoinKey(q, f)
    ensures q == BARE_PREFIX
  {
    var s := JoinKey(p, e);
    assert s[..|PROVIDER_PREFIX|] == PROVIDER_PREFIX;
    assert s[..|q|] == q && s[|q|] == ':';
    SharedPrefix(PROVIDER_PREFIX, q, s);
    assert PROVIDER_PREFIX[|q|] == ':';
    assert |q| == |BARE_PREFIX|;
    assert q == PROVIDER_PREFIX[..|q|] == BARE_PREFIX;
  }

  /** Between well-formed providers, a supported key determines provider and checkout. */
  lemma JoinKeyInjective(p: string, e: string, q: string, f: string)
    requires IsAddLiveTag(p) && WellFormedProvider(p) && WellFormedProvider(q)
    requires JoinKey(p, e) == JoinKey(q, f)
    ensures p == q && e == f
  {
    if IsAddLiveTag(q) {
      var c, d := p[|PROVIDER_PREFIX|..], q[|PROVIDER_PREFIX|..];
      assert p == PROVIDER_PREFIX + c && q == PROVIDER_PREFIX + d;
      assert JoinKey(p, e)[|PROVIDER_PREFIX|..] == c + (":" + e);
      assert JoinKey(q, f)[|PROVIDER_PREFIX|..] == d + (":" + f);
      DigitsInjective(c, d, ":" + e, ":" + f);
      assert e == (":" + e)[1..] == (":" + f)[1..] == f;
    } else {
      UnsupportedKey(p, e, q, f);
    }
  }

  /** The external ids of the supported checkouts of a list. */
  function SupportedIds(checkouts: seq<Checkout>): set<string> {
    set c | c in checkouts && IsAddLiveTag(c.provider) :: c.checkoutId
  }

  /**
   * The list holds rows of the checkout table; their providers are well formed, and so are those of the
   * open issues raised for the same external ids.
   */
  ghost predicate ListOk(db: Db, checkouts: seq<Checkout>) {
    && (forall c :: c in checkouts ==> WellFormedProvider(c.provider))
    && (forall c, d :: c in checkouts && d in checkouts && SameCheckout(c, d.provider, d.checkoutId) ==> c == d)
    && (forall k :: 0 <= k < |db.issues| && db.issues[k].open && db.issues[k].checkoutId in SupportedIds(checkouts) ==>
          WellFormedProvider(db.issues[k].provider))
  }

  /** The keys of the open issues of the checkouts asked for. */
  function OpenKeys(issues: seq<Issue>, ids: set<string>): set<string> {
    set i | i in issues && i.open && i.checkoutId in ids :: JoinKey(i.provider, i.checkoutId)
  }

  /** The providers with a claim on an external checkout. */
  function Claimants(checkouts: seq<Checkout>, checkoutId: string): set<string> {
    set c | c in checkouts && c.checkoutId == checkoutId && !c.commission.state.Rejected? :: c.provider
  }

  method CollectIds(checkouts: seq<Checkout>) returns (ids: set<string>)
    ensures ids == SupportedIds(checkouts)
  {
    ids := {};
    for k := 0 to |checkouts|
      invariant ids == SupportedIds(checkouts[..k])
    {
      assert checkouts[..k + 1] == checkouts[..k] + [checkouts[k]];
      if IsAddLiveTag(checkouts[k].provider) { ids := ids + {checkouts[k].checkoutId}; }
    }
    assert checkouts[..|checkouts|] == checkouts;
  }

  method CollectOpen(issues: seq<Issue>, ids: set<string>) returns (open: set<string>)
    ensures open == OpenKeys(issues, ids)
  {
    open := {};
    for k := 0 to |issues|
      invariant open == OpenKeys(issues[..k], ids)
    {
      assert issues[..k + 1] == issues[..k] + [issues[k]];
      if issues[k].open && issues[k].checkoutId in ids {
        open := open + {JoinKey(issues[k].provider, issues[k].checkoutId)};
      }
    }
    assert issues[..|issues|] == issues;
  }

  function ProvidersOf(providers: map<string, set<string>>, checkoutId: string): set<string> {
    if checkoutId in providers then providers[checkoutId] else {}
  }

  method CollectProviders(checkouts: seq<Checkout>, ids: set<string>) returns (providers: map<string, set<string>>)
    ensures forall id :: id in ids ==> ProvidersOf(providers, id) == Claimants(checkouts, id)
  {
    providers := map[];
    for k := 0 to |checkouts|
      invariant forall id :: id in ids ==> ProvidersOf(providers, id) == Claimants(checkouts[..k], id)
    {
      ghost var before := providers;
      var c := checkouts[k];
      assert checkouts[..k + 1] == checkouts[..k] + [c];
      if !c.commission.state.Rejected? && c.checkoutId in ids {
        providers := providers[c.checkoutId := ProvidersOf(providers, c.checkoutId) + {c.provider}];
      }
      forall id | id in ids ensures ProvidersOf(providers, id) == Claimants(checkouts[..k + 1], id) {
        assert ProvidersOf(before, id) == Claimants(checkouts[..k], id);
      }
    }
    assert checkouts[..|checkouts|] == checkouts;
  }

  /** The open-issue test by key is the test by provider and checkout. */
  lemma OpenKeyExact(db: Db, checkouts: seq<Checkout>, c: Checkout)
    requires ListOk(db, checkouts) && c in checkouts && IsAddLiveTag(c.provider)
    ensures JoinKey(c.provider, c.checkoutId) in OpenKeys(db.issues, SupportedIds(checkouts)) <==>
      HasOpenIssue(db.issues, c.provider, c.checkoutId)
  {
    var ids := SupportedIds(checkouts);
    var key := JoinKey(c.provider, c.checkoutId);
    if key in OpenKeys(db.issues, ids) {
      var i :| i in db.issues && i.open && i.checkoutId in ids && JoinKey(i.provider, i.checkoutId) == key;
      var k :| 0 <= k < |db.issues| && db.issues[k] == i;
      JoinKeyInjective(c.provider, c.checkoutId, i.provider, i.checkoutId);
    }
    if HasOpenIssue(db.issues, c.provider, c.checkoutId) {
      var k :| 0 <= k < |db.issues| && db.issues[k].open && IssueOf(db.issues[k], c.provider, c.checkoutId);
      assert db.issues[k] in db.issues;
    }
  }

  lemma ClaimantsExact(checkouts: seq<Checkout>, provider: string, checkoutId: string)
    ensures (exists p :: p in Claimants(checkouts, checkoutId) && p != provider) <==>
      ClaimedElsewhere(checkouts, provider, checkoutId)
  {
    if ClaimedElsewhere(checkouts, provider, checkoutId) {
      var i :| 0 <= i < |checkouts| && checkouts[i].checkoutId == checkoutId && checkouts[i].provider != provider
        && !checkouts[i].commission.state.Rejected?;
      assert checkouts[i].provider in Claimants(checkouts, checkoutId);
    }
  }

  /** Checkouts of the list that share a key share their blockers. */
  lemma SameKeySameBlockers(env: Env, db: Db, checkouts: seq<Checkout>, c: Checkout, d: Checkout)
    requires ListOk(db, checkouts) && c in checkouts && d in checkouts
    requires JoinKey(c.provider, c.checkoutId) == JoinKey(d.provider, d.checkoutId)
    ensures ProviderBlockers(env, db, c) == ProviderBlockers(env, db, d)
  {
    if IsAddLiveTag(c.provider) {
      JoinKeyInjective(c.provider, c.checkoutId, d.provider, d.checkoutId);
    } else if IsAddLiveTag(d.provider) {
      JoinKeyInjective(d.provider, d.checkoutId, c.provider, c.checkoutId);
    }
  }

  /** The blockers of a checkout as the batched form sees them: open issues are looked up by the joined key. */
  function KeyedBlockers(env: Env, db: Db, ids: set<string>, c: Checkout): seq<Blocker> {
    if !IsAddLiveTag(c.provider) then [AddLiveTagCheckoutRequired]
    else
      When(PaymentBlockers(env, c.payload) != [], ProviderCommissionNotPaid)
      + When(Unverified(db.credential, c.accountId), VerifyAccountFirst)
      + When(JoinKey(c.provider, c.checkoutId) in OpenKeys(db.issues, ids), OpenReconciliationIssues)
      + When(ClaimedElsewhere(db.checkouts, c.provider, c.checkoutId), CrossProvider)
  }

  /** The map the batched form fills: a later checkout overwrites an earlier one with the same key. */
  function Batched(env: Env, db: Db, ids: set<string>, checkouts: seq<Checkout>): map<string, seq<Blocker>> {
    if checkouts == [] then map[]
    else
      var n := |checkouts| - 1;
      var c := checkouts[n];
      Batched(env, db, ids, checkouts[..n])[JoinKey(c.provider, c.checkoutId) := KeyedBlockers(env, db, ids, c)]
  }

  lemma BatchedStep(env: Env, db: Db, ids: set<string>, checkouts: seq<Checkout>, k: nat)
    requires k < |checkouts|
    ensures var c := checkouts[k];
      Batched(env, db, ids, checkouts[..k + 1]) ==
        Batched(env, db, ids, checkouts[..k])[JoinKey(c.provider, c.checkoutId) := KeyedBlockers(env, db, ids, c)]
  {
    hide KeyedBlockers, JoinKey;
    assert checkouts[..k + 1][..k] == checkouts[..k];
  }

  /** The blockers of one supported checkout, from the collected sets. */
  method BlockersFrom(env: Env, db: Db, c: Checkout, ids: set<string>, open: set<string>, claimants: set<string>)
      returns (blockers: seq<Blocker>)
    requires IsAddLiveTag(c.provider)
    requires open == OpenKeys(db.issues, ids) && claimants == Claimants(db.checkouts, c.checkoutId)
    ensures blockers == KeyedBlockers(env, db, ids, c)
  {
    hide OpenKeys, Claimants, ClaimedElsewhere, JoinKey;
    ClaimantsExact(db.checkouts, c.provider, c.checkoutId);
    blockers := [];
    var payment := FindPaymentBlockers(env, c.payload);
    if payment != [] { blockers := blockers + [ProviderCommissionNotPaid]; }
    if Unverified(db.credential, c.accountId) { blockers := blockers + [VerifyAccountFirst]; }
    if JoinKey(c.provider, c.checkoutId) in open { blockers := blockers + [OpenReconciliationIssues]; }
    if exists p :: p in claimants && p != c.provider { blockers := blockers + [CrossProvider]; }
  }

  lemma UnsupportedBlockers(env: Env, db: Db, ids: set<string>, c: Checkout)
    ensures !IsAddLiveTag(c.provider) ==> KeyedBlockers(env, db, ids, c) == [AddLiveTagCheckoutRequired]
  {
  }

  lemma SupportedId(checkouts: seq<Checkout>, k: nat)
    requires k < |checkouts| && IsAddLiveTag(checkouts[k].provider)
    ensures checkouts[k].checkoutId in SupportedIds(checkouts)
  {
  }

  lemma NoneSupported(checkouts: seq<Checkout>, k: nat)
    requires k < |checkouts| && SupportedIds(checkouts) == {}
    ensures !IsAddLiveTag(checkouts[k].provider)
  {
    if IsAddLiveTag(checkouts[k].provider) { SupportedId(checkouts, k); }
  }

  /** `batchProviderSettlementBlockers(db, checkouts)`, for any database and any list. */
  method BatchBlockers(env: Env, db: Db, checkouts: seq<Checkout>) returns (output: map<string, seq<Blocker>>)
    ensures output == Batched(env, db, SupportedIds(checkouts), checkouts)
  {
    hide KeyedBlockers, JoinKey, IsAddLiveTag, OpenKeys, Claimants;
    output := map[];
    var ids := CollectIds(checkouts);
    if ids == {} {
      for k := 0 to |checkouts|
        invariant output == Batched(env, db, ids, checkouts[..k])
      {
        BatchedStep(env, db, ids, checkouts, k);
        NoneSupported(checkouts, k);
        UnsupportedBlockers(env, db, ids, checkouts[k]);
        output := output[JoinKey(checkouts[k].provider, checkouts[k].checkoutId) := [AddLiveTagCheckoutRequired]];
      }
      assert checkouts[..|checkouts|] == checkouts;
      return;
    }
    var open := CollectOpen(db.issues, ids);
    var providers := CollectProviders(db.checkouts, ids);
    for k := 0 to |checkouts|
      invariant output == Batched(env, db, ids, checkouts[..k])
    {
      var c := checkouts[k];
      BatchedStep(env, db, ids, checkouts, k);
      UnsupportedBlockers(env, db, ids, c);
      var blockers := [AddLiveTagCheckoutRequired];
      if IsAddLiveTag(c.provider) {
        assert c in checkouts && c.checkoutId in ids;
        blockers := BlockersFrom(env, db, c, ids, open, ProvidersOf(providers, c.checkoutId));
      }
      output := output[JoinKey(c.provider, c.checkoutId) := blockers];
    }
    assert checkouts[..|checkouts|] == checkouts;
  }

  // ---------- The batched form refines the row-by-row form ----------

  /** The map lists the checkout with the blockers of the row-by-row form. */
  ghost predicate Listed(env: Env, db: Db, output: map<string, seq<Blocker>>, c: Checkout) {
    JoinKey(c.provider, c.checkoutId) in output
    && output[JoinKey(c.provider, c.checkoutId)] == ProviderBlockers(env, db, c)
  }

  lemma KeyedExact(env: Env, db: Db, checkouts: seq<Checkout>, c: Checkout)
    requires ListOk(db, checkouts) && c in checkouts
    ensures KeyedBlockers(env, db, SupportedIds(checkouts), c) == ProviderBlockers(env, db, c)
  {
    if IsAddLiveTag(c.provider) {
      OpenKeyExact(db, checkouts, c);
    }
    hide ListOk, OpenKeys, HasOpenIssue, JoinKey, PaymentBlockers, Unverified, ClaimedElsewhere;
  }

  /** Setting the entry of one checkout keeps the entries of the others, even of those that share its key. */
  lemma ListedAfter(env: Env, db: Db, checkouts: seq<Checkout>, k: nat, output: map<string, seq<Blocker>>)
    requires ListOk(db, checkouts) && k < |checkouts|
    requires forall j :: 0 <= j < k ==> Listed(env, db, output, checkouts[j])
    ensures var c := checkouts[k];
      var output' := output[JoinKey(c.provider, c.checkoutId) := ProviderBlockers(env, db, c)];
      forall j :: 0 <= j < k + 1 ==> Listed(env, db, output', checkouts[j])
  {
    hide ListOk, ProviderBlockers, JoinKey;
    var c := checkouts[k];
    var key := JoinKey(c.provider, c.checkoutId);
    forall j | 0 <= j < k && JoinKey(checkouts[j].provider, checkouts[j].checkoutId) == key
      ensures ProviderBlockers(env, db, checkouts[j]) == ProviderBlockers(env, db, c)
    {
      SameKeySameBlockers(env, db, checkouts, checkouts[j], c);
    }
    forall j | 0 <= j < k ensures Listed(env, db, output[key := ProviderBlockers(env, db, c)], checkouts[j]) {
      assert Listed(env, db, output, checkouts[j]);
    }
  }

  lemma {:induction false} BatchedPrefix(env: Env, db: Db, checkouts: seq<Checkout>, n: nat)
    requires ListOk(db, checkouts) && n <= |checkouts|
    ensures forall j :: 0 <= j < n ==>
      Listed(env, db, Batched(env, db, SupportedIds(checkouts), checkouts[..n]), checkouts[j])
    decreases n
  {
    hide ListOk, ProviderBlockers, KeyedBlockers, JoinKey, SupportedIds, Listed;
    if n > 0 {
      var ids := SupportedIds(checkouts);
      BatchedPrefix(env, db, checkouts, n - 1);
      BatchedStep(env, db, ids, checkouts, n - 1);
      KeyedExact(env, db, checkouts, checkouts[n - 1]);
      ListedAfter(env, db, checkouts, n - 1, Batched(env, db, ids, checkouts[..n - 1]));
    }
  }

  /**
   * For any database and any list of its checkouts with well-formed providers, the map holds for each of
   * them exactly the blockers of the row-by-row form, in the same order.
   */
  lemma BatchExact(env: Env, db: Db, checkouts: seq<Checkout>)
    requires ListOk(db, checkouts)
    ensures forall k :: 0 <= k < |checkouts| ==>
      Listed(env, db, Batched(env, db, SupportedIds(checkouts), checkouts), checkouts[k])
  {
    hide ListOk, Listed, SupportedIds;
    BatchedPrefix(env, db, checkouts, |checkouts|);
    assert checkouts[..|checkouts|] == checkouts;
  }

  /**
   * Without well-formed providers the map can be wrong: a checkout of the bare provider whose id continues
   * with an account shares the key of that account's checkout, and overwrites its entry.
   */
  lemma BarePrefixOverwrites(env: Env, db: Db, c: Checkout, d: Checkout, account: string)
    requires c.provider == ProviderScope(account)
    requires d.provider == BARE_PREFIX && d.checkoutId == account + ":" + c.checkoutId
    ensures JoinKey(c.provider, c.checkoutId) in Batched(env, db, SupportedIds([c, d]), [c, d])
    ensures Batched(env, db, SupportedIds([c, d]), [c, d])[JoinKey(c.provider, c.checkoutId)] ==
      [AddLiveTagCheckoutRequired]
    ensures AddLiveTagCheckoutRequired !in ProviderBlockers(env, db, c)
    ensures !Listed(env, db, Batched(env, db, SupportedIds([c, d]), [c, d]), c)
  {
    hide PaymentBlockers, Unverified, HasOpenIssue, ClaimedElsewhere, OpenKeys;
    assert BARE_PREFIX + ":" + (account + ":" + c.checkoutId) == PROVIDER_PREFIX + account + ":" + c.checkoutId;
    assert JoinKey(d.provider, d.checkoutId) == JoinKey(c.provider, c.checkoutId);
    assert !IsAddLiveTag(d.provider) && IsAddLiveTag(c.provider);
    var ids := SupportedIds([c, d]);
    assert [c, d][1] == d;
    BatchedStep(env, db, ids, [c, d], 1);
    assert [c, d][..2] == [c, d];
  }
}
