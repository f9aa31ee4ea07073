/** The paged ingest loop: pages of a provider report become the groups that are published. */
module Ingest {
  import opened Prelude
  import opened Text
  import opened Contract
  import opened Engine

  /** The report summary; two summaries are compared as a whole. */
  datatype Summary = Summary(estimatedTotalCommission: Decimal, rest: string)

  datatype Report = Report(total: nat, summary: Summary, data: seq<Item>)

  /** The provider, page by page; an error stands for a failed request or a lost lease. */
  type Provider = nat -> Result<Report>

  /** The dates of a batch, as day numbers in Vietnam time. */
  datatype Range = Range(start: int, end: int)

  /** What is handed to publish. */
  datatype Ingested = Ingested(groups: seq<Group>, received: nat, difference: int)

  const MAX_PAGES: nat := 10000
  const MAX_SUMMARY_DIFFERENCE_VND: int := 99

  /** The day a purchase falls on in Vietnam, seven hours ahead of UTC. */
  function LocalDay(r: Item): int {
    (r.purchaseTime + 7 * 3600) / 86400
  }

  predicate InDates(range: Range, r: Item) {
    range.start <= LocalDay(r) <= range.end
  }

  /** `validateCommissionSummary(itemTotal, reportedTotal)`. */
  function ValidateSummary(itemTotal: nat, reported: Decimal): Result<int> {
    var difference := itemTotal - BigIntOf(reported);
    if difference < -MAX_SUMMARY_DIFFERENCE_VND || difference > MAX_SUMMARY_DIFFERENCE_VND
    then Err(SummaryCommissionMismatch) else Ok(difference)
  }

  function FindGroup(groups: seq<Group>, checkoutId: string): (r: Option<nat>)
    ensures r.Some? ==> r.value < |groups| && groups[r.value].checkoutId == checkoutId
    ensures r.None? ==> forall i :: 0 <= i < |groups| ==> groups[i].checkoutId != checkoutId
  {
    if groups == [] then None
    else
      var n := |groups| - 1;
      if groups[n].checkoutId == checkoutId then Some(n) else FindGroup(groups[..n], checkoutId)
  }

  /** Push a row into its group, opening the group if it is the first. */
  function AddRow(groups: seq<Group>, row: Item): seq<Group> {
    var at := FindGroup(groups, row.checkoutId);
    if at.Some? then groups[at.value := Group(row.checkoutId, groups[at.value].rows + [row])]
    else groups + [Group(row.checkoutId, [row])]
  }

  function Grouped(rows: seq<Item>): seq<Group> {
    if rows == [] then [] else AddRow(Grouped(rows[..|rows| - 1]), rows[|rows| - 1])
  }

  /** The rows of one checkout, in order. */
  function RowsOf(rows: seq<Item>, checkoutId: string): seq<Item> {
    if rows == [] then []
    else
      var n := |rows| - 1;
      var before := RowsOf(rows[..n], checkoutId);
      if rows[n].checkoutId == checkoutId then before + [rows[n]] else before
  }

  /** The data of a page; nothing for a page that failed. */
  function DataOf(provider: Provider, page: nat): seq<Item> {
    if provider(page).Ok? then provider(page).value.data else []
  }

  /** All rows of the first `n` pages. */
  function Received(provider: Provider, n: nat): seq<Item> {
    if n == 0 then [] else Received(provider, n - 1) + DataOf(provider, n)
  }

  /** The data already seen; hashes are taken to be collision free. */
  function Seen(provider: Provider, n: nat): set<seq<Item>> {
    if n == 0 then {} else Seen(provider, n - 1) + {DataOf(provider, n)}
  }

  predicate Stable(provider: Provider, page: nat)
    requires page >= 1 && provider(page).Ok?
  {
    page > 1 && provider(page - 1).Ok? ==>
      provider(page - 1).value.total == provider(page).value.total
      && provider(page - 1).value.summary == provider(page).value.summary
  }

  predicate Repeated(provider: Provider, page: nat)
    requires page >= 1
  {
    DataOf(provider, page) != [] && DataOf(provider, page) in Seen(provider, page - 1)
  }

  predicate AllInDates(range: Range, rows: seq<Item>) {
    forall k :: 0 <= k < |rows| ==> InDates(range, rows[k])
  }

  function Finish(provider: Provider, page: nat): Result<Ingested>
    requires page >= 1 && provider(page).Ok?
  {
    var rows := Received(provider, page);
    var difference := ValidateSummary(Amount(rows), provider(page).value.summary.estimatedTotalCommission);
    if difference.Err? then Err(difference.error) else Ok(Ingested(Grouped(rows), |rows|, difference.value))
  }

  /** What one page decides: an outcome, or to fetch the next page. */
  function AfterPage(provider: Provider, range: Range, page: nat): (r: Option<Result<Ingested>>)
    requires 1 <= page <= MAX_PAGES
    ensures r.None? ==> page < MAX_PAGES
  {
    if provider(page).Err? then Some(Err(provider(page).error))
    else
      var report := provider(page).value;
      var count := |Grouped(Received(provider, page))|;
      if !Stable(provider, page) then Some(Err(PaginationTotalChanged))
      else if Repeated(provider, page) then Some(Err(DuplicatePage))
      else if !AllInDates(range, report.data) then Some(Err(RowOutsideDateRange))
      else if count > report.total then Some(Err(PaginationCountMismatch))
      else if count == report.total then Some(Finish(provider, page))
      else if report.data == [] || page == MAX_PAGES then Some(Err(IncompletePagination))
      else None
  }

  /** The loop of `run`, from a page on. */
  function IngestFrom(provider: Provider, range: Range, page: nat): Result<Ingested>
    requires 1 <= page <= MAX_PAGES
    decreases MAX_PAGES - page
  {
    var outcome := AfterPage(provider, range, page);
    if outcome.Some? then outcome.value else IngestFrom(provider, range, page + 1)
  }

  lemma {:induction false} GroupedConcat(rows: seq<Item>, more: seq<Item>, k: nat)
    requires k < |more|
    ensures Grouped(rows + more[..k + 1]) == AddRow(Grouped(rows + more[..k]), more[k])
  {
    hide AddRow, FindGroup;
    var all := rows + more[..k + 1];
    assert all[..|all| - 1] == rows + more[..k];
    assert all[|all| - 1] == more[k];
  }

  lemma AmountConcat(rows: seq<Item>, more: seq<Item>, k: nat)
    requires k < |more|
    ensures Amount(rows + more[..k + 1]) == Amount(rows + more[..k]) + BigIntOf(more[k].commission)
  {
    assert rows + more[..k + 1] == (rows + more[..k]) + [more[k]];
    SumAppend(rows + more[..k], more[k], CommissionVnd());
  }

  /** Adding a page's rows to the groups and the commission total. */
  method TakePage(ghost rows: seq<Item>, data: seq<Item>, groups0: seq<Group>, commission0: nat)
      returns (groups: seq<Group>, commission: nat)
    requires groups0 == Grouped(rows) && commission0 == Amount(rows)
    ensures groups == Grouped(rows + data) && commission == Amount(rows + data)
  {
    groups, commission := groups0, commission0;
    assert rows + data[..0] == rows;
    for k := 0 to |data|
      invariant groups == Grouped(rows + data[..k])
      invariant commission == Amount(rows + data[..k])
    {
      GroupedConcat(rows, data, k);
      AmountConcat(rows, data, k);
      var row := data[k];
      var at := FindGroup(groups, row.checkoutId);
      if at.Some? {
        groups := groups[at.value := Group(row.checkoutId, groups[at.value].rows + [row])];
      } else {
        groups := groups + [Group(row.checkoutId, [row])];
      }
      commission := commission + BigIntOf(row.commission);
    }
    assert data[..|data|] == data;
  }

  /** What `run` keeps from page to page. */
  datatype Progress = Progress(groups: seq<Group>, seenPages: set<seq<Item>>, total: Option<nat>,
                               summary: Option<Summary>, received: nat, commission: nat)

  /** The progress says what the first `n` pages held. */
  predicate Reflects(s: Progress, provider: Provider, n: nat) {
    && s.groups == Grouped(Received(provider, n))
    && s.seenPages == Seen(provider, n)
    && s.received == |Received(provider, n)|
    && s.commission == Amount(Received(provider, n))
    && (if n == 0 then s.total == None && s.summary == None
        else provider(n).Ok?
             && s.total == Some(provider(n).value.total) && s.summary == Some(provider(n).value.summary))
  }

  /** One turn of the loop of `run`. */
  method TakeReport(provider: Provider, range: Range, page: nat, s: Progress)
      returns (t: Progress, outcome: Option<Result<Ingested>>)
    requires 1 <= page <= MAX_PAGES && Reflects(s, provider, page - 1)
    ensures outcome == AfterPage(provider, range, page)
    ensures outcome == None ==> Reflects(t, provider, page)
  {
    hide AddRow, FindGroup, Grouped, Finish, BigIntOf, Sum, CommissionVnd, Amount, Received, Seen, AllInDates;
    t := s;
    var fetched := provider(page);
    if fetched.Err? { return t, Some(Err(fetched.error)); }
    var report := fetched.value;
    ReceivedPage(provider, page);
    if s.total.Some? && (s.total != Some(report.total) || s.summary != Some(report.summary)) {
      return t, Some(Err(PaginationTotalChanged));
    }
    t := t.(total := Some(report.total), summary := Some(report.summary));
    if report.data != [] && report.data in t.seenPages { return t, Some(Err(DuplicatePage)); }
    t := t.(seenPages := t.seenPages + {report.data});
    if !AllInDates(range, report.data) { return t, Some(Err(RowOutsideDateRange)); }
    var groups, commission := TakePage(Received(provider, page - 1), report.data, t.groups, t.commission);
    t := t.(groups := groups, commission := commission, received := t.received + |report.data|);
    if |t.groups| > report.total { return t, Some(Err(PaginationCountMismatch)); }
    if |t.groups| == report.total {
      FinishExact(provider, page);
      var difference := ValidateSummary(t.commission, report.summary.estimatedTotalCommission);
      if difference.Err? { return t, Some(Err(difference.error)); }
      return t, Some(Ok(Ingested(t.groups, t.received, difference.value)));
    }
    if report.data == [] || page == MAX_PAGES { return t, Some(Err(IncompletePagination)); }
    return t, None;
  }

  /** The ingest part of `run`. */
  method RunIngest(provider: Provider, range: Range) returns (r: Result<Ingested>)
    ensures r == IngestFrom(provider, range, 1)
  {
    var s := Progress([], {}, None, None, 0, 0);
    var outcome: Option<Result<Ingested>>;
    var page: nat := 1;
    ghost var goal := IngestFrom(provider, range, 1);
    ReflectsNothing(provider);
    hide IngestFrom, AfterPage, Reflects;
    while true
      invariant 1 <= page <= MAX_PAGES
      invariant goal == IngestFrom(provider, range, page)
      invariant Reflects(s, provider, page - 1)
      decreases MAX_PAGES - page
    {
      s, outcome := TakeReport(provider, range, page, s);
      IngestPage(provider, range, page);
      if outcome.Some? { return outcome.value; }
      page := page + 1;
    }
  }

  lemma ReflectsNothing(provider: Provider)
    ensures Reflects(Progress([], {}, None, None, 0, 0), provider, 0)
  {
  }

  lemma IngestPage(provider: Provider, range: Range, page: nat)
    requires 1 <= page <= MAX_PAGES
    ensures var outcome := AfterPage(provider, range, page);
      IngestFrom(provider, range, page) ==
        if outcome.Some? then outcome.value else IngestFrom(provider, range, page + 1)
  {
    hide AfterPage;
  }

  lemma ReceivedPage(provider: Provider, page: nat)
    requires page >= 1 && provider(page).Ok?
    ensures Received(provider, page) == Received(provider, page - 1) + provider(page).value.data
    ensures Seen(provider, page) == Seen(provider, page - 1) + {provider(page).value.data}
  {
  }

  lemma FinishExact(provider: Provider, page: nat)
    requires page >= 1 && provider(page).Ok?
    ensures var rows := Received(provider, page);
      var difference := ValidateSummary(Amount(rows), provider(page).value.summary.estimatedTotalCommission);
      Finish(provider, page)
        == if difference.Err? then Err(difference.error) else Ok(Ingested(Grouped(rows), |rows|, difference.value))
  {
  }

  // ---------- What the loop asks of the pages ----------

  /** A later page reports the same total and the same summary. */
  ghost predicate SameReport(provider: Provider, page: nat)
    requires provider(page).Ok?
  {
    page > 1 && provider(page - 1).Ok? ==>
      && provider(page - 1).value.total == provider(page).value.total
      && provider(page - 1).value.summary == provider(page).value.summary
  }

  /** An earlier page held the same rows. */
  ghost predicate SeenBefore(provider: Provider, page: nat)
    requires provider(page).Ok?
  {
    provider(page).value.data != []
    && exists q :: 1 <= q < page && provider(q).Ok? && provider(q).value.data == provider(page).value.data
  }

  /** The purchase falls on a day of the range, in Vietnam time: 25200 seconds ahead of UTC. */
  predicate Bought(range: Range, r: Item) {
    range.start * 86400 <= r.purchaseTime + 25200 < (range.end + 1) * 86400
  }

  ghost predicate PageOk(provider: Provider, range: Range, page: nat) {
    && provider(page).Ok?
    && SameReport(provider, page)
    && !SeenBefore(provider, page)
    && (forall r :: r in provider(page).value.data ==> Bought(range, r))
  }

  /** The loop goes on after this page. */
  ghost predicate Continues(provider: Provider, range: Range, page: nat) {
    && PageOk(provider, range, page)
    && |Grouped(Received(provider, page))| < provider(page).value.total
    && provider(page).value.data != []
    && page < 10000
  }

  /** How far the rows received are from the total the page reports. */
  ghost function Difference(provider: Provider, page: nat): int
    requires provider(page).Ok?
  {
    Amount(Received(provider, page)) - BigIntOf(provider(page).value.summary.estimatedTotalCommission)
  }

  /** The loop ends well with this page. */
  ghost predicate Completes(provider: Provider, range: Range, page: nat) {
    && PageOk(provider, range, page)
    && |Grouped(Received(provider, page))| == provider(page).value.total
    && -99 <= Difference(provider, page) <= 99
  }

  ghost predicate CompletesAt(provider: Provider, range: Range, from: nat, n: nat) {
    && from <= n <= 10000
    && Completes(provider, range, n)
    && (forall q :: from <= q < n ==> Continues(provider, range, q))
  }

  /** Why the loop gives up on a page; the first reason met decides. */
  ghost function PageError(provider: Provider, range: Range, page: nat): Error {
    if provider(page).Err? then provider(page).error
    else if !SameReport(provider, page) then PaginationTotalChanged
    else if SeenBefore(provider, page) then DuplicatePage
    else if exists r :: r in provider(page).value.data && !Bought(range, r) then RowOutsideDateRange
    else if |Grouped(Received(provider, page))| > provider(page).value.total then PaginationCountMismatch
    else if |Grouped(Received(provider, page))| == provider(page).value.total then SummaryCommissionMismatch
    else IncompletePagination
  }

  ghost predicate FailsAt(provider: Provider, range: Range, from: nat, n: nat) {
    && from <= n <= 10000
    && !Completes(provider, range, n) && !Continues(provider, range, n)
    && (forall q :: from <= q < n ==> Continues(provider, range, q))
  }

  lemma {:induction false} SeenExact(provider: Provider, n: nat, data: seq<Item>)
    ensures data in Seen(provider, n) <==> exists q :: 1 <= q <= n && DataOf(provider, q) == data
    decreases n
  {
    if n > 0 { SeenExact(provider, n - 1, data); }
  }

  lemma DayExact(range: Range, r: Item)
    ensures InDates(range, r) <==> Bought(range, r)
  {
  }

  /** The checks of a page are the ones of the loop. */
  lemma PageChecks(provider: Provider, range: Range, page: nat)
    requires page >= 1 && provider(page).Ok?
    ensures Stable(provider, page) <==> SameReport(provider, page)
    ensures Repeated(provider, page) <==> SeenBefore(provider, page)
    ensures AllInDates(range, provider(page).value.data) <==>
      forall r :: r in provider(page).value.data ==> Bought(range, r)
  {
    var data := provider(page).value.data;
    SeenExact(provider, page - 1, data);
    if SeenBefore(provider, page) {
      var q :| 1 <= q < page && provider(q).Ok? && provider(q).value.data == data;
      assert DataOf(provider, q) == data;
    }
    if Repeated(provider, page) {
      var q :| 1 <= q <= page - 1 && DataOf(provider, q) == data;
      assert provider(q).Ok?;
    }
    forall r ensures InDates(range, r) <==> Bought(range, r) { DayExact(range, r); }
    hide InDates, Bought;
  }

  /** What the loop makes of one page. */
  lemma PageOutcome(provider: Provider, range: Range, page: nat)
    requires 1 <= page <= 10000
    ensures Continues(provider, range, page) <==> AfterPage(provider, range, page) == None
    ensures Completes(provider, range, page) ==>
      AfterPage(provider, range, page) ==
        Some(Ok(Ingested(Grouped(Received(provider, page)), |Received(provider, page)|, Difference(provider, page))))
    ensures !Completes(provider, range, page) && !Continues(provider, range, page) ==>
      AfterPage(provider, range, page) == Some(Err(PageError(provider, range, page)))
  {
    hide Stable, Repeated, AllInDates, Grouped, Received, SameReport, SeenBefore, Bought, Amount, BigIntOf;
    if provider(page).Ok? { PageChecks(provider, range, page); }
  }

  /**
   * The loop succeeds exactly when some page completes the report and every page before it goes on, and
   * then hands over the rows of all these pages; it fails at the first page that does neither, and says why.
   */
  lemma {:induction false} IngestExact(provider: Provider, range: Range, page: nat)
    requires 1 <= page <= 10000
    ensures IngestFrom(provider, range, page).Ok? <==> exists n: nat :: CompletesAt(provider, range, page, n)
    ensures forall n: nat :: CompletesAt(provider, range, page, n) ==>
      IngestFrom(provider, range, page) ==
        Ok(Ingested(Grouped(Received(provider, n)), |Received(provider, n)|, Difference(provider, n)))
    ensures IngestFrom(provider, range, page).Err? ==>
      exists n: nat :: FailsAt(provider, range, page, n)
        && IngestFrom(provider, range, page) == Err(PageError(provider, range, n))
    decreases 10000 - page
  {
    hide AfterPage, Continues, Completes, PageError, Grouped, Received, Difference;
    IngestPage(provider, range, page);
    PageOutcome(provider, range, page);
    Exclusive(provider, range, page);
    if Continues(provider, range, page) {
      IngestExact(provider, range, page + 1);
      forall n: nat
        ensures CompletesAt(provider, range, page, n) <==> CompletesAt(provider, range, page + 1, n)
        ensures FailsAt(provider, range, page + 1, n) ==> FailsAt(provider, range, page, n)
      {
        CompletesLater(provider, range, page, n);
      }
      if IngestFrom(provider, range, page + 1).Ok? {
        var n: nat :| CompletesAt(provider, range, page + 1, n);
        assert CompletesAt(provider, range, page, n);
      } else {
        var n: nat :| FailsAt(provider, range, page + 1, n)
          && IngestFrom(provider, range, page + 1) == Err(PageError(provider, range, n));
        assert FailsAt(provider, range, page, n);
      }
    } else {
      forall n: nat | CompletesAt(provider, range, page, n) ensures n == page {
        CompletesHere(provider, range, page, n);
      }
      if Completes(provider, range, page) {
        assert CompletesAt(provider, range, page, page);
      } else {
        assert FailsAt(provider, range, page, page);
      }
    }
  }

  lemma Exclusive(provider: Provider, range: Range, page: nat)
    ensures !(Completes(provider, range, page) && Continues(provider, range, page))
    ensures Continues(provider, range, page) ==> page < 10000
  {
    hide PageOk, Grouped, Received;
  }

  lemma CompletesHere(provider: Provider, range: Range, page: nat, n: nat)
    requires !Continues(provider, range, page) && CompletesAt(provider, range, page, n)
    ensures n == page
  {
    hide Continues, Completes;
  }

  lemma CompletesLater(provider: Provider, range: Range, page: nat, n: nat)
    requires Continues(provider, range, page)
    ensures CompletesAt(provider, range, page, n) <==> CompletesAt(provider, range, page + 1, n)
    ensures FailsAt(provider, range, page + 1, n) ==> FailsAt(provider, range, page, n)
  {
    Exclusive(provider, range, page);
    hide Continues, Completes;
    if CompletesAt(provider, range, page + 1, n) || FailsAt(provider, range, page + 1, n) {
      forall q: nat | page <= q < n ensures Continues(provider, range, q) {
      }
    }
  }

  // ---------- Groups ----------

  ghost predicate UniqueGroups(groups: seq<Group>) {
    forall i, j :: 0 <= i < j < |groups| ==> groups[i].checkoutId != groups[j].checkoutId
  }

  /** The groups hold exactly the rows, by checkout, in order. */
  ghost predicate Partitions(groups: seq<Group>, rows: seq<Item>) {
    && UniqueGroups(groups)
    && (forall i :: 0 <= i < |groups| ==> groups[i].rows != [] && groups[i].rows == RowsOf(rows, groups[i].checkoutId))
    && (forall k :: 0 <= k < |rows| ==> FindGroup(groups, rows[k].checkoutId).Some?)
  }

  lemma AddRowPartitions(groups: seq<Group>, rows: seq<Item>, row: Item)
    requires Partitions(groups, rows)
    ensures Partitions(AddRow(groups, row), rows + [row])
  {
    var groups', all := AddRow(groups, row), rows + [row];
    assert all[..|all| - 1] == rows;
    var at := FindGroup(groups, row.checkoutId);
    if at.None? { NoRows(groups, rows, row.checkoutId); }
    forall i | 0 <= i < |groups'|
      ensures groups'[i].rows != [] && groups'[i].rows == RowsOf(all, groups'[i].checkoutId)
    {
    }
    forall k | 0 <= k < |all| ensures FindGroup(groups', all[k].checkoutId).Some? {
      if k < |rows| {
        var i := FindGroup(groups, rows[k].checkoutId).value;
        assert groups'[i].checkoutId == rows[k].checkoutId;
      } else {
        assert groups'[if at.Some? then at.value else |groups|].checkoutId == row.checkoutId;
      }
    }
  }

  lemma {:induction false} NoRows(groups: seq<Group>, rows: seq<Item>, checkoutId: string)
    requires FindGroup(groups, checkoutId).None?
    requires forall k :: 0 <= k < |rows| ==> FindGroup(groups, rows[k].checkoutId).Some?
    ensures RowsOf(rows, checkoutId) == []
    decreases |rows|
  {
    if rows != [] {
      assert FindGroup(groups, rows[|rows| - 1].checkoutId).Some?;
      NoRows(groups, rows[..|rows| - 1], checkoutId);
    }
  }

  /** Grouping partitions the rows by checkout, keeping their order. */
  lemma {:induction false} GroupedPartitions(rows: seq<Item>)
    ensures Partitions(Grouped(rows), rows)
    decreases |rows|
  {
    if rows != [] {
      var n := |rows| - 1;
      GroupedPartitions(rows[..n]);
      AddRowPartitions(Grouped(rows[..n]), rows[..n], rows[n]);
      assert rows == rows[..n] + [rows[n]];
    }
  }

  function GroupAmount(): Group -> int {
    (g: Group) => Amount(g.rows)
  }

  lemma AddRowAmount(groups: seq<Group>, row: Item)
    ensures Sum(AddRow(groups, row), GroupAmount()) == Sum(groups, GroupAmount()) + BigIntOf(row.commission)
  {
    hide Sum, BigIntOf;
    var at := FindGroup(groups, row.checkoutId);
    var rows := if at.Some? then groups[at.value].rows else [];
    var g := Group(row.checkoutId, rows + [row]);
    assert Amount([]) == 0 by { EmptyAmount(); }
    SumAppend(rows, row, CommissionVnd());
    assert GroupAmount()(g) == Amount(rows) + BigIntOf(row.commission);
    if at.Some? {
      SumUpdate(groups, at.value, g, GroupAmount());
    } else {
      assert [] + [row] == [row];
      SumAppend(groups, g, GroupAmount());
    }
  }

  lemma EmptyAmount()
    ensures Amount([]) == 0
  {
  }

  /** The groups' amounts add up to the rows' commission. */
  lemma {:induction false} GroupedAmount(rows: seq<Item>)
    ensures Sum(Grouped(rows), GroupAmount()) == Amount(rows)
    decreases |rows|
  {
    hide AddRow, FindGroup, BigIntOf;
    if rows != [] {
      var n := |rows| - 1;
      GroupedAmount(rows[..n]);
      AddRowAmount(Grouped(rows[..n]), rows[n]);
      assert rows == rows[..n] + [rows[n]];
      SumAppend(rows[..n], rows[n], CommissionVnd());
    }
  }

  lemma {:induction false} ReceivedInDates(provider: Provider, range: Range, n: nat)
    requires forall q :: 1 <= q <= n ==> PageOk(provider, range, q)
    ensures forall r :: r in Received(provider, n) ==> Bought(range, r)
    decreases n
  {
    hide Bought;
    if n > 0 {
      ReceivedInDates(provider, range, n - 1);
      assert PageOk(provider, range, n);
    }
  }

  lemma {:induction false} StableThroughout(provider: Provider, range: Range, n: nat, q: nat)
    requires 1 <= q <= n && forall p :: 1 <= p <= n ==> PageOk(provider, range, p)
    ensures provider(q).Ok? && provider(n).Ok?
    ensures provider(q).value.total == provider(n).value.total
    ensures provider(q).value.summary == provider(n).value.summary
    decreases n - q
  {
    hide Bought;
    if q < n {
      assert PageOk(provider, range, q) && PageOk(provider, range, q + 1);
      StableThroughout(provider, range, n, q + 1);
    }
  }

  /**
   * What reaches publish. Every row received is in exactly one group, in order; no group is empty; there
   * are as many groups as every page reported; no page was taken twice; all purchases fall on the days of
   * the range, in Vietnam time; and the commissions that inspection will find in the groups differ by at
   * most 99 VND from the total every page reported.
   */
  lemma IngestGuarantee(provider: Provider, range: Range) returns (n: nat)
    requires IngestFrom(provider, range, 1).Ok?
    ensures var r := IngestFrom(provider, range, 1).value; var rows := Received(provider, n);
      && 1 <= n <= 10000
      && Partitions(r.groups, rows)
      && r.received == |rows|
      && (forall row :: row in rows ==>
            range.start * 86400 <= row.purchaseTime + 25200 < (range.end + 1) * 86400)
      && (forall q :: 1 <= q <= n ==>
            && provider(q).Ok?
            && provider(q).value.total == |r.groups|
            && r.difference ==
                 Sum(r.groups, GroupAmount()) - BigIntOf(provider(q).value.summary.estimatedTotalCommission))
      && (forall p, q :: 1 <= p < q <= n && provider(q).value.data != [] ==>
            provider(p).value.data != provider(q).value.data)
      && -99 <= r.difference <= 99
  {
    IngestExact(provider, range, 1);
    n :| CompletesAt(provider, range, 1, n);
    hide IngestFrom, SameReport, Grouped, Received, Bought, BigIntOf;
    var rows := Received(provider, n);
    GroupedPartitions(rows);
    GroupedAmount(rows);
    forall q | 1 <= q <= n ensures PageOk(provider, range, q) {
      assert q < n ==> Continues(provider, range, q);
    }
    ReceivedInDates(provider, range, n);
    forall row | row in rows
      ensures range.start * 86400 <= row.purchaseTime + 25200 < (range.end + 1) * 86400
    {
      BoughtMeans(range, row);
    }
    forall q | 1 <= q <= n
      ensures provider(q).Ok? && provider(q).value.total == |Grouped(rows)|
        && provider(q).value.summary == provider(n).value.summary
    {
      StableThroughout(provider, range, n, q);
    }
    forall p, q | 1 <= p < q <= n && provider(q).value.data != []
      ensures provider(p).value.data != provider(q).value.data
    {
      assert PageOk(provider, range, p) && PageOk(provider, range, q);
    }
  }

  lemma BoughtMeans(range: Range, r: Item)
    requires Bought(range, r)
    ensures range.start * 86400 <= r.purchaseTime + 25200 < (range.end + 1) * 86400
  {
  }
}
