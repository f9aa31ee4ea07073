/** The payment gate: which provider rows count as paid. */
module Payment {
  import opened Prelude
  import opened Text
  import opened Contract

  /** Configuration and foreign functions, fixed for a run. */
  datatype Env = Env(
    /** ADDLIVETAG_PAID_COMMISSION_STATUSES. */
    paidStatuses: string,
    /** Trimming and NFC normalisation of a label. */
    normalize: string -> string,
    /** `JSON.stringify` of a row. */
    json: Item -> string,
    /** The item id in a product URL, if the URL parses and carries one. */
    itemId: string -> Option<string>,
    settlementEnabled: bool,
    withdrawalsEnabled: bool)

  datatype PaymentState = Pending | Rejected | Paid | Unknown

  const REJECTED_LABEL := "Không hợp lệ"
  const PENDING_LABELS := ["Chờ trả hoa hồng", "Chưa chốt"]

  function Labels(env: Env, parts: seq<string>): seq<string> {
    if parts == [] then []
    else
      var rest := Labels(env, parts[1..]);
      if env.normalize(parts[0]) == "" then rest else [env.normalize(parts[0])] + rest
  }

  function PaidLabels(env: Env): seq<string> {
    Labels(env, Split(env.paidStatuses, '|'))
  }

  /** `commissionPaymentState(status)`. */
  function PaymentStateOf(env: Env, status: string): PaymentState {
    var text := env.normalize(status);
    if text == REJECTED_LABEL then Rejected
    else if text in PaidLabels(env) then Paid
    else if text in PENDING_LABELS then Pending
    else Unknown
  }

  /** The labels an operator configured, empty ones aside. */
  lemma {:induction false} LabelsExact(env: Env, parts: seq<string>, text: string)
    ensures text in Labels(env, parts) <==> text != "" && exists p :: p in parts && env.normalize(p) == text
    decreases |parts|
  {
    if parts != [] {
      LabelsExact(env, parts[1..], text);
      assert parts == [parts[0]] + parts[1..];
      assert forall p :: p in parts <==> p == parts[0] || p in parts[1..];
    }
  }

  /** The operator configured the label, empty ones aside. */
  ghost predicate Configured(env: Env, text: string) {
    text != "" && exists p :: p in Split(env.paidStatuses, '|') && env.normalize(p) == text
  }

  ghost predicate MeansRejected(env: Env, status: string) {
    env.normalize(status) == "Không hợp lệ"
  }

  /** Money arrives under configured labels only, and never under the rejected one. */
  ghost predicate MeansPaid(env: Env, status: string) {
    env.normalize(status) != "Không hợp lệ" && Configured(env, env.normalize(status))
  }

  ghost predicate MeansPending(env: Env, status: string) {
    && (env.normalize(status) == "Chờ trả hoa hồng" || env.normalize(status) == "Chưa chốt")
    && !Configured(env, env.normalize(status))
  }

  /** What each label means, for any configuration; a label that means nothing is unknown. */
  lemma LabelMeans(env: Env, status: string)
    ensures PaymentStateOf(env, status).Rejected? <==> MeansRejected(env, status)
    ensures PaymentStateOf(env, status).Paid? <==> MeansPaid(env, status)
    ensures PaymentStateOf(env, status).Pending? <==> MeansPending(env, status)
    ensures PaymentStateOf(env, status).Unknown? <==>
      !MeansRejected(env, status) && !MeansPaid(env, status) && !MeansPending(env, status)
  {
    PendingLabels(env.normalize(status));
    LabelsExact(env, Split(env.paidStatuses, '|'), env.normalize(status));
  }

  /** The two pending labels, told apart from the rejected one. */
  lemma PendingLabels(text: string)
    ensures text in PENDING_LABELS <==> text == "Chờ trả hoa hồng" || text == "Chưa chốt"
    ensures text in PENDING_LABELS ==> text != "Không hợp lệ" && text != ""
  {
    assert PENDING_LABELS == ["Chờ trả hoa hồng", "Chưa chốt"];
    assert PENDING_LABELS[0][0] == 'C' && PENDING_LABELS[1][0] == 'C' && "Không hợp lệ"[0] == 'K';
  }

  /** The operator configured no label that means a pending commission. */
  ghost predicate NoPendingConfigured(env: Env) {
    forall p :: p in Split(env.paidStatuses, '|') ==>
      env.normalize(p) != "Chờ trả hoa hồng" && env.normalize(p) != "Chưa chốt"
  }

  /**
   * A label known to be rejected is never paid, whatever is configured. A label known to be pending stays
   * unpaid exactly when it is not configured as a paid one.
   */
  lemma KnownLabels(env: Env)
    ensures forall s :: env.normalize(s) == "Không hợp lệ" ==> PaymentStateOf(env, s) == Rejected
    ensures (forall s :: env.normalize(s) == "Chờ trả hoa hồng" || env.normalize(s) == "Chưa chốt" ==>
               PaymentStateOf(env, s) == Pending) <==>
      NoPendingConfigured(env)
  {
    hide PaymentStateOf;
    forall s
      ensures MeansRejected(env, s) ==> PaymentStateOf(env, s) == Rejected
      ensures PaymentStateOf(env, s) == Pending <==> MeansPending(env, s)
    {
      LabelMeans(env, s);
    }
    if p :| p in Split(env.paidStatuses, '|') && env.normalize(p) in ["Chờ trả hoa hồng", "Chưa chốt"] {
      PendingLabels(env.normalize(p));
      assert PaymentStateOf(env, p) != Pending;
    }
  }

  /** Configured that way, a pending label does count as paid. */
  lemma PendingCanBeConfigured(env: Env)
    requires env.paidStatuses == PENDING_LABELS[1] && env.normalize(PENDING_LABELS[1]) == PENDING_LABELS[1]
    ensures PaymentStateOf(env, PENDING_LABELS[1]) == Paid
  {
    var text := PENDING_LABELS[1];
    assert '|' !in text;
    assert REJECTED_LABEL[0] != text[0];
    SplitOne(text, '|');
    LabelsExact(env, [text], text);
  }

  /** The provider's order status, read from `status_code`. */
  datatype Code = Completed | PaidOut | Cancelled | Other

  function CodeOf(r: Item): Code {
    if r.statusCode == "completed" then Completed
    else if r.statusCode == "paid" then PaidOut
    else if r.statusCode == "cancelled" then Cancelled
    else Other
  }

  function RowState(env: Env, r: Item): PaymentState {
    PaymentStateOf(env, r.commissionStatus)
  }

  datatype PaymentBlocker =
    | MissingProviderItems
    | CancelledWithCommission
    | UnknownProviderStatus
    | CommissionNot(state: PaymentState)
    | NoCompletedItems

  predicate Counts(r: Item) {
    CodeOf(r).Completed? || CodeOf(r).PaidOut?
  }

  /** What one row adds to the blockers. */
  function RowBlocker(env: Env, r: Item): Option<PaymentBlocker> {
    match CodeOf(r)
    case Cancelled => if r.commission != "0" then Some(CancelledWithCommission) else None
    case Other => Some(UnknownProviderStatus)
    case _ => if RowState(env, r) != Paid then Some(CommissionNot(RowState(env, r))) else None
  }

  function RowsBlockers(env: Env, rows: seq<Item>): seq<PaymentBlocker> {
    if rows == [] then []
    else
      var n := |rows| - 1;
      var before := RowsBlockers(env, rows[..n]);
      match RowBlocker(env, rows[n])
      case None => before
      case Some(b) => Add(before, b)
  }

  /** `paymentBlockers(payload)`, in the order the set was filled. */
  function PaymentBlockers(env: Env, rows: seq<Item>): seq<PaymentBlocker> {
    if rows == [] then [MissingProviderItems]
    else AddIf(RowsBlockers(env, rows), forall r :: r in rows ==> !Counts(r), NoCompletedItems)
  }

  /** Every blocker comes from some row. */
  lemma {:induction false} RowsBlockersExact(env: Env, rows: seq<Item>, b: PaymentBlocker)
    ensures b in RowsBlockers(env, rows) <==> exists r :: r in rows && RowBlocker(env, r) == Some(b)
    decreases |rows|
  {
    hide RowBlocker;
    if rows != [] {
      var n := |rows| - 1;
      RowsBlockersExact(env, rows[..n], b);
      assert rows == rows[..n] + [rows[n]];
      assert forall r :: r in rows <==> r in rows[..n] || r == rows[n];
    }
  }

  lemma RowsBlockersStep(env: Env, rows: seq<Item>, k: nat)
    requires k < |rows|
    ensures var before := RowsBlockers(env, rows[..k]);
      RowsBlockers(env, rows[..k + 1]) ==
        match RowBlocker(env, rows[k]) { case None => before case Some(b) => Add(before, b) }
  {
    assert rows[..k + 1][..k] == rows[..k];
  }

  predicate CountsUpTo(rows: seq<Item>, k: nat)
    requires k <= |rows|
  {
    exists j :: 0 <= j < k && Counts(rows[j])
  }

  method FindPaymentBlockers(env: Env, rows: seq<Item>) returns (blockers: seq<PaymentBlocker>)
    ensures blockers == PaymentBlockers(env, rows)
  {
    if rows == [] {
      return [MissingProviderItems];
    }
    blockers := [];
    var completed := 0;
    for k := 0 to |rows|
      invariant blockers == RowsBlockers(env, rows[..k])
      invariant completed >= 0
      invariant completed > 0 <==> CountsUpTo(rows, k)
    {
      var row := rows[k];
      RowsBlockersStep(env, rows, k);
      if CodeOf(row) == Cancelled {
        if row.commission != "0" { blockers := Add(blockers, CancelledWithCommission); }
      } else if CodeOf(row) != Completed && CodeOf(row) != PaidOut {
        blockers := Add(blockers, UnknownProviderStatus);
      } else {
        completed := completed + 1;
        assert Counts(rows[k]);
        var state := RowState(env, row);
        if state != Paid { blockers := Add(blockers, CommissionNot(state)); }
      }
    }
    assert rows[..|rows|] == rows;
    blockers := AddIf(blockers, completed == 0, NoCompletedItems);
  }

  /** A cancelled row worth nothing. */
  predicate Void(r: Item) {
    r.statusCode == "cancelled" && r.commission == "0"
  }

  /** A completed or paid row under a verified paid label. */
  ghost predicate Payable(env: Env, r: Item) {
    (r.statusCode == "completed" || r.statusCode == "paid") && MeansPaid(env, r.commissionStatus)
  }

  ghost predicate FullyPaid(env: Env, rows: seq<Item>) {
    && (forall r :: r in rows ==> Void(r) || Payable(env, r))
    && (exists r :: r in rows && Payable(env, r))
  }

  /** What a blocker says about the rows. */
  ghost predicate RowsBlock(env: Env, rows: seq<Item>, b: PaymentBlocker) {
    match b
    case MissingProviderItems => rows == []
    case CancelledWithCommission => exists r :: r in rows && r.statusCode == "cancelled" && r.commission != "0"
    case UnknownProviderStatus =>
      exists r :: r in rows && r.statusCode != "cancelled" && r.statusCode != "completed" && r.statusCode != "paid"
    case CommissionNot(state) =>
      && !state.Paid?
      && (exists r :: r in rows && r.statusCode in ["completed", "paid"] && Means(env, r.commissionStatus, state))
    case NoCompletedItems =>
      rows != [] && forall r :: r in rows ==> r.statusCode != "completed" && r.statusCode != "paid"
  }

  ghost predicate Means(env: Env, status: string, state: PaymentState) {
    match state
    case Paid => MeansPaid(env, status)
    case Rejected => MeansRejected(env, status)
    case Pending => MeansPending(env, status)
    case Unknown => !MeansPaid(env, status) && !MeansRejected(env, status) && !MeansPending(env, status)
  }

  /** What one row adds, in terms of the row. */
  lemma RowBlockerExact(env: Env, r: Item, b: PaymentBlocker)
    ensures RowBlocker(env, r) == Some(b) <==>
      || (b.CancelledWithCommission? && r.statusCode == "cancelled" && r.commission != "0")
      || (b.UnknownProviderStatus?
          && r.statusCode != "cancelled" && r.statusCode != "completed" && r.statusCode != "paid")
      || (b.CommissionNot? && !b.state.Paid? && (r.statusCode == "completed" || r.statusCode == "paid")
          && Means(env, r.commissionStatus, b.state))
  {
    hide PaymentStateOf, MeansPaid, MeansRejected, MeansPending;
    LabelMeans(env, r.commissionStatus);
  }

  /** The blockers found are exactly those that say something true about the rows. */
  lemma BlockersExact(env: Env, rows: seq<Item>, b: PaymentBlocker)
    ensures b in PaymentBlockers(env, rows) <==> RowsBlock(env, rows, b)
  {
    hide RowBlocker, RowsBlockers, Means;
    if rows != [] {
      RowsBlockersExact(env, rows, b);
      forall r ensures RowBlocker(env, r) == Some(b) <==>
        || (b.CancelledWithCommission? && r.statusCode == "cancelled" && r.commission != "0")
        || (b.UnknownProviderStatus?
            && r.statusCode != "cancelled" && r.statusCode != "completed" && r.statusCode != "paid")
        || (b.CommissionNot? && !b.state.Paid? && (r.statusCode == "completed" || r.statusCode == "paid")
            && Means(env, r.commissionStatus, b.state))
      {
        RowBlockerExact(env, r, b);
      }
    }
  }

  /** The gate opens exactly on rows that are all void or paid under configured labels, at least one paid. */
  lemma PaymentGate(env: Env, rows: seq<Item>)
    ensures PaymentBlockers(env, rows) == [] <==>
      && (forall r :: r in rows ==>
            || (r.statusCode == "cancelled" && r.commission == "0")
            || ((r.statusCode == "completed" || r.statusCode == "paid") && MeansPaid(env, r.commissionStatus)))
      && (exists r :: r in rows && (r.statusCode == "completed" || r.statusCode == "paid"))
    ensures PaymentBlockers(env, rows) == [] <==> FullyPaid(env, rows)
  {
    hide PaymentBlockers, Configured;
    forall b ensures b in PaymentBlockers(env, rows) <==> RowsBlock(env, rows, b) { BlockersExact(env, rows, b); }
    if PaymentBlockers(env, rows) != [] {
      assert PaymentBlockers(env, rows)[0] in PaymentBlockers(env, rows);
      assert RowsBlock(env, rows, PaymentBlockers(env, rows)[0]);
    } else {
      assert !RowsBlock(env, rows, MissingProviderItems) && !RowsBlock(env, rows, NoCompletedItems);
      assert !RowsBlock(env, rows, CancelledWithCommission) && !RowsBlock(env, rows, UnknownProviderStatus);
      assert !RowsBlock(env, rows, CommissionNot(Pending)) && !RowsBlock(env, rows, CommissionNot(Rejected));
      assert !RowsBlock(env, rows, CommissionNot(Unknown));
    }
  }

  /** The gate does not depend on the order of the rows. */
  lemma PaymentGatePermutation(env: Env, a: seq<Item>, b: seq<Item>)
    requires multiset(a) == multiset(b)
    ensures PaymentBlockers(env, a) == [] <==> PaymentBlockers(env, b) == []
  {
    PaymentGate(env, a);
    PaymentGate(env, b);
    assert forall r :: r in a <==> r in multiset(a);
    assert forall r :: r in b <==> r in multiset(b);
  }
}
