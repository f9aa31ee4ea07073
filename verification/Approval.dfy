/** Which checkouts a reviewer can approve, by what their rows report. */
module Approval {
  import opened Contract
  import opened Payment
  import opened Inspection
  import opened Engine

  /** A completed row, paid or still pending under a known label. */
  ghost predicate Awaited(env: Env, r: Item) {
    r.statusCode == "completed" && (MeansPaid(env, r.commissionStatus) || MeansPending(env, r.commissionStatus))
  }

  /** Every row is this affiliate's, and void, paid or awaited; at least one is completed. */
  ghost predicate Acceptable(env: Env, affiliate: string, rows: seq<Item>) {
    && (forall r :: r in rows ==> r.affiliate == affiliate && (Void(r) || Awaited(env, r)))
    && (exists r :: r in rows && r.statusCode == "completed")
  }

  /** What `review` asks of the rows, check by check. */
  ghost predicate RowChecks(env: Env, affiliate: string, rows: seq<Item>) {
    && (ConversionOf(rows).Validated? || ConversionOf(rows).PartiallyValidated?)
    && Approvable(rows, affiliate)
    && !(exists r :: r in rows && CodeOf(r).Completed? && RowState(env, r).Rejected?)
    && (forall b :: b in PaymentBlockers(env, rows) ==> b == CommissionNot(PaymentState.Pending))
  }

  lemma CompletedConversion(rows: seq<Item>, r: Item)
    requires r in rows && CodeOf(r).Completed?
    ensures ConversionOf(rows).Validated? || ConversionOf(rows).PartiallyValidated?
  {
    assert r.statusCode in Codes(rows);
  }

  lemma ConversionCompleted(rows: seq<Item>, affiliate: string)
    requires Approvable(rows, affiliate)
    requires ConversionOf(rows).Validated? || ConversionOf(rows).PartiallyValidated?
    ensures exists r :: r in rows && CodeOf(r).Completed?
  {
    PartialExact(rows);
    if ConversionOf(rows).Validated? {
      var r :| r in rows && (r.statusCode == "completed" || r.statusCode == "paid");
      assert CodeOf(r).Completed? || CodeOf(r).PaidOut?;
    }
  }

  lemma PendingOnly(env: Env, rows: seq<Item>, affiliate: string)
    requires Approvable(rows, affiliate) && exists r :: r in rows && CodeOf(r).Completed?
    ensures (forall b :: b in PaymentBlockers(env, rows) ==> b == CommissionNot(PaymentState.Pending)) <==>
      forall r :: r in rows ==> Void(r) || Awaited(env, r)
  {
    hide PaymentBlockers, Configured;
    forall b ensures b in PaymentBlockers(env, rows) <==> RowsBlock(env, rows, b) { BlockersExact(env, rows, b); }
    assert forall b :: b in PaymentBlockers(env, rows) ==> RowsBlock(env, rows, b);
    var allowed := forall b :: b in PaymentBlockers(env, rows) ==> b == CommissionNot(PaymentState.Pending);
    if allowed {
      assert !RowsBlock(env, rows, CancelledWithCommission);
      assert !RowsBlock(env, rows, CommissionNot(PaymentState.Rejected));
      assert !RowsBlock(env, rows, CommissionNot(PaymentState.Unknown));
    }
  }

  /** The checks accept exactly the acceptable rows; the status of the whole checkout decides nothing more. */
  lemma RowChecksExact(env: Env, affiliate: string, rows: seq<Item>)
    ensures RowChecks(env, affiliate, rows) <==> Acceptable(env, affiliate, rows)
  {
    hide PaymentBlockers, PaymentStateOf, ConversionOf, Configured;
    forall r | r in rows ensures RowState(env, r).Rejected? <==> MeansRejected(env, r.commissionStatus) {
      LabelMeans(env, r.commissionStatus);
    }
    if Approvable(rows, affiliate) {
      if r :| r in rows && CodeOf(r).Completed? {
        CompletedConversion(rows, r);
        PendingOnly(env, rows, affiliate);
      } else if ConversionOf(rows).Validated? || ConversionOf(rows).PartiallyValidated? {
        ConversionCompleted(rows, affiliate);
      }
    }
  }

  /** A row with the status `paid` can satisfy the payment gate, yet keeps its checkout from being approved. */
  lemma PaidOutNotAcceptable(env: Env, affiliate: string, rows: seq<Item>, r: Item)
    requires r in rows && r.statusCode == "paid"
    ensures !Acceptable(env, affiliate, rows)
    ensures MeansPaid(env, r.commissionStatus) ==> FullyPaid(env, [r])
  {
    hide MeansPaid, MeansPending;
    assert r in [r] && forall x :: x in [r] <==> x == r;
    assert r.statusCode != "completed" && r.statusCode != "cancelled";
  }
}
