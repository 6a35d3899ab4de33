/** Refunds made outside the shop: the only way in which a record settles without an accepted number. */
module OutsideRefund {
  import opened PaymentTypes
  import opened Transitions
  import opened Settlement
  import opened SettlementInvariants
  import opened RefundProtocol

  /** A record that is not settled and whose number the provider never accepted. */
  ghost predicate Unbacked(w: World, i: nat) {
    && i < |w.book.refunds| && w.book.refunds[i].Some? && w.book.refunds[i].value.status != RefundSuccess
    && w.book.refunds[i].value.outRefundNo !in w.accepted
  }

  ghost predicate StepSettles(w: World, l: Label, i: nat)
    requires Aligned(w)
  {
    var b := Step(w, l).book;
    i < |b.refunds| && b.refunds[i].Some? && b.refunds[i].value.status == RefundSuccess
  }

  /**
   * A genuine query of a readable row that matches it, reports a refund, and finds the record's purpose still valid.
   */
  predicate ReportsRefund(w: World, l: Label, i: nat)
    requires i < |w.book.payments| == |w.book.refunds| && w.book.refunds[i].Some?
  {
    && l.Local? && l.t.TxQuery? && l.t.i == i && !l.t.args.confirmUnissued
    && ParsesMethod(w.book.payments[i].payChannel)
    && l.t.result.state == TradeRefund && ValidateProviderResult(w.book.payments[i], l.t.result) == NoReason
    && Honest(w, l.t)
    && ValidRefundSettlement(w.book.refunds[i].value.purpose, w.book.order.status, w.book.order.paid,
                             w.book.payments[i].id)
  }

  lemma QuerySettlesIff(w: World, t: Tx, i: nat)
    requires WorldInv(w) && Unbacked(w, i) && !IsRefundTx(t) && Honest(w, t)
    ensures StepSettles(w, Local(t), i) <==> ReportsRefund(w, Local(t), i)
  {
    assert RowInv(w.book.order, w.book.payments[i], w.book.refunds[i]);
    LocalEffects(w.book, t);
  }

  lemma ApplySettlesOther(w: World, e: nat, outcome: Outcome, i: nat)
    requires WorldInv(w) && Unbacked(w, i)
    ensures !StepSettles(w, Apply(e, outcome), i)
  {
    if e in w.execs && w.execs[e].phase == Confirmed {
      assert ExecInv(w, e) && RefersTo(w.book, w.execs[e].pay, w.execs[e].no);
      SettlesOnlyIts(w, e, outcome, i);
    }
  }

  lemma SettlesOnlyIts(w: World, e: nat, outcome: Outcome, i: nat)
    requires Aligned(w) && Unbacked(w, i) && e in w.execs && w.execs[e].pay != i
    ensures !StepSettles(w, Apply(e, outcome), i)
  {
    if SettleRefund(w.book, w.execs[e].pay).Some? { SettleShape(w.book, w.execs[e].pay); }
  }

  /** An unsettled record without an accepted number is settled by exactly one kind of step: such a query. */
  lemma SettledWithoutAcceptanceIff(w: World, l: Label, i: nat)
    requires WorldInv(w) && Unbacked(w, i)
    ensures StepSettles(w, l, i) <==> ReportsRefund(w, l, i)
  {
    if !Commits(l) {
      BookKept(w, l);
    } else {
      match l
      case Local(t) => if !IsRefundTx(t) && Honest(w, t) { QuerySettlesIff(w, t, i); }
      case Apply(e, outcome) => ApplySettlesOther(w, e, outcome, i);
      case Prepare(e, j, no, refundId) => PrepareSettlesNone(w, e, j, no, refundId, i);
      case RecordError(e, outcome) => ErrorSettlesNone(w, e, outcome, i);
    }
  }

  lemma PrepareSettlesNone(w: World, e: nat, j: nat, no: string, refundId: int, i: nat)
    requires Aligned(w) && Unbacked(w, i)
    ensures !StepSettles(w, Prepare(e, j, no, refundId), i)
  {
    if j < |w.book.payments| && PrepareRefund(w.book, j, no, refundId).Some? { PrepareShape(w.book, j, no, refundId); }
  }

  lemma ErrorSettlesNone(w: World, e: nat, outcome: Outcome, i: nat)
    requires Aligned(w) && Unbacked(w, i)
    ensures !StepSettles(w, RecordError(e, outcome), i)
  {
  }

  /** The query that reports what the provider's ledger shows for the row. */
  function RefundQuery(p: Payment, i: nat): Label {
    Local(TxQuery(i, CheckArgs(false, 0, false),
                  QueryResult(p.outTradeNo, p.payChannel, TradeRefund, p.txId, p.amount, p.currency), 0, false))
  }

  /**
   * A pending record without an accepted number can be settled by some step exactly when money went back outside the
   * shop and the method of its payment can be read.
   */
  lemma SomeStepSettlesIff(w: World, i: nat)
    requires WorldInv(w) && Unbacked(w, i) && w.book.refunds[i].value.status == RefundPending
    ensures (exists l :: StepSettles(w, l, i)) <==>
            w.trades[i].external > 0 && ParsesMethod(w.book.payments[i].payChannel)
  {
    assert TradeInv(w, i) && RowInv(w.book.order, w.book.payments[i], w.book.refunds[i]);
    var q := RefundQuery(w.book.payments[i], i);
    SettledWithoutAcceptanceIff(w, q, i);
    if l :| StepSettles(w, l, i) {
      SettledWithoutAcceptanceIff(w, l, i);
    }
    if w.trades[i].external > 0 && ParsesMethod(w.book.payments[i].payChannel) {
      assert ReportsRefund(w, q, i);
      assert StepSettles(w, q, i);
    }
  }
}
