/** What every committed transaction keeps true of an order's book. */
module SettlementInvariants {
  import opened Options
  import opened PaymentTypes
  import opened PaymentRows
  import opened Transitions
  import opened Settlement

  // -------------------------------------------------------------- invariant

  /** A payment row against its order and its refund row. */
  ghost predicate RowInv(o: Order, p: Payment, f: Option<Refund>) {
    && p.id > 0 && p.orderId == o.id && p.userId == o.userId && p.amount == o.total && p.currency == o.currency
    && (Captured(p.status) ==> o.status != PendingPayment && p.txId != "")
    && (p.status == Success && p.id != o.paid ==> NeedsReview(p.review))
    && (p.status == PaymentRefunded ==> f.Some? && ReceiptFitsOrder(p, o, f.value.purpose))
    && (f.Some? ==>
          && RefundMatches(f.value, p) && Captured(p.status)
          && (f.value.status == RefundSuccess <==> p.status == PaymentRefunded)
          && (f.value.status == RefundPending ==> ValidRefundSettlement(f.value.purpose, o.status, o.paid, p.id)))
  }

  ghost predicate Rows(b: Book) {
    && |b.payments| == |b.refunds|
    && forall i {:trigger RowInv(b.order, b.payments[i], b.refunds[i])} :: 0 <= i < |b.payments| ==>
         RowInv(b.order, b.payments[i], b.refunds[i])
  }

  ghost predicate IdsIncrease(ps: seq<Payment>) {
    forall i, j :: 0 <= i < j < |ps| ==> ps[i].id < ps[j].id
  }

  ghost predicate OneActive(ps: seq<Payment>) {
    forall i, j :: 0 <= i < j < |ps| ==> !(Active(ps[i].status) && Active(ps[j].status))
  }

  ghost predicate NumbersDistinct(fs: seq<Option<Refund>>) {
    forall i, j :: 0 <= i < j < |fs| && fs[i].Some? && fs[j].Some? ==>
      fs[i].value.outRefundNo != fs[j].value.outRefundNo
  }

  ghost predicate Keys(b: Book) {
    IdsIncrease(b.payments) && OneActive(b.payments) && NumbersDistinct(b.refunds)
  }

  /** The paying payment backs the order. */
  ghost predicate Pays(o: Order, p: Payment) {
    p.id == o.paid && p.status == if o.status == OrderRefunded then PaymentRefunded else Success
  }

  ghost predicate OrderInv(b: Book) {
    && b.order.status != Cancelling
    && (b.order.paid == 0 <==> b.order.status == PendingPayment || b.order.status == Cancelled)
    && (b.order.paid != 0 ==> exists i :: 0 <= i < |b.payments| && Pays(b.order, b.payments[i]))
    && b.restores == if b.order.status == Cancelled || b.order.status == OrderRefunded then 1 else 0
  }

  ghost predicate BookInv(b: Book) {
    Rows(b) && Keys(b) && OrderInv(b)
  }

  /** The order statuses one status may lead to. */
  ghost predicate LeadsTo(s: OrderStatus, t: OrderStatus) {
    || s == t
    || s == PendingPayment
    || (s == Paid && t in {Shipped, Completed, OrderRefunded})
    || (s == Shipped && t == Completed)
  }

  /** What no later transaction takes back. */
  ghost predicate Evolves(b: Book, c: Book) {
    && |b.payments| <= |c.payments| && |b.refunds| <= |c.refunds|
    && c.order.id == b.order.id && c.order.userId == b.order.userId && c.order.total == b.order.total
    && c.order.currency == b.order.currency
    && (b.order.paid != 0 ==> c.order.paid == b.order.paid)
    && LeadsTo(b.order.status, c.order.status)
    && (forall i :: 0 <= i < |b.payments| ==> PaymentEvolves(b.payments[i], c.payments[i]))
    && (forall i :: 0 <= i < |b.refunds| && b.refunds[i].Some? ==>
          c.refunds[i].Some? && RefundEvolves(b.refunds[i].value, c.refunds[i].value))
  }

  ghost predicate PaymentEvolves(p: Payment, q: Payment) {
    && q.id == p.id && q.amount == p.amount && q.payChannel == p.payChannel
    && (Captured(p.status) ==> Captured(q.status) && q.txId == p.txId)
    && (p.status == PaymentRefunded ==> q.status == PaymentRefunded)
  }

  ghost predicate RefundEvolves(f: Refund, g: Refund) {
    && g == f.(status := g.status)
    && (f.status == RefundSuccess ==> g.status == RefundSuccess)
  }

  ghost predicate Good(b: Book, c: Book) {
    BookInv(c) && Evolves(b, c)
  }

  // ------------------------------------------------------------ preservation

  lemma PutRows(b: Book, i: nat, q: Payment, g: Option<Refund>)
    requires Rows(b) && i < |b.payments| && RowInv(b.order, q, g)
    ensures Rows(b.(payments := b.payments[i := q], refunds := b.refunds[i := g]))
  {
  }

  lemma PutKeys(b: Book, i: nat, q: Payment, g: Option<Refund>)
    requires Keys(b) && i < |b.payments| == |b.refunds| && q.id == b.payments[i].id
    requires (Active(q.status) ==> Active(b.payments[i].status))
    requires b.refunds[i].Some? ==> g.Some? && g.value.outRefundNo == b.refunds[i].value.outRefundNo
    requires b.refunds[i].None? && g.Some? ==> !NumberTaken(b.refunds, g.value.outRefundNo)
    ensures IdsIncrease(b.payments[i := q]) && OneActive(b.payments[i := q]) && NumbersDistinct(b.refunds[i := g])
  {
  }

  /** Replacing one row keeps the rest of the book as it is. */
  lemma PutKeeps(b: Book, i: nat, q: Payment, g: Option<Refund>, cases: set<int>)
    requires BookInv(b) && i < |b.payments|
    requires RowInv(b.order, q, g) && PaymentEvolves(b.payments[i], q)
    requires Active(q.status) ==> Active(b.payments[i].status)
    requires Pays(b.order, b.payments[i]) ==> Pays(b.order, q)
    requires b.refunds[i].Some? ==> g.Some? && RefundEvolves(b.refunds[i].value, g.value)
    requires b.refunds[i].None? && g.Some? ==> !NumberTaken(b.refunds, g.value.outRefundNo)
    ensures Good(b, Book(b.order, b.payments[i := q], b.refunds[i := g], b.restores, cases))
  {
    var c := Book(b.order, b.payments[i := q], b.refunds[i := g], b.restores, cases);
    PutRows(b, i, q, g);
    assert Rows(c);
    PutKeys(b, i, q, g);
    assert OrderInv(c) by {
      if b.order.paid != 0 {
        var k :| 0 <= k < |b.payments| && Pays(b.order, b.payments[k]);
        assert Pays(c.order, c.payments[k]);
      }
    }
    assert Evolves(b, c);
  }

  /** Replacing a payment row alone. */
  lemma PutPaymentKeeps(b: Book, i: nat, q: Payment)
    requires BookInv(b) && i < |b.payments|
    requires RowInv(b.order, q, b.refunds[i]) && PaymentEvolves(b.payments[i], q)
    requires Active(q.status) ==> Active(b.payments[i].status)
    requires Pays(b.order, b.payments[i]) ==> Pays(b.order, q)
    ensures Good(b, PutPayment(b, i, q))
  {
    PutKeeps(b, i, q, b.refunds[i], b.openCases);
    assert b.refunds[i := b.refunds[i]] == b.refunds;
  }

  lemma FlagKeeps(b: Book, i: nat, reason: Reason)
    requires BookInv(b) && i < |b.payments|
    ensures Good(b, Flag(b, i, reason))
  {
    assert RowInv(b.order, b.payments[i], b.refunds[i]);
    PutPaymentKeeps(b, i, RequireReview(b.payments[i], reason));
  }

  /** A change of status among the statuses that were never captured. */
  ghost predicate Uncaptured(p: Payment, q: Payment) {
    || q == p
    || (&& q == p.(status := q.status, leaseToken := q.leaseToken, leaseUntil := q.leaseUntil)
        && !Captured(p.status) && !Captured(q.status) && (Active(q.status) ==> Active(p.status)))
  }

  lemma UncapturedRow(o: Order, p: Payment, q: Payment, f: Option<Refund>)
    requires RowInv(o, p, f) && Uncaptured(p, q)
    ensures RowInv(o, q, f) && PaymentEvolves(p, q) && (Pays(o, p) ==> Pays(o, q))
  {
  }

  lemma UncapturedKeeps(b: Book, ps: seq<Payment>)
    requires BookInv(b) && |ps| == |b.payments|
    requires forall j :: 0 <= j < |ps| ==> Uncaptured(b.payments[j], ps[j])
    ensures Good(b, b.(payments := ps))
  {
    var c := b.(payments := ps);
    forall j | 0 <= j < |ps|
      ensures RowInv(c.order, c.payments[j], c.refunds[j]) && PaymentEvolves(b.payments[j], c.payments[j])
    {
      assert RowInv(b.order, b.payments[j], b.refunds[j]);
      UncapturedRow(b.order, b.payments[j], ps[j], b.refunds[j]);
    }
    if b.order.paid != 0 {
      var k :| 0 <= k < |b.payments| && Pays(b.order, b.payments[k]);
      assert Pays(c.order, c.payments[k]);
    }
  }

  lemma RecoverKeeps(b: Book)
    requires BookInv(b)
    ensures Good(b, b.(payments := Recover(b.payments)))
  {
    UncapturedKeeps(b, Recover(b.payments));
  }

  lemma {:induction false} NewestBlockingNone(ps: seq<Payment>)
    ensures NewestBlocking(ps).None? ==>
              forall j :: 0 <= j < |ps| ==>
                !NeedsReview(ps[j].review) && !Captured(ps[j].status) && !Active(ps[j].status)
  {
    if ps != [] { NewestBlockingNone(ps[..|ps| - 1]); }
  }

  lemma CreatePaymentKeeps(b: Book, id: int, payChannel: string, outTradeNo: string, expired: bool)
    requires BookInv(b) && Enabled(b, TxCreatePayment(id, payChannel, outTradeNo, expired))
    ensures CreatePayment(b, id, payChannel, outTradeNo, expired).Some? ==>
              Good(b, CreatePayment(b, id, payChannel, outTradeNo, expired).value)
  {
    RecoverKeeps(b);
    NewestBlockingNone(Recover(b.payments));
  }

  lemma PrepayKeeps(b: Book, i: nat, u: PrepayUpdate)
    requires BookInv(b) && i < |b.payments|
    ensures ApplyPrepay(b, i, u).Some? ==> Good(b, ApplyPrepay(b, i, u).value)
  {
    assert RowInv(b.order, b.payments[i], b.refunds[i]);
    if ApplyPrepay(b, i, u).Some? {
      PutPaymentKeeps(b, i, ApplyPrepay(b, i, u).value.payments[i]);
    }
  }

  lemma ClosePendingKeeps(b: Book, i: nat, version: int)
    requires BookInv(b) && i < |b.payments|
    ensures MarkPayClosePending(b, i, version).Some? ==> Good(b, MarkPayClosePending(b, i, version).value)
  {
    assert RowInv(b.order, b.payments[i], b.refunds[i]);
    if MarkClosePending(b.payments[i]).Some? {
      PutPaymentKeeps(b, i, MarkClosePending(b.payments[i]).value);
    }
  }

  /** The first capture on a pending order makes its payment the paying one. */
  lemma FirstSuccessKeeps(b: Book, i: nat, q: Payment)
    requires BookInv(b) && i < |b.payments| && b.order.status == PendingPayment
    requires q == b.payments[i].(status := Success, txId := q.txId, leaseToken := "", leaseUntil := None)
    requires q.txId != ""
    ensures Good(b, MarkOrderPaid(PutPayment(b, i, q), q.id))
  {
    var c := MarkOrderPaid(PutPayment(b, i, q), q.id);
    assert RowInv(b.order, b.payments[i], b.refunds[i]);
    forall j | 0 <= j < |c.payments|
      ensures RowInv(c.order, c.payments[j], c.refunds[j])
    {
      assert RowInv(b.order, b.payments[j], b.refunds[j]);
    }
    assert Pays(c.order, c.payments[i]);
  }

  lemma PayerCaptured(b: Book, i: nat)
    requires OrderInv(b) && b.order.paid != 0 && i < |b.payments| && !Captured(b.payments[i].status)
    ensures OtherCaptured(b.payments, i)
  {
    var k :| 0 <= k < |b.payments| && Pays(b.order, b.payments[k]);
    assert k != i && Captured(b.payments[k].status);
  }

  /** On any other order an earlier capture pays or the order was cancelled, so the newcomer is flagged. */
  lemma LaterSuccessKeeps(b: Book, i: nat, txId: string)
    requires BookInv(b) && i < |b.payments| && txId != ""
    requires b.order.status != PendingPayment && !Captured(b.payments[i].status)
    ensures SettleSuccess(b, i, txId, false).Some? && Good(b, SettleSuccess(b, i, txId, false).value)
    ensures NeedsReview(SettleSuccess(b, i, txId, false).value.payments[i].review)
  {
    SuccessHasEffect(b, i);
    var d := DecidePaymentSuccess(b.order.status, OtherCaptured(b.payments, i));
    var q := RecordSuccess(b.payments[i], txId).value;
    var flagged := RequireReview(q, d.reason);
    assert SettleSuccess(b, i, txId, false) == Some(PutPayment(b, i, flagged)) by {
      assert b.payments[i := q][i := flagged] == b.payments[i := flagged];
    }
    assert RowInv(b.order, flagged, b.refunds[i]) by { assert RowInv(b.order, b.payments[i], b.refunds[i]); }
    PutPaymentKeeps(b, i, flagged);
  }

  lemma NothingCapturedPending(b: Book, i: nat)
    requires Rows(b) && b.order.status == PendingPayment
    ensures !OtherCaptured(b.payments, i) && NewestCaptured(b.payments).None?
    ensures i < |b.payments| ==> !Captured(b.payments[i].status)
  {
    assert forall j :: 0 <= j < |b.payments| ==> RowInv(b.order, b.payments[j], b.refunds[j]);
  }

  lemma PendingSuccess(b: Book, i: nat, txId: string)
    requires BookInv(b) && i < |b.payments| && txId != "" && b.order.status == PendingPayment
    ensures !Captured(b.payments[i].status)
    ensures SettleSuccess(b, i, txId, false) ==
              Some(MarkOrderPaid(PutPayment(b, i, RecordSuccess(b.payments[i], txId).value), b.payments[i].id))
    ensures Good(b, SettleSuccess(b, i, txId, false).value)
  {
    NothingCapturedPending(b, i);
    FirstSuccessKeeps(b, i, RecordSuccess(b.payments[i], txId).value);
  }

  /** The decision on a first success always has an effect. */
  lemma SuccessHasEffect(b: Book, i: nat)
    requires BookInv(b) && i < |b.payments| && !Captured(b.payments[i].status)
    ensures var d := DecidePaymentSuccess(b.order.status, OtherCaptured(b.payments, i));
            d.Decided? && (d.markOrderPaid || d.reason != NoReason)
  {
    if b.order.status == PendingPayment {
      NothingCapturedPending(b, i);
    } else if b.order.paid != 0 {
      PayerCaptured(b, i);
    }
  }

  lemma SuccessKeeps(b: Book, i: nat, txId: string, txTaken: bool)
    requires BookInv(b) && i < |b.payments|
    ensures SettleSuccess(b, i, txId, txTaken).Some? ==> Good(b, SettleSuccess(b, i, txId, txTaken).value)
  {
    EvolvesRefl(b);
    if txId == "" || b.payments[i].status == PaymentRefunded {
    } else if b.payments[i].status == Success {
      FlagKeeps(b, i, TransactionIdChanged);
    } else if txTaken {
      FlagKeeps(b, i, DuplicateThirdPartyTx);
    } else if b.order.status == PendingPayment {
      PendingSuccess(b, i, txId);
    } else {
      LaterSuccessKeeps(b, i, txId);
    }
  }

  lemma {:induction false} NoHealing(ps: seq<Payment>, i: nat, n: nat)
    requires n <= |ps|
    requires forall j :: 0 <= j < n ==> !Heals(ps, i, j)
    ensures HealingId(ps, i, n) == 0
  {
    if n > 0 { NoHealing(ps, i, n - 1); }
  }

  /** Nothing heals a pending order: none of its payments was captured. */
  lemma NothingHealsPending(b: Book, i: nat)
    requires Rows(b) && b.order.status == PendingPayment
    ensures HealingId(b.payments, i, |b.payments|) == 0
  {
    forall j | 0 <= j < |b.payments|
      ensures !Heals(b.payments, i, j)
    {
      assert RowInv(b.order, b.payments[j], b.refunds[j]);
    }
    NoHealing(b.payments, i, |b.payments|);
  }

  lemma CancelAndRestoreKeeps(b: Book)
    requires BookInv(b) && b.order.status == PendingPayment
    ensures Good(b, CancelAndRestore(b))
  {
    var c := CancelAndRestore(b);
    forall j | 0 <= j < |c.payments|
      ensures RowInv(c.order, c.payments[j], c.refunds[j])
    {
      assert RowInv(b.order, b.payments[j], b.refunds[j]);
    }
  }

  lemma EvolvesRefl(b: Book)
    ensures Evolves(b, b)
  {
  }

  lemma EvolvesTrans(a: Book, b: Book, c: Book)
    requires Evolves(a, b) && Evolves(b, c)
    ensures Evolves(a, c)
  {
    forall i | 0 <= i < |a.payments|
      ensures PaymentEvolves(a.payments[i], c.payments[i])
    {
      assert PaymentEvolves(a.payments[i], b.payments[i]) && PaymentEvolves(b.payments[i], c.payments[i]);
    }
    forall i | 0 <= i < |a.refunds| && a.refunds[i].Some?
      ensures c.refunds[i].Some? && RefundEvolves(a.refunds[i].value, c.refunds[i].value)
    {
      assert RefundEvolves(a.refunds[i].value, b.refunds[i].value);
      assert RefundEvolves(b.refunds[i].value, c.refunds[i].value);
    }
  }

  lemma InactiveKeeps(b: Book, m: Book, i: nat)
    requires BookInv(b) && i < |b.payments| && Good(b, m)
    requires m.order == b.order && |m.payments| == |b.payments|
    ensures Good(b, FinalizeInactive(m, b.payments, i))
  {
    if b.order.status == PendingPayment {
      NothingHealsPending(b, i);
      CancelAndRestoreKeeps(m);
      EvolvesTrans(b, m, CancelAndRestore(m));
    }
  }

  lemma ClosedKeeps(b: Book, i: nat, txId: string)
    requires BookInv(b) && i < |b.payments|
    ensures SettleClosed(b, i, txId).Some? ==> Good(b, SettleClosed(b, i, txId).value)
  {
    assert RowInv(b.order, b.payments[i], b.refunds[i]);
    if MarkClosed(b.payments[i]).Some? {
      PutPaymentKeeps(b, i, MarkClosed(b.payments[i]).value);
      InactiveKeeps(b, PutPayment(b, i, MarkClosed(b.payments[i]).value), i);
    }
  }

  lemma FailedKeeps(b: Book, i: nat, closePay: bool)
    requires BookInv(b) && i < |b.payments|
    ensures SettleFailed(b, i, closePay).Some? ==> Good(b, SettleFailed(b, i, closePay).value)
  {
    assert RowInv(b.order, b.payments[i], b.refunds[i]);
    if MarkFailed(b.payments[i]).Some? {
      PutPaymentKeeps(b, i, MarkFailed(b.payments[i]).value);
      InactiveKeeps(b, PutPayment(b, i, MarkFailed(b.payments[i]).value), i);
    } else {
      InactiveKeeps(b, b, i);
    }
  }

  /** Reversing the paying payment takes the order to refunded and gives the stock back. */
  lemma OrderCancelRow(b: Book, i: nat, j: nat)
    requires BookInv(b) && i < |b.payments| && j < |b.payments| && b.refunds[i].Some?
    requires b.payments[i].status == Success && b.refunds[i].value.purpose == OrderCancelRefund
    requires SettleRefund(b, i).Some?
    ensures var c := SettleRefund(b, i).value;
            |c.payments| == |c.refunds| == |b.payments| && RowInv(c.order, c.payments[j], c.refunds[j])
  {
    assert RowInv(b.order, b.payments[j], b.refunds[j]);
    if j != i { assert b.payments[j].id != b.payments[i].id; }
  }

  lemma OrderCancelKeeps(b: Book, i: nat)
    requires BookInv(b) && i < |b.payments| && b.refunds[i].Some?
    requires b.payments[i].status == Success && b.refunds[i].value.purpose == OrderCancelRefund
    requires SettleRefund(b, i).Some?
    ensures Good(b, SettleRefund(b, i).value)
  {
    var c := SettleRefund(b, i).value;
    forall j | 0 <= j < |c.payments| ensures RowInv(c.order, c.payments[j], c.refunds[j]) { OrderCancelRow(b, i, j); }
    assert Keys(c) by {
      assert forall j :: 0 <= j < |b.refunds| && c.refunds[j].Some? ==>
        b.refunds[j].Some? && c.refunds[j].value.outRefundNo == b.refunds[j].value.outRefundNo;
    }
    assert Pays(c.order, c.payments[i]);
  }

  /** Settling a refund moves the payment, its record and, for the paying payment, the order together. */
  lemma RefundKeeps(b: Book, i: nat)
    requires BookInv(b) && i < |b.payments| && b.refunds[i].Some?
    ensures SettleRefund(b, i).Some? ==> Good(b, SettleRefund(b, i).value)
  {
    var p, f := b.payments[i], b.refunds[i].value;
    assert RowInv(b.order, p, b.refunds[i]);
    if SettleRefund(b, i).Some? && p.status == Success {
      if f.purpose == OrderCancelRefund {
        OrderCancelKeeps(b, i);
      } else {
        PutKeeps(b, i, ConfirmRefunded(p).value, Some(f.(status := RefundSuccess)), b.openCases);
      }
    }
  }

  lemma PrepareKeeps(b: Book, i: nat, no: string, refundId: int)
    requires BookInv(b) && i < |b.payments|
    ensures PrepareRefund(b, i, no, refundId).Some? ==> Good(b, PrepareRefund(b, i, no, refundId).value)
  {
    assert RowInv(b.order, b.payments[i], b.refunds[i]);
    if PrepareRefund(b, i, no, refundId).Some? {
      var c := PrepareRefund(b, i, no, refundId).value;
      PutKeeps(b, i, b.payments[i], c.refunds[i], b.openCases);
      assert b.payments[i := b.payments[i]] == b.payments;
      assert b.refunds[i := c.refunds[i]] == c.refunds;
    }
  }

  lemma RefundErrorKeeps(b: Book, i: nat, definitive: bool)
    requires BookInv(b) && i < |b.payments| && b.refunds[i].Some?
    ensures RecordRefundError(b, i, definitive).Some? ==> Good(b, RecordRefundError(b, i, definitive).value)
  {
    assert RowInv(b.order, b.payments[i], b.refunds[i]);
    if RecordRefundError(b, i, definitive).Some? && definitive {
      PutKeeps(b, i, b.payments[i], Some(b.refunds[i].value.(status := RefundFailed)), b.openCases);
      assert b.payments[i := b.payments[i]] == b.payments;
    }
  }

  lemma RetryKeeps(b: Book, i: nat, version: int)
    requires BookInv(b) && i < |b.payments|
    ensures RetryReconciliation(b, i, version).Some? ==> Good(b, RetryReconciliation(b, i, version).value)
  {
    assert RowInv(b.order, b.payments[i], b.refunds[i]);
    if RetryReview(b.payments[i], version).Some? {
      PutPaymentKeeps(b, i, RetryReview(b.payments[i], version).value);
    }
  }

  /** A success that does not pay for the order cannot be resolved away. */
  lemma ResolveKeeps(b: Book, i: nat, version: int)
    requires BookInv(b) && i < |b.payments|
    ensures ResolveReconciliation(b, i, version).Some? ==> Good(b, ResolveReconciliation(b, i, version).value)
  {
    assert RowInv(b.order, b.payments[i], b.refunds[i]);
    if ResolveReconciliation(b, i, version).Some? {
      var q := ResolveReview(b.payments[i], version).value;
      PutKeeps(b, i, q, b.refunds[i], b.openCases - {q.id});
      assert b.refunds[i := b.refunds[i]] == b.refunds;
    }
  }

  lemma CloseActiveKeeps(b: Book)
    requires BookInv(b)
    ensures Good(b, b.(payments := CloseActive(b.payments)))
  {
    UncapturedKeeps(b, CloseActive(b.payments));
  }

  lemma ExpireKeeps(b: Book, expired: bool)
    requires BookInv(b)
    ensures ExpireOrder(b, expired).Some? ==> Good(b, ExpireOrder(b, expired).value)
  {
    if b.order.status == PendingPayment {
      RecoverKeeps(b);
      var r := b.(payments := Recover(b.payments));
      NothingCapturedPending(r, 0);
      CloseActiveKeeps(r);
      EvolvesTrans(b, r, r.(payments := CloseActive(r.payments)));
      CancelAndRestoreKeeps(r);
      EvolvesTrans(b, r, CancelAndRestore(r));
    }
  }

  lemma CancelKeeps(b: Book)
    requires BookInv(b)
    ensures CancelOrderByUser(b).Some? ==> Good(b, CancelOrderByUser(b).value)
  {
    if b.order.status == PendingPayment {
      RecoverKeeps(b);
      var r := b.(payments := Recover(b.payments));
      CancelAndRestoreKeeps(r);
      EvolvesTrans(b, r, CancelAndRestore(r));
    }
  }

  /** A live refund of the paying payment blocks fulfilment, so no pending purpose goes stale. */
  lemma FulfilKeeps(b: Book, i: nat, ship: bool)
    requires BookInv(b) && i < |b.payments|
    ensures Fulfil(b, i, ship).Some? ==> Good(b, Fulfil(b, i, ship).value)
  {
    if Fulfil(b, i, ship).Some? {
      var c := Fulfil(b, i, ship).value;
      forall j | 0 <= j < |c.payments|
        ensures RowInv(c.order, c.payments[j], c.refunds[j])
      {
        assert RowInv(b.order, b.payments[j], b.refunds[j]);
        if j != i { assert b.payments[j].id != b.payments[i].id; }
      }
      assert Pays(c.order, c.payments[i]);
    }
  }

  lemma QueryKeeps(b: Book, i: nat, args: CheckArgs, r: QueryResult, now: int, txTaken: bool)
    requires BookInv(b) && i < |b.payments|
    ensures ApplyPayQuery(b, i, args, r, now, txTaken).Some? ==>
              Good(b, ApplyPayQuery(b, i, args, r, now, txTaken).value)
  {
    var mismatch := ValidateProviderResult(b.payments[i], r);
    if ApplyPayQuery(b, i, args, r, now, txTaken).None? {
    } else if mismatch != NoReason {
      FlagKeeps(b, i, mismatch);
    } else {
      match r.state
      case TradeSuccess => SuccessKeeps(b, i, r.txId, txTaken);
      case TradeClosed => ClosedKeeps(b, i, r.txId);
      case TradeRevoked => ClosedKeeps(b, i, r.txId);
      case TradePayError => FailedKeeps(b, i, args.closePay);
      case TradeRefund => ReportedRefundKeeps(b, i);
      case _ => FlagKeeps(b, i, UnknownProviderState);
    }
  }

  lemma ReportedRefundKeeps(b: Book, i: nat)
    requires BookInv(b) && i < |b.payments|
    ensures SettleReportedRefund(b, i).Some? ==> Good(b, SettleReportedRefund(b, i).value)
  {
    FlagKeeps(b, i, ProviderSideRefund);
    if b.refunds[i].Some? { RefundKeeps(b, i); }
  }

  /** Every transaction keeps the invariant and takes nothing settled back. */
  lemma CommitKeeps(b: Book, t: Tx)
    requires BookInv(b)
    ensures Good(b, Commit(b, t))
  {
    if Enabled(b, t) {
      if t.TxPrepareRefund? || t.TxApplyRefund? || t.TxRefundError? {
        RefundTxKeeps(b, t);
        return;
      }
      match t
      case TxCreatePayment(id, payChannel, outTradeNo, expired) =>
        CreatePaymentKeeps(b, id, payChannel, outTradeNo, expired);
      case TxPrepay(i, u) => PrepayKeeps(b, i, u);
      case TxClosePending(i, version) => ClosePendingKeeps(b, i, version);
      case TxQuery(i, args, r, now, txTaken) => QueryKeeps(b, i, args, r, now, txTaken);
      case TxRequireReview(i, reason, _) => FlagKeeps(b, i, reason);
      case TxRetry(i, version) => RetryKeeps(b, i, version);
      case TxResolve(i, version) => ResolveKeeps(b, i, version);
      case TxExpire(expired) => ExpireKeeps(b, expired);
      case TxCancel => CancelKeeps(b);
      case TxFulfil(i, ship) => FulfilKeeps(b, i, ship);
    }
  }

  lemma RefundTxKeeps(b: Book, t: Tx)
    requires BookInv(b) && Enabled(b, t) && (t.TxPrepareRefund? || t.TxApplyRefund? || t.TxRefundError?)
    ensures Good(b, Commit(b, t))
  {
    match t
    case TxPrepareRefund(i, no, refundId) => PrepareKeeps(b, i, no, refundId);
    case TxApplyRefund(i) => RefundKeeps(b, i);
    case TxRefundError(i, definitive) => RefundErrorKeeps(b, i, definitive);
  }
}
