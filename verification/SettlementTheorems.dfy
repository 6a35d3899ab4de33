/** What holds in every run of payments, refunds, shipping and crashes on one order. */
module SettlementTheorems {
  import opened Options
  import opened PaymentTypes
  import opened Transitions
  import opened Settlement
  import opened SettlementInvariants
  import opened RefundProtocol

  /** The world after a list of steps, whoever takes them and in whatever order. */
  ghost function Run(w: World, ls: seq<Label>): (v: World)
    requires WorldInv(w)
    ensures WorldInv(v)
    decreases |ls|
  {
    if ls == [] then w
    else
      StepKeeps(w, ls[0]);
      Run(Step(w, ls[0]), ls[1..])
  }

  lemma {:induction false} RunEvolves(w: World, ls: seq<Label>)
    requires WorldInv(w)
    ensures Evolves(w.book, Run(w, ls).book)
    decreases |ls|
  {
    if ls == [] {
      EvolvesRefl(w.book);
    } else {
      StepKeeps(w, ls[0]);
      RunEvolves(Step(w, ls[0]), ls[1..]);
      EvolvesTrans(w.book, Step(w, ls[0]).book, Run(w, ls).book);
    }
  }

  lemma RunOne(w: World, l: Label)
    requires WorldInv(w)
    ensures WorldInv(Step(w, l)) && Run(w, [l]) == Step(w, l)
  {
    StepKeeps(w, l);
    assert Run(w, [l]) == Run(Step(w, l), [l][1..]);
  }

  lemma {:induction false} RunConcat(w: World, a: seq<Label>, b: seq<Label>)
    requires WorldInv(w)
    ensures Run(w, a + b) == Run(Run(w, a), b)
    decreases |a|
  {
    if a == [] {
      assert a + b == b;
    } else {
      StepKeeps(w, a[0]);
      assert (a + b)[1..] == a[1..] + b;
      RunConcat(Step(w, a[0]), a[1..], b);
    }
  }

  ghost predicate Reachable(w: World) {
    exists start, ls :: Initial(start) && WorldInv(start) && w == Run(start, ls)
  }

  lemma ReachableInv(w: World)
    requires Reachable(w)
    ensures WorldInv(w)
  {
  }

  // ---------------------------------------------------------- paying payment

  /** The paying payment is set exactly while the order is funded or refunded, and is never replaced. */
  lemma PayingPaymentSetOnce(w: World, ls: seq<Label>)
    requires Reachable(w)
    ensures w.book.order.paid != 0 <==> Funded(w.book.order.status) || w.book.order.status == OrderRefunded
    ensures w.book.order.paid != 0 ==> Run(w, ls).book.order.paid == w.book.order.paid
    ensures forall i, j | 0 <= i < |w.book.payments| && 0 <= j < |w.book.payments| ::
              w.book.payments[i].id == w.book.order.paid == w.book.payments[j].id ==> i == j
  {
    ReachableInv(w);
    RunEvolves(w, ls);
  }

  /** The first record of a success. */
  ghost predicate PaysOrIsFlagged(b: Book, i: nat, c: Book)
    requires i < |b.payments|
  {
    && i < |c.payments| && c.payments[i].status == Success
    && if b.order.status == PendingPayment
       then c.order.status == Paid && c.order.paid == b.payments[i].id
       else c.order == b.order && NeedsReview(c.payments[i].review)
  }

  lemma FirstSuccess(b: Book, i: nat, txId: string)
    requires BookInv(b) && i < |b.payments| && txId != "" && !Captured(b.payments[i].status)
    ensures SettleSuccess(b, i, txId, false).Some? && PaysOrIsFlagged(b, i, SettleSuccess(b, i, txId, false).value)
  {
    if b.order.status == PendingPayment { PendingSuccess(b, i, txId); } else { LaterSuccessKeeps(b, i, txId); }
  }

  /**
   * A success recorded for the first time pays for the order or is flagged; the decision is never silent and never
   * refused.
   */
  lemma NewSuccessIsNeverSilent(w: World, i: nat, txId: string)
    requires Reachable(w) && i < |w.book.payments| && txId != "" && !Captured(w.book.payments[i].status)
    ensures var d := DecidePaymentSuccess(w.book.order.status, OtherCaptured(w.book.payments, i));
            d.Decided? && (d.markOrderPaid || d.reason != NoReason)
    ensures SettleSuccess(w.book, i, txId, false).Some?
    ensures PaysOrIsFlagged(w.book, i, SettleSuccess(w.book, i, txId, false).value)
  {
    ReachableInv(w);
    SuccessHasEffect(w.book, i);
    FirstSuccess(w.book, i, txId);
  }

  /** The repairs of a pending order that already has a captured payment are never needed. */
  lemma HealingIsDead(w: World, i: nat)
    requires Reachable(w) && w.book.order.status == PendingPayment
    ensures HealingId(w.book.payments, i, |w.book.payments|) == 0
    ensures NewestCaptured(w.book.payments).None? && NewestCaptured(Recover(w.book.payments)).None?
  {
    ReachableInv(w);
    NothingHealsPending(w.book, i);
    NothingCapturedPending(w.book, i);
    RecoverKeeps(w.book);
    NothingCapturedPending(w.book.(payments := Recover(w.book.payments)), i);
  }

  // ------------------------------------------------------------ conservation

  /** Once no payment awaits review the shop keeps the order total while it owes the goods, and nothing otherwise. */
  lemma KeptMoneyMatchesOrder(b: Book)
    requires BookInv(b) && !AnyReview(b.payments)
    ensures Kept(b.payments) == if Funded(b.order.status) then b.order.total else 0
  {
    forall i | 0 <= i < |b.payments|
      ensures b.payments[i].amount == b.order.total && b.payments[i].id > 0
      ensures (b.payments[i].status == Success ==> b.payments[i].id == b.order.paid)
    {
      UnreviewedRow(b, i);
    }
    if b.order.paid != 0 {
      var k :| 0 <= k < |b.payments| && Pays(b.order, b.payments[k]);
      if Funded(b.order.status) { KeptOne(b.payments, k); } else { KeptNothing(b.payments); }
    } else {
      KeptNothing(b.payments);
    }
  }

  lemma UnreviewedRow(b: Book, i: nat)
    requires BookInv(b) && !AnyReview(b.payments) && i < |b.payments|
    ensures b.payments[i].amount == b.order.total && b.payments[i].id > 0
    ensures (b.payments[i].status == Success ==> b.payments[i].id == b.order.paid)
  {
    assert RowInv(b.order, b.payments[i], b.refunds[i]);
  }

  /** What the provider holds for the order after its refunds. */
  ghost function Net(payments: seq<Payment>, trades: seq<Trade>): int
    requires |payments| == |trades|
  {
    if payments == [] then 0
    else
      var t := trades[0];
      payments[0].amount * ((if t.captured then 1 else 0) - t.moved - t.external) + Net(payments[1..], trades[1..])
  }

  /** No failed record's number was accepted by the provider. */
  ghost predicate FailedUnmoved(w: World) {
    forall i :: 0 <= i < |w.book.refunds| && Fails(w.book, i) ==> w.book.refunds[i].value.outRefundNo !in w.accepted
  }

  /** Every capture was recorded, nothing awaits review, no refund is under way and none was made outside. */
  ghost predicate Quiet(w: World)
    requires Aligned(w)
  {
    && !AnyReview(w.book.payments)
    && (forall i :: 0 <= i < |w.trades| ==>
        w.trades[i].external == 0 && (w.trades[i].captured ==> Captured(w.book.payments[i].status)))
    && (forall i :: 0 <= i < |w.trades| && w.book.refunds[i].Some? ==> w.book.refunds[i].value.status != RefundPending)
  }

  /** Which records failed although the provider accepted their number. */
  ghost function FailedMoved(w: World): (flags: seq<bool>)
    ensures |flags| == |w.book.refunds|
    ensures FailedUnmoved(w) <==> forall i :: 0 <= i < |flags| ==> !flags[i]
  {
    var flags := seq(|w.book.refunds|, i requires 0 <= i < |w.book.refunds| =>
                     Fails(w.book, i) && w.book.refunds[i].value.outRefundNo in w.accepted);
    assert forall i :: 0 <= i < |flags| ==>
      flags[i] == (Fails(w.book, i) && w.book.refunds[i].value.outRefundNo in w.accepted);
    flags
  }

  ghost function CountTrue(flags: seq<bool>): nat {
    if flags == [] then 0 else (if flags[0] then 1 else 0) + CountTrue(flags[1..])
  }

  lemma {:induction false} NoneTrue(flags: seq<bool>)
    ensures CountTrue(flags) == 0 <==> forall i :: 0 <= i < |flags| ==> !flags[i]
  {
    if flags != [] {
      NoneTrue(flags[1..]);
      assert forall i :: 1 <= i < |flags| ==> flags[i] == flags[1..][i - 1];
    }
  }

  /** What the provider holds for one quiet row: the captured amount unless it went back. */
  ghost predicate QuietRow(p: Payment, t: Trade, failedMoved: bool) {
    (if t.captured then 1 else 0) - t.moved - t.external ==
      (if p.status == Success then 1 else 0) - (if failedMoved then 1 else 0)
  }

  /** The ledger is short by the order total for every failed record that moved. */
  lemma {:induction false} NetIsKeptLess(payments: seq<Payment>, trades: seq<Trade>, flags: seq<bool>, total: int)
    requires |payments| == |flags| == |trades|
    requires forall i :: 0 <= i < |payments| ==>
               payments[i].amount == total && QuietRow(payments[i], trades[i], flags[i])
    ensures Net(payments, trades) == Kept(payments) - total * CountTrue(flags)
  {
    if payments != [] {
      NetIsKeptLess(payments[1..], trades[1..], flags[1..], total);
      var n := CountTrue(flags[1..]);
      assert QuietRow(payments[0], trades[0], flags[0]);
      assert total * (1 + n) == total + total * n;
    }
  }

  lemma ZeroProduct(a: int, n: nat)
    ensures a * n == 0 <==> a == 0 || n == 0
  {
  }

  lemma QuietRows(w: World, i: nat)
    requires WorldInv(w) && Quiet(w) && i < |w.trades|
    ensures |FailedMoved(w)| == |w.trades| && QuietRow(w.book.payments[i], w.trades[i], FailedMoved(w)[i])
    ensures w.book.payments[i].amount == w.book.order.total
  {
    assert TradeInv(w, i) && RowInv(w.book.order, w.book.payments[i], w.book.refunds[i]);
  }

  /**
   * In a quiet state the provider's ledger agrees with the order, its total while funded and nothing otherwise, exactly
   * when no failed record's money has moved.
   */
  lemma LedgerMatchesOrderIff(w: World)
    requires Reachable(w) && Quiet(w)
    ensures Net(w.book.payments, w.trades) == (if Funded(w.book.order.status) then w.book.order.total else 0) <==>
            FailedUnmoved(w) || w.book.order.total == 0
  {
    ReachableInv(w);
    var flags, total := FailedMoved(w), w.book.order.total;
    forall i | 0 <= i < |w.trades|
      ensures w.book.payments[i].amount == total && QuietRow(w.book.payments[i], w.trades[i], flags[i])
    {
      QuietRows(w, i);
    }
    NetIsKeptLess(w.book.payments, w.trades, flags, total);
    KeptMoneyMatchesOrder(w.book);
    ZeroProduct(total, CountTrue(flags));
    NoneTrue(flags);
  }

  /** Reserved stock goes back once, and exactly when the order ends cancelled or refunded. */
  lemma StockRestoredOnce(w: World)
    requires Reachable(w)
    ensures w.book.restores == if w.book.order.status in {Cancelled, OrderRefunded} then 1 else 0
  {
    ReachableInv(w);
  }

  // ----------------------------------------------------------------- refunds

  /** However many calls, workers and crashes: one movement per refund record, and a settled record is backed by one. */
  lemma RefundMovesAtMostOnce(w: World, i: nat)
    requires Reachable(w) && i < |w.trades|
    ensures w.trades[i].moved <= 1
    ensures w.trades[i].moved == 1 <==> w.book.refunds[i].Some? && w.book.refunds[i].value.outRefundNo in w.accepted
    ensures w.book.refunds[i].Some? && w.book.refunds[i].value.status == RefundSuccess ==>
              w.book.refunds[i].value.outRefundNo in w.accepted || w.trades[i].external > 0
  {
    ReachableInv(w);
    assert TradeInv(w, i);
  }

  /** A record keeps the number, identity and purpose it was created with, through every later run. */
  lemma RefundRecordIsFixed(w: World, ls: seq<Label>, i: nat)
    requires Reachable(w) && i < |w.book.refunds| && w.book.refunds[i].Some?
    ensures var v := Run(w, ls);
            && i < |v.book.refunds| && v.book.refunds[i].Some?
            && v.book.refunds[i].value.outRefundNo == w.book.refunds[i].value.outRefundNo
            && v.book.refunds[i].value.purpose == w.book.refunds[i].value.purpose
            && (w.book.refunds[i].value.status == RefundSuccess ==> v.book.refunds[i].value.status == RefundSuccess)
  {
    ReachableInv(w);
    RunEvolves(w, ls);
    assert RefundEvolves(w.book.refunds[i].value, Run(w, ls).book.refunds[i].value);
  }

  /** The settlement of record i. */
  ghost predicate Settled(b: Book, i: nat, c: Book)
    requires i < |b.payments| && i < |b.refunds| && b.refunds[i].Some?
  {
    && i < |c.payments| && c.payments[i].status == PaymentRefunded
    && c.refunds == b.refunds[i := Some(b.refunds[i].value.(status := RefundSuccess))]
    && if b.refunds[i].value.purpose == OrderCancelRefund
       then c.order.status == OrderRefunded && c.restores == b.restores + 1
       else c.order == b.order && c.restores == b.restores
  }

  /** A pending purpose stays valid under every step of the order, so the first settlement goes through. */
  lemma PendingRecordSettles(b: Book, i: nat)
    requires BookInv(b) && i < |b.payments| && b.refunds[i].Some? && b.refunds[i].value.status == RefundPending
    ensures ValidRefundSettlement(b.refunds[i].value.purpose, b.order.status, b.order.paid, b.payments[i].id)
    ensures SettleRefund(b, i).Some? && Settled(b, i, SettleRefund(b, i).value)
  {
    assert RowInv(b.order, b.payments[i], b.refunds[i]);
  }

  /** Whatever happened to the order since the record was prepared, a confirmed refund settles it. */
  lemma ConfirmedRefundSettles(w: World, e: nat)
    requires Reachable(w) && WorldInv(w) && e in w.execs && w.execs[e].phase == Confirmed
    requires w.book.refunds[w.execs[e].pay].value.status == RefundPending
    ensures var v := ApplyStep(w, e, Committed);
            e !in v.execs && Settled(w.book, w.execs[e].pay, v.book)
  {
    PendingRecordSettles(w.book, w.execs[e].pay);
  }

  ghost predicate OrderCancelled(b: Book, i: nat) {
    && i < |b.refunds| && b.refunds[i].Some?
    && b.refunds[i].value.purpose == OrderCancelRefund && b.refunds[i].value.status == RefundSuccess
  }

  lemma OneOrderCancel(b: Book, i: nat, j: nat)
    requires BookInv(b) && OrderCancelled(b, i) && OrderCancelled(b, j)
    ensures i == j
  {
    assert RowInv(b.order, b.payments[i], b.refunds[i]) && RowInv(b.order, b.payments[j], b.refunds[j]);
  }

  /** However long a run goes on, at most one refund ever reverses the order. */
  lemma OrderIsReversedOnce(w: World, ls: seq<Label>, i: nat, j: nat)
    requires Reachable(w) && OrderCancelled(w.book, i) && OrderCancelled(Run(w, ls).book, j)
    ensures i == j
  {
    RefundRecordIsFixed(w, ls, i);
    ReachableInv(w);
    OneOrderCancel(Run(w, ls).book, i, j);
  }

  /**
   * While the order is funded its payment has no open case, no refund under way and no refund reported from outside.
   */
  ghost predicate PayerClear(b: Book)
    requires |b.payments| == |b.refunds|
  {
    Funded(b.order.status) ==>
      exists j :: 0 <= j < |b.payments| && b.payments[j].id == b.order.paid && PaymentClear(b, j)
  }

  ghost predicate PaymentClear(b: Book, j: nat)
    requires j < |b.payments| == |b.refunds|
  {
    && b.payments[j].reason != ProviderSideRefund && b.payments[j].id !in b.openCases
    && !(b.refunds[j].Some? && b.refunds[j].value.status == RefundPending)
  }

  lemma PayerResolvableIff(b: Book, j: nat)
    requires BookInv(b) && j < |b.payments| && b.order.paid != 0 && b.payments[j].id == b.order.paid
    ensures Resolvable(b, j) <==> (Funded(b.order.status) ==> PaymentClear(b, j))
  {
    var k :| 0 <= k < |b.payments| && Pays(b.order, b.payments[k]);
    assert k == j;
    assert RowInv(b.order, b.payments[j], b.refunds[j]);
  }

  /**
   * The case of a refunded payment can be signed off exactly when its version is current and the paying payment is
   * clear.
   */
  lemma RefundedSignOffIff(w: World, i: nat, version: int)
    requires Reachable(w) && WorldInv(w) && i < |w.book.payments| && w.book.payments[i].status == PaymentRefunded
    ensures ResolveReconciliation(w.book, i, version).Some? <==>
            w.book.payments[i].version == version && NeedsReview(w.book.payments[i].review) && PayerClear(w.book)
  {
    var b := w.book;
    assert RowInv(b.order, b.payments[i], b.refunds[i]);
    if b.order.paid != 0 {
      var k :| 0 <= k < |b.payments| && Pays(b.order, b.payments[k]);
      PayerResolvableIff(b, k);
      assert forall j :: 0 <= j < |b.payments| && b.payments[j].id == b.order.paid ==> j == k;
    }
  }

  ghost predicate Fails(b: Book, i: nat) {
    i < |b.refunds| && b.refunds[i].Some? && b.refunds[i].value.status == RefundFailed
  }

  lemma OnlyErrorsFail(w: World, l: Label, i: nat)
    requires ProtocolInv(w) && !l.RecordError? && i < |w.book.refunds|
    ensures Fails(Step(w, l).book, i) ==> Fails(w.book, i)
  {
    if !Commits(l) {
      BookKept(w, l);
    } else {
      match l
      case Local(t) => if !IsRefundTx(t) && Honest(w, t) { LocalEffects(w.book, t); }
      case Prepare(e, j, no, refundId) =>
        if j < |w.book.payments| && PrepareRefund(w.book, j, no, refundId).Some? {
          PrepareShape(w.book, j, no, refundId);
        }
      case Apply(e, _) => ApplyFailsNone(w, l, i);
    }
  }

  lemma ApplyFailsNone(w: World, l: Label, i: nat)
    requires ProtocolInv(w) && l.Apply? && i < |w.book.refunds|
    ensures Fails(Step(w, l).book, i) ==> Fails(w.book, i)
  {
    if l.e in w.execs && SettleRefund(w.book, w.execs[l.e].pay).Some? { SettleShape(w.book, w.execs[l.e].pay); }
  }

  /** Only a recorded provider rejection fails a record, and only a pending one. */
  lemma FailureNeedsRejection(w: World, l: Label, i: nat)
    requires ProtocolInv(w) && i < |w.book.refunds|
    requires !Fails(w.book, i) && Fails(Step(w, l).book, i)
    ensures l.RecordError? && l.e in w.execs && w.execs[l.e].pay == i && w.execs[l.e].phase == Errored(true)
    ensures l.e in w.requests && w.requests[l.e].verdict == Rejected
    ensures w.book.refunds[i].Some? && w.book.refunds[i].value.status == RefundPending
  {
    if !l.RecordError? {
      OnlyErrorsFail(w, l, i);
    } else if l.e in w.execs {
      assert ExecInv(w, l.e);
    }
  }

  /** The others never act for execution e; the provider may process its request. */
  predicate Foreign(ls: seq<Label>, e: nat) {
    forall k :: 0 <= k < |ls| ==>
      (ls[k].Prepare? || ls[k].Send? || ls[k].Deliver? || ls[k].Timeout? || ls[k].Apply? || ls[k].RecordError?
       || ls[k].Crash?) ==> ls[k].e != e
  }

  /** A foreign step leaves execution e in place. */
  lemma ForeignStep(w: World, l: Label, e: nat)
    requires WorldInv(w) && Foreign([l], e) && e in w.execs
    ensures e in Step(w, l).execs && Step(w, l).execs[e] == w.execs[e]
  {
    assert [l][0] == l;
  }

  lemma {:induction false} ForeignRun(w: World, ls: seq<Label>, e: nat)
    requires WorldInv(w) && Foreign(ls, e) && e in w.execs
    ensures e in Run(w, ls).execs && Run(w, ls).execs[e] == w.execs[e]
    decreases |ls|
  {
    if ls != [] {
      assert Foreign([ls[0]], e) && Foreign(ls[1..], e);
      ForeignStep(w, ls[0], e);
      StepKeeps(w, ls[0]);
      ForeignRun(Step(w, ls[0]), ls[1..], e);
    }
  }

  /**
   * After the provider accepted, an error while settling never fails the record: whatever the others do before this
   * execution records its error, the record and the whole book are as they left them.
   */
  lemma SettlementErrorNeverFails(w: World, e: nat, between: seq<Label>, outcome: Outcome)
    requires WorldInv(w) && e in w.execs && w.execs[e].phase == Confirmed && Foreign(between, e)
    ensures var m := ApplyStep(w, e, RolledBack);
            WorldInv(m) && RecordErrorStep(Run(m, between), e, outcome) == Finish(Run(m, between), e)
  {
    ApplyKeeps(w, e, RolledBack);
    var m := ApplyStep(w, e, RolledBack);
    ForeignRun(m, between, e);
    NothingRecorded(Run(m, between), e, outcome);
  }

  lemma NothingRecorded(v: World, e: nat, outcome: Outcome)
    requires Aligned(v) && e in v.execs && v.execs[e].phase == Errored(false)
    ensures RecordErrorStep(v, e, outcome) == Finish(v, e)
  {
  }
}
