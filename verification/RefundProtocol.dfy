/**
 * The refund protocol around one order's book: admin calls and worker passes
 * execute refunds against a provider, any of them may crash, time out or race.
 */
module RefundProtocol {
  import opened Options
  import opened PaymentTypes
  import opened PaymentRows
  import opened Settlement
  import opened SettlementInvariants

  /**
   * How far one execution of a refund has come: committed record, gateway call under way, provider confirmation, error
   * to record.
   */
  datatype Phase = Prepared | Waiting | Confirmed | Errored(definitive: bool)

  datatype Exec = Exec(pay: nat, no: string, phase: Phase)

  datatype Verdict = Unprocessed | Accepted | Rejected

  /** A refund request that left the process; it outlives the execution that sent it. */
  datatype Request = Request(pay: nat, no: string, verdict: Verdict)

  /** The provider's ledger of one payment: captured, refund movements it made for us, refunds made outside. */
  datatype Trade = Trade(captured: bool, moved: nat, external: nat)

  datatype World = World(book: Book, execs: map<nat, Exec>, requests: map<nat, Request>, accepted: set<string>,
                         rejected: set<string>, trades: seq<Trade>)

  datatype Outcome = Committed | RolledBack | AckLost

  datatype Label =
    | Local(t: Tx)
    | BuyerPays(i: nat)
    | ExternalRefund(i: nat)
    | Prepare(e: nat, i: nat, no: string, refundId: int)
    | Send(e: nat)
    | Process(e: nat, accept: bool)
    | Deliver(e: nat, lost: bool)
    | Timeout(e: nat)
    | Apply(e: nat, outcome: Outcome)
    | RecordError(e: nat, outcome: Outcome)
    | Crash(e: nat)

  predicate IsRefundTx(t: Tx) {
    t.TxPrepareRefund? || t.TxApplyRefund? || t.TxRefundError?
  }

  /** A query reports a success or a refund only when the provider's ledger shows it. */
  predicate Honest(w: World, t: Tx) {
    t.TxQuery? && t.i < |w.trades| ==>
      && (t.result.state == TradeSuccess ==> w.trades[t.i].captured)
      && (t.result.state == TradeRefund ==> w.trades[t.i].moved + w.trades[t.i].external > 0)
  }

  function Extend(trades: seq<Trade>, n: nat): seq<Trade>
    decreases n - |trades|
  {
    if n <= |trades| then trades else Extend(trades + [Trade(false, 0, 0)], n)
  }

  function SetPhase(w: World, e: nat, phase: Phase): World
    requires e in w.execs
  {
    w.(execs := w.execs[e := w.execs[e].(phase := phase)])
  }

  function Finish(w: World, e: nat): World {
    w.(execs := w.execs - {e})
  }

  predicate Aligned(w: World) {
    && |w.book.payments| == |w.book.refunds| == |w.trades|
    && (forall e :: e in w.execs ==> RefersTo(w.book, w.execs[e].pay, w.execs[e].no))
    && (forall e :: e in w.requests ==> RefersTo(w.book, w.requests[e].pay, w.requests[e].no))
  }

  /** This number belongs to the refund record of that payment. */
  predicate RefersTo(b: Book, pay: nat, no: string) {
    && pay < |b.payments| && pay < |b.refunds|
    && b.refunds[pay].Some? && b.refunds[pay].value.outRefundNo == no
  }

  /** Prepares the record under the locks; an already settled one needs no execution. */
  function PrepareStep(w: World, e: nat, i: nat, no: string, refundId: int): World
    requires Aligned(w)
  {
    if e in w.execs || e in w.requests || i >= |w.book.payments| then w
    else match PrepareRefund(w.book, i, no, refundId)
      case None => w
      case Some(b) =>
        var f := b.refunds[i].value;
        if f.status == RefundSuccess then w.(book := b)
        else w.(book := b, execs := w.execs[e := Exec(i, f.outRefundNo, Prepared)])
  }

  /** Idempotent per number: a number that was accepted before is confirmed without moving money. */
  function ProcessStep(w: World, e: nat, accept: bool): World
    requires Aligned(w)
  {
    if e !in w.requests || w.requests[e].verdict != Unprocessed then w
    else
      var q := w.requests[e];
      if q.no in w.accepted then w.(requests := w.requests[e := q.(verdict := Accepted)])
      else if accept then
        w.(requests := w.requests[e := q.(verdict := Accepted)], accepted := w.accepted + {q.no},
           trades := w.trades[q.pay := w.trades[q.pay].(moved := w.trades[q.pay].moved + 1)])
      else w.(requests := w.requests[e := q.(verdict := Rejected)], rejected := w.rejected + {q.no})
  }

  function ApplyStep(w: World, e: nat, outcome: Outcome): World
    requires Aligned(w)
  {
    if e !in w.execs || w.execs[e].phase != Confirmed then w
    else if outcome == RolledBack then SetPhase(w, e, Errored(false))
    else match SettleRefund(w.book, w.execs[e].pay)
      case None => SetPhase(w, e, Errored(false))
      case Some(b) =>
        if outcome == AckLost then SetPhase(w, e, Errored(false)).(book := b) else Finish(w, e).(book := b)
  }

  function LocalStep(w: World, t: Tx): World
    requires Aligned(w)
  {
    if IsRefundTx(t) || !Honest(w, t) then w
    else
      var b := Commit(w.book, t);
      w.(book := b, trades := Extend(w.trades, |b.payments|))
  }

  function BuyerPaysStep(w: World, i: nat): World {
    if i >= |w.trades| then w else w.(trades := w.trades[i := w.trades[i].(captured := true)])
  }

  function ExternalRefundStep(w: World, i: nat): World {
    if i >= |w.trades| then w else w.(trades := w.trades[i := w.trades[i].(external := w.trades[i].external + 1)])
  }

  function SendStep(w: World, e: nat): World {
    if e !in w.execs || w.execs[e].phase != Prepared || e in w.requests then w
    else SetPhase(w, e, Waiting).(requests := w.requests[e := Request(w.execs[e].pay, w.execs[e].no, Unprocessed)])
  }

  function DeliverStep(w: World, e: nat, lost: bool): World {
    if e !in w.execs || w.execs[e].phase != Waiting || e !in w.requests || w.requests[e].verdict == Unprocessed then w
    else if lost then SetPhase(w, e, Errored(false))
    else SetPhase(w, e, if w.requests[e].verdict == Accepted then Confirmed else Errored(true))
  }

  function TimeoutStep(w: World, e: nat): World {
    if e !in w.execs || w.execs[e].phase != Waiting then w else SetPhase(w, e, Errored(false))
  }

  function RecordErrorStep(w: World, e: nat, outcome: Outcome): World
    requires Aligned(w)
  {
    if e !in w.execs || !w.execs[e].phase.Errored? then w
    else if outcome == RolledBack then Finish(w, e)
    else
      var b := RecordRefundError(w.book, w.execs[e].pay, w.execs[e].phase.definitive);
      Finish(w, e).(book := if b.Some? then b.value else w.book)
  }

  function Step(w: World, l: Label): World
    requires Aligned(w)
  {
    match l
    case Local(t) => LocalStep(w, t)
    case BuyerPays(i) => BuyerPaysStep(w, i)
    case ExternalRefund(i) => ExternalRefundStep(w, i)
    case Prepare(e, i, no, refundId) => PrepareStep(w, e, i, no, refundId)
    case Send(e) => SendStep(w, e)
    case Process(e, accept) => ProcessStep(w, e, accept)
    case Deliver(e, lost) => DeliverStep(w, e, lost)
    case Timeout(e) => TimeoutStep(w, e)
    case Apply(e, outcome) => ApplyStep(w, e, outcome)
    case RecordError(e, outcome) => RecordErrorStep(w, e, outcome)
    case Crash(e) => Finish(w, e)
  }

  // -------------------------------------------------------------- invariant

  ghost predicate ExecInv(w: World, e: nat)
    requires e in w.execs
  {
    var x := w.execs[e];
    && (x.phase == Prepared ==> e !in w.requests)
    && (x.phase == Waiting ==> e in w.requests && w.requests[e].pay == x.pay && w.requests[e].no == x.no)
    && (x.phase == Confirmed ==> x.no in w.accepted)
    && (x.phase == Errored(true) ==> e in w.requests && w.requests[e].no == x.no && w.requests[e].verdict == Rejected)
  }

  ghost predicate RequestInv(w: World, e: nat)
    requires e in w.requests
  {
    var q := w.requests[e];
    && (q.verdict == Accepted ==> q.no in w.accepted)
    && (q.verdict == Rejected ==> q.no in w.rejected)
  }

  ghost predicate TradeInv(w: World, i: nat)
    requires i < |w.book.payments| == |w.book.refunds| == |w.trades|
  {
    var p, f, t := w.book.payments[i], w.book.refunds[i], w.trades[i];
    && t.moved == (if f.Some? && f.value.outRefundNo in w.accepted then 1 else 0)
    && (Captured(p.status) ==> t.captured)
    && (f.Some? && f.value.status == RefundSuccess ==> t.moved + t.external > 0)
    && (f.Some? && f.value.status == RefundFailed ==> f.value.outRefundNo in w.rejected)
  }

  ghost predicate WorldInv(w: World) {
    BookInv(w.book) && ProtocolInv(w)
  }

  ghost predicate ProtocolInv(w: World) {
    && Aligned(w)
    && (forall e {:trigger ExecInv(w, e)} :: e in w.execs ==> ExecInv(w, e))
    && (forall e {:trigger RequestInv(w, e)} :: e in w.requests ==> RequestInv(w, e))
    && (forall no :: no in w.accepted ==> NumberTaken(w.book.refunds, no))
    && (forall i {:trigger TradeInv(w, i)} :: 0 <= i < |w.trades| ==> TradeInv(w, i))
  }

  /** An order just placed, before any payment exists. */
  ghost predicate Initial(w: World) {
    && w.book.order.status == PendingPayment && w.book.order.paid == 0
    && w.book.payments == [] && w.book.refunds == [] && w.book.restores == 0
    && w.execs == map[] && w.requests == map[] && w.accepted == {} && w.trades == []
  }

  lemma InitialInv(w: World)
    requires Initial(w)
    ensures WorldInv(w)
  {
  }

  // ------------------------------------------------------------ preservation

  lemma {:induction false} ExtendShape(trades: seq<Trade>, n: nat)
    requires |trades| <= n
    ensures |Extend(trades, n)| == n && Extend(trades, n)[..|trades|] == trades
    ensures forall i :: |trades| <= i < n ==> Extend(trades, n)[i] == Trade(false, 0, 0)
    decreases n - |trades|
  {
    if |trades| < n {
      var longer := trades + [Trade(false, 0, 0)];
      ExtendShape(longer, n);
      assert Extend(trades, n)[..|trades|] == Extend(longer, n)[..|longer|][..|trades|];
      assert Extend(trades, n)[|trades|] == Extend(longer, n)[..|longer|][|trades|];
    }
  }

  /** Outside the refund protocol only a reported refund settles a record, and nothing fails one. */
  ghost predicate RefundsKept(b: Book, c: Book, t: Tx) {
    && |b.refunds| <= |c.refunds|
    && (forall j :: |b.refunds| <= j < |c.refunds| ==> c.refunds[j].None?)
    && (forall j :: 0 <= j < |b.refunds| && c.refunds[j] != b.refunds[j] ==>
          && t.TxQuery? && t.i == j && t.result.state == TradeRefund
          && b.refunds[j].Some? && c.refunds[j] == Some(b.refunds[j].value.(status := RefundSuccess)))
  }

  /** Outside the refund protocol only a reported success captures a payment. */
  ghost predicate CapturesKept(b: Book, c: Book, t: Tx) {
    && |b.payments| <= |c.payments|
    && (forall j :: |b.payments| <= j < |c.payments| ==> !Captured(c.payments[j].status))
    && (forall j :: 0 <= j < |b.payments| && Captured(c.payments[j].status) && !Captured(b.payments[j].status) ==>
          t.TxQuery? && t.i == j && t.result.state == TradeSuccess)
  }

  ghost predicate NoCapture(b: Book, c: Book) {
    && c.refunds == b.refunds && |c.payments| == |b.payments|
    && forall j :: 0 <= j < |b.payments| ==> (Captured(c.payments[j].status) ==> Captured(b.payments[j].status))
  }

  lemma InactiveNoCapture(b: Book, m: Book, ps: seq<Payment>, i: nat)
    requires i < |ps| == |m.payments| && NoCapture(b, m)
    ensures NoCapture(b, FinalizeInactive(m, ps, i))
  {
  }

  lemma SuccessEffects(b: Book, i: nat, txId: string, txTaken: bool)
    requires i < |b.payments| && SettleSuccess(b, i, txId, txTaken).Some?
    ensures var c := SettleSuccess(b, i, txId, txTaken).value;
            c.refunds == b.refunds && |c.payments| == |b.payments| && forall j :: 0 <= j < |b.payments| && j != i ==>
              c.payments[j] == b.payments[j]
  {
  }

  lemma ClosedEffects(b: Book, i: nat, txId: string)
    requires i < |b.payments| == |b.refunds| && SettleClosed(b, i, txId).Some?
    ensures NoCapture(b, SettleClosed(b, i, txId).value)
  {
    if MarkClosed(b.payments[i]).Some? {
      InactiveNoCapture(b, PutPayment(b, i, MarkClosed(b.payments[i]).value), b.payments, i);
    }
  }

  lemma FailedEffects(b: Book, i: nat, closePay: bool)
    requires i < |b.payments| && SettleFailed(b, i, closePay).Some?
    ensures NoCapture(b, SettleFailed(b, i, closePay).value)
  {
    var m := if MarkFailed(b.payments[i]).Some? then PutPayment(b, i, MarkFailed(b.payments[i]).value) else b;
    InactiveNoCapture(b, m, b.payments, i);
  }

  lemma ReportedRefundEffects(b: Book, i: nat)
    requires i < |b.payments| == |b.refunds| && SettleReportedRefund(b, i).Some?
    ensures var c := SettleReportedRefund(b, i).value;
            && |c.refunds| == |b.refunds| && |c.payments| == |b.payments|
            && (c.refunds != b.refunds ==>
                b.refunds[i].Some? && c.refunds == b.refunds[i := Some(b.refunds[i].value.(status := RefundSuccess))])
            && forall j :: 0 <= j < |b.payments| ==> (Captured(c.payments[j].status) ==> Captured(b.payments[j].status))
  {
    assert b.refunds[i := b.refunds[i]] == b.refunds;
  }

  lemma QueryEffects(b: Book, i: nat, args: CheckArgs, r: QueryResult, now: int, txTaken: bool)
    requires i < |b.payments| == |b.refunds| && ApplyPayQuery(b, i, args, r, now, txTaken).Some?
    ensures RefundsKept(b, ApplyPayQuery(b, i, args, r, now, txTaken).value, TxQuery(i, args, r, now, txTaken))
    ensures CapturesKept(b, ApplyPayQuery(b, i, args, r, now, txTaken).value, TxQuery(i, args, r, now, txTaken))
  {
    if ValidateProviderResult(b.payments[i], r) == NoReason {
      match r.state
      case TradeSuccess => SuccessEffects(b, i, r.txId, txTaken);
      case TradeClosed => ClosedEffects(b, i, r.txId);
      case TradeRevoked => ClosedEffects(b, i, r.txId);
      case TradePayError => FailedEffects(b, i, args.closePay);
      case TradeRefund => ReportedRefundEffects(b, i);
      case _ =>
    }
  }

  lemma ReviewEffects(b: Book, i: nat, version: int)
    requires i < |b.payments| == |b.refunds|
    ensures MarkPayClosePending(b, i, version).Some? ==> NoCapture(b, MarkPayClosePending(b, i, version).value)
    ensures RetryReconciliation(b, i, version).Some? ==> NoCapture(b, RetryReconciliation(b, i, version).value)
    ensures ResolveReconciliation(b, i, version).Some? ==> NoCapture(b, ResolveReconciliation(b, i, version).value)
  {
  }

  lemma OrderEffects(b: Book, expired: bool)
    ensures ExpireOrder(b, expired).Some? ==> NoCapture(b, ExpireOrder(b, expired).value)
    ensures CancelOrderByUser(b).Some? ==> NoCapture(b, CancelOrderByUser(b).value)
  {
  }

  /** Transactions of the order that name no payment row. */
  lemma OrderTxEffects(b: Book, t: Tx)
    requires |b.payments| == |b.refunds| && (t.TxExpire? || t.TxCancel? || t.TxFulfil?) && Enabled(b, t)
    requires Attempt(b, t).Some?
    ensures NoCapture(b, Attempt(b, t).value)
  {
    if t.TxExpire? { OrderEffects(b, t.expired); } else { OrderEffects(b, true); }
  }

  /** Transactions that update one payment row without a provider result. */
  lemma RowTxEffects(b: Book, t: Tx)
    requires |b.payments| == |b.refunds| && Enabled(b, t) && Attempt(b, t).Some?
    requires t.TxPrepay? || t.TxClosePending? || t.TxRequireReview? || t.TxRetry? || t.TxResolve?
    ensures NoCapture(b, Attempt(b, t).value)
  {
    match t
    case TxClosePending(i, version) => ReviewEffects(b, i, version);
    case TxRetry(i, version) => ReviewEffects(b, i, version);
    case TxResolve(i, version) => ReviewEffects(b, i, version);
    case _ =>
  }

  lemma LocalEffects(b: Book, t: Tx)
    requires |b.payments| == |b.refunds| && !IsRefundTx(t)
    ensures RefundsKept(b, Commit(b, t), t) && CapturesKept(b, Commit(b, t), t)
  {
    if Enabled(b, t) && Attempt(b, t).Some? {
      if t.TxQuery? {
        QueryEffects(b, t.i, t.args, t.result, t.now, t.txTaken);
      } else if t.TxCreatePayment? {
      } else if t.TxExpire? || t.TxCancel? || t.TxFulfil? {
        OrderTxEffects(b, t);
      } else {
        RowTxEffects(b, t);
      }
    }
  }

  /** Records keep their numbers, and a new record cannot take an accepted one. */
  lemma BookStep(w: World, c: Book)
    requires ProtocolInv(w) && Evolves(w.book, c) && NumbersDistinct(c.refunds) && |c.payments| == |c.refunds|
    ensures forall pay, no :: RefersTo(w.book, pay, no) ==> RefersTo(c, pay, no)
    ensures forall no :: no in w.accepted ==> NumberTaken(c.refunds, no)
    ensures forall i :: 0 <= i < |w.trades| && w.book.refunds[i].None? && c.refunds[i].Some? ==>
              c.refunds[i].value.outRefundNo !in w.accepted
  {
    forall no | no in w.accepted
      ensures exists j :: 0 <= j < |w.book.refunds| && w.book.refunds[j].Some? && c.refunds[j].Some?
                && c.refunds[j].value.outRefundNo == no
    {
      var j :| 0 <= j < |w.book.refunds| && w.book.refunds[j].Some? && w.book.refunds[j].value.outRefundNo == no;
      assert c.refunds[j].Some? && c.refunds[j].value.outRefundNo == no;
    }
  }

  lemma LocalProtocol(w: World, t: Tx, c: Book)
    requires ProtocolInv(w) && Honest(w, t) && Evolves(w.book, c) && NumbersDistinct(c.refunds)
    requires |c.payments| == |c.refunds|
    requires RefundsKept(w.book, c, t) && CapturesKept(w.book, c, t)
    ensures ProtocolInv(w.(book := c, trades := Extend(w.trades, |c.payments|)))
  {
    BookStep(w, c);
    ExtendShape(w.trades, |c.payments|);
    var v := w.(book := c, trades := Extend(w.trades, |c.payments|));
    forall i | 0 <= i < |v.trades|
      ensures TradeInv(v, i)
    {
      if i < |w.trades| {
        assert TradeInv(w, i);
        assert v.trades[i] == v.trades[..|w.trades|][i];
      }
    }
    forall e | e in v.execs ensures ExecInv(v, e) { assert ExecInv(w, e); }
    forall e | e in v.requests ensures RequestInv(v, e) { assert RequestInv(w, e); }
  }

  lemma LocalKeeps(w: World, t: Tx)
    requires WorldInv(w)
    ensures WorldInv(LocalStep(w, t)) && Evolves(w.book, LocalStep(w, t).book)
  {
    EvolvesRefl(w.book);
    if !IsRefundTx(t) && Honest(w, t) {
      CommitKeeps(w.book, t);
      LocalEffects(w.book, t);
      LocalProtocol(w, t, Commit(w.book, t));
    }
  }

  /** A refund transaction that leaves the payments' capture state and every other record alone. */
  lemma RefundBookStep(w: World, c: Book, i: nat)
    requires ProtocolInv(w) && i < |w.trades| && Evolves(w.book, c) && NumbersDistinct(c.refunds)
    requires |c.payments| == |w.book.payments| && |c.refunds| == |w.book.refunds|
    requires forall j :: 0 <= j < |w.trades| ==>
               (Captured(c.payments[j].status) <==> Captured(w.book.payments[j].status))
    requires forall j :: 0 <= j < |w.trades| && j != i ==> c.refunds[j] == w.book.refunds[j]
    requires c.refunds[i].Some? && c.refunds[i].value.status == RefundSuccess ==>
               w.trades[i].moved + w.trades[i].external > 0
    requires c.refunds[i].Some? && c.refunds[i].value.status == RefundFailed ==>
               c.refunds[i].value.outRefundNo in w.rejected
    ensures ProtocolInv(w.(book := c))
  {
    BookStep(w, c);
    var v := w.(book := c);
    forall j | 0 <= j < |v.trades|
      ensures TradeInv(v, j)
    {
      assert TradeInv(w, j);
    }
    forall e | e in v.execs ensures ExecInv(v, e) { assert ExecInv(w, e); }
    forall e | e in v.requests ensures RequestInv(v, e) { assert RequestInv(w, e); }
  }

  lemma AddExecKeeps(w: World, e: nat, x: Exec)
    requires ProtocolInv(w) && e !in w.execs && e !in w.requests && x.phase == Prepared && RefersTo(w.book, x.pay, x.no)
    ensures ProtocolInv(w.(execs := w.execs[e := x]))
  {
    var v := w.(execs := w.execs[e := x]);
    forall j | 0 <= j < |v.trades| ensures TradeInv(v, j) { assert TradeInv(w, j); }
    forall y | y in v.execs ensures ExecInv(v, y) { if y != e { assert ExecInv(w, y); } }
    forall y | y in v.requests ensures RequestInv(v, y) { assert RequestInv(w, y); }
  }

  lemma PrepareShape(b: Book, i: nat, no: string, refundId: int)
    requires i < |b.payments| == |b.refunds| && PrepareRefund(b, i, no, refundId).Some?
    ensures var c := PrepareRefund(b, i, no, refundId).value;
            && c.payments == b.payments && |c.refunds| == |b.refunds|
            && (forall j :: 0 <= j < |b.payments| && j != i ==> c.refunds[j] == b.refunds[j])
            && c.refunds[i].Some? && c.refunds[i].value.status != RefundFailed
            && (c.refunds[i].value.status == RefundSuccess ==> c.refunds[i] == b.refunds[i])
  {
  }

  lemma PreparedKeeps(w: World, i: nat, no: string, refundId: int)
    requires WorldInv(w) && i < |w.trades| && PrepareRefund(w.book, i, no, refundId).Some?
    ensures WorldInv(w.(book := PrepareRefund(w.book, i, no, refundId).value))
    ensures Evolves(w.book, PrepareRefund(w.book, i, no, refundId).value)
  {
    PrepareShape(w.book, i, no, refundId);
    PrepareKeeps(w.book, i, no, refundId);
    assert TradeInv(w, i);
    RefundBookStep(w, PrepareRefund(w.book, i, no, refundId).value, i);
  }

  lemma PrepareStepKeeps(w: World, e: nat, i: nat, no: string, refundId: int)
    requires WorldInv(w)
    ensures WorldInv(PrepareStep(w, e, i, no, refundId)) && Evolves(w.book, PrepareStep(w, e, i, no, refundId).book)
  {
    EvolvesRefl(w.book);
    if e !in w.execs && e !in w.requests && i < |w.book.payments| && PrepareRefund(w.book, i, no, refundId).Some? {
      var c := PrepareRefund(w.book, i, no, refundId).value;
      PreparedKeeps(w, i, no, refundId);
      PrepareShape(w.book, i, no, refundId);
      if c.refunds[i].value.status != RefundSuccess {
        AddExecKeeps(w.(book := c), e, Exec(i, c.refunds[i].value.outRefundNo, Prepared));
      }
    }
  }

  /** The provider moves money only for a number it has not accepted, and that number belongs to one payment. */
  lemma AcceptKeeps(w: World, e: nat)
    requires ProtocolInv(w) && NumbersDistinct(w.book.refunds) && e in w.requests
    requires w.requests[e].verdict == Unprocessed && w.requests[e].no !in w.accepted
    ensures ProtocolInv(ProcessStep(w, e, true))
  {
    var v := ProcessStep(w, e, true);
    var q := w.requests[e];
    assert RefersTo(w.book, q.pay, q.no);
    forall i | 0 <= i < |v.trades|
      ensures TradeInv(v, i)
    {
      assert TradeInv(w, i);
      assert i != q.pay && w.book.refunds[i].Some? ==> w.book.refunds[i].value.outRefundNo != q.no;
    }
    forall x | x in v.execs ensures ExecInv(v, x) { assert ExecInv(w, x); }
    forall x | x in v.requests ensures RequestInv(v, x) { assert RequestInv(w, x); }
  }

  lemma ProcessKeeps(w: World, e: nat, accept: bool)
    requires ProtocolInv(w) && NumbersDistinct(w.book.refunds)
    ensures ProtocolInv(ProcessStep(w, e, accept)) && ProcessStep(w, e, accept).book == w.book
  {
    if e in w.requests && w.requests[e].verdict == Unprocessed {
      if w.requests[e].no !in w.accepted && accept {
        AcceptKeeps(w, e);
      } else {
        var v := ProcessStep(w, e, accept);
        forall i | 0 <= i < |v.trades| ensures TradeInv(v, i) { assert TradeInv(w, i); }
        forall x | x in v.execs ensures ExecInv(v, x) { assert ExecInv(w, x); }
        forall x | x in v.requests ensures RequestInv(v, x) { assert RequestInv(w, x); }
      }
    }
  }

  /** Changing or dropping one execution. */
  lemma ExecChangeKeeps(w: World, v: World, e: nat)
    requires ProtocolInv(w)
    requires v == w.(execs := v.execs)
    requires forall x :: x in v.execs && x != e ==> x in w.execs && v.execs[x] == w.execs[x]
    requires e in v.execs ==> e in w.execs && v.execs[e] == w.execs[e].(phase := v.execs[e].phase) && ExecInv(v, e)
    ensures ProtocolInv(v)
  {
    forall i | 0 <= i < |v.trades| ensures TradeInv(v, i) { assert TradeInv(w, i); }
    forall x | x in v.execs ensures ExecInv(v, x) { if x != e { assert ExecInv(w, x); } }
    forall x | x in v.requests ensures RequestInv(v, x) { assert RequestInv(w, x); }
  }

  lemma SendKeeps(w: World, e: nat)
    requires ProtocolInv(w)
    ensures ProtocolInv(SendStep(w, e)) && SendStep(w, e).book == w.book
  {
    var v := SendStep(w, e);
    if v != w {
      forall i | 0 <= i < |v.trades| ensures TradeInv(v, i) { assert TradeInv(w, i); }
      forall x | x in v.execs ensures ExecInv(v, x) { assert ExecInv(w, x); }
      forall x | x in v.requests ensures RequestInv(v, x) { if x != e { assert RequestInv(w, x); } }
    }
  }

  lemma SettleShape(b: Book, i: nat)
    requires i < |b.payments| == |b.refunds| && b.refunds[i].Some? && SettleRefund(b, i).Some?
    ensures var c := SettleRefund(b, i).value;
            && |c.payments| == |b.payments| && |c.refunds| == |b.refunds|
            && (forall j :: 0 <= j < |b.payments| ==>
                (Captured(c.payments[j].status) <==> Captured(b.payments[j].status)))
            && (forall j :: 0 <= j < |b.payments| && j != i ==> c.refunds[j] == b.refunds[j])
            && c.refunds[i].Some? && c.refunds[i].value.status == RefundSuccess
  {
  }

  /** Settlement after a confirmation settles the record, the payment and the order together. */
  lemma SettledKeeps(w: World, e: nat, c: Book)
    requires ProtocolInv(w) && e in w.execs && w.execs[e].phase == Confirmed
    requires SettleRefund(w.book, w.execs[e].pay) == Some(c)
    requires Evolves(w.book, c) && NumbersDistinct(c.refunds)
    ensures ProtocolInv(w.(book := c))
  {
    var i := w.execs[e].pay;
    assert ExecInv(w, e) && TradeInv(w, i);
    SettleShape(w.book, i);
    RefundBookStep(w, c, i);
  }

  lemma ApplyProtocol(w: World, e: nat, outcome: Outcome, c: Book)
    requires ProtocolInv(w) && e in w.execs && w.execs[e].phase == Confirmed
    requires SettleRefund(w.book, w.execs[e].pay) == Some(c)
    requires Evolves(w.book, c) && NumbersDistinct(c.refunds) && outcome != RolledBack
    ensures ProtocolInv(ApplyStep(w, e, outcome))
  {
    SettledKeeps(w, e, c);
    var m := w.(book := c);
    if outcome == AckLost {
      ExecChangeKeeps(m, SetPhase(m, e, Errored(false)), e);
    } else {
      ExecChangeKeeps(m, Finish(m, e), e);
    }
  }

  lemma ApplyFails(w: World, e: nat)
    requires ProtocolInv(w) && e in w.execs && w.execs[e].phase == Confirmed
    ensures ProtocolInv(SetPhase(w, e, Errored(false)))
  {
    ExecChangeKeeps(w, SetPhase(w, e, Errored(false)), e);
  }

  lemma ApplyKeeps(w: World, e: nat, outcome: Outcome)
    requires WorldInv(w)
    ensures WorldInv(ApplyStep(w, e, outcome)) && Evolves(w.book, ApplyStep(w, e, outcome).book)
  {
    EvolvesRefl(w.book);
    if e !in w.execs || w.execs[e].phase != Confirmed {
    } else if outcome == RolledBack || SettleRefund(w.book, w.execs[e].pay).None? {
      ApplyFails(w, e);
    } else {
      RefundKeeps(w.book, w.execs[e].pay);
      ApplyProtocol(w, e, outcome, SettleRefund(w.book, w.execs[e].pay).value);
    }
  }

  lemma ErrorRecordedKeeps(w: World, e: nat)
    requires WorldInv(w) && e in w.execs && w.execs[e].phase.Errored?
    requires RecordRefundError(w.book, w.execs[e].pay, w.execs[e].phase.definitive).Some?
    ensures WorldInv(w.(book := RecordRefundError(w.book, w.execs[e].pay, w.execs[e].phase.definitive).value))
    ensures Evolves(w.book, RecordRefundError(w.book, w.execs[e].pay, w.execs[e].phase.definitive).value)
  {
    var i := w.execs[e].pay;
    assert ExecInv(w, e) && TradeInv(w, i);
    if w.execs[e].phase == Errored(true) { assert RequestInv(w, e); }
    RefundErrorKeeps(w.book, i, w.execs[e].phase.definitive);
    RefundBookStep(w, RecordRefundError(w.book, i, w.execs[e].phase.definitive).value, i);
  }

  lemma RecordErrorKeeps(w: World, e: nat, outcome: Outcome)
    requires WorldInv(w)
    ensures WorldInv(RecordErrorStep(w, e, outcome)) && Evolves(w.book, RecordErrorStep(w, e, outcome).book)
  {
    EvolvesRefl(w.book);
    if e in w.execs && w.execs[e].phase.Errored? {
      var b := RecordRefundError(w.book, w.execs[e].pay, w.execs[e].phase.definitive);
      var m := w;
      if outcome != RolledBack && b.Some? {
        ErrorRecordedKeeps(w, e);
        m := w.(book := b.value);
      }
      ExecChangeKeeps(m, Finish(m, e), e);
    }
  }

  /** A payment the provider captured, or money it returned without us. */
  lemma LedgerKeeps(w: World, i: nat)
    requires ProtocolInv(w)
    ensures ProtocolInv(BuyerPaysStep(w, i)) && ProtocolInv(ExternalRefundStep(w, i))
  {
    TradesKeep(w, BuyerPaysStep(w, i).trades);
    TradesKeep(w, ExternalRefundStep(w, i).trades);
  }

  lemma TradesKeep(w: World, trades: seq<Trade>)
    requires ProtocolInv(w) && |trades| == |w.trades|
    requires forall i :: 0 <= i < |trades| ==>
               trades[i].moved == w.trades[i].moved && trades[i].external >= w.trades[i].external
                 && (w.trades[i].captured ==> trades[i].captured)
    ensures ProtocolInv(w.(trades := trades))
  {
    var v := w.(trades := trades);
    forall i | 0 <= i < |v.trades| ensures TradeInv(v, i) { assert TradeInv(w, i); }
    forall x | x in v.execs ensures ExecInv(v, x) { assert ExecInv(w, x); }
    forall x | x in v.requests ensures RequestInv(v, x) { assert RequestInv(w, x); }
  }

  lemma DeliverKeeps(w: World, e: nat, lost: bool)
    requires ProtocolInv(w)
    ensures ProtocolInv(DeliverStep(w, e, lost)) && DeliverStep(w, e, lost).book == w.book
  {
    if e in w.execs && w.execs[e].phase == Waiting {
      assert ExecInv(w, e) && RequestInv(w, e);
    }
    ExecChangeKeeps(w, DeliverStep(w, e, lost), e);
  }

  lemma TimeoutKeeps(w: World, e: nat)
    requires ProtocolInv(w)
    ensures ProtocolInv(TimeoutStep(w, e)) && TimeoutStep(w, e).book == w.book
  {
    if e in w.execs && w.execs[e].phase == Waiting {
      ExecChangeKeeps(w, SetPhase(w, e, Errored(false)), e);
    }
  }

  lemma CrashKeeps(w: World, e: nat)
    requires ProtocolInv(w)
    ensures ProtocolInv(Finish(w, e)) && Finish(w, e).book == w.book
  {
    ExecChangeKeeps(w, Finish(w, e), e);
  }

  /** Steps that commit something to the database. */
  predicate Commits(l: Label) {
    l.Local? || l.Prepare? || l.Apply? || l.RecordError?
  }

  lemma BookKept(w: World, l: Label)
    requires Aligned(w) && !Commits(l)
    ensures Step(w, l).book == w.book
  {
  }

  /** The other steps leave the book alone. */
  lemma OutsideBookKeeps(w: World, l: Label)
    requires ProtocolInv(w) && NumbersDistinct(w.book.refunds) && !Commits(l)
    ensures ProtocolInv(Step(w, l)) && Step(w, l).book == w.book
  {
    match l
    case BuyerPays(i) => LedgerKeeps(w, i);
    case ExternalRefund(i) => LedgerKeeps(w, i);
    case Send(e) => SendKeeps(w, e);
    case Process(e, accept) => ProcessKeeps(w, e, accept);
    case Deliver(e, lost) => DeliverKeeps(w, e, lost);
    case Timeout(e) => TimeoutKeeps(w, e);
    case Crash(e) => CrashKeeps(w, e);
  }

  /** Every step keeps the protocol's invariant and takes nothing settled back. */
  lemma StepKeeps(w: World, l: Label)
    requires WorldInv(w)
    ensures WorldInv(Step(w, l)) && Evolves(w.book, Step(w, l).book)
  {
    if !Commits(l) {
      EvolvesRefl(w.book);
      OutsideBookKeeps(w, l);
    } else {
      match l
      case Local(t) => LocalKeeps(w, t);
      case Prepare(e, i, no, refundId) => PrepareStepKeeps(w, e, i, no, refundId);
      case Apply(e, outcome) => ApplyKeeps(w, e, outcome);
      case RecordError(e, outcome) => RecordErrorKeeps(w, e, outcome);
    }
  }
}
