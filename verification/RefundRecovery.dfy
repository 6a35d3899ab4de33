/** What a worker pass makes of refunds that were left pending, wherever their executions stopped. */
module RefundRecovery {
  import opened Options
  import opened PaymentTypes
  import opened Settlement
  import opened SettlementInvariants
  import opened RefundProtocol
  import opened SettlementTheorems
  import opened RefundCalls

  /** Nothing changed but the record of row i and the acceptance of its number. */
  ghost predicate Beside(w: World, v: World, i: nat, no: string) {
    && |v.book.refunds| == |w.book.refunds|
    && (forall j :: 0 <= j < |w.book.refunds| && j != i ==> v.book.refunds[j] == w.book.refunds[j])
    && (forall n :: n != no ==> (n in v.accepted <==> n in w.accepted))
  }

  lemma BesideTrans(u: World, v: World, w: World, i: nat, no: string)
    requires Beside(u, v, i, no) && Beside(v, w, i, no)
    ensures Beside(u, w, i, no)
  {
  }

  lemma PrepareBeside(w: World, c: Call, no: string)
    requires Aligned(w)
    ensures Beside(w, Step(w, PrepareLabel(c)), c.i, no)
  {
    if c.i < |w.book.payments| && PrepareRefund(w.book, c.i, c.no, c.refundId).Some? {
      PrepareShape(w.book, c.i, c.no, c.refundId);
    }
  }

  lemma AskedBeside(w: World, e: nat, s: Schedule)
    requires WorldInv(w) && e in w.execs && w.execs[e].phase == Prepared && Undisturbed(s, e)
    ensures Beside(w, Run(w, Asking(e, s)), w.execs[e].pay, w.execs[e].no)
  {
    var accept := s.beforeReply[0].accept;
    assert Asking(e, s) == [Send(e), Process(e, accept)];
    AskedRun(w, e, accept);
    SendBeside(w, e, accept);
  }

  lemma SendBeside(w: World, e: nat, accept: bool)
    requires ProtocolInv(w) && e in w.execs && w.execs[e].phase == Prepared && Aligned(SendStep(w, e))
    ensures Beside(w, ProcessStep(SendStep(w, e), e, accept), w.execs[e].pay, w.execs[e].no)
  {
    assert ExecInv(w, e);
  }

  lemma ApplyBeside(w: World, e: nat, outcome: Outcome, i: nat, no: string)
    requires Aligned(w) && e in w.execs && w.execs[e].pay == i
    ensures Beside(w, Step(w, Apply(e, outcome)), i, no)
  {
    if SettleRefund(w.book, i).Some? { SettleShape(w.book, i); }
  }

  lemma RecordBeside(w: World, e: nat, outcome: Outcome, i: nat, no: string)
    requires Aligned(w) && e in w.execs && w.execs[e].pay == i
    ensures Beside(w, Step(w, RecordError(e, outcome)), i, no)
  {
  }

  // --------------------------------------------------------- one undisturbed call

  /** How an undisturbed call leaves the record it found pending. */
  function FinalStatus(s: Schedule, accepted: bool): RefundStatus {
    if !s.replyLost && accepted && s.apply != RolledBack then RefundSuccess
    else if !s.replyLost && !accepted && s.record != RolledBack then RefundFailed
    else RefundPending
  }

  /** The settlement of an answered call touches only its own record. */
  lemma TriedBeside(m: World, e: nat, s: Schedule, x: Exec, accepted: bool)
    requires Aligned(m) && Answered(m, e, x, accepted) && s.beforeApply == []
    requires WorldInv(Step(m, ReplyLabel(m, e, s.replyLost)))
    ensures Beside(m, Tried(Step(m, ReplyLabel(m, e, s.replyLost)), e, s), x.pay, x.no)
  {
    DeliveredAnswer(m, e, s, x, accepted);
    var h := Step(m, ReplyLabel(m, e, s.replyLost));
    assert h.execs[e].pay == x.pay;
    if Confirms(h, e) {
      assert Run(h, s.beforeApply) == h;
      ApplyBeside(h, e, s.apply, x.pay, x.no);
    }
  }

  lemma SettledOutcome(t: World, x: Exec, e: nat, s: Schedule, accepted: bool, done: World)
    requires WorldInv(t) && Recorded(t, x.pay, e, s, SettledReport, done) && CallReport(s, accepted) == SettledReport
    ensures HasStatus(done.book, x.pay, FinalStatus(s, accepted)) && Beside(t, done, x.pay, x.no)
  {
  }

  lemma RecordedOutcome(t: World, x: Exec, e: nat, s: Schedule, accepted: bool, r: Report, done: World)
    requires WorldInv(t) && Decided(x, s, accepted, e, t) && s.beforeRecord == [] && Recorded(t, x.pay, e, s, r, done)
    ensures HasStatus(done.book, x.pay, FinalStatus(s, accepted)) && Beside(t, done, x.pay, x.no)
  {
    if r == SettledReport {
      SettledOutcome(t, x, e, s, accepted, done);
    } else {
      assert Run(t, s.beforeRecord) == t;
      RecordedStatus(t, e, s.record, t.book.refunds[x.pay].value.status);
      RecordBeside(t, e, s.record, x.pay, x.no);
    }
  }

  lemma ExecutionOutcome(w: World, e: nat, s: Schedule, steps: seq<Label>, r: Report, done: World)
    requires WorldInv(w) && e in w.execs && w.execs[e].phase == Prepared && Undisturbed(s, e)
    requires HasStatus(w.book, w.execs[e].pay, RefundPending) && Performed(w, e, s, steps, r, done)
    ensures HasStatus(done.book, w.execs[e].pay, FinalStatus(s, Accepts(s, w.execs[e].no in w.accepted)))
    ensures Beside(w, done, w.execs[e].pay, w.execs[e].no)
  {
    var m, x, accepted := Run(w, Asking(e, s)), w.execs[e], Accepts(s, w.execs[e].no in w.accepted);
    UndisturbedAnswer(w, e, s);
    AskedBeside(w, e, s);
    UndisturbedSettlement(m, e, s, x, accepted);
    TriedBeside(m, e, s, x, accepted);
    var t := Tried(Step(m, ReplyLabel(m, e, s.replyLost)), e, s);
    RecordedOutcome(t, x, e, s, accepted, r, done);
    BesideTrans(w, m, t, x.pay, x.no);
    BesideTrans(w, t, done, x.pay, x.no);
  }

  // --------------------------------------------------------------- one record

  /** The listing shows the record as it is. */
  predicate Listed(b: Book, x: StaleRefund) {
    StillListed(b, x) && b.refunds[x.pay].value.outRefundNo == x.no
  }

  /** A pending record can always be prepared again, whatever happened to the order and to earlier executions. */
  lemma WorkerCallGoes(w: World, x: StaleRefund, e: nat, s: Schedule)
    requires WorldInv(w) && Listed(w.book, x) && s.loaded && s.prepare == Committed
    ensures Goes(w.book, EntryCall(x, e), s) && Some(PreparedRecord(w.book, EntryCall(x, e))) == w.book.refunds[x.pay]
  {
    assert RowInv(w.book.order, w.book.payments[x.pay], w.book.refunds[x.pay]);
  }

  /** One undisturbed entry of a pass decides its record and touches no other. */
  ghost predicate Recovered(w: World, x: StaleRefund, s: Schedule, r: Report, done: World) {
    var accepted := Accepts(s, x.no in w.accepted);
    r == CallReport(s, accepted) && HasStatus(done.book, x.pay, FinalStatus(s, accepted))
      && Beside(w, done, x.pay, x.no)
  }

  lemma EntryRecovers(n: Entry, x: StaleRefund, s: Schedule)
    requires Worked(n, x, s) && Listed(n.before.book, x) && s.loaded && s.prepare == Committed && Undisturbed(s, n.e)
    ensures Recovered(n.before, x, s, n.report, n.after)
  {
    WorkerCallGoes(n.before, x, n.e, s);
    CallRecovers(n.before, x, n.e, s, n.steps, n.report, n.after);
  }

  lemma CallRecovers(w: World, x: StaleRefund, e: nat, s: Schedule, steps: seq<Label>, r: Report, done: World)
    requires WorldInv(w) && e !in w.execs && e !in w.requests && Called(w, EntryCall(x, e), s, steps, r, done)
    requires Listed(w.book, x) && Undisturbed(s, e) && Goes(w.book, EntryCall(x, e), s)
    requires Some(PreparedRecord(w.book, EntryCall(x, e))) == w.book.refunds[x.pay]
    ensures Recovered(w, x, s, r, done)
  {
    var c := EntryCall(x, e);
    var v := Step(w, PrepareLabel(c));
    UndisturbedCall(w, c, s, steps, r, done);
    PreparedPending(w, c, s);
    PrepareBeside(w, c, x.no);
    ExecutionOutcome(v, e, s, steps[1..], r, done);
    BesideTrans(w, v, done, x.pay, x.no);
  }

  // --------------------------------------------------------------- one pass

  /** The listing shows pending records as they are, each once. */
  ghost predicate Listing(b: Book, stale: seq<StaleRefund>) {
    && (forall k :: 0 <= k < |stale| ==> Listed(b, stale[k]))
    && (forall j, k :: 0 <= j < k < |stale| ==> stale[j].pay != stale[k].pay)
  }

  /** Every payment loads, every preparation commits and nobody disturbs a call. */
  ghost predicate Calm(env: (nat, nat) -> Schedule, entries: seq<Entry>) {
    forall k :: 0 <= k < |entries| ==> CalmEntry(env(k, entries[k].e), entries[k].e)
  }

  ghost predicate CalmEntry(s: Schedule, e: nat) {
    s.loaded && s.prepare == Committed && Undisturbed(s, e)
  }

  /** The listed record is decided as the provider and the database decided its call. */
  ghost predicate DecidedAs(first: World, last: World, x: StaleRefund, s: Schedule, r: Report) {
    var accepted := Accepts(s, x.no in first.accepted);
    r == CallReport(s, accepted) && HasStatus(last.book, x.pay, FinalStatus(s, accepted))
  }

  /** The listed record is as it was. */
  ghost predicate StillWaiting(first: World, last: World, x: StaleRefund) {
    Listed(last.book, x) && (x.no in last.accepted <==> x.no in first.accepted)
  }

  lemma {:induction false} PassDecides(
      first: World, last: World, stale: seq<StaleRefund>, env: (nat, nat) -> Schedule, entries: seq<Entry>, k: nat)
    requires NumbersDistinct(first.book.refunds) && Listing(first.book, stale) && |entries| <= |stale| && k < |stale|
    requires Pass(first, last, stale, env, entries) && Calm(env, entries)
    ensures if k < |entries| then DecidedAs(first, last, stale[k], env(k, entries[k].e), entries[k].report)
            else StillWaiting(first, last, stale[k])
    decreases |entries|
  {
    if entries != [] {
      var m := |entries| - 1;
      var n, before := entries[m], entries[..m];
      assert Calm(env, before);
      PassDecides(first, n.before, stale, env, before, k);
      PassDecides(first, n.before, stale, env, before, m);
      assert CalmEntry(env(m, n.e), n.e);
      EntryRecovers(n, stale[m], env(m, n.e));
      if k != m {
        OtherEntry(first, n, stale[m], stale[k]);
      }
    }
  }

  /** Another record keeps its status and its number's acceptance. */
  lemma OtherEntry(first: World, n: Entry, x: StaleRefund, y: StaleRefund)
    requires Beside(n.before, n.after, x.pay, x.no) && x.pay != y.pay
    requires NumbersDistinct(first.book.refunds) && Listed(first.book, x) && Listed(first.book, y)
    ensures forall status :: HasStatus(n.before.book, y.pay, status) ==> HasStatus(n.after.book, y.pay, status)
    ensures StillWaiting(first, n.before, y) ==> StillWaiting(first, n.after, y)
  {
    assert x.no != y.no;
  }

  /** The provider accepts now or accepted before, and reply and settlement arrive. */
  predicate Succeeds(s: Schedule, accepted: bool) {
    !s.replyLost && Accepts(s, accepted) && s.apply != RolledBack
  }

  /** Every pending record is listed. */
  ghost predicate Complete(b: Book, stale: seq<StaleRefund>) {
    forall i: nat :: HasStatus(b, i, RefundPending) ==> exists k :: 0 <= k < |stale| && stale[k].pay == i
  }

  /** Every record that was pending is settled. */
  ghost predicate AllRecovered(b: Book, c: Book) {
    forall i: nat :: HasStatus(b, i, RefundPending) ==> HasStatus(c, i, RefundSuccess)
  }

  ghost predicate EachSettled(c: Book, stale: seq<StaleRefund>) {
    forall k :: 0 <= k < |stale| ==> HasStatus(c, stale[k].pay, RefundSuccess)
  }

  lemma RecoveredIffListed(b: Book, c: Book, stale: seq<StaleRefund>)
    requires Listing(b, stale) && Complete(b, stale)
    ensures AllRecovered(b, c) <==> EachSettled(c, stale)
  {
    if AllRecovered(b, c) {
      forall k | 0 <= k < |stale| ensures HasStatus(c, stale[k].pay, RefundSuccess) { assert Listed(b, stale[k]); }
    }
  }

  lemma SettledIffSucceeds(first: World, last: World, stale: seq<StaleRefund>, env: (nat, nat) -> Schedule,
      entries: seq<Entry>)
    requires |entries| == |stale|
    requires forall k :: 0 <= k < |stale| ==> DecidedAs(first, last, stale[k], env(k, entries[k].e), entries[k].report)
    ensures EachSettled(last.book, stale) <==>
            forall k :: 0 <= k < |stale| ==> Succeeds(env(k, entries[k].e), stale[k].no in first.accepted)
  {
    forall k | 0 <= k < |stale|
      ensures HasStatus(last.book, stale[k].pay, RefundSuccess) <==>
              Succeeds(env(k, entries[k].e), stale[k].no in first.accepted)
    {
      assert DecidedAs(first, last, stale[k], env(k, entries[k].e), entries[k].report);
    }
  }

  /**
   * Recovery: from every state, whatever crashed before, one undisturbed pass over all pending records settles every
   * one of them exactly when each is accepted, now or before, and its reply and settlement arrive.
   */
  lemma PassSettlesAllIff(first: World, last: World, stale: seq<StaleRefund>, env: (nat, nat) -> Schedule,
      entries: seq<Entry>)
    requires WorldInv(first) && Listing(first.book, stale) && Complete(first.book, stale) && |entries| == |stale|
    requires Pass(first, last, stale, env, entries) && Calm(env, entries)
    ensures AllRecovered(first.book, last.book) <==>
            forall k :: 0 <= k < |stale| ==> Succeeds(env(k, entries[k].e), stale[k].no in first.accepted)
    ensures forall k :: 0 <= k < |stale| ==> DecidedAs(first, last, stale[k], env(k, entries[k].e), entries[k].report)
  {
    forall k | 0 <= k < |stale| ensures DecidedAs(first, last, stale[k], env(k, entries[k].e), entries[k].report) {
      PassDecides(first, last, stale, env, entries, k);
    }
    RecoveredIffListed(first.book, last.book, stale);
    SettledIffSucceeds(first, last, stale, env, entries);
  }
}
