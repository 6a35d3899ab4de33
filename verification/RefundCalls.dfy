/** What one call of the refund service does to the world, told by the steps it takes among everybody else's. */
module RefundCalls {
  import opened Options
  import opened PaymentTypes
  import opened Settlement
  import opened SettlementInvariants
  import opened RefundProtocol
  import opened SettlementTheorems

  /** What one execution reports, in the words of the worker's metric; Refused means that it could not be prepared. */
  datatype Report = SettledReport | RejectedReport | DeferredReport | RecordErrorReport | Refused

  /**
   * What the environment does to one execution: whether the payment and a method that can refund could be read, the
   * others' steps in each gap and the fate of each call.
   */
  datatype Schedule = Schedule(
    loaded: bool, prepare: Outcome, beforeSend: seq<Label>, beforeReply: seq<Label>, replyLost: bool,
    beforeApply: seq<Label>, apply: Outcome, beforeRecord: seq<Label>, record: Outcome)

  /**
   * One call: its execution, the payment row, the number and identifier for a new record, the record a worker expects.
   */
  datatype Call = Call(e: nat, i: nat, no: string, refundId: int, expected: Option<int>)

  /** A record as the worker's listing shows it. */
  datatype StaleRefund = StaleRefund(pay: nat, no: string, id: int)

  predicate HasStatus(b: Book, i: nat, status: RefundStatus) {
    i < |b.refunds| && b.refunds[i].Some? && b.refunds[i].value.status == status
  }

  predicate ForeignSchedule(s: Schedule, e: nat) {
    Foreign(s.beforeSend, e) && Foreign(s.beforeReply, e) && Foreign(s.beforeApply, e) && Foreign(s.beforeRecord, e)
  }

  /** The record's status as the report promises it. */
  predicate Reports(r: Report, b: Book, i: nat) {
    && (r == SettledReport ==> HasStatus(b, i, RefundSuccess))
    && (r == RejectedReport ==> HasStatus(b, i, RefundFailed))
    && (r == DeferredReport ==> HasStatus(b, i, RefundPending))
  }

  // ------------------------------------------------------------- executing

  predicate Unanswered(w: World, e: nat) {
    e in w.requests ==> w.requests[e].verdict == Unprocessed
  }

  predicate Confirms(w: World, e: nat) {
    e in w.execs && w.execs[e].phase == Confirmed
  }

  /** Sending the request, until the caller stops waiting. */
  function Asking(e: nat, s: Schedule): seq<Label> {
    s.beforeSend + [Send(e)] + s.beforeReply
  }

  function ReplyLabel(asked: World, e: nat, lost: bool): Label {
    if Unanswered(asked, e) then Timeout(e) else Deliver(e, lost)
  }

  /** A confirmation, and nothing else, is followed by the local settlement. */
  function Settling(heard: World, e: nat, s: Schedule): seq<Label> {
    if Confirms(heard, e) then s.beforeApply + [Apply(e, s.apply)] else []
  }

  ghost function Tried(heard: World, e: nat, s: Schedule): World
    requires WorldInv(heard)
  {
    if Confirms(heard, e) then Step(Run(heard, s.beforeApply), Apply(e, s.apply)) else heard
  }

  /** A settled execution is over; any other records its error once. */
  function Recording(r: Report, e: nat, s: Schedule): seq<Label> {
    if r == SettledReport then [] else s.beforeRecord + [RecordError(e, s.record)]
  }

  /** What was tried for the record of row i, told by the world it left behind, the report and the final world. */
  ghost predicate Recorded(tried: World, i: nat, e: nat, s: Schedule, r: Report, done: World)
    requires WorldInv(tried)
  {
    && r != Refused && Reports(r, done.book, i)
    && (r == SettledReport <==> e !in tried.execs)
    && if r == SettledReport then done == tried
      else
        var ready := Run(tried, s.beforeRecord);
        && done == Step(ready, RecordError(e, s.record))
        && (r == RecordErrorReport <==> s.record != Committed || !HasStatus(ready.book, i, RefundPending))
  }

  /** The execution of a prepared record took these steps, reported r and left the world done. */
  ghost predicate Performed(w: World, e: nat, s: Schedule, steps: seq<Label>, r: Report, done: World)
    requires WorldInv(w) && e in w.execs
  {
    var asked := Run(w, Asking(e, s));
    var heard := Step(asked, ReplyLabel(asked, e, s.replyLost));
    && WorldInv(heard) && WorldInv(Tried(heard, e, s))
    && Recorded(Tried(heard, e, s), w.execs[e].pay, e, s, r, done)
    && steps == Asking(e, s) + [ReplyLabel(asked, e, s.replyLost)] + Settling(heard, e, s) + Recording(r, e, s)
  }

  lemma PerformedBy(w: World, e: nat, s: Schedule, heard: World, tried: World, r: Report, done: World)
    requires WorldInv(w) && e in w.execs && WorldInv(heard) && WorldInv(tried) && tried == Tried(heard, e, s)
    requires var asked := Run(w, Asking(e, s)); heard == Step(asked, ReplyLabel(asked, e, s.replyLost))
    requires Recorded(tried, w.execs[e].pay, e, s, r, done)
    ensures var asked := Run(w, Asking(e, s));
            Performed(w, e, s, Asking(e, s) + [ReplyLabel(asked, e, s.replyLost)] + Settling(heard, e, s) +
                      Recording(r, e, s), r, done)
  {
  }

  // -------------------------------------------------------------- preparing

  /** The preparation reaches its commit. */
  predicate Preparable(b: Book, c: Call, s: Schedule)
    requires |b.payments| == |b.refunds|
  {
    s.loaded && s.prepare != RolledBack && c.i < |b.payments| && PrepareRefund(b, c.i, c.no, c.refundId).Some?
  }

  function PreparedRecord(b: Book, c: Call): Refund
    requires c.i < |b.payments| == |b.refunds| && PrepareRefund(b, c.i, c.no, c.refundId).Some?
  {
    PrepareShape(b, c.i, c.no, c.refundId);
    PrepareRefund(b, c.i, c.no, c.refundId).value.refunds[c.i].value
  }

  /** The preparation is answered, with the record the caller expects. */
  predicate Goes(b: Book, c: Call, s: Schedule)
    requires |b.payments| == |b.refunds|
  {
    Preparable(b, c, s) && s.prepare == Committed && (c.expected.Some? ==> c.expected.value == PreparedRecord(b, c).id)
  }

  function PrepareLabel(c: Call): Label {
    Prepare(c.e, c.i, c.no, c.refundId)
  }

  /** A refused call executes nothing; at most its preparation was committed. */
  function RefusedSteps(b: Book, c: Call, s: Schedule): seq<Label>
    requires |b.payments| == |b.refunds|
  {
    if Preparable(b, c, s) then [PrepareLabel(c), Crash(c.e)] else []
  }

  ghost function RefusedWorld(w: World, c: Call, s: Schedule): (v: World)
    requires WorldInv(w)
    ensures WorldInv(v)
  {
    if Preparable(w.book, c, s) then
      StepKeeps(w, PrepareLabel(c));
      StepKeeps(Step(w, PrepareLabel(c)), Crash(c.e));
      Step(Step(w, PrepareLabel(c)), Crash(c.e))
    else w
  }

  /** The whole call: refused, settled before, or prepared and performed. */
  ghost predicate Called(w: World, c: Call, s: Schedule, steps: seq<Label>, r: Report, done: World)
    requires WorldInv(w)
  {
    if !Goes(w.book, c, s) then r == Refused && steps == RefusedSteps(w.book, c, s) && done == RefusedWorld(w, c, s)
    else
      var v := Step(w, PrepareLabel(c));
      if PreparedRecord(w.book, c).status == RefundSuccess then
        r == SettledReport && steps == [PrepareLabel(c)] && done == v && HasStatus(v.book, c.i, RefundSuccess)
      else
        && WorldInv(v) && c.e in v.execs && v.execs[c.e] == Exec(c.i, PreparedRecord(w.book, c).outRefundNo, Prepared)
        && 0 < |steps| && steps[0] == PrepareLabel(c) && Performed(v, c.e, s, steps[1..], r, done)
  }

  /** A prepared record is pending, and its execution waits to be sent. */
  lemma PreparedExecution(w: World, c: Call, s: Schedule)
    requires WorldInv(w) && c.e !in w.execs && c.e !in w.requests && Preparable(w.book, c, s)
    ensures var v := Step(w, PrepareLabel(c)); var f := PreparedRecord(w.book, c);
            && c.i < |v.book.refunds| && v.book.refunds[c.i] == Some(f) && f.status != RefundFailed
            && (f.status == RefundSuccess ==> c.e !in v.execs && w.book.refunds[c.i] == Some(f))
            && (f.status == RefundPending ==> c.e in v.execs && v.execs[c.e] == Exec(c.i, f.outRefundNo, Prepared))
  {
    PrepareShape(w.book, c.i, c.no, c.refundId);
  }

  // ------------------------------------------------------- undisturbed calls

  /** Nobody else acts between the steps of the call; the provider processes the request at once. */
  predicate Undisturbed(s: Schedule, e: nat) {
    && s.beforeSend == [] && s.beforeApply == [] && s.beforeRecord == []
    && (s.beforeReply == [Process(e, true)] || s.beforeReply == [Process(e, false)])
  }

  predicate Accepts(s: Schedule, accepted: bool) {
    accepted || (s.beforeReply != [] && s.beforeReply[0].Process? && s.beforeReply[0].accept)
  }

  /** What an undisturbed call reports. */
  function CallReport(s: Schedule, accepted: bool): Report {
    if !s.replyLost && accepted && s.apply == Committed then SettledReport
    else if s.record != Committed || (!s.replyLost && accepted && s.apply == AckLost) then RecordErrorReport
    else if !s.replyLost && !accepted then RejectedReport
    else DeferredReport
  }

  /** The phase the provider's answer leads to. */
  function Answer(v: Verdict, lost: bool): Phase {
    if v == Unprocessed || lost then Errored(false) else if v == Accepted then Confirmed else Errored(true)
  }

  lemma SendThenProcess(w: World, e: nat, accept: bool)
    requires WorldInv(w) && e in w.execs && w.execs[e].phase == Prepared && WorldInv(SendStep(w, e))
    ensures var v := ProcessStep(SendStep(w, e), e, accept);
            && v.book == w.book && e in v.execs && v.execs[e] == w.execs[e].(phase := Waiting)
            && e in v.requests
            && v.requests[e].verdict == (if w.execs[e].no in w.accepted || accept then Accepted else Rejected)
  {
    assert ExecInv(w, e);
  }

  lemma AskedRun(w: World, e: nat, accept: bool)
    requires WorldInv(w)
    ensures WorldInv(SendStep(w, e)) && Run(w, [Send(e), Process(e, accept)]) == ProcessStep(SendStep(w, e), e, accept)
  {
    RunOne(w, Send(e));
    var m := Step(w, Send(e));
    RunOne(m, Process(e, accept));
    RunConcat(w, [Send(e)], [Process(e, accept)]);
    assert [Send(e)] + [Process(e, accept)] == [Send(e), Process(e, accept)];
  }

  /** The request of x is answered as provider and ledger decide. */
  ghost predicate Answered(m: World, e: nat, x: Exec, accepted: bool) {
    && e in m.execs && m.execs[e] == x.(phase := Waiting)
    && e in m.requests && m.requests[e].verdict == if accepted then Accepted else Rejected
  }

  lemma UndisturbedAnswer(w: World, e: nat, s: Schedule)
    requires WorldInv(w) && e in w.execs && w.execs[e].phase == Prepared && Undisturbed(s, e)
    ensures var m := Run(w, Asking(e, s));
            m.book == w.book && Answered(m, e, w.execs[e], Accepts(s, w.execs[e].no in w.accepted))
  {
    var accept := s.beforeReply[0].accept;
    assert Asking(e, s) == [Send(e), Process(e, accept)];
    AskedRun(w, e, accept);
    SendThenProcess(w, e, accept);
  }

  lemma DeliveredAnswer(m: World, e: nat, s: Schedule, x: Exec, accepted: bool)
    requires Aligned(m) && Answered(m, e, x, accepted)
    ensures Step(m, ReplyLabel(m, e, s.replyLost)) == SetPhase(m, e, Answer(m.requests[e].verdict, s.replyLost))
  {
  }

  /** The settlement of a pending record never fails on its own. */
  lemma PendingSettlement(m: World, e: nat, outcome: Outcome)
    requires WorldInv(m) && Confirms(m, e) && HasStatus(m.book, m.execs[e].pay, RefundPending)
    ensures var v := Step(m, Apply(e, outcome));
            && (e !in v.execs <==> outcome == Committed)
            && (e in v.execs ==> v.execs[e] == m.execs[e].(phase := Errored(false)))
            && HasStatus(v.book, m.execs[e].pay, if outcome == RolledBack then RefundPending else RefundSuccess)
  {
    PendingRecordSettles(m.book, m.execs[e].pay);
  }

  /** How the settlement of an undisturbed call went: v is the world after it. */
  ghost predicate Decided(x: Exec, s: Schedule, accepted: bool, e: nat, v: World) {
    && (e !in v.execs <==> CallReport(s, accepted) == SettledReport)
    && (e in v.execs ==> v.execs[e].pay == x.pay && v.execs[e].phase == Errored(!s.replyLost && !accepted))
    && (e in v.execs ==> HasStatus(v.book, x.pay, if !s.replyLost && accepted && s.apply == AckLost then RefundSuccess
                                   else RefundPending))
  }

  lemma UndisturbedSettlement(m: World, e: nat, s: Schedule, x: Exec, accepted: bool)
    requires Aligned(m) && Answered(m, e, x, accepted) && s.beforeApply == [] && HasStatus(m.book, x.pay, RefundPending)
    requires WorldInv(Step(m, ReplyLabel(m, e, s.replyLost)))
    ensures Decided(x, s, accepted, e, Tried(Step(m, ReplyLabel(m, e, s.replyLost)), e, s))
  {
    DeliveredAnswer(m, e, s, x, accepted);
    var h := Step(m, ReplyLabel(m, e, s.replyLost));
    if Confirms(h, e) {
      assert Run(h, s.beforeApply) == h;
      PendingSettlement(h, e, s.apply);
    }
  }

  /** Recording the error of a pending row writes its verdict. */
  lemma RecordedStatus(v: World, e: nat, outcome: Outcome, status: RefundStatus)
    requires Aligned(v) && e in v.execs && v.execs[e].phase.Errored? && HasStatus(v.book, v.execs[e].pay, status)
    ensures HasStatus(Step(v, RecordError(e, outcome)).book, v.execs[e].pay,
                      if status == RefundPending && v.execs[e].phase.definitive && outcome != RolledBack
                      then RefundFailed else status)
  {
  }

  /** The report that follows from what was decided. */
  lemma DecidedReport(t: World, x: Exec, e: nat, s: Schedule, accepted: bool, r: Report, done: World)
    requires WorldInv(t) && Decided(x, s, accepted, e, t) && s.beforeRecord == [] && Recorded(t, x.pay, e, s, r, done)
    ensures r == CallReport(s, accepted)
  {
    if r != SettledReport {
      assert Run(t, s.beforeRecord) == t;
      RecordedStatus(t, e, s.record, t.book.refunds[x.pay].value.status);
    }
  }

  /** An undisturbed execution settles, rejects or defers its record as provider and database decide. */
  lemma UndisturbedReport(w: World, e: nat, s: Schedule, steps: seq<Label>, r: Report, done: World)
    requires WorldInv(w) && e in w.execs && w.execs[e].phase == Prepared && Undisturbed(s, e)
    requires HasStatus(w.book, w.execs[e].pay, RefundPending)
    requires Performed(w, e, s, steps, r, done)
    ensures r == CallReport(s, Accepts(s, w.execs[e].no in w.accepted))
  {
    UndisturbedAnswer(w, e, s);
    var m, x, accepted := Run(w, Asking(e, s)), w.execs[e], Accepts(s, w.execs[e].no in w.accepted);
    UndisturbedSettlement(m, e, s, x, accepted);
    DecidedReport(Tried(Step(m, ReplyLabel(m, e, s.replyLost)), e, s), x, e, s, accepted, r, done);
  }

  /** After the preparation the record is pending and its number as little accepted as before. */
  lemma PreparedPending(w: World, c: Call, s: Schedule)
    requires WorldInv(w) && c.e !in w.execs && c.e !in w.requests && Preparable(w.book, c, s)
    requires PreparedRecord(w.book, c).status != RefundSuccess
    ensures var v := Step(w, PrepareLabel(c)); HasStatus(v.book, c.i, RefundPending) && v.accepted == w.accepted
  {
    PreparedExecution(w, c, s);
  }

  /** The same for the whole call. */
  lemma UndisturbedCall(w: World, c: Call, s: Schedule, steps: seq<Label>, r: Report, done: World)
    requires WorldInv(w) && c.e !in w.execs && c.e !in w.requests && Called(w, c, s, steps, r, done)
    requires Undisturbed(s, c.e) && Goes(w.book, c, s)
    ensures var f := PreparedRecord(w.book, c);
            r == if f.status == RefundSuccess then SettledReport
              else CallReport(s, Accepts(s, f.outRefundNo in w.accepted))
  {
    if PreparedRecord(w.book, c).status != RefundSuccess {
      PreparedPending(w, c, s);
      UndisturbedReport(Step(w, PrepareLabel(c)), c.e, s, steps[1..], r, done);
    }
  }

  // ------------------------------------------------------------ worker passes

  /** One record of a pass: the world it met, its execution and steps, the report and the world it left. */
  datatype Entry = Entry(before: World, e: nat, steps: seq<Label>, report: Report, after: World)

  function EntryCall(x: StaleRefund, e: nat): Call {
    Call(e, x.pay, x.no, x.id, Some(x.id))
  }

  /** The row the listing named is still there and pending. */
  predicate StillListed(b: Book, x: StaleRefund) {
    HasStatus(b, x.pay, RefundPending) && b.refunds[x.pay].value.id == x.id
  }

  /** The entry is the call for that record; a refused call is recorded as an error that is not definitive. */
  ghost predicate Worked(n: Entry, x: StaleRefund, s: Schedule) {
    && WorldInv(n.before) && n.e !in n.before.execs && n.e !in n.before.requests
    && var c := EntryCall(x, n.e);
      if Goes(n.before.book, c, s) then Called(n.before, c, s, n.steps, n.report, n.after)
      else
        && n.steps == RefusedSteps(n.before.book, c, s) + s.beforeRecord
        && n.after == Run(RefusedWorld(n.before, c, s), s.beforeRecord)
        && n.report == if s.record == Committed && StillListed(n.after.book, x) then DeferredReport
             else RecordErrorReport
  }

  ghost function Joined(entries: seq<Entry>): seq<Label> {
    if entries == [] then [] else Joined(entries[..|entries| - 1]) + entries[|entries| - 1].steps
  }

  /** The entries are the work on the listed records, one after the other, from the first world to the last. */
  ghost predicate Pass(first: World, last: World, stale: seq<StaleRefund>, env: (nat, nat) -> Schedule,
      entries: seq<Entry>)
    requires |entries| <= |stale|
    decreases |entries|
  {
    if entries == [] then last == first
    else
      var k := |entries| - 1;
      last == entries[k].after && Worked(entries[k], stale[k], env(k, entries[k].e))
        && Pass(first, entries[k].before, stale, env, entries[..k])
  }

  lemma PassExtends(first: World, stale: seq<StaleRefund>, env: (nat, nat) -> Schedule, entries: seq<Entry>, n: Entry)
    requires |entries| < |stale| && Pass(first, n.before, stale, env, entries)
    requires Worked(n, stale[|entries|], env(|entries|, n.e))
    ensures Pass(first, n.after, stale, env, entries + [n])
  {
    var longer, k := entries + [n], |entries|;
    assert |longer| - 1 == k && longer[k] == n && longer[..k] == entries;
  }

  lemma JoinedExtends(entries: seq<Entry>, n: Entry)
    ensures Joined(entries + [n]) == Joined(entries) + n.steps
  {
    assert (entries + [n])[..|entries|] == entries;
  }

  function CountSettled(reports: seq<Report>): nat {
    if reports == [] then 0
    else CountSettled(reports[..|reports| - 1]) + (if reports[|reports| - 1] == SettledReport then 1 else 0)
  }

  /** The reports and the count of a pass: one report for each entry, never a refusal, and settled means settled. */
  ghost predicate Accounted(b: Book, stale: seq<StaleRefund>, entries: seq<Entry>, reports: seq<Report>, settled: nat) {
    && |entries| == |reports| <= |stale| && settled == CountSettled(reports)
    && forall k :: 0 <= k < |reports| ==>
      && reports[k] == entries[k].report && reports[k] != Refused
      && (reports[k] == SettledReport ==> HasStatus(b, stale[k].pay, RefundSuccess))
  }

  /** What a settled entry leaves settled. */
  lemma EntryEffect(n: Entry, x: StaleRefund, s: Schedule)
    requires Worked(n, x, s)
    ensures n.report != Refused
    ensures n.report == SettledReport ==> HasStatus(n.after.book, x.pay, RefundSuccess)
  {
  }

  lemma AccountedExtends(stale: seq<StaleRefund>, entries: seq<Entry>, reports: seq<Report>, settled: nat, n: Entry)
    requires Accounted(n.before.book, stale, entries, reports, settled) && |entries| < |stale|
    requires n.report != Refused
    requires (n.report == SettledReport ==> HasStatus(n.after.book, stale[|entries|].pay, RefundSuccess))
    requires forall i: nat :: HasStatus(n.before.book, i, RefundSuccess) ==> HasStatus(n.after.book, i, RefundSuccess)
    ensures Accounted(n.after.book, stale, entries + [n], reports + [n.report], settled + if n.report == SettledReport
                      then 1 else 0)
  {
    assert (reports + [n.report])[..|reports|] == reports;
  }

  /** A settled record is settled after every continuation of the run. */
  lemma SettledStays(w: World, ls: seq<Label>)
    requires WorldInv(w)
    ensures forall i: nat :: HasStatus(w.book, i, RefundSuccess) ==> HasStatus(Run(w, ls).book, i, RefundSuccess)
  {
    RunEvolves(w, ls);
    assert forall i: nat :: HasStatus(w.book, i, RefundSuccess) ==>
        RefundEvolves(w.book.refunds[i].value, Run(w, ls).book.refunds[i].value);
  }
}
