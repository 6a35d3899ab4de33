/** Exactly which gateways settle a refund only after the provider accepted its number. */
module RefundAcceptance {
  import opened PaymentTypes
  import opened Settlement
  import opened RefundProtocol
  import opened SettlementTheorems
  import opened OutsideRefund
  import opened RefundGateway
  import opened RefundRuns

  /** The record is pending, its execution has not sent yet, and the merchant refunded the buyer outside the shop. */
  function Returned(n: Values): World {
    Call1(n).(trades := [Trade(true, 0, 1)])
  }

  function RefundedWorld(n: Values): World
    requires SettleRefund(Returned(n).book, 0).Some?
  {
    Returned(n).(book := SettleRefund(Returned(n).book, 0).value)
  }

  lemma ReturnedOccurs(g: Gateway, n: Values)
    requires Usable(g, n)
    ensures Occurs(g, Returned(n)) && WorldInv(Returned(n))
  {
    FirstCallPrepared(g, n);
    assert ExternalRefundStep(Call1(n), 0) == Returned(n);
    Reach(g, Call1(n), ExternalRefund(0), Returned(n));
  }

  lemma ReturnedQueried(n: Values)
    requires Aligned(Returned(n)) && SettleRefund(Returned(n).book, 0).Some? && ParsesMethod(n.channel)
    ensures Step(Returned(n), RefundQuery(Returned(n).book.payments[0], 0)) == RefundedWorld(n)
  {
  }

  /** Where refunds can be both made and reported, a record is settled although its number was never accepted. */
  lemma SettledUnacceptedOccurs(g: Gateway, n: Values)
    requires Usable(g, n) && g.reports(n.channel)
    ensures Occurs(g, Returned(n)) && Unbacked(Returned(n), 0)
    ensures SettleRefund(Returned(n).book, 0).Some? && Settled(Returned(n).book, 0, RefundedWorld(n).book)
    ensures Occurs(g, RefundedWorld(n)) && !SettledAccepted(RefundedWorld(n))
  {
    ReturnedOccurs(g, n);
    PendingRecordSettles(Returned(n).book, 0);
    ReturnedQueried(n);
    Reach(g, Returned(n), RefundQuery(Returned(n).book.payments[0], 0), RefundedWorld(n));
    NeverAccepted(n);
  }

  lemma NeverAccepted(n: Values)
    requires SettleRefund(Returned(n).book, 0).Some? && Settled(Returned(n).book, 0, RefundedWorld(n).book)
    ensures !SettledAccepted(RefundedWorld(n))
  {
    assert RefundedWorld(n).book.refunds[0].Some?;
  }

  /** In every run that the gateway allows, a settled record's number was accepted. */
  ghost predicate AlwaysAccepted(g: Gateway) {
    forall w :: Occurs(g, w) ==> SettledAccepted(w)
  }

  /** The promise holds in every run exactly when no readable method can be both refunded and reported as refunded. */
  lemma SettledMeansAcceptedIff(g: Gateway)
    ensures AlwaysAccepted(g) <==> Separate(g)
  {
    if Separate(g) {
      forall w | Occurs(g, w) ensures SettledAccepted(w) { SeparateSettlesAccepted(g, w); }
    } else {
      var m :| ParsesMethod(m) && g.refunds(m) && g.reports(m);
      var n := Values(1, "CNY", m, "T", "L", Action("redirect", "{}"), "X", "R", "S");
      SettledUnacceptedOccurs(g, n);
    }
  }

  // -------------------------------------------------- the adapters of the shop

  /** Alipay refunds and never reports the refunded state; WeChat Pay reports it and does not refund. */
  const BUILT_IN := Gateway(m => m in {"alipay:app", "alipay:wap"},
                            m => m in {"wechat:jsapi", "wechat:native", "wechat:app"})

  lemma BuiltInIsSeparate()
    ensures Separate(BUILT_IN)
  {
  }

  /** With the adapters the shop ships, a settled refund was accepted under its number, in every run. */
  lemma BuiltInSettlesAccepted(w: World)
    requires Occurs(BUILT_IN, w)
    ensures SettledAccepted(w)
  {
    BuiltInIsSeparate();
    SettledMeansAcceptedIff(BUILT_IN);
  }

  /** The other runs are runs of these adapters. */
  lemma BuiltInShipsRefunded()
    ensures exists w :: Occurs(BUILT_IN, w) && w.book.order.status == Shipped && w.trades == [Trade(true, 1, 0)]
              && !FailedUnmoved(w)
  {
    var m := "alipay:wap";
    assert SplitsAt(m, 6) by { assert m[0] == 'a' && m[7] == 'w'; assert m[..6] == "alipay" && m[7..] == "wap"; }
    var n := Values(1, "CNY", m, "T", "L", Action("redirect", "{}"), "X", "R", "S");
    assert Usable(BUILT_IN, n);
    ShippedAlthoughRefunded(BUILT_IN, n);
  }
}
