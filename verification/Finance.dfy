/** The finance, payout and settlement services on their tables. Each method is one transaction
    and ends in the books that the ledger's specification prescribes, or reports a fault and
    changes nothing. */
module Finance {
  import opened Wrappers
  import opened Sums
  import opened Ledger
  import opened Accounting

  function CreditOf(org: int, account: Account): Entry -> int {
    (e: Entry) => if e.org == org && e.account == account then e.credit else 0
  }

  function DebitOf(org: int, account: Account): Entry -> int {
    (e: Entry) => if e.org == org && e.account == account then e.debit else 0
  }

  function PaidOut(org: int): PayoutRow -> int {
    (p: PayoutRow) => if p.org == org && p.status == Completed then p.amount else 0
  }

  function OneOf(org: int): Tx -> int {
    (t: Tx) => if t.org == org then 1 else 0
  }

  function OneSettlement(org: int): SettlementRow -> int {
    (s: SettlementRow) => if s.org == org then 1 else 0
  }

  /** One more row of each table: a payout counts once it is completed and for its own organisation, an entry for
      the side it is on, a settlement and a transaction as one. */
  lemma SummaryGrows(org: int, b: Books, p: PayoutRow, s: SettlementRow, t: Tx, e: Entry, account: Account)
    ensures Sum(b.payouts + [p], PaidOut(org))
            == Sum(b.payouts, PaidOut(org)) + (if p.org == org && p.status == Completed then p.amount else 0)
    ensures Sum(b.settlements + [s], OneSettlement(org))
            == Sum(b.settlements, OneSettlement(org)) + (if s.org == org then 1 else 0)
    ensures Sum(b.txs + [t], OneOf(org)) == Sum(b.txs, OneOf(org)) + (if t.org == org then 1 else 0)
    ensures Sum(b.entries + [e], CreditOf(org, account))
            == Sum(b.entries, CreditOf(org, account)) + (if e.org == org && e.account == account then e.credit else 0)
    ensures Sum(b.entries + [e], DebitOf(org, account))
            == Sum(b.entries, DebitOf(org, account)) + (if e.org == org && e.account == account then e.debit else 0)
  {
    SumSnoc(b.payouts, p, PaidOut(org));
    SumSnoc(b.settlements, s, OneSettlement(org));
    SumSnoc(b.txs, t, OneOf(org));
    SumSnoc(b.entries, e, CreditOf(org, account));
    SumSnoc(b.entries, e, DebitOf(org, account));
  }

  datatype Summary = Summary(
    availableBalance: int, grossEarnings: int, totalCommission: int, totalPaidOut: int,
    settlementsCount: int, totalTransactions: int)

  class FinanceService {
    var payments: seq<PaymentRow>
    var txs: seq<Tx>
    var entries: seq<Entry>
    var payouts: seq<PayoutRow>
    var settlements: seq<SettlementRow>

    function View(): Books
      reads this
    {
      Books(payments, txs, entries, payouts, settlements)
    }

    constructor ()
      ensures View() == EMPTY_BOOKS
    {
      payments, txs, entries, payouts, settlements := [], [], [], [], [];
    }

    method RecordPayment(p: int, org: int, amount: int, bp: int, fee: int, now: int) returns (fault: Option<Fault>)
      modifies this
      ensures Reflects(old(View()), Ledger.RecordPayment(old(View()), p, org, amount, bp, fee, now), fault, View())
    {
      var key := PayKey(p);
      if HasKey(txs, key) { return None; }
      if !(0 <= p < |payments|) { return Some(NotFound); }
      var commission := Commission(amount, bp, fee);
      var partnerNet := amount - commission;
      var id := |txs|;
      txs := txs + [Tx(org, PaymentTx, amount, Some(p), None, None, key, bp, fee, commission, false, now)];
      ghost var prior := entries;
      entries := entries + [Entry(id, org, PaymentClearing, amount, 0)];
      entries := entries + [Entry(id, org, PartnerPayable, 0, partnerNet)];
      entries := entries + [Entry(id, org, PlatformRevenue, 0, commission)];
      assert entries == prior + PaymentEntries(id, org, amount, commission);
      return None;
    }

    method RecordRefund(p: int, org: int, amount: int, now: int) returns (fault: Option<Fault>)
      modifies this
      ensures Reflects(old(View()), Ledger.RecordRefund(old(View()), p, org, amount, now), fault, View())
    {
      if !(0 <= p < |payments|) { return Some(NotFound); }
      var original := FindPaymentTx(txs, p);
      if original.None? { return Some(BadRequest); }
      var refundedSoFar := 0;
      for i := 0 to |txs|
        invariant refundedSoFar == Refunded(txs[..i], p) && View() == old(View())
      {
        assert txs[..i + 1][..i] == txs[..i];
        if IsRefundOf(txs[i], p) {
          refundedSoFar := refundedSoFar + txs[i].amount;
        }
      }
      assert txs[..|txs|] == txs;
      if refundedSoFar + amount > payments[p].amount + 1 { return Some(BadRequest); }
      var key := RefundKey(p, refundedSoFar + amount);
      if HasKey(txs, key) { return Some(DuplicateKey); }
      var reversed := Commission(amount, original.value.bp, 0);
      var id := |txs|;
      txs := txs + [Tx(org, RefundTx, amount, Some(p), None, None, key, original.value.bp, 0, reversed, false, now)];
      ghost var prior := entries;
      entries := entries + [Entry(id, org, PartnerPayable, amount - reversed, 0)];
      entries := entries + [Entry(id, org, PlatformRevenue, reversed, 0)];
      entries := entries + [Entry(id, org, PaymentClearing, 0, amount)];
      assert entries == prior + RefundEntries(id, org, amount, reversed);
      return None;
    }

    method RecordAdjustment(org: int, amount: int, credit: bool, stamp: int, now: int) returns (fault: Option<Fault>)
      modifies this
      ensures Reflects(old(View()), Ledger.RecordAdjustment(old(View()), org, amount, credit, stamp, now), fault,
                       View())
    {
      var key := StampKey(AdjustmentTx, org, stamp);
      if HasKey(txs, key) { return Some(DuplicateKey); }
      var id := |txs|;
      txs := txs + [Tx(org, AdjustmentTx, amount, None, None, None, key, 0, 0, 0, credit, now)];
      ghost var prior := entries;
      if credit {
        entries := entries + [Entry(id, org, AdjustmentExpense, amount, 0)];
        entries := entries + [Entry(id, org, PartnerPayable, 0, amount)];
        assert entries == prior + Transfer(id, org, AdjustmentExpense, PartnerPayable, amount);
      } else {
        entries := entries + [Entry(id, org, PartnerPayable, amount, 0)];
        entries := entries + [Entry(id, org, AdjustmentIncome, 0, amount)];
        assert entries == prior + Transfer(id, org, PartnerPayable, AdjustmentIncome, amount);
      }
      return None;
    }

    /** The summary is computed from the ledger alone; its available balance is the conserved one. */
    method GetPartnerFinancialSummary(org: int) returns (s: Summary)
      ensures s.availableBalance == AvailableBalance(View(), org)
      ensures s.totalPaidOut == Sum(payouts, PaidOut(org))
      ensures s.settlementsCount == Sum(settlements, OneSettlement(org)) && s.totalTransactions == Sum(txs, OneOf(org))
      ensures s.totalCommission
              == Sum(entries, CreditOf(org, PlatformRevenue)) - Sum(entries, DebitOf(org, PlatformRevenue))
      ensures s.grossEarnings - s.totalCommission - s.availableBalance == Sum(entries, DebitOf(org, PartnerPayable))
    {
      var credits, debits := Sum(entries, CreditOf(org, PartnerPayable)), Sum(entries, DebitOf(org, PartnerPayable));
      SumSplit(entries, CreditOf(org, PartnerPayable), entries, PayableOf(org), DebitOf(org, PartnerPayable));
      var commission := Sum(entries, CreditOf(org, PlatformRevenue)) - Sum(entries, DebitOf(org, PlatformRevenue));
      s := Summary(credits - debits, credits + commission, commission, Sum(payouts, PaidOut(org)),
                   Sum(settlements, OneSettlement(org)), Sum(txs, OneOf(org)));
    }

    method InitiatePayout(org: int, amount: int, settlement: Option<int>, approved: bool, seenBalance: int, stamp: int,
                          now: int)
      returns (fault: Option<Fault>)
      modifies this
      ensures Reflects(old(View()),
                       Ledger.InitiatePayout(old(View()), org, amount, settlement, approved, seenBalance, stamp, now),
                       fault, View())
    {
      if amount < 100 { return Some(BadRequest); }
      if !approved { return Some(Forbidden); }
      if amount > seenBalance { return Some(BadRequest); }
      var key := StampKey(PayoutTx, org, stamp);
      if settlement.Some? && !(0 <= settlement.value < |settlements|) { return Some(NotFound); }
      if settlement.Some? && exists i :: 0 <= i < |payouts| && payouts[i].settlement == settlement {
        return Some(DuplicateKey);
      }
      if HasKey(txs, key) { return Some(DuplicateKey); }
      var payout, id := |payouts|, |txs|;
      payouts := payouts + [PayoutRow(org, amount, Processing, settlement)];
      txs := txs + [Tx(org, PayoutTx, amount, None, Some(payout), settlement, key, 0, 0, 0, false, now)];
      ghost var prior := entries;
      entries := entries + [Entry(id, org, PartnerPayable, amount, 0)];
      entries := entries + [Entry(id, org, PayoutPending, 0, amount)];
      assert entries == prior + Transfer(id, org, PartnerPayable, PayoutPending, amount);
      return None;
    }

    method CompletePayout(id: int, seen: PayoutStatus) returns (fault: Option<Fault>)
      modifies this
      ensures Reflects(old(View()), ResolvePayout(old(View()), id, Completed, seen), fault, View())
    {
      if !(0 <= id < |payouts|) { return Some(NotFound); }
      if seen == Completed { return None; }
      var row := payouts[id];
      payouts := payouts[id := row.(status := Completed)];
      var tx := FindPayoutTx(txs, id);
      if tx.Some? {
        ghost var prior := entries;
        entries := entries + [Entry(tx.value, row.org, PayoutPending, row.amount, 0)];
        entries := entries + [Entry(tx.value, row.org, PaymentClearing, 0, row.amount)];
        assert entries == prior + Transfer(tx.value, row.org, PayoutPending, PaymentClearing, row.amount);
      }
      return None;
    }

    method FailPayout(id: int, seen: PayoutStatus) returns (fault: Option<Fault>)
      modifies this
      ensures Reflects(old(View()), ResolvePayout(old(View()), id, Failed, seen), fault, View())
    {
      if !(0 <= id < |payouts|) { return Some(NotFound); }
      if seen == Failed { return None; }
      var row := payouts[id];
      payouts := payouts[id := row.(status := Failed)];
      var tx := FindPayoutTx(txs, id);
      if tx.Some? {
        ghost var prior := entries;
        entries := entries + [Entry(tx.value, row.org, PayoutPending, row.amount, 0)];
        entries := entries + [Entry(tx.value, row.org, PartnerPayable, 0, row.amount)];
        assert entries == prior + Transfer(tx.value, row.org, PayoutPending, PartnerPayable, row.amount);
      }
      return None;
    }

    /** Accumulates gross and commission over the eligible transactions and links them. */
    method CreateSettlement(org: int, from: int, to: int) returns (fault: Option<Fault>)
      modifies this
      ensures Reflects(old(View()), Ledger.CreateSettlement(old(View()), org, from, to), fault, View())
    {
      if from >= to { return Some(BadRequest); }
      if !exists i :: 0 <= i < |txs| && Eligible(txs[i], org, from, to) { return Some(BadRequest); }
      var gross, commission := 0, 0;
      for i := 0 to |txs|
        invariant gross == Sum(txs[..i], EligibleGross(org, from, to))
        invariant gross - commission == Sum(txs[..i], EligibleNet(org, from, to))
        invariant View() == old(View())
      {
        assert txs[..i + 1][..i] == txs[..i];
        var t := txs[i];
        if Eligible(t, org, from, to) {
          if t.kind == PaymentTx {
            gross := gross + t.amount;
            commission := commission + t.commission;
          } else if t.kind == RefundTx {
            gross := gross - t.amount;
            commission := commission - t.commission;
          }
        }
      }
      assert txs[..|txs|] == txs;
      var id := |settlements|;
      settlements := settlements + [SettlementRow(org, from, to, gross, commission, gross - commission)];
      txs := Link(txs, org, from, to, id);
      return None;
    }
  }
}
