/** What a settlement takes and what it may not, and which payouts go through. */
module Settlements {
  import opened Wrappers
  import opened Sums
  import opened Ledger
  import opened Accounting

  // ------------------------------------------------------------ one settlement

  /** A transaction of the organisation in the range that no settlement has taken. */
  predicate Open(t: Tx, org: int, from: int, to: int) {
    t.settlement.None? && t.org == org && from <= t.at && t.at <= to
  }

  /** A settlement of a proper range is made exactly when some transaction of the organisation in it is still
      unlinked; it links those and no others. */
  lemma SettledIff(b: Books, org: int, from: int, to: int)
    ensures var r := CreateSettlement(b, org, from, to);
            && (r.Ok? <==> from < to && exists i :: 0 <= i < |b.txs| && Open(b.txs[i], org, from, to))
            && (r.Err? ==> r == Err(BadRequest))
            && (r.Ok? ==>
                  && r.value.payments == b.payments && r.value.entries == b.entries && r.value.payouts == b.payouts
                  && |r.value.txs| == |b.txs|
                  && (forall i :: 0 <= i < |b.txs| ==>
                        r.value.txs[i] == if Open(b.txs[i], org, from, to)
                                          then b.txs[i].(settlement := Some(|b.settlements|)) else b.txs[i])
                  && |r.value.settlements| == |b.settlements| + 1
                  && r.value.settlements[..|b.settlements|] == b.settlements
                  && var s := r.value.settlements[|b.settlements|]; s.org == org && s.from == from && s.to == to)
  {
    if exists i :: 0 <= i < |b.txs| && Open(b.txs[i], org, from, to) {
      var i :| 0 <= i < |b.txs| && Open(b.txs[i], org, from, to);
      assert Eligible(b.txs[i], org, from, to);
    }
    if exists i :: 0 <= i < |b.txs| && Eligible(b.txs[i], org, from, to) {
      var i :| 0 <= i < |b.txs| && Eligible(b.txs[i], org, from, to);
      assert Open(b.txs[i], org, from, to);
    }
  }

  /** Right after a settlement nothing of the organisation in its range is left, so the same call is refused. */
  lemma NothingLeft(b: Books, org: int, from: int, to: int)
    requires CreateSettlement(b, org, from, to).Ok?
    ensures var c := CreateSettlement(b, org, from, to).value;
            (forall i :: 0 <= i < |c.txs| && c.txs[i].org == org && from <= c.txs[i].at <= to ==>
               c.txs[i].settlement.Some?)
            && CreateSettlement(c, org, from, to) == Err(BadRequest)
  {
    var c := CreateSettlement(b, org, from, to).value;
    SettledIff(b, org, from, to);
    SettledIff(c, org, from, to);
  }

  // ------------------------------------------------------------ over runs

  /** A link is to a settlement of the transaction's organisation whose range holds it, or to the settlement
      that the transaction pays out. */
  predicate LinkFits(b: Books, t: Tx) {
    t.settlement.Some? ==>
      && 0 <= t.settlement.value < |b.settlements|
      && var s := b.settlements[t.settlement.value];
         || (t.org == s.org && s.from <= t.at <= s.to)
         || (t.kind == PayoutTx && t.payout.Some? && 0 <= t.payout.value < |b.payouts|
             && b.payouts[t.payout.value].settlement == t.settlement)
  }

  ghost predicate LinksFit(b: Books) {
    forall i :: 0 <= i < |b.txs| ==> LinkFits(b, b.txs[i])
  }

  /** Settlements are only added, and what a payout pays out never changes. */
  ghost predicate Extends(b: Books, c: Books) {
    && |b.settlements| <= |c.settlements| && c.settlements[..|b.settlements|] == b.settlements
    && |b.payouts| <= |c.payouts|
    && forall i :: 0 <= i < |b.payouts| ==> c.payouts[i].settlement == b.payouts[i].settlement
  }

  lemma FitsStill(b: Books, c: Books, t: Tx)
    requires LinkFits(b, t) && Extends(b, c)
    ensures LinkFits(c, t)
  {
    if t.settlement.Some? {
      assert c.settlements[..|b.settlements|][t.settlement.value] == c.settlements[t.settlement.value];
    }
  }

  lemma StepExtends(b: Books, step: Step)
    ensures Extends(b, Next(b, step))
  {
  }

  lemma SettleFits(b: Books, step: Step, i: nat)
    requires step.Settle? && LinksFit(b) && i < |Next(b, step).txs|
    ensures LinkFits(Next(b, step), Next(b, step).txs[i])
  {
    SettledIff(b, step.org, step.from, step.to);
    StepExtends(b, step);
    if i < |b.txs| {
      FitsStill(b, Next(b, step), b.txs[i]);
    }
  }

  lemma OthersFit(b: Books, step: Step, i: nat)
    requires !step.Settle? && LinksFit(b) && i < |Next(b, step).txs|
    ensures LinkFits(Next(b, step), Next(b, step).txs[i])
  {
    StepExtends(b, step);
    if i < |b.txs| {
      RowsStay(b, step, i);
      FitsStill(b, Next(b, step), b.txs[i]);
    } else {
      NewRowFits(b, step, i);
    }
  }

  lemma RowsStay(b: Books, step: Step, i: nat)
    requires !step.Settle? && i < |b.txs|
    ensures i < |Next(b, step).txs| && Next(b, step).txs[i] == b.txs[i]
  {
  }

  lemma NewRowFits(b: Books, step: Step, i: nat)
    requires !step.Settle? && |b.txs| <= i < |Next(b, step).txs|
    ensures LinkFits(Next(b, step), Next(b, step).txs[i])
  {
  }

  /** In every run a transaction is linked only to a settlement of its organisation whose range holds it; a payout
      transaction may also be linked to the settlement it pays out. */
  lemma {:induction false} RunLinksFit(steps: seq<Step>)
    ensures LinksFit(Run(steps))
  {
    if steps != [] {
      var b, step := Run(steps[..|steps| - 1]), steps[|steps| - 1];
      RunLinksFit(steps[..|steps| - 1]);
      forall i: nat | i < |Next(b, step).txs|
        ensures LinkFits(Next(b, step), Next(b, step).txs[i])
      {
        if step.Settle? {
          SettleFits(b, step, i);
        } else {
          OthersFit(b, step, i);
        }
      }
    }
  }

  /** Payments less refunds among the transactions linked to a settlement. */
  function LinkedGross(id: int): Tx -> int {
    (t: Tx) =>
      if t.settlement != Some(id) then 0
      else if t.kind == PaymentTx then t.amount
      else if t.kind == RefundTx then -t.amount
      else 0
  }

  /** Commissions taken less commissions given back among them. */
  function LinkedCommission(id: int): Tx -> int {
    (t: Tx) =>
      if t.settlement != Some(id) then 0
      else if t.kind == PaymentTx then t.commission
      else if t.kind == RefundTx then -t.commission
      else 0
  }

  ghost predicate SumsHold(b: Books) {
    LinksInRange(b) && forall id :: 0 <= id < |b.settlements| ==> SettlementSums(b, id)
  }

  predicate SettlementSums(b: Books, id: int)
    requires 0 <= id < |b.settlements|
  {
    && b.settlements[id].gross == Sum(b.txs, LinkedGross(id))
    && b.settlements[id].commission == Sum(b.txs, LinkedCommission(id))
    && b.settlements[id].net == b.settlements[id].gross - b.settlements[id].commission
  }

  /** A new settlement adds up what it has just linked. */
  lemma NewSettlementSums(b: Books, org: int, from: int, to: int)
    requires CreateSettlement(b, org, from, to).Ok? && LinksInRange(b)
    ensures SettlementSums(CreateSettlement(b, org, from, to).value, |b.settlements|)
  {
    var c, n := CreateSettlement(b, org, from, to).value, |b.settlements|;
    SumSame(c.txs, LinkedGross(n), b.txs, EligibleGross(org, from, to));
    SumSplit(c.txs, LinkedGross(n), b.txs, EligibleNet(org, from, to), EligibleCommission(org, from, to));
    SumSame(c.txs, LinkedCommission(n), b.txs, EligibleCommission(org, from, to));
  }

  function EligibleCommission(org: int, from: int, to: int): Tx -> int {
    (t: Tx) => EligibleGross(org, from, to)(t) - EligibleNet(org, from, to)(t)
  }

  lemma OldSettlementSums(b: Books, step: Step, id: int)
    requires SumsHold(b) && 0 <= id < |b.settlements| && id < |Next(b, step).settlements|
    ensures SettlementSums(Next(b, step), id)
  {
    var c := Next(b, step);
    StepExtends(b, step);
    assert c.settlements[..|b.settlements|][id] == c.settlements[id];
    assert SettlementSums(b, id);
    if step.Settle? {
      SettledIff(b, step.org, step.from, step.to);
      SumSame(c.txs, LinkedGross(id), b.txs, LinkedGross(id));
      SumSame(c.txs, LinkedCommission(id), b.txs, LinkedCommission(id));
    } else {
      OneRowAtMost(b, step, id);
    }
  }

  lemma OneRowAtMost(b: Books, step: Step, id: int)
    requires !step.Settle?
    ensures Sum(Next(b, step).txs, LinkedGross(id)) == Sum(b.txs, LinkedGross(id))
    ensures Sum(Next(b, step).txs, LinkedCommission(id)) == Sum(b.txs, LinkedCommission(id))
  {
    var c := Next(b, step);
    if c.txs != b.txs {
      AppendsOne(b, step);
      var t := c.txs[|b.txs|];
      SumSnoc(b.txs, t, LinkedGross(id));
      SumSnoc(b.txs, t, LinkedCommission(id));
    }
  }

  lemma AppendsOne(b: Books, step: Step)
    requires !step.Settle? && Next(b, step).txs != b.txs
    ensures var c := Next(b, step);
            |c.txs| == |b.txs| + 1 && c.txs == b.txs + [c.txs[|b.txs|]]
            && (c.txs[|b.txs|].settlement.Some? ==> c.txs[|b.txs|].kind == PayoutTx)
  {
  }

  /** In every run each settlement's gross, commission and net are those of the payments and refunds linked to it,
      when it is made and ever after. */
  lemma {:induction false} SettlementSumsItsLinks(steps: seq<Step>)
    ensures SumsHold(Run(steps))
  {
    SettlementHoldsItsTransactions(steps);
    if steps != [] {
      var b, step := Run(steps[..|steps| - 1]), steps[|steps| - 1];
      SettlementSumsItsLinks(steps[..|steps| - 1]);
      forall id | 0 <= id < |Next(b, step).settlements|
        ensures SettlementSums(Next(b, step), id)
      {
        if id < |b.settlements| {
          OldSettlementSums(b, step, id);
        } else {
          OnlySettleSettles(b, step);
          NewSettlementSums(b, step.org, step.from, step.to);
        }
      }
    }
  }

  lemma OnlySettleSettles(b: Books, step: Step)
    requires |Next(b, step).settlements| > |b.settlements|
    ensures step.Settle? && CreateSettlement(b, step.org, step.from, step.to) == Ok(Next(b, step))
    ensures |Next(b, step).settlements| == |b.settlements| + 1
  {
  }

  // ------------------------------------------------------------ payouts

  /** A payout goes through exactly if it is of a rupee or more, approved, within the balance that was read, and
      not the second one of its settlement or under its stamp; its row is in progress for that amount. */
  lemma PaidOutIff(b: Books, org: int, amount: int, settlement: Option<int>, approved: bool, seen: int, stamp: int,
                   now: int)
    ensures var r := InitiatePayout(b, org, amount, settlement, approved, seen, stamp, now);
            && (r.Ok? <==>
                && 100 <= amount <= seen && approved
                && (settlement.Some? ==> 0 <= settlement.value < |b.settlements|
                                         && forall i :: 0 <= i < |b.payouts| ==> b.payouts[i].settlement != settlement)
                && forall i :: 0 <= i < |b.txs| ==> b.txs[i].key != StampKey(PayoutTx, org, stamp))
            && (r.Ok? ==> r.value.payouts == b.payouts + [PayoutRow(org, amount, Processing, settlement)])
  {
  }

  /** An accepted payout draws its amount from the balance, and does not overdraw one that was read up to date. */
  lemma PayoutDrawsBalance(b: Books, org: int, amount: int, settlement: Option<int>, seen: int, stamp: int, now: int)
    requires InitiatePayout(b, org, amount, settlement, true, seen, stamp, now).Ok?
    ensures var c := InitiatePayout(b, org, amount, settlement, true, seen, stamp, now).value;
            AvailableBalance(c, org) == AvailableBalance(b, org) - amount
            && (seen == AvailableBalance(b, org) ==> AvailableBalance(c, org) >= 0)
  {
    var moved := Transfer(|b.txs|, org, PartnerPayable, PayoutPending, amount);
    SumConcat(b.entries, moved, PayableOf(org));
    SumOfTwo(moved, PayableOf(org));
  }

  ghost predicate PaidOutOnce(b: Books) {
    forall i, j :: 0 <= i < j < |b.payouts| && b.payouts[i].settlement.Some? ==>
                     b.payouts[i].settlement != b.payouts[j].settlement
  }

  lemma StepPaysOutOnce(b: Books, step: Step)
    requires PaidOutOnce(b)
    ensures PaidOutOnce(Next(b, step))
  {
  }

  /** In every run a settlement is paid out at most once. */
  lemma {:induction false} SettlementPaidOutOnce(steps: seq<Step>)
    ensures PaidOutOnce(Run(steps))
  {
    if steps != [] {
      SettlementPaidOutOnce(steps[..|steps| - 1]);
      StepPaysOutOnce(Run(steps[..|steps| - 1]), steps[|steps| - 1]);
    }
  }
}
