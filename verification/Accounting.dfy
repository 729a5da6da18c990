/** Theorems about every run of the finance services: conservation of the partner balance,
    settlements that hold what they link, payouts in flight. */
module Accounting {
  import opened Wrappers
  import opened Sums
  import opened Ledger

  /** Every transaction of every run is balanced, and a payment is recorded at most once,
      with exactly its three entries. */
  lemma EveryTransactionBalances(steps: seq<Step>)
    ensures var b := Run(steps);
            && (forall id :: 0 <= id < |b.txs| ==> Sum(b.entries, ImbalanceOf(id)) == 0)
            && (forall i :: 0 <= i < |b.entries| ==> 0 <= b.entries[i].tx < |b.txs|)
            && (forall i, p :: 0 <= i < |b.txs| && IsPaymentOf(b.txs[i], p) ==>
                  EntriesOf(b.entries, i) == PaymentEntries(i, b.txs[i].org, b.txs[i].amount, b.txs[i].commission))
            && (forall i, j, p ::
                  0 <= i < |b.txs| && 0 <= j < |b.txs| && IsPaymentOf(b.txs[i], p) && IsPaymentOf(b.txs[j], p) ==>
                    i == j)
  {
    RunSound(steps);
    var b := Run(steps);
    forall i, j, p | 0 <= i < |b.txs| && 0 <= j < |b.txs| && IsPaymentOf(b.txs[i], p) && IsPaymentOf(b.txs[j], p)
      ensures i == j
    {
      PaymentTxUnique(b.txs, i, j, p);
    }
  }

  // ------------------------------------------------------------ the partner balance

  function PayableOf(org: int): Entry -> int {
    (e: Entry) => if e.org == org && e.account == PartnerPayable then e.credit - e.debit else 0
  }

  /** Credits minus debits on PARTNER_PAYABLE, as the financial summary aggregates them. */
  function AvailableBalance(b: Books, org: int): int {
    Sum(b.entries, PayableOf(org))
  }

  function BalanceEffect(org: int): Tx -> int {
    (t: Tx) =>
      if t.org != org then 0
      else match t.kind
        case PayoutTx => -t.amount
        case AdjustmentTx => if t.credit then t.amount else -t.amount
        case _ => NetOf(t)
  }

  function UnsettledNet(org: int): Tx -> int {
    (t: Tx) => if t.org == org && t.settlement.None? then NetOf(t) else 0
  }

  function SettledNet(org: int): Tx -> int {
    (t: Tx) => if t.org == org && t.settlement.Some? then NetOf(t) else 0
  }

  function AdjustmentNet(org: int): Tx -> int {
    (t: Tx) => if t.org == org && t.kind == AdjustmentTx then (if t.credit then t.amount else -t.amount) else 0
  }

  function PayoutDrawn(org: int): Tx -> int {
    (t: Tx) => if t.org == org && t.kind == PayoutTx then t.amount else 0
  }

  function SettlementNet(org: int): SettlementRow -> int {
    (s: SettlementRow) => if s.org == org then s.net else 0
  }

  function PayoutAmount(org: int): PayoutRow -> int {
    (p: PayoutRow) => if p.org == org then p.amount else 0
  }

  /** What a step gives back to the partner: the amount of a payout marked failed. */
  function RestoredBy(b: Books, step: Step, org: int): int {
    if step.Fail? && 0 <= step.id < |b.payouts| && step.seen != Failed && b.payouts[step.id].org == org
    then b.payouts[step.id].amount else 0
  }

  function Restored(steps: seq<Step>, org: int): int {
    if steps == [] then 0
    else Restored(steps[..|steps| - 1], org) + RestoredBy(Run(steps[..|steps| - 1]), steps[|steps| - 1], org)
  }

  lemma PostingEffect(tx: int, t: Tx, org: int)
    ensures Sum(Posting(tx, t), PayableOf(org)) == BalanceEffect(org)(t)
  {
    match t.kind
    case PaymentTx => SumOfThree(Posting(tx, t), PayableOf(org));
    case RefundTx => SumOfThree(Posting(tx, t), PayableOf(org));
    case _ => SumOfTwo(Posting(tx, t), PayableOf(org));
  }

  predicate Resolves(b: Books, step: Step) {
    && (step.Complete? || step.Fail?) && 0 <= step.id < |b.payouts|
    && step.seen != (if step.Complete? then Completed else Failed)
  }

  /** How a step changes the tables: a payout is resolved, transactions are settled, a row is recorded
      with its posting, or neither rows nor entries change. */
  ghost predicate Moved(b: Books, step: Step, c: Books) {
    || (Resolves(b, step) && Resolved(b, step, c))
    || (step.Settle? && Settled(b, step, c))
    || (!Resolves(b, step) && !step.Settle? && exists t :: Recorded(b, c, t) && Grown(b, step, c, t))
    || (!Resolves(b, step) && Quiet(b, c) && !(step.Payout? && Commit(b, step).Ok?))
  }

  ghost predicate Quiet(b: Books, c: Books) {
    c.txs == b.txs && c.entries == b.entries && c.payouts == b.payouts && c.settlements == b.settlements
  }

  ghost predicate Resolved(b: Books, step: Step, c: Books)
    requires Resolves(b, step)
  {
    var row := b.payouts[step.id];
    var tx := FindPayoutTx(b.txs, step.id);
    && tx.Some? && c.txs == b.txs && c.settlements == b.settlements
    && c.payouts == b.payouts[step.id := row.(status := if step.Complete? then Completed else Failed)]
    && c.entries == b.entries + Transfer(tx.value, row.org, PayoutPending,
                                         if step.Complete? then PaymentClearing else PartnerPayable, row.amount)
  }

  ghost predicate Settled(b: Books, step: Step, c: Books)
    requires step.Settle?
  {
    var n := |b.settlements|;
    && c.entries == b.entries && c.payouts == b.payouts
    && c.txs == Link(b.txs, step.org, step.from, step.to, n)
    && |c.settlements| == n + 1 && c.settlements[..n] == b.settlements
    && c.settlements[n].org == step.org
    && c.settlements[n].net == Sum(b.txs, EligibleNet(step.org, step.from, step.to))
  }

  ghost predicate Grown(b: Books, step: Step, c: Books, t: Tx) {
    && RowShape(t) && c.settlements == b.settlements
    && (t.settlement.Some? ==> t.kind == PayoutTx && 0 <= t.settlement.value < |b.settlements|)
    && (t.payment.Some? ==> 0 <= t.payment.value < |b.payments|)
    && (t.kind == PayoutTx <==> step.Payout?) && (step.Payout? ==> Commit(b, step).Ok?)
    && (t.kind == RefundTx <==> step.Refund?) && (step.Refund? ==> RefundGrown(b, step, t))
    && c.payouts == if t.kind == PayoutTx then b.payouts + [PayoutRow(t.org, t.amount, Processing, t.settlement)]
       else b.payouts
  }

  /** The row a refund records: within the cap, under the key of the new cumulative amount. */
  ghost predicate RefundGrown(b: Books, step: Step, t: Tx)
    requires step.Refund?
  {
    var total := Refunded(b.txs, step.payment) + step.amount;
    && 0 <= step.payment < |b.payments| && total <= b.payments[step.payment].amount + 1
    && t.payment == Some(step.payment) && t.amount == step.amount && t.key == RefundKey(step.payment, total)
  }

  lemma RecordMoves(b: Books, step: Step)
    requires Commit(b, step).Ok? && |Next(b, step).txs| > |b.txs| && !step.Settle?
    ensures var c := Next(b, step); Recorded(b, c, c.txs[|b.txs|]) && Grown(b, step, c, c.txs[|b.txs|])
  {
  }

  /** The row that a step recorded. */
  lemma NewRow(b: Books, step: Step, c: Books) returns (t: Tx)
    requires Moved(b, step, c) && !Resolves(b, step) && !step.Settle? && !Quiet(b, c)
    ensures Recorded(b, c, t) && Grown(b, step, c, t)
  {
    t :| Recorded(b, c, t) && Grown(b, step, c, t);
  }

  lemma StepMoves(b: Books, step: Step)
    requires Sound(b)
    ensures Moved(b, step, Next(b, step))
  {
    var c := Next(b, step);
    if Resolves(b, step) {
      assert Resolved(b, step, c);
    } else if step.Settle? {
      if Commit(b, step).Ok? {
        assert Settled(b, step, c);
      } else {
        assert Quiet(b, c);
      }
    } else if |c.txs| > |b.txs| {
      RecordMoves(b, step);
    } else {
      assert Quiet(b, c);
    }
  }

  /** The balance is the net effect of all transactions, plus what failed payouts restored. */
  lemma {:induction false} BalanceIsNetOfTransactions(steps: seq<Step>, org: int)
    ensures AvailableBalance(Run(steps), org) == Sum(Run(steps).txs, BalanceEffect(org)) + Restored(steps, org)
  {
    if steps != [] {
      var n := |steps| - 1;
      BalanceIsNetOfTransactions(steps[..n], org);
      RunSound(steps[..n]);
      StepMoves(Run(steps[..n]), steps[n]);
      BalanceStep(Run(steps[..n]), steps[n], Run(steps), org);
    }
  }

  lemma BalanceStep(b: Books, step: Step, c: Books, org: int)
    requires Moved(b, step, c)
    ensures AvailableBalance(c, org) - Sum(c.txs, BalanceEffect(org))
         == AvailableBalance(b, org) - Sum(b.txs, BalanceEffect(org)) + RestoredBy(b, step, org)
  {
    if Resolves(b, step) {
      var row := b.payouts[step.id];
      var more := c.entries[|b.entries|..];
      assert c.entries == b.entries + more;
      SumConcat(b.entries, more, PayableOf(org));
      SumOfTwo(more, PayableOf(org));
    } else if step.Settle? && !Quiet(b, c) {
      SumSame(c.txs, BalanceEffect(org), b.txs, BalanceEffect(org));
    } else if !Quiet(b, c) {
      var t :| Recorded(b, c, t) && Grown(b, step, c, t);
      SumConcat(b.entries, Posting(|b.txs|, t), PayableOf(org));
      PostingEffect(|b.txs|, t, org);
      SumSnoc(b.txs, t, BalanceEffect(org));
    }
  }

  /** The settlements of an organisation hold exactly the net of its settled transactions, and its
      payout rows exactly what its payout transactions drew. */
  lemma {:induction false} SettlementsAndPayoutsAgree(steps: seq<Step>, org: int)
    ensures var b := Run(steps);
            && Sum(b.settlements, SettlementNet(org)) == Sum(b.txs, SettledNet(org))
            && Sum(b.payouts, PayoutAmount(org)) == Sum(b.txs, PayoutDrawn(org))
  {
    if steps != [] {
      var n := |steps| - 1;
      SettlementsAndPayoutsAgree(steps[..n], org);
      RunSound(steps[..n]);
      StepMoves(Run(steps[..n]), steps[n]);
      AgreeStep(Run(steps[..n]), steps[n], Run(steps), org);
    }
  }

  lemma AgreeStep(b: Books, step: Step, c: Books, org: int)
    requires Moved(b, step, c)
    ensures Sum(c.settlements, SettlementNet(org)) - Sum(c.txs, SettledNet(org))
         == Sum(b.settlements, SettlementNet(org)) - Sum(b.txs, SettledNet(org))
    ensures Sum(c.payouts, PayoutAmount(org)) - Sum(c.txs, PayoutDrawn(org))
         == Sum(b.payouts, PayoutAmount(org)) - Sum(b.txs, PayoutDrawn(org))
  {
    if Resolves(b, step) {
      SumUpdate(b.payouts, step.id, c.payouts[step.id], PayoutAmount(org));
    } else if step.Settle? && !Quiet(b, c) {
      SettleStep(b, c, step.org, step.from, step.to, org);
    } else if !Quiet(b, c) {
      var t :| Recorded(b, c, t) && Grown(b, step, c, t);
      SumSnoc(b.txs, t, SettledNet(org));
      SumSnoc(b.txs, t, PayoutDrawn(org));
      SumSnoc(b.payouts, PayoutRow(t.org, t.amount, Processing, t.settlement), PayoutAmount(org));
    }
  }

  lemma SettleStep(b: Books, c: Books, settled: int, from: int, to: int, org: int)
    requires c.txs == Link(b.txs, settled, from, to, |b.settlements|) && |c.settlements| == |b.settlements| + 1
    requires c.settlements[..|b.settlements|] == b.settlements && c.settlements[|b.settlements|].org == settled
    requires c.settlements[|b.settlements|].net == Sum(b.txs, EligibleNet(settled, from, to))
    ensures Sum(c.settlements, SettlementNet(org)) - Sum(c.txs, SettledNet(org))
         == Sum(b.settlements, SettlementNet(org)) - Sum(b.txs, SettledNet(org))
    ensures Sum(c.txs, PayoutDrawn(org)) == Sum(b.txs, PayoutDrawn(org))
  {
    SumSame(c.txs, PayoutDrawn(org), b.txs, PayoutDrawn(org));
    if org == settled {
      SumSplit(c.txs, SettledNet(org), b.txs, SettledNet(org), EligibleNet(settled, from, to));
    } else {
      SumSame(c.txs, SettledNet(org), b.txs, SettledNet(org));
    }
  }

  /** Conservation: in every run the available balance of an organisation is the net of its settlements,
      plus the net of its unsettled payments and refunds, plus credit minus debit adjustments, minus the
      payouts initiated, plus the payouts restored on failure. */
  lemma BalanceConserved(steps: seq<Step>, org: int)
    ensures var b := Run(steps);
            AvailableBalance(b, org)
            == Sum(b.settlements, SettlementNet(org)) + Sum(b.txs, UnsettledNet(org)) + Sum(b.txs, AdjustmentNet(org))
               - Sum(b.payouts, PayoutAmount(org)) + Restored(steps, org)
  {
    var txs := Run(steps).txs;
    BalanceIsNetOfTransactions(steps, org);
    SettlementsAndPayoutsAgree(steps, org);
    var traded := (t: Tx) => if t.org == org then NetOf(t) else 0;
    var other := (t: Tx) => AdjustmentNet(org)(t) - PayoutDrawn(org)(t);
    SumSplit(txs, traded, txs, SettledNet(org), UnsettledNet(org));
    SumSplit(txs, AdjustmentNet(org), txs, other, PayoutDrawn(org));
    SumSplit(txs, BalanceEffect(org), txs, traded, other);
  }

  // ------------------------------------------------------------ links to settlements

  function LinkedNet(id: int): Tx -> int {
    (t: Tx) => if t.settlement == Some(id) then NetOf(t) else 0
  }

  ghost predicate LinksInRange(b: Books) {
    forall i :: 0 <= i < |b.txs| && b.txs[i].settlement.Some? ==> 0 <= b.txs[i].settlement.value < |b.settlements|
  }

  /** A settlement's net is the net of the transactions linked to it, at its creation and ever after. */
  lemma {:induction false} SettlementHoldsItsTransactions(steps: seq<Step>)
    ensures var b := Run(steps);
            LinksInRange(b) && forall id :: 0 <= id < |b.settlements| ==>
                b.settlements[id].net == Sum(b.txs, LinkedNet(id))
  {
    if steps != [] {
      var n := |steps| - 1;
      SettlementHoldsItsTransactions(steps[..n]);
      RunSound(steps[..n]);
      StepMoves(Run(steps[..n]), steps[n]);
      HoldsStep(Run(steps[..n]), steps[n], Run(steps));
    }
  }

  lemma HoldsSettled(b: Books, step: Step, c: Books, id: int)
    requires step.Settle? && Settled(b, step, c) && LinksInRange(b) && 0 <= id < |c.settlements|
    ensures id < |b.settlements| ==>
            c.settlements[id] == b.settlements[id] && Sum(c.txs, LinkedNet(id)) == Sum(b.txs, LinkedNet(id))
    ensures id == |b.settlements| ==> c.settlements[id].net == Sum(c.txs, LinkedNet(id))
  {
    var n := |b.settlements|;
    if id < n {
      assert c.settlements[id] == c.settlements[..n][id];
      SumSame(c.txs, LinkedNet(id), b.txs, LinkedNet(id));
    } else {
      SumSame(c.txs, LinkedNet(n), b.txs, EligibleNet(step.org, step.from, step.to));
    }
  }

  lemma HoldsRecorded(b: Books, step: Step, c: Books, t: Tx, id: int)
    requires Recorded(b, c, t) && Grown(b, step, c, t) && 0 <= id < |c.settlements|
    ensures Sum(c.txs, LinkedNet(id)) == Sum(b.txs, LinkedNet(id))
  {
  }

  lemma HoldsStep(b: Books, step: Step, c: Books)
    requires Moved(b, step, c) && LinksInRange(b)
    requires forall id :: 0 <= id < |b.settlements| ==> b.settlements[id].net == Sum(b.txs, LinkedNet(id))
    ensures LinksInRange(c)
    ensures forall id :: 0 <= id < |c.settlements| ==> c.settlements[id].net == Sum(c.txs, LinkedNet(id))
  {
    if step.Settle? && !Quiet(b, c) {
      forall id | 0 <= id < |c.settlements|
        ensures c.settlements[id].net == Sum(c.txs, LinkedNet(id))
      {
        HoldsSettled(b, step, c, id);
      }
    } else if c.txs != b.txs {
      var t :| Recorded(b, c, t) && Grown(b, step, c, t);
      forall id | 0 <= id < |c.settlements|
        ensures c.settlements[id].net == Sum(c.txs, LinkedNet(id))
      {
        HoldsRecorded(b, step, c, t, id);
      }
    }
  }

  /** A transaction once settled stays in the same settlement, and that settlement never changes:
      overlapping date ranges never count a transaction twice. */
  lemma {:induction false} SettledOnceForAll(steps: seq<Step>, i: nat, j: nat)
    requires i <= j <= |steps|
    ensures var a, b := Run(steps[..i]), Run(steps[..j]);
            && |a.txs| <= |b.txs| && |a.settlements| <= |b.settlements|
            && (forall k :: 0 <= k < |a.txs| && a.txs[k].settlement.Some? ==> b.txs[k] == a.txs[k])
            && (forall k :: 0 <= k < |a.settlements| ==> b.settlements[k] == a.settlements[k])
    decreases j
  {
    if i < j {
      SettledOnceForAll(steps, i, j - 1);
      assert steps[..j][..j - 1] == steps[..j - 1];
      RunSound(steps[..j - 1]);
      var b, c := Run(steps[..j - 1]), Run(steps[..j]);
      assert c == Next(b, steps[j - 1]);
      StepMoves(b, steps[j - 1]);
      MovesKeepLinks(b, steps[j - 1], c);
    }
  }

  lemma MovesKeepLinks(b: Books, step: Step, c: Books)
    requires Moved(b, step, c)
    ensures |b.txs| <= |c.txs| && |b.settlements| <= |c.settlements|
    ensures forall k :: 0 <= k < |b.txs| && b.txs[k].settlement.Some? ==> c.txs[k] == b.txs[k]
    ensures forall k :: 0 <= k < |b.settlements| ==> c.settlements[k] == b.settlements[k]
  {
  }

  // ------------------------------------------------------------ payouts in flight

  function PendingOf(org: int): Entry -> int {
    (e: Entry) => if e.org == org && e.account == PayoutPending then e.credit - e.debit else 0
  }

  function CountStep(b: Books, step: Step, r: seq<int>): (s: seq<int>)
    requires |r| == |b.payouts|
  {
    if Resolves(b, step) then r[step.id := r[step.id] + 1]
    else if step.Payout? && Commit(b, step).Ok? then r + [0]
    else r
  }

  /** How often each payout has been completed or failed in a run, stale calls included. */
  function Counts(steps: seq<Step>): (r: seq<int>)
    ensures |r| == |Run(steps).payouts|
  {
    if steps == [] then []
    else CountStep(Run(steps[..|steps| - 1]), steps[|steps| - 1], Counts(steps[..|steps| - 1]))
  }

  function Outstanding(payouts: seq<PayoutRow>, counts: seq<int>, org: int): int
    requires |payouts| == |counts|
  {
    if payouts == [] then 0
    else
      var n := |payouts| - 1;
      Outstanding(payouts[..n], counts[..n], org)
          + (if payouts[n].org == org then payouts[n].amount * (1 - counts[n]) else 0)
  }

  lemma {:induction false} OutstandingUpdate(payouts: seq<PayoutRow>, counts: seq<int>, org: int, id: nat,
                                             row: PayoutRow)
    requires |payouts| == |counts| && id < |payouts| && row.org == payouts[id].org && row.amount == payouts[id].amount
    ensures Outstanding(payouts[id := row], counts[id := counts[id] + 1], org)
         == Outstanding(payouts, counts, org) - if row.org == org then row.amount else 0
  {
    var n := |payouts| - 1;
    var p, c := payouts[id := row], counts[id := counts[id] + 1];
    if id == n {
      assert p[..n] == payouts[..n] && c[..n] == counts[..n];
      assert row.amount * (1 - (counts[n] + 1)) == row.amount * (1 - counts[n]) - row.amount;
    } else {
      assert p[..n] == payouts[..n][id := row] && c[..n] == counts[..n][id := counts[..n][id] + 1];
      OutstandingUpdate(payouts[..n], counts[..n], org, id, row);
    }
  }

  /** In every run, stale reads included, the net credit on PAYOUT_PENDING is each payout's amount times one
      minus the number of times it was resolved; a payout is processing until it is first resolved. */
  lemma {:induction false} PendingIsOutstanding(steps: seq<Step>, org: int)
    ensures var b := Run(steps);
            && Sum(b.entries, PendingOf(org)) == Outstanding(b.payouts, Counts(steps), org)
            && CountsMatch(b.payouts, Counts(steps))
  {
    if steps != [] {
      var n := |steps| - 1;
      PendingIsOutstanding(steps[..n], org);
      RunSound(steps[..n]);
      StepMoves(Run(steps[..n]), steps[n]);
      PendingStep(Run(steps[..n]), steps[n], Run(steps), Counts(steps[..n]), org);
    }
  }

  /** A payout is processing until it is first resolved. */
  ghost predicate CountsMatch(payouts: seq<PayoutRow>, counts: seq<int>) {
    && |payouts| == |counts|
    && forall i :: 0 <= i < |payouts| ==> counts[i] >= 0 && (payouts[i].status == Processing <==> counts[i] == 0)
  }

  lemma PendingResolved(b: Books, step: Step, c: Books, r: seq<int>, org: int)
    requires Resolves(b, step) && Resolved(b, step, c) && CountsMatch(b.payouts, r)
    ensures CountsMatch(c.payouts, CountStep(b, step, r))
    ensures Sum(c.entries, PendingOf(org)) - Sum(b.entries, PendingOf(org))
         == Outstanding(c.payouts, CountStep(b, step, r), org) - Outstanding(b.payouts, r, org)
  {
    var row := b.payouts[step.id];
    var more := Transfer(FindPayoutTx(b.txs, step.id).value, row.org, PayoutPending,
                         if step.Complete? then PaymentClearing else PartnerPayable, row.amount);
    SumConcat(b.entries, more, PendingOf(org));
    SumOfTwo(more, PendingOf(org));
    OutstandingUpdate(b.payouts, r, org, step.id, c.payouts[step.id]);
  }

  lemma PendingRecorded(b: Books, step: Step, c: Books, t: Tx, r: seq<int>, org: int)
    requires !Resolves(b, step) && Recorded(b, c, t) && Grown(b, step, c, t) && CountsMatch(b.payouts, r)
    ensures CountsMatch(c.payouts, CountStep(b, step, r))
    ensures Sum(c.entries, PendingOf(org)) - Sum(b.entries, PendingOf(org))
         == Outstanding(c.payouts, CountStep(b, step, r), org) - Outstanding(b.payouts, r, org)
  {
    SumConcat(b.entries, Posting(|b.txs|, t), PendingOf(org));
    PostingPending(|b.txs|, t, org);
    if t.kind == PayoutTx {
      OutstandingSnoc(b.payouts, r, PayoutRow(t.org, t.amount, Processing, t.settlement), org);
    }
  }

  lemma OutstandingSnoc(payouts: seq<PayoutRow>, counts: seq<int>, row: PayoutRow, org: int)
    requires |payouts| == |counts|
    ensures Outstanding(payouts + [row], counts + [0], org)
         == Outstanding(payouts, counts, org) + if row.org == org then row.amount else 0
  {
    assert (payouts + [row])[..|payouts|] == payouts && (counts + [0])[..|payouts|] == counts;
  }

  lemma PendingStep(b: Books, step: Step, c: Books, r: seq<int>, org: int)
    requires Moved(b, step, c) && CountsMatch(b.payouts, r)
    requires Sum(b.entries, PendingOf(org)) == Outstanding(b.payouts, r, org)
    ensures CountsMatch(c.payouts, CountStep(b, step, r))
    ensures Sum(c.entries, PendingOf(org)) == Outstanding(c.payouts, CountStep(b, step, r), org)
  {
    if Resolves(b, step) {
      PendingResolved(b, step, c, r, org);
    } else if !step.Settle? && !Quiet(b, c) {
      var t :| Recorded(b, c, t) && Grown(b, step, c, t);
      PendingRecorded(b, step, c, t, r, org);
    } else {
      assert c.payouts == b.payouts && CountStep(b, step, r) == r;
    }
  }

  lemma PostingPending(tx: int, t: Tx, org: int)
    ensures Sum(Posting(tx, t), PendingOf(org)) == if t.org == org && t.kind == PayoutTx then t.amount else 0
  {
    match t.kind
    case PaymentTx => SumOfThree(Posting(tx, t), PendingOf(org));
    case RefundTx => SumOfThree(Posting(tx, t), PendingOf(org));
    case _ => SumOfTwo(Posting(tx, t), PendingOf(org));
  }

  function ProcessingAmount(org: int): PayoutRow -> int {
    (p: PayoutRow) => if p.org == org && p.status == Processing then p.amount else 0
  }

  lemma {:induction false} OutstandingBound(payouts: seq<PayoutRow>, counts: seq<int>, org: int)
    requires CountsMatch(payouts, counts) && forall i :: 0 <= i < |payouts| ==> payouts[i].amount > 0
    ensures Outstanding(payouts, counts, org) <= Sum(payouts, ProcessingAmount(org))
    ensures Outstanding(payouts, counts, org) == Sum(payouts, ProcessingAmount(org)) <==>
            forall i :: 0 <= i < |payouts| && payouts[i].org == org ==> counts[i] <= 1
  {
    if payouts != [] {
      var n := |payouts| - 1;
      OutstandingBound(payouts[..n], counts[..n], org);
      if counts[n] >= 2 {
        ProductNegative(payouts[n].amount, 1 - counts[n]);
      }
      assert forall i :: 0 <= i < n ==> payouts[..n][i] == payouts[i] && counts[..n][i] == counts[i];
    }
  }

  lemma ProductNegative(a: int, b: int)
    requires a > 0 && b < 0
    ensures a * b < 0
  {
  }

  /** PAYOUT_PENDING equals the payouts still processing exactly when no payout of the organisation
      was resolved twice. */
  lemma PendingEqualsProcessingIff(steps: seq<Step>, org: int)
    ensures var b := Run(steps);
            Sum(b.entries, PendingOf(org)) == Sum(b.payouts, ProcessingAmount(org)) <==>
            forall i :: 0 <= i < |b.payouts| && b.payouts[i].org == org ==> Counts(steps)[i] <= 1
  {
    RunSound(steps);
    PendingIsOutstanding(steps, org);
    OutstandingBound(Run(steps).payouts, Counts(steps), org);
  }

  /** A call that resolves a payout of the organisation finds it still processing. */
  predicate FindsProcessing(b: Books, step: Step, org: int) {
    Resolves(b, step) && b.payouts[step.id].org == org ==> b.payouts[step.id].status == Processing
  }

  predicate AlwaysFindsProcessing(steps: seq<Step>, org: int) {
    steps == [] ||
    var before := steps[..|steps| - 1];
    AlwaysFindsProcessing(before, org) && FindsProcessing(Run(before), steps[|steps| - 1], org)
  }

  ghost predicate AtMostOnce(payouts: seq<PayoutRow>, counts: seq<int>, org: int)
    requires |payouts| == |counts|
  {
    forall i :: 0 <= i < |payouts| && payouts[i].org == org ==> counts[i] <= 1
  }

  lemma AtMostOnceStep(b: Books, step: Step, c: Books, r: seq<int>, org: int)
    requires Moved(b, step, c) && CountsMatch(b.payouts, r) && |CountStep(b, step, r)| == |c.payouts|
    ensures AtMostOnce(c.payouts, CountStep(b, step, r), org) <==>
            AtMostOnce(b.payouts, r, org) && FindsProcessing(b, step, org)
  {
    var s := CountStep(b, step, r);
    assert forall i :: 0 <= i < |r| ==> s[i] >= r[i] && c.payouts[i].org == b.payouts[i].org;
    if Resolves(b, step) {
      assert s[step.id] == r[step.id] + 1;
    }
  }

  lemma {:induction false} AtMostOnceIff(steps: seq<Step>, org: int)
    ensures AtMostOnce(Run(steps).payouts, Counts(steps), org) <==> AlwaysFindsProcessing(steps, org)
  {
    if steps != [] {
      var before, step := steps[..|steps| - 1], steps[|steps| - 1];
      AtMostOnceIff(before, org);
      RunSound(before);
      StepMoves(Run(before), step);
      PendingIsOutstanding(before, org);
      AtMostOnceStep(Run(before), step, Run(steps), Counts(before), org);
    }
  }

  /** The same with a guard that a caller could check: PAYOUT_PENDING equals the payouts still processing if
      and only if every call that resolved a payout of the organisation found it PROCESSING. */
  lemma PendingTruthfulIff(steps: seq<Step>, org: int)
    ensures var b := Run(steps);
            Sum(b.entries, PendingOf(org)) == Sum(b.payouts, ProcessingAmount(org)) <==>
                AlwaysFindsProcessing(steps, org)
  {
    PendingEqualsProcessingIff(steps, org);
    AtMostOnceIff(steps, org);
  }

  /** Every call on payout id acts on the status the payout has at that moment. */
  ghost predicate FreshCalls(steps: seq<Step>, id: nat) {
    forall k | 0 <= k < |steps| && (steps[k].Complete? || steps[k].Fail?) && steps[k].id == id ::
      id < |Run(steps[..k]).payouts| ==> steps[k].seen == Run(steps[..k]).payouts[id].status
  }

  /** When calls are fresh and a payout is only ever completed, or only ever failed, repeats add nothing:
      it is resolved at most once. */
  lemma {:induction false} RepeatsAddNothing(steps: seq<Step>, id: nat, completes: bool)
    requires FreshCalls(steps, id)
    requires forall k :: 0 <= k < |steps| ==> if completes then !(steps[k].Fail? && steps[k].id == id)
                                              else !(steps[k].Complete? && steps[k].id == id)
    ensures id < |Run(steps).payouts| ==>
              Counts(steps)[id] <= 1
                  && Run(steps).payouts[id].status in {Processing, if completes then Completed else Failed}
  {
    if steps != [] {
      var n := |steps| - 1;
      var b, step := Run(steps[..n]), steps[n];
      assert FreshCalls(steps[..n], id) by {
        forall k | 0 <= k < n
          ensures steps[..n][k] == steps[k] && steps[..n][..k] == steps[..k]
        {
        }
      }
      RepeatsAddNothing(steps[..n], id, completes);
      RunSound(steps[..n]);
      StepMoves(b, step);
      PendingIsOutstanding(steps[..n], 0);
      RepeatStep(b, step, Run(steps), Counts(steps[..n]), id, completes);
    }
  }

  lemma RepeatStep(b: Books, step: Step, c: Books, r: seq<int>, id: nat, completes: bool)
    requires Moved(b, step, c) && CountsMatch(b.payouts, r)
    requires if completes then !(step.Fail? && step.id == id) else !(step.Complete? && step.id == id)
    requires id < |b.payouts| && (step.Complete? || step.Fail?) && step.id == id ==> step.seen == b.payouts[id].status
    requires id < |b.payouts| ==>
             r[id] <= 1 && b.payouts[id].status in {Processing, if completes then Completed else Failed}
    ensures id < |c.payouts| && id < |CountStep(b, step, r)| ==>
              CountStep(b, step, r)[id] <= 1
                  && c.payouts[id].status in {Processing, if completes then Completed else Failed}
  {
  }

  /** Payout id is never completed in the run, or it is never failed. */
  ghost predicate OneSided(steps: seq<Step>, id: nat) {
    || (forall k :: 0 <= k < |steps| ==> !(steps[k].Fail? && steps[k].id == id))
    || (forall k :: 0 <= k < |steps| ==> !(steps[k].Complete? && steps[k].id == id))
  }

  /** When all calls are fresh and no payout is both completed and failed, PAYOUT_PENDING equals the payouts
      still processing, whatever is repeated. */
  lemma PendingEqualsProcessing(steps: seq<Step>, org: int)
    requires forall id: nat :: FreshCalls(steps, id) && OneSided(steps, id)
    ensures var b := Run(steps); Sum(b.entries, PendingOf(org)) == Sum(b.payouts, ProcessingAmount(org))
  {
    PendingEqualsProcessingIff(steps, org);
    forall i: nat | i < |Run(steps).payouts|
      ensures Counts(steps)[i] <= 1
    {
      assert FreshCalls(steps, i) && OneSided(steps, i);
      var completes := forall k :: 0 <= k < |steps| ==> !(steps[k].Fail? && steps[k].id == i);
      RepeatsAddNothing(steps, i, completes);
    }
  }

  /** A payout of one rupee out of a recorded payment, completed and then failed, each on the status it has. */
  const RESOLVED_TWICE: seq<Step> := [
    OpenPayment(7, 1000, 1, 0), Pay(0, 7, 1000, 0, 0, 0), Payout(7, 100, None, true, 1000, 1, 0),
    Complete(0, Processing), Fail(0, Completed)]

  /** A payout is initiated in books that hold one recorded payment. */
  lemma PaysOut(b: Books, c: Books)
    requires c == Next(b, Payout(7, 100, None, true, 1000, 1, 0))
    requires b.payouts == [] && |b.txs| == 1 && b.txs[0].key == PayKey(0) && b.txs[0].payout == None
    ensures c.payouts == [PayoutRow(7, 100, Processing, None)] && |c.txs| == 2 && FindPayoutTx(c.txs, 0).Some?
    ensures CountStep(b, Payout(7, 100, None, true, 1000, 1, 0), []) == [0]
  {
    assert c.txs[1].payout == Some(0);
  }

  lemma ResolvesOnly(b: Books, c: Books, step: Step, count: int)
    requires (step == Complete(0, Processing) || step == Fail(0, Completed)) && c == Next(b, step)
    requires |b.payouts| == 1 && b.payouts[0].status == step.seen
    ensures c.payouts == [b.payouts[0].(status := if step.Complete? then Completed else Failed)] && c.txs == b.txs
    ensures CountStep(b, step, [count]) == [count + 1]
  {
  }

  lemma StepOfCounts(steps: seq<Step>, n: nat)
    requires n < |steps|
    ensures Run(steps[..n + 1]) == Next(Run(steps[..n]), steps[n])
    ensures Counts(steps[..n + 1]) == CountStep(Run(steps[..n]), steps[n], Counts(steps[..n]))
  {
    assert steps[..n + 1][..n] == steps[..n];
  }

  lemma PayingPaymentOpened(steps: seq<Step>)
    requires steps == RESOLVED_TWICE
    ensures var b := Run(steps[..1]); |b.payments| == 1 && b.txs == [] && b.payouts == []
    ensures Counts(steps[..1]) == []
  {
    StepOfCounts(steps, 0);
    assert steps[..0] == [];
  }

  lemma PayoutStarted(steps: seq<Step>)
    requires steps == RESOLVED_TWICE
    ensures Run(steps[..3]).payouts == [PayoutRow(7, 100, Processing, None)] && Counts(steps[..3]) == [0]
    ensures FindPayoutTx(Run(steps[..3]).txs, 0).Some?
  {
    PayingPaymentOpened(steps);
    StepOfCounts(steps, 1);
    StepOfCounts(steps, 2);
    var t := Pays(Run(steps[..1]), 0, 7, 1000, 0, 0, 0);
    PaysOut(Run(steps[..2]), Run(steps[..3]));
  }

  lemma PayoutResolvedTwice(steps: seq<Step>)
    requires steps == RESOLVED_TWICE
    ensures Run(steps[..5]).payouts == [PayoutRow(7, 100, Failed, None)] && Counts(steps[..5]) == [2]
  {
    PayoutStarted(steps);
    StepOfCounts(steps, 3);
    StepOfCounts(steps, 4);
    ResolvesOnly(Run(steps[..3]), Run(steps[..4]), steps[3], 0);
    ResolvesOnly(Run(steps[..4]), Run(steps[..5]), steps[4], 1);
  }

  /** It is resolved twice: nothing is processing, and PAYOUT_PENDING is a rupee below zero. */
  lemma ResolvedTwice(steps: seq<Step>)
    requires steps == RESOLVED_TWICE
    ensures Run(steps).payouts == [PayoutRow(7, 100, Failed, None)] && Counts(steps) == [2]
    ensures Sum(Run(steps).payouts, ProcessingAmount(7)) == 0 && Sum(Run(steps).entries, PendingOf(7)) == -100
  {
    PayoutResolvedTwice(steps);
    assert steps[..5] == steps;
    PendingIsOutstanding(steps, 7);
    OneRow(PayoutRow(7, 100, Failed, None), 2);
  }

  lemma OneRow(row: PayoutRow, count: int)
    ensures Sum([row], ProcessingAmount(row.org)) == if row.status == Processing then row.amount else 0
    ensures Outstanding([row], [count], row.org) == row.amount * (1 - count)
  {
    assert [row][..0] == [] && [count][..0] == [];
  }
}
