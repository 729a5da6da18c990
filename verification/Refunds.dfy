/** Refunds over whole runs: the cap, the idempotency keys, repeated notifications, and how far
    rounding can move the accounts of one payment. */
module Refunds {
  import opened Wrappers
  import opened Sums
  import opened Ledger
  import opened Accounting

  // ------------------------------------------------------------ cap and keys

  /** Transactions refer to payments that exist. */
  ghost predicate PaymentsInRange(b: Books) {
    forall i :: 0 <= i < |b.txs| && b.txs[i].payment.Some? ==> 0 <= b.txs[i].payment.value < |b.payments|
  }

  ghost predicate WithinCap(b: Books) {
    forall p :: 0 <= p < |b.payments| ==> Refunded(b.txs, p) <= b.payments[p].amount + 1
  }

  lemma {:induction false} NoRefundsBeyond(txs: seq<Tx>, p: int)
    requires forall i :: 0 <= i < |txs| ==> txs[i].payment != Some(p)
    ensures Refunded(txs, p) == 0
  {
    if txs != [] {
      NoRefundsBeyond(txs[..|txs| - 1], p);
    }
  }

  /** Over every run, what is refunded of a payment never exceeds the captured amount by more than a paisa. */
  lemma {:induction false} RefundsCapped(steps: seq<Step>)
    ensures WithinCap(Run(steps)) && PaymentsInRange(Run(steps))
  {
    if steps != [] {
      var n := |steps| - 1;
      RefundsCapped(steps[..n]);
      RunSound(steps[..n]);
      StepMoves(Run(steps[..n]), steps[n]);
      StepKeepsPaymentRows(Run(steps[..n]), steps[n]);
      CapStep(Run(steps[..n]), steps[n], Run(steps));
    }
  }

  /** New rows of payments start unrefunded, and amounts never change. */
  ghost predicate PaymentRowsKept(b: Books, c: Books) {
    && |c.payments| >= |b.payments|
    && (forall p :: 0 <= p < |b.payments| ==> c.payments[p].amount == b.payments[p].amount)
    && (forall p :: |b.payments| <= p < |c.payments| ==> c.payments[p].amount >= 0 && c.txs == b.txs)
  }

  lemma StepKeepsPaymentRows(b: Books, step: Step)
    ensures PaymentRowsKept(b, Next(b, step))
  {
  }

  lemma CapStep(b: Books, step: Step, c: Books)
    requires Moved(b, step, c) && PaymentRowsKept(b, c) && WithinCap(b) && PaymentsInRange(b)
    ensures WithinCap(c) && PaymentsInRange(c)
  {
    forall p | 0 <= p < |c.payments|
      ensures Refunded(c.txs, p) <= c.payments[p].amount + 1
    {
      if p >= |b.payments| {
        NoRefundsBeyond(b.txs, p);
      } else {
        RefundedAfter(b, step, c, p);
      }
    }
  }

  /** Only a refund that goes through changes what is refunded, and only of its payment. */
  lemma RefundedAfter(b: Books, step: Step, c: Books, p: int)
    requires Moved(b, step, c)
    ensures Refunded(c.txs, p) == Refunded(b.txs, p)
         || (step.Refund? && step.payment == p && RefundGrown(b, step, c.txs[|c.txs| - 1])
             && Refunded(c.txs, p) == Refunded(b.txs, p) + step.amount)
  {
    if step.Settle? && !Quiet(b, c) {
      SumSame(c.txs, RefundOf(p), b.txs, RefundOf(p));
    } else if c.txs != b.txs {
      var t :| Recorded(b, c, t) && Grown(b, step, c, t);
      SumSnoc(b.txs, t, RefundOf(p));
    }
  }

  /** No refund asked for is of a negative amount: callers refund payments, and a payment may be of nothing. */
  predicate RefundsNotNegative(steps: seq<Step>) {
    forall i :: 0 <= i < |steps| ==> steps[i].Refund? ==> steps[i].amount >= 0
  }

  /** The keys of refunds of p are totals that its refunds had reached. */
  ghost predicate KeysReachedFor(txs: seq<Tx>, p: int) {
    && Refunded(txs, p) >= 0
    && forall j :: 0 <= j < |txs| && txs[j].key.RefundKey? && txs[j].key.payment == p ==>
       0 <= txs[j].key.total <= Refunded(txs, p)
  }

  ghost predicate KeysReached(txs: seq<Tx>) {
    forall p :: KeysReachedFor(txs, p)
  }

  lemma {:induction false} RunKeysReached(steps: seq<Step>)
    requires RefundsNotNegative(steps)
    ensures KeysReached(Run(steps).txs)
  {
    if steps == [] {
      assert forall p :: Refunded([], p) == 0;
    } else {
      var n := |steps| - 1;
      RunKeysReached(steps[..n]);
      RunSound(steps[..n]);
      StepMoves(Run(steps[..n]), steps[n]);
      KeysStep(Run(steps[..n]), steps[n], Run(steps));
    }
  }

  lemma KeysStep(b: Books, step: Step, c: Books)
    requires KeysReached(b.txs) && Moved(b, step, c) && (step.Refund? ==> step.amount >= 0)
    ensures KeysReached(c.txs)
  {
    forall p
      ensures KeysReachedFor(c.txs, p)
    {
      KeysStepFor(b, step, c, p);
    }
  }

  lemma KeysStepFor(b: Books, step: Step, c: Books, p: int)
    requires KeysReachedFor(b.txs, p) && Moved(b, step, c) && (step.Refund? ==> step.amount >= 0)
    ensures KeysReachedFor(c.txs, p)
  {
    RefundedAfter(b, step, c, p);
    forall j: nat | j < |c.txs| && c.txs[j].key.RefundKey? && c.txs[j].key.payment == p
      ensures 0 <= c.txs[j].key.total <= Refunded(c.txs, p)
    {
      KeyStep(b, step, c, p, j);
    }
  }

  lemma KeyStep(b: Books, step: Step, c: Books, p: int, j: nat)
    requires KeysReachedFor(b.txs, p) && Moved(b, step, c)
    requires 0 <= Refunded(b.txs, p) <= Refunded(c.txs, p)
    requires j < |c.txs| && c.txs[j].key.RefundKey? && c.txs[j].key.payment == p
    ensures 0 <= c.txs[j].key.total <= Refunded(c.txs, p)
  {
    if j < |b.txs| {
      MoveKeepsKey(b, step, c, j);
    } else {
      NewKeyReached(b, step, c, p);
    }
  }

  lemma MoveKeepsKey(b: Books, step: Step, c: Books, j: nat)
    requires Moved(b, step, c) && j < |b.txs|
    ensures j < |c.txs| && c.txs[j].key == b.txs[j].key
  {
    if step.Settle? && !Quiet(b, c) {
      assert c.txs[j] == b.txs[j].(settlement := c.txs[j].settlement);
    }
  }

  lemma NewKeyReached(b: Books, step: Step, c: Books, p: int)
    requires Moved(b, step, c) && |c.txs| > |b.txs|
    requires var k := c.txs[|c.txs| - 1].key; k.RefundKey? && k.payment == p
    ensures |c.txs| == |b.txs| + 1 && c.txs[|b.txs|].key.total == Refunded(c.txs, p)
  {
  }

  /** The keys of successive positive refunds are always distinct: a further one is never turned away as a
      duplicate, even in runs with refunds of nothing. */
  lemma RefundKeysDistinct(steps: seq<Step>, p: int, org: int, amount: int, now: int)
    requires RefundsNotNegative(steps) && amount > 0
    ensures RecordRefund(Run(steps), p, org, amount, now) != Err(DuplicateKey)
  {
    RunKeysReached(steps);
    assert KeysReachedFor(Run(steps).txs, p);
  }

  /** After a full refund, one more notification of the full refund is turned away if and only if the
      payment was of at least two paise: the cap is one paisa loose. */
  lemma FullRefundReplay(steps: seq<Step>, p: int, org: int, now: int)
    requires RefundsNotNegative(steps)
    requires var b := Run(steps);
             0 <= p < |b.payments| && b.payments[p].amount > 0
             && FindPaymentTx(b.txs, p).Some? && Refunded(b.txs, p) == b.payments[p].amount
    ensures var b := Run(steps);
            RecordRefund(b, p, org, b.payments[p].amount, now).Err? <==> b.payments[p].amount >= 2
  {
    RunKeysReached(steps);
    assert KeysReachedFor(Run(steps).txs, p);
  }

  /** A payment recorded for the first time has not been refunded. */
  lemma PaidNotRefunded(b: Books, p: int, org: int, amount: int, bp: int, fee: int, now: int)
    requires 0 <= p < |b.payments| && b.txs == []
    ensures var c := Next(b, Pay(p, org, amount, bp, fee, now));
            c.payments == b.payments && FindPaymentTx(c.txs, p).Some? && Refunded(c.txs, p) == 0
  {
    var t := Pays(b, p, org, amount, bp, fee, now);
    OnlyPaid(t, p);
  }

  lemma OnlyPaid(t: Tx, p: int)
    requires IsPaymentOf(t, p)
    ensures FindPaymentTx([t], p).Some? && Refunded([t], p) == 0
  {
    assert [t] == [] + [t];
    SumSnoc([], t, RefundOf(p));
  }

  /** A refund that is within the cap and not a duplicate is recorded. */
  lemma RefundRecorded(b: Books, p: int, org: int, amount: int, now: int)
    requires 0 <= p < |b.payments| && FindPaymentTx(b.txs, p).Some?
    requires Refunded(b.txs, p) + amount <= b.payments[p].amount + 1
    requires RecordRefund(b, p, org, amount, now) != Err(DuplicateKey)
    ensures var c := Next(b, Refund(p, org, amount, now));
            && c.payments == b.payments && FindPaymentTx(c.txs, p).Some?
            && Refunded(c.txs, p) == Refunded(b.txs, p) + amount
  {
    var c := Next(b, Refund(p, org, amount, now));
    var t := c.txs[|b.txs|];
    assert c.txs == b.txs + [t];
    SumSnoc(b.txs, t, RefundOf(p));
    var i :| 0 <= i < |b.txs| && IsPaymentOf(b.txs[i], p);
    assert IsPaymentOf(c.txs[i], p);
  }

  lemma OneMoreRefund(before: seq<Step>, p: int, org: int, amount: int, now: int)
    requires RefundsNotNegative(before) && amount > 0
    requires var b := Run(before);
             && 0 <= p < |b.payments| && FindPaymentTx(b.txs, p).Some?
             && Refunded(b.txs, p) + amount <= b.payments[p].amount + 1
    ensures var b, c := Run(before), Run(before + [Refund(p, org, amount, now)]);
            && c.payments == b.payments && FindPaymentTx(c.txs, p).Some?
            && Refunded(c.txs, p) == Refunded(b.txs, p) + amount
  {
    var after := before + [Refund(p, org, amount, now)];
    assert after[..|before|] == before;
    RefundKeysDistinct(before, p, org, amount, now);
    RefundRecorded(Run(before), p, org, amount, now);
  }

  /** A recorded payment of one paisa can be refunded in full twice. */
  lemma RefundedInFullTwice(before: seq<Step>, p: int, org: int, now: int)
    requires RefundsNotNegative(before)
    requires var b := Run(before);
             0 <= p < |b.payments| && b.payments[p].amount == 1 && FindPaymentTx(b.txs, p).Some?
                 && Refunded(b.txs, p) == 0
    ensures var b, c := Run(before), Run(before + [Refund(p, org, 1, now), Refund(p, org, 1, now)]);
            c.payments == b.payments && Refunded(c.txs, p) == 2
  {
    var once := before + [Refund(p, org, 1, now)];
    OneMoreRefund(before, p, org, 1, now);
    OneMoreRefund(once, p, org, 1, now);
    assert once + [Refund(p, org, 1, now)] == before + [Refund(p, org, 1, now), Refund(p, org, 1, now)];
  }

  lemma OnePaymentOpened(steps: seq<Step>, org: int, amount: nat, provider: int, at: int)
    requires steps == [OpenPayment(org, amount, provider, at)]
    ensures Run(steps) == EMPTY_BOOKS.(payments := [PaymentRow(org, amount, Bookings.Initiated, provider, at)])
  {
    assert steps[..0] == [];
  }

  /** A payment opened and recorded on any terms. */
  lemma OnePaymentPaid(steps: seq<Step>, org: int, amount: nat, provider: int, bp: int, fee: int, at: int)
    requires steps == [OpenPayment(org, amount, provider, at), Pay(0, org, amount, bp, fee, at)]
    ensures var b := Run(steps);
            |b.payments| == 1 && b.payments[0].amount == amount && FindPaymentTx(b.txs, 0).Some?
                && Refunded(b.txs, 0) == 0
  {
    assert steps[..1] == [OpenPayment(org, amount, provider, at)];
    OnePaymentOpened(steps[..1], org, amount, provider, at);
    PaidNotRefunded(Run(steps[..1]), 0, org, amount, bp, fee, at);
  }

  /** Twice what was paid is refunded: a payment of one paisa, opened, recorded, refunded and refunded again. */
  lemma OnePaisaRefundedTwice(org: int, provider: int, bp: int, fee: int, at: int)
    ensures var steps := [OpenPayment(org, 1, provider, at), Pay(0, org, 1, bp, fee, at)];
            var b := Run(steps + [Refund(0, org, 1, at), Refund(0, org, 1, at)]);
            |b.payments| == 1 && b.payments[0].amount == 1 && Refunded(b.txs, 0) == 2
  {
    var steps := [OpenPayment(org, 1, provider, at), Pay(0, org, 1, bp, fee, at)];
    OnePaymentPaid(steps, org, 1, provider, bp, fee, at);
    RefundedInFullTwice(steps, 0, org, at);
  }

  function RunFrom(b: Books, steps: seq<Step>): Books {
    if steps == [] then b else Next(RunFrom(b, steps[..|steps| - 1]), steps[|steps| - 1])
  }

  /** Any number of repeated full-refund notifications then leaves all tables unchanged. */
  lemma {:induction false} ReplaysChangeNothing(b: Books, p: int, replays: seq<Step>)
    requires 0 <= p < |b.payments| && b.payments[p].amount >= 2 && Refunded(b.txs, p) == b.payments[p].amount
    requires forall i :: 0 <= i < |replays| ==>
               replays[i].Refund? && replays[i].payment == p && replays[i].amount == b.payments[p].amount
    ensures RunFrom(b, replays) == b
  {
    if replays != [] {
      ReplaysChangeNothing(b, p, replays[..|replays| - 1]);
    }
  }

  // ------------------------------------------------------------ rounding drift

  function Member(p: int): Tx -> int {
    (t: Tx) => if t.payment == Some(p) then 1 else 0
  }

  function RefundCount(p: int): Tx -> int {
    (t: Tx) => if IsRefundOf(t, p) then 1 else 0
  }

  function PaymentCount(p: int): Tx -> int {
    (t: Tx) => if IsPaymentOf(t, p) then 1 else 0
  }

  /** Captured minus refunded. */
  function Gross(p: int): Tx -> int {
    (t: Tx) => if t.payment == Some(p) then GrossOf(t) else 0
  }

  /** Commission taken minus commission reversed. */
  function Revenue(p: int): Tx -> int {
    (t: Tx) => if t.payment != Some(p) then 0 else if t.kind == PaymentTx then t.commission else -t.commission
  }

  /** Net credit of an account over the ledger entries of one payment's transactions. */
  function AccountOf(txs: seq<Tx>, p: int, account: Account): Entry -> int {
    (e: Entry) => if 0 <= e.tx < |txs| && txs[e.tx].payment == Some(p) && e.account == account then e.credit - e.debit
        else 0
  }

  function AccountNet(b: Books, p: int, account: Account): int {
    Sum(b.entries, AccountOf(b.txs, p, account))
  }

  /** What the ledger holds on the three accounts of a payment, read off its transactions. */
  ghost predicate AccountsAgree(b: Books, p: int) {
    var gross, revenue := Sum(b.txs, Gross(p)), Sum(b.txs, Revenue(p));
    && AccountNet(b, p, PaymentClearing) == -gross
    && AccountNet(b, p, PlatformRevenue) == revenue
    && AccountNet(b, p, PartnerPayable) == gross - revenue
  }

  lemma {:induction false} RunAccountsAgree(steps: seq<Step>, p: int)
    ensures AccountsAgree(Run(steps), p)
  {
    if steps != [] {
      var n := |steps| - 1;
      RunAccountsAgree(steps[..n], p);
      RunSound(steps[..n]);
      StepMoves(Run(steps[..n]), steps[n]);
      AccountsStep(Run(steps[..n]), steps[n], Run(steps), p);
    }
  }

  lemma AccountsStep(b: Books, step: Step, c: Books, p: int)
    requires Sound(b) && Moved(b, step, c) && AccountsAgree(b, p)
    ensures AccountsAgree(c, p)
  {
    if Resolves(b, step) {
      AccountsAfterResolve(b, step, c, p);
    } else if step.Settle? && !Quiet(b, c) {
      AccountsAfterLink(b, step, c, p);
    } else if !Quiet(b, c) {
      var t := NewRow(b, step, c);
      AccountsAfterRecord(b, c, t, p);
    }
  }

  lemma AccountsAfterResolve(b: Books, step: Step, c: Books, p: int)
    requires Sound(b) && Resolves(b, step) && Resolved(b, step, c) && AccountsAgree(b, p)
    ensures AccountsAgree(c, p)
  {
    forall account: Account
      ensures AccountNet(c, p, account) == AccountNet(b, p, account)
    {
      AccountAfterTransfer(b, step, c, p, account);
    }
  }

  lemma AccountsAfterLink(b: Books, step: Step, c: Books, p: int)
    requires step.Settle? && Settled(b, step, c) && AccountsAgree(b, p)
    ensures AccountsAgree(c, p)
  {
    SumSame(c.txs, Gross(p), b.txs, Gross(p));
    SumSame(c.txs, Revenue(p), b.txs, Revenue(p));
    forall account: Account
      ensures AccountNet(c, p, account) == AccountNet(b, p, account)
    {
      SumSame(c.entries, AccountOf(c.txs, p, account), b.entries, AccountOf(b.txs, p, account));
    }
  }

  lemma AccountsAfterRecord(b: Books, c: Books, t: Tx, p: int)
    requires Sound(b) && Recorded(b, c, t) && RowShape(t) && AccountsAgree(b, p)
    ensures AccountsAgree(c, p)
  {
    SumSnoc(b.txs, t, Gross(p));
    SumSnoc(b.txs, t, Revenue(p));
    AccountAfterRecord(b, c, t, p, PaymentClearing);
    AccountAfterRecord(b, c, t, p, PlatformRevenue);
    AccountAfterRecord(b, c, t, p, PartnerPayable);
  }

  lemma AccountAfterTransfer(b: Books, step: Step, c: Books, p: int, account: Account)
    requires Sound(b) && Resolves(b, step) && Resolved(b, step, c)
    ensures AccountNet(c, p, account) == AccountNet(b, p, account)
  {
    var tx := FindPayoutTx(b.txs, step.id).value;
    var more := Transfer(tx, b.payouts[step.id].org, PayoutPending,
                         if step.Complete? then PaymentClearing else PartnerPayable, b.payouts[step.id].amount);
    assert RowShape(b.txs[tx]);
    SumConcat(b.entries, more, AccountOf(b.txs, p, account));
    SumOfTwo(more, AccountOf(b.txs, p, account));
  }

  lemma AccountAfterRecord(b: Books, c: Books, t: Tx, p: int, account: Account)
    requires Sound(b) && Recorded(b, c, t) && RowShape(t)
    requires account in {PaymentClearing, PlatformRevenue, PartnerPayable}
    ensures AccountNet(c, p, account) == AccountNet(b, p, account) + AccountEffect(t, p, account)
  {
    var posting := Posting(|b.txs|, t);
    var weight := AccountOf(c.txs, p, account);
    SumConcat(b.entries, posting, weight);
    SumSame(b.entries, weight, b.entries, AccountOf(b.txs, p, account));
    PostingWeight(b, c, t, p, account);
  }

  function AccountEffect(t: Tx, p: int, account: Account): int {
    match account
    case PaymentClearing => -Gross(p)(t)
    case PlatformRevenue => Revenue(p)(t)
    case _ => Gross(p)(t) - Revenue(p)(t)
  }

  lemma PostingWeight(b: Books, c: Books, t: Tx, p: int, account: Account)
    requires c.txs == b.txs + [t] && RowShape(t)
    requires account in {PaymentClearing, PlatformRevenue, PartnerPayable}
    ensures Sum(Posting(|b.txs|, t), AccountOf(c.txs, p, account)) == AccountEffect(t, p, account)
  {
    var posting := Posting(|b.txs|, t);
    match t.kind
    case PaymentTx => SumOfThree(posting, AccountOf(c.txs, p, account));
    case RefundTx => SumOfThree(posting, AccountOf(c.txs, p, account));
    case _ => SumOfTwo(posting, AccountOf(c.txs, p, account));
  }

  /** Rounding error of one commission, in ten-thousandths of half a paisa. */
  lemma CommissionError(amount: int, bp: int, fee: int)
    ensures -5000 < 10000 * Commission(amount, bp, fee) - amount * bp - 10000 * fee <= 5000
    ensures Commission(amount, bp, fee) == Commission(amount, bp, 0) + fee
  {
  }

  /** Row by row, the revenue of a payment stays within half a paisa per transaction of the exact
      percentage of what is still held, plus the fixed fee. */
  lemma {:induction false} DriftOfRows(txs: seq<Tx>, p: int, bp: int, fee: int)
    requires forall i :: 0 <= i < |txs| ==> RowShape(txs[i])
    requires forall i :: 0 <= i < |txs| && txs[i].payment == Some(p) ==>
               txs[i].bp == bp && (txs[i].kind == PaymentTx ==> txs[i].fee == fee)
    ensures var drift :=
            10000 * Sum(txs, Revenue(p)) - Sum(txs, Gross(p)) * bp - Sum(txs, PaymentCount(p)) * (10000 * fee);
            -5000 * Sum(txs, Member(p)) <= drift <= 5000 * Sum(txs, Member(p))
  {
    if txs != [] {
      var n := |txs| - 1;
      var t := txs[n];
      DriftOfRows(txs[..n], p, bp, fee);
      DriftOfRow(t, p, bp, fee);
      var gross, count := Sum(txs[..n], Gross(p)), Sum(txs[..n], PaymentCount(p));
      Distribute(gross, Gross(p)(t), bp);
      Distribute(count, PaymentCount(p)(t), 10000 * fee);
      assert Sum(txs, Gross(p)) == gross + Gross(p)(t);
      assert Sum(txs, PaymentCount(p)) == count + PaymentCount(p)(t);
    }
  }

  lemma Distribute(a: int, b: int, k: int)
    ensures (a + b) * k == a * k + b * k
  {
  }

  lemma DriftOfRow(t: Tx, p: int, bp: int, fee: int)
    requires RowShape(t) && (t.payment == Some(p) ==> t.bp == bp && (t.kind == PaymentTx ==> t.fee == fee))
    ensures var drift := 10000 * Revenue(p)(t) - Gross(p)(t) * bp - PaymentCount(p)(t) * (10000 * fee);
            -5000 * Member(p)(t) <= drift <= 5000 * Member(p)(t)
  {
  }

  lemma {:induction false} OnePayment(txs: seq<Tx>, p: int, i: int)
    requires KeysUnique(txs) && (forall j :: 0 <= j < |txs| ==> RowShape(txs[j])) && 0 <= i < |txs|
             && IsPaymentOf(txs[i], p)
    ensures Sum(txs, PaymentCount(p)) == 1
  {
    var n := |txs| - 1;
    if i == n {
      forall j | 0 <= j < n
        ensures !IsPaymentOf(txs[j], p)
      {
        if IsPaymentOf(txs[j], p) {
          PaymentTxUnique(txs, j, n, p);
        }
      }
      NoPayment(txs[..n], p);
    } else {
      OnePayment(txs[..n], p, i);
      if IsPaymentOf(txs[n], p) {
        PaymentTxUnique(txs, i, n, p);
      }
    }
  }

  lemma {:induction false} NoPayment(txs: seq<Tx>, p: int)
    requires forall j :: 0 <= j < |txs| ==> !IsPaymentOf(txs[j], p)
    ensures Sum(txs, PaymentCount(p)) == 0
  {
    if txs != [] {
      NoPayment(txs[..|txs| - 1], p);
    }
  }

  lemma {:induction false} MembersAreRecorded(txs: seq<Tx>, p: int)
    requires forall j :: 0 <= j < |txs| ==> RowShape(txs[j])
    ensures Sum(txs, Member(p)) == Sum(txs, PaymentCount(p)) + Sum(txs, RefundCount(p))
  {
    SumSplit(txs, Member(p), txs, PaymentCount(p), RefundCount(p));
  }

  /** Bounded drift: when k refunds add up to the recorded amount, PAYMENT_CLEARING is exactly zero,
      PLATFORM_REVENUE is within (k + 1) / 2 paise of the fixed fee, which refunds never reverse, and
      PARTNER_PAYABLE is its exact opposite. With no fixed fee the residues are around zero. */
  lemma DriftBounded(steps: seq<Step>, p: int)
    requires FindPaymentTx(Run(steps).txs, p).Some?
    requires Refunded(Run(steps).txs, p) == FindPaymentTx(Run(steps).txs, p).value.amount
    ensures var b := Run(steps);
            var fee, k := FindPaymentTx(b.txs, p).value.fee, Sum(b.txs, RefundCount(p));
            && AccountNet(b, p, PaymentClearing) == 0
            && AccountNet(b, p, PartnerPayable) == -AccountNet(b, p, PlatformRevenue)
            && -(k + 1) <= 2 * (AccountNet(b, p, PlatformRevenue) - fee) <= k + 1
  {
    RunSound(steps);
    RunAccountsAgree(steps, p);
    var txs := Run(steps).txs;
    var i :| 0 <= i < |txs| && txs[i] == FindPaymentTx(txs, p).value;
    RevenueNearFee(txs, p, i);
  }

  lemma RevenueNearFee(txs: seq<Tx>, p: int, i: int)
    requires RowsSound(txs) && 0 <= i < |txs| && IsPaymentOf(txs[i], p) && Refunded(txs, p) == txs[i].amount
    ensures Sum(txs, Gross(p)) == 0
    ensures var k := Sum(txs, RefundCount(p)); -(k + 1) <= 2 * (Sum(txs, Revenue(p)) - txs[i].fee) <= k + 1
  {
    SameTerms(txs, p, i);
    GrossIsPaidMinusRefunded(txs, p, i);
    OnePayment(txs, p, i);
    MembersAreRecorded(txs, p);
    DriftOfRows(txs, p, txs[i].bp, txs[i].fee);
  }

  lemma SameTerms(txs: seq<Tx>, p: int, i: int)
    requires RowsSound(txs) && 0 <= i < |txs| && IsPaymentOf(txs[i], p)
    ensures forall j :: 0 <= j < |txs| && txs[j].payment == Some(p) ==>
              txs[j].bp == txs[i].bp && (txs[j].kind == PaymentTx ==> txs[j].fee == txs[i].fee)
  {
  }

  function PaidOf(p: int): Tx -> int {
    (t: Tx) => if IsPaymentOf(t, p) then t.amount else 0
  }

  lemma GrossIsPaidMinusRefunded(txs: seq<Tx>, p: int, i: int)
    requires RowsSound(txs) && 0 <= i < |txs| && IsPaymentOf(txs[i], p)
    ensures Sum(txs, Gross(p)) == txs[i].amount - Refunded(txs, p)
  {
    assert forall j :: 0 <= j < |txs| ==> RowShape(txs[j]);
    OnePayment(txs, p, i);
    var j := SumOfOne(txs, PaymentCount(p), PaidOf(p), PaidOf(p));
    PaymentTxUnique(txs, i, j, p);
    SumSplit(txs, PaidOf(p), txs, Gross(p), RefundOf(p));
  }

  function RefundRevenue(p: int): Tx -> int {
    (t: Tx) => if IsRefundOf(t, p) then -t.commission else 0
  }

  function PaymentRevenue(p: int): Tx -> int {
    (t: Tx) => if IsPaymentOf(t, p) then t.commission else 0
  }

  /** A single full refund leaves exactly the fixed fee on PLATFORM_REVENUE, so all three accounts are
      exactly zero if and only if there was no fixed fee, whatever the configuration says later. */
  lemma SingleFullRefundIsExact(steps: seq<Step>, p: int)
    requires FindPaymentTx(Run(steps).txs, p).Some?
    requires Refunded(Run(steps).txs, p) == FindPaymentTx(Run(steps).txs, p).value.amount
    requires Sum(Run(steps).txs, RefundCount(p)) == 1
    ensures var b := Run(steps);
            && AccountNet(b, p, PaymentClearing) == 0
            && AccountNet(b, p, PlatformRevenue) == FindPaymentTx(b.txs, p).value.fee
            && AccountNet(b, p, PartnerPayable) == -FindPaymentTx(b.txs, p).value.fee
  {
    RunSound(steps);
    RunAccountsAgree(steps, p);
    var txs := Run(steps).txs;
    var i :| 0 <= i < |txs| && txs[i] == FindPaymentTx(txs, p).value;
    GrossIsPaidMinusRefunded(txs, p, i);
    SingleRefundRevenue(txs, p, i);
  }

  lemma SingleRefundRevenue(txs: seq<Tx>, p: int, i: int)
    requires RowsSound(txs) && 0 <= i < |txs| && IsPaymentOf(txs[i], p)
    requires Refunded(txs, p) == txs[i].amount && Sum(txs, RefundCount(p)) == 1
    ensures Sum(txs, Revenue(p)) == txs[i].fee
  {
    assert forall j :: 0 <= j < |txs| ==> RowShape(txs[j]);
    OnePayment(txs, p, i);
    var k := SumOfOne(txs, RefundCount(p), RefundOf(p), RefundRevenue(p));
    var l := SumOfOne(txs, PaymentCount(p), PaymentRevenue(p), PaymentRevenue(p));
    PaymentTxUnique(txs, i, l, p);
    SumSplit(txs, Revenue(p), txs, PaymentRevenue(p), RefundRevenue(p));
    CommissionError(txs[i].amount, txs[i].bp, txs[i].fee);
    assert txs[k].bp == txs[i].bp;
  }
}
