/** The reconciliation report, and what a healthy one says about the books. */
module Reconciliation {
  import opened Wrappers
  import opened Sums
  import opened Ledger
  import Bookings

  datatype Query = Query(org: Option<int>, from: Option<int>, to: Option<int>, provider: Option<int>)

  datatype Discrepancy =
    | UnrecordedPayment(payment: int)
    | UnbalancedTransaction(tx: int)
    | AmountMismatch(tx: int)
    | UnrecordedRefund(payment: int)

  datatype Report = Report(
    discrepancies: seq<Discrepancy>, healthy: bool, totalChecked: int, matchedCount: int, grossPayments: int,
    totalRefunds: int, totalCommission: int, netPartnerPayable: int, totalCompletedPayouts: int,
    outstandingBalance: int)

  predicate InDates(q: Query, at: int) {
    (q.from.Some? ==> q.from.value <= at) && (q.to.Some? ==> at <= q.to.value)
  }

  predicate Selected(q: Query, row: PaymentRow, status: Bookings.PaymentStatus) {
    && (q.org.Some? ==> row.org == q.org.value) && (q.provider.Some? ==> row.provider == q.provider.value)
    && InDates(q, row.at) && row.status == status
  }

  predicate SelectedTx(q: Query, t: Tx) {
    (q.org.Some? ==> t.org == q.org.value) && InDates(q, t.at)
  }

  function Abs(x: int): int {
    if x < 0 then -x else x
  }

  /** The tolerance of 0.009 rupees, in paise. */
  predicate Differs(a: int, b: int) {
    10 * Abs(a - b) > 9
  }

  /** In whole paise the tolerance is exact equality. */
  lemma ToleranceIsEquality(a: int, b: int)
    ensures Differs(a, b) <==> a != b
  {
  }

  predicate HasPaymentTx(txs: seq<Tx>, p: int) {
    exists i :: 0 <= i < |txs| && IsPaymentOf(txs[i], p)
  }

  predicate HasRefundTx(txs: seq<Tx>, p: int) {
    exists i :: 0 <= i < |txs| && IsRefundOf(txs[i], p)
  }

  function DebitsOf(tx: int): Entry -> int {
    (e: Entry) => if e.tx == tx then e.debit else 0
  }

  function CreditsOf(tx: int): Entry -> int {
    (e: Entry) => if e.tx == tx then e.credit else 0
  }

  predicate Balanced(b: Books, i: int) {
    !Differs(Sum(b.entries, DebitsOf(i)), Sum(b.entries, CreditsOf(i)))
  }

  predicate AmountMatches(b: Books, t: Tx) {
    t.payment.Some? && 0 <= t.payment.value < |b.payments| ==> !Differs(t.amount, b.payments[t.payment.value].amount)
  }

  // ------------------------------------------------------------ the four checks, row by row

  function Unrecorded(b: Books, q: Query, n: nat): seq<Discrepancy>
    requires n <= |b.payments|
  {
    if n == 0 then []
    else Unrecorded(b, q, n - 1)
         + if Selected(q, b.payments[n - 1], Bookings.Captured) && !HasPaymentTx(b.txs, n - 1)
             then [UnrecordedPayment(n - 1)] else []
  }

  function Faulty(b: Books, q: Query, n: nat): seq<Discrepancy>
    requires n <= |b.txs|
  {
    if n == 0 then []
    else Faulty(b, q, n - 1)
         + (if SelectedTx(q, b.txs[n - 1]) && !Balanced(b, n - 1) then [UnbalancedTransaction(n - 1)] else [])
         + (if SelectedTx(q, b.txs[n - 1]) && !AmountMatches(b, b.txs[n - 1]) then [AmountMismatch(n - 1)] else [])
  }

  function Unrefunded(b: Books, q: Query, n: nat): seq<Discrepancy>
    requires n <= |b.payments|
  {
    if n == 0 then []
    else Unrefunded(b, q, n - 1)
         + if Selected(q, b.payments[n - 1], Bookings.Refunded) && !HasRefundTx(b.txs, n - 1)
             then [UnrecordedRefund(n - 1)] else []
  }

  function AmountOf(q: Query, status: Bookings.PaymentStatus): PaymentRow -> int {
    (p: PaymentRow) => if Selected(q, p, status) then p.amount else 0
  }

  function One(q: Query, status: Bookings.PaymentStatus): PaymentRow -> int {
    (p: PaymentRow) => if Selected(q, p, status) then 1 else 0
  }

  function OneTx(q: Query): Tx -> int {
    (t: Tx) => if SelectedTx(q, t) then 1 else 0
  }

  /** Net credit on an account, of one organisation or of all; dates and providers do not matter here. */
  function NetCredit(q: Query, account: Account): Entry -> int {
    (e: Entry) => if e.account == account && (q.org.Some? ==> e.org == q.org.value) then e.credit - e.debit else 0
  }

  function CompletedAmount(q: Query): PayoutRow -> int {
    (p: PayoutRow) => if p.status == Completed && (q.org.Some? ==> p.org == q.org.value) then p.amount else 0
  }

  // ------------------------------------------------------------ what a query selects

  /** A payment of this status, of the organisation and provider asked for, between the two dates. */
  predicate Asked(q: Query, row: PaymentRow, status: Bookings.PaymentStatus) {
    && row.status == status && q.org in {None, Some(row.org)} && q.provider in {None, Some(row.provider)}
    && (q.from.None? || q.from.value <= row.at) && (q.to.None? || row.at <= q.to.value)
  }

  /** A transaction of the organisation asked for, between the two dates. */
  predicate AskedTx(q: Query, t: Tx) {
    q.org in {None, Some(t.org)} && (q.from.None? || q.from.value <= t.at) && (q.to.None? || t.at <= q.to.value)
  }

  function PaymentsAsked(b: Books, q: Query, status: Bookings.PaymentStatus): set<int> {
    set p | 0 <= p < |b.payments| && Asked(q, b.payments[p], status)
  }

  function TransactionsAsked(b: Books, q: Query): set<int> {
    set i | 0 <= i < |b.txs| && AskedTx(q, b.txs[i])
  }

  lemma AskedAreCounted(b: Books, q: Query, status: Bookings.PaymentStatus)
    ensures Sum(b.payments, One(q, status)) == |PaymentsAsked(b, q, status)|
  {
    forall p | 0 <= p < |b.payments|
      ensures One(q, status)(b.payments[p]) == if p in PaymentsAsked(b, q, status) then 1 else 0
    {
      assert Asked(q, b.payments[p], status) <==> Selected(q, b.payments[p], status);
    }
    SumCounts(b.payments, One(q, status), PaymentsAsked(b, q, status));
  }

  lemma AskedTxsAreCounted(b: Books, q: Query)
    ensures Sum(b.txs, OneTx(q)) == |TransactionsAsked(b, q)|
  {
    forall i | 0 <= i < |b.txs|
      ensures OneTx(q)(b.txs[i]) == if i in TransactionsAsked(b, q) then 1 else 0
    {
      assert AskedTx(q, b.txs[i]) <==> SelectedTx(q, b.txs[i]);
    }
    SumCounts(b.txs, OneTx(q), TransactionsAsked(b, q));
  }

  lemma AmountsGrow(q: Query, payments: seq<PaymentRow>, row: PaymentRow, status: Bookings.PaymentStatus)
    ensures Sum(payments + [row], AmountOf(q, status)) == Sum(payments, AmountOf(q, status))
            + (if Asked(q, row, status) then row.amount else 0)
  {
    SumSnoc(payments, row, AmountOf(q, status));
    assert Asked(q, row, status) <==> Selected(q, row, status);
  }

  lemma CreditsGrow(q: Query, entries: seq<Entry>, e: Entry, account: Account)
    ensures Sum(entries + [e], NetCredit(q, account)) == Sum(entries, NetCredit(q, account))
            + (if e.account == account && q.org in {None, Some(e.org)} then e.credit - e.debit else 0)
  {
    SumSnoc(entries, e, NetCredit(q, account));
  }

  /** One more row: a payment that is asked for adds its amount, an entry of the organisation its credit less its
      debit on the account, a completed payout of the organisation its amount; dates and providers matter to
      payments only. */
  lemma TotalsGrow(q: Query, payments: seq<PaymentRow>, row: PaymentRow, status: Bookings.PaymentStatus,
                   entries: seq<Entry>, e: Entry, account: Account, payouts: seq<PayoutRow>, p: PayoutRow)
    ensures Sum(payments + [row], AmountOf(q, status)) == Sum(payments, AmountOf(q, status))
            + (if Asked(q, row, status) then row.amount else 0)
    ensures Sum(entries + [e], NetCredit(q, account)) == Sum(entries, NetCredit(q, account))
            + (if e.account == account && q.org in {None, Some(e.org)} then e.credit - e.debit else 0)
    ensures Sum(payouts + [p], CompletedAmount(q)) == Sum(payouts, CompletedAmount(q))
            + (if p.status == Completed && q.org in {None, Some(p.org)} then p.amount else 0)
  {
    AmountsGrow(q, payments, row, status);
    CreditsGrow(q, entries, e, account);
    SumSnoc(payouts, p, CompletedAmount(q));
  }

  /** What a report lists, discrepancy by discrepancy. */
  predicate Listed(b: Books, q: Query, d: Discrepancy) {
    match d
    case UnrecordedPayment(p) =>
      p in PaymentsAsked(b, q, Bookings.Captured)
      && forall i :: 0 <= i < |b.txs| ==> !(b.txs[i].kind == PaymentTx && b.txs[i].payment == Some(p))
    case UnrecordedRefund(p) =>
      p in PaymentsAsked(b, q, Bookings.Refunded)
      && forall i :: 0 <= i < |b.txs| ==> !(b.txs[i].kind == RefundTx && b.txs[i].payment == Some(p))
    case UnbalancedTransaction(i) =>
      i in TransactionsAsked(b, q) && Sum(b.entries, DebitsOf(i)) != Sum(b.entries, CreditsOf(i))
    case AmountMismatch(i) =>
      i in TransactionsAsked(b, q) && b.txs[i].payment.Some? && 0 <= b.txs[i].payment.value < |b.payments|
      && b.txs[i].amount != b.payments[b.txs[i].payment.value].amount
  }

  lemma ListedPayment(b: Books, q: Query, p: nat)
    requires p < |b.payments|
    ensures Listed(b, q, UnrecordedPayment(p))
       <==> Selected(q, b.payments[p], Bookings.Captured) && !HasPaymentTx(b.txs, p)
    ensures Listed(b, q, UnrecordedRefund(p))
       <==> Selected(q, b.payments[p], Bookings.Refunded) && !HasRefundTx(b.txs, p)
  {
    assert Asked(q, b.payments[p], Bookings.Captured) <==> Selected(q, b.payments[p], Bookings.Captured);
    assert Asked(q, b.payments[p], Bookings.Refunded) <==> Selected(q, b.payments[p], Bookings.Refunded);
  }

  lemma ListedTransaction(b: Books, q: Query, i: nat)
    requires i < |b.txs|
    ensures Listed(b, q, UnbalancedTransaction(i)) <==> SelectedTx(q, b.txs[i]) && !Balanced(b, i)
    ensures Listed(b, q, AmountMismatch(i)) <==> SelectedTx(q, b.txs[i]) && !AmountMatches(b, b.txs[i])
  {
    var t := b.txs[i];
    assert AskedTx(q, t) <==> SelectedTx(q, t);
    ToleranceIsEquality(Sum(b.entries, DebitsOf(i)), Sum(b.entries, CreditsOf(i)));
    if t.payment.Some? && 0 <= t.payment.value < |b.payments| {
      ToleranceIsEquality(t.amount, b.payments[t.payment.value].amount);
    }
  }

  lemma {:induction false} UnrecordedIff(b: Books, q: Query, n: nat, d: Discrepancy)
    requires n <= |b.payments|
    ensures d in Unrecorded(b, q, n) <==> d.UnrecordedPayment? && d.payment < n && Listed(b, q, d)
  {
    if n > 0 {
      UnrecordedIff(b, q, n - 1, d);
      ListedPayment(b, q, n - 1);
    }
  }

  lemma {:induction false} UnrefundedIff(b: Books, q: Query, n: nat, d: Discrepancy)
    requires n <= |b.payments|
    ensures d in Unrefunded(b, q, n) <==> d.UnrecordedRefund? && d.payment < n && Listed(b, q, d)
  {
    if n > 0 {
      UnrefundedIff(b, q, n - 1, d);
      ListedPayment(b, q, n - 1);
    }
  }

  lemma {:induction false} FaultyIff(b: Books, q: Query, n: nat, d: Discrepancy)
    requires n <= |b.txs|
    ensures d in Faulty(b, q, n) <==>
            (d.UnbalancedTransaction? || d.AmountMismatch?) && d.tx < n && Listed(b, q, d)
  {
    if n > 0 {
      FaultyIff(b, q, n - 1, d);
      ListedTransaction(b, q, n - 1);
    }
  }

  /** A report lists exactly the captured payments asked for that have no PAYMENT, the refunded ones that have no
      REFUND, and the transactions asked for that do not balance or carry another amount than their payment. */
  lemma ReportedIff(b: Books, q: Query, d: Discrepancy)
    ensures d in Unrecorded(b, q, |b.payments|) + Faulty(b, q, |b.txs|) + Unrefunded(b, q, |b.payments|)
       <==> Listed(b, q, d)
  {
    UnrecordedIff(b, q, |b.payments|, d);
    FaultyIff(b, q, |b.txs|, d);
    UnrefundedIff(b, q, |b.payments|, d);
  }

  /** Checks 2 and 3, over the selected transactions. */
  method CheckTransactions(b: Books, q: Query) returns (found: seq<Discrepancy>, count: nat)
    ensures found == Faulty(b, q, |b.txs|) && count == Sum(b.txs, OneTx(q))
  {
    found, count := [], 0;
    for i := 0 to |b.txs|
      invariant found == Faulty(b, q, i)
      invariant count == Sum(b.txs[..i], OneTx(q))
    {
      assert b.txs[..i + 1][..i] == b.txs[..i];
      if SelectedTx(q, b.txs[i]) {
        count := count + 1;
        if !Balanced(b, i) {
          found := found + [UnbalancedTransaction(i)];
        }
        if !AmountMatches(b, b.txs[i]) {
          found := found + [AmountMismatch(i)];
        }
      }
    }
    assert b.txs[..|b.txs|] == b.txs;
  }

  /** Check 4 and the refund total. */
  method CheckRefunds(b: Books, q: Query) returns (found: seq<Discrepancy>, count: nat, total: int)
    ensures found == Unrefunded(b, q, |b.payments|)
    ensures count == Sum(b.payments, One(q, Bookings.Refunded))
            && total == Sum(b.payments, AmountOf(q, Bookings.Refunded))
  {
    found, count, total := [], 0, 0;
    for p := 0 to |b.payments|
      invariant found == Unrefunded(b, q, p)
      invariant count == Sum(b.payments[..p], One(q, Bookings.Refunded))
      invariant total == Sum(b.payments[..p], AmountOf(q, Bookings.Refunded))
    {
      assert b.payments[..p + 1][..p] == b.payments[..p];
      if Selected(q, b.payments[p], Bookings.Refunded) {
        count := count + 1;
        total := total + b.payments[p].amount;
        if !HasRefundTx(b.txs, p) {
          found := found + [UnrecordedRefund(p)];
        }
      }
    }
    assert b.payments[..|b.payments|] == b.payments;
  }

  /** Check 1 and the total of captured payments. */
  method CheckCaptures(b: Books, q: Query) returns (found: seq<Discrepancy>, count: nat, total: int)
    ensures found == Unrecorded(b, q, |b.payments|)
    ensures count == Sum(b.payments, One(q, Bookings.Captured))
            && total == Sum(b.payments, AmountOf(q, Bookings.Captured))
  {
    found, count, total := [], 0, 0;
    for p := 0 to |b.payments|
      invariant found == Unrecorded(b, q, p)
      invariant count == Sum(b.payments[..p], One(q, Bookings.Captured))
      invariant total == Sum(b.payments[..p], AmountOf(q, Bookings.Captured))
    {
      assert b.payments[..p + 1][..p] == b.payments[..p];
      if Selected(q, b.payments[p], Bookings.Captured) {
        count := count + 1;
        total := total + b.payments[p].amount;
        if !HasPaymentTx(b.txs, p) {
          found := found + [UnrecordedPayment(p)];
        }
      }
    }
    assert b.payments[..|b.payments|] == b.payments;
  }

  method RunReconciliation(b: Books, q: Query) returns (r: Report)
    ensures r.discrepancies == Unrecorded(b, q, |b.payments|) + Faulty(b, q, |b.txs|) + Unrefunded(b, q, |b.payments|)
    ensures forall d :: d in r.discrepancies <==> Listed(b, q, d)
    ensures r.healthy <==> r.discrepancies == []
    ensures r.totalChecked ==
            |PaymentsAsked(b, q, Bookings.Captured)| + |TransactionsAsked(b, q)|
                + |PaymentsAsked(b, q, Bookings.Refunded)|
    ensures r.matchedCount + |r.discrepancies| == r.totalChecked
    ensures r.grossPayments == Sum(b.payments, AmountOf(q, Bookings.Captured))
    ensures r.totalRefunds == Sum(b.payments, AmountOf(q, Bookings.Refunded))
    ensures r.totalCommission == Sum(b.entries, NetCredit(q, PlatformRevenue))
    ensures r.netPartnerPayable == r.outstandingBalance == Sum(b.entries, NetCredit(q, PartnerPayable))
    ensures r.totalCompletedPayouts == Sum(b.payouts, CompletedAmount(q))
  {
    var unrecorded, captured, gross := CheckCaptures(b, q);
    var faulty, transactions := CheckTransactions(b, q);
    var unrefunded, refunded, refunds := CheckRefunds(b, q);
    var discrepancies := unrecorded + faulty + unrefunded;
    var checked := captured + transactions + refunded;
    AskedAreCounted(b, q, Bookings.Captured);
    AskedAreCounted(b, q, Bookings.Refunded);
    AskedTxsAreCounted(b, q);
    forall d
      ensures d in discrepancies <==> Listed(b, q, d)
    {
      ReportedIff(b, q, d);
    }
    var payable := Sum(b.entries, NetCredit(q, PartnerPayable));
    r := Report(discrepancies, |discrepancies| == 0, checked, checked - |discrepancies|, gross, refunds,
                Sum(b.entries, NetCredit(q, PlatformRevenue)), payable, Sum(b.payouts, CompletedAmount(q)), payable);
  }

  // ------------------------------------------------------------ what HEALTHY means

  ghost predicate Healthy(b: Books, q: Query) {
    Unrecorded(b, q, |b.payments|) + Faulty(b, q, |b.txs|) + Unrefunded(b, q, |b.payments|) == []
  }

  lemma {:induction false} UnrecordedEmptyIff(b: Books, q: Query, n: nat)
    requires n <= |b.payments|
    ensures Unrecorded(b, q, n) == [] <==>
            forall p :: 0 <= p < n && Selected(q, b.payments[p], Bookings.Captured) ==> HasPaymentTx(b.txs, p)
  {
    if n > 0 {
      UnrecordedEmptyIff(b, q, n - 1);
    }
  }

  lemma {:induction false} FaultyEmptyIff(b: Books, q: Query, n: nat)
    requires n <= |b.txs|
    ensures Faulty(b, q, n) == [] <==>
            forall i :: 0 <= i < n && SelectedTx(q, b.txs[i]) ==> Balanced(b, i) && AmountMatches(b, b.txs[i])
  {
    if n > 0 {
      FaultyEmptyIff(b, q, n - 1);
    }
  }

  lemma {:induction false} UnrefundedEmptyIff(b: Books, q: Query, n: nat)
    requires n <= |b.payments|
    ensures Unrefunded(b, q, n) == [] <==>
            forall p :: 0 <= p < n && Selected(q, b.payments[p], Bookings.Refunded) ==> HasRefundTx(b.txs, p)
  {
    if n > 0 {
      UnrefundedEmptyIff(b, q, n - 1);
    }
  }

  lemma HealthyIff(b: Books, q: Query)
    ensures Healthy(b, q) <==>
            && (forall p :: 0 <= p < |b.payments| && Selected(q, b.payments[p], Bookings.Captured) ==>
                HasPaymentTx(b.txs, p))
            && (forall i :: 0 <= i < |b.txs| && SelectedTx(q, b.txs[i]) ==>
                Balanced(b, i) && AmountMatches(b, b.txs[i]))
            && (forall p :: 0 <= p < |b.payments| && Selected(q, b.payments[p], Bookings.Refunded) ==>
                HasRefundTx(b.txs, p))
  {
    UnrecordedEmptyIff(b, q, |b.payments|);
    FaultyEmptyIff(b, q, |b.txs|);
    UnrefundedEmptyIff(b, q, |b.payments|);
  }

  const EVERYTHING := Query(None, None, None, None)

  /** Debits on PAYMENT_CLEARING by the payment transactions of captured payments numbered below n. */
  function CapturedDebit(b: Books, n: int): Entry -> int {
    (e: Entry) =>
      if 0 <= e.tx < |b.txs| && e.account == PaymentClearing && b.txs[e.tx].kind == PaymentTx
          && b.txs[e.tx].payment.Some?
      then
        var p := b.txs[e.tx].payment.value;
        if 0 <= p < n && p < |b.payments| && b.payments[p].status == Bookings.Captured then e.debit else 0
      else 0
  }

  function DebitFor(b: Books, p: int): Entry -> int {
    (e: Entry) => if 0 <= e.tx < |b.txs| && e.account == PaymentClearing && IsPaymentOf(b.txs[e.tx], p) then e.debit
        else 0
  }

  lemma {:induction false} SumOnTx(entries: seq<Entry>, tx: int, w: Entry -> int)
    requires forall i :: 0 <= i < |entries| && entries[i].tx != tx ==> w(entries[i]) == 0
    ensures Sum(entries, w) == Sum(EntriesOf(entries, tx), w)
  {
    if entries != [] {
      var n := |entries| - 1;
      SumOnTx(entries[..n], tx, w);
      if entries[n].tx == tx {
        SumSnoc(EntriesOf(entries[..n], tx), entries[n], w);
      }
    }
  }

  /** The one payment transaction of p debits PAYMENT_CLEARING by its amount. */
  lemma ClearingDebitOfPayment(b: Books, p: int, i: int)
    requires Sound(b) && 0 <= i < |b.txs| && IsPaymentOf(b.txs[i], p)
    ensures Sum(b.entries, DebitFor(b, p)) == b.txs[i].amount
  {
    forall k | 0 <= k < |b.entries| && b.entries[k].tx != i
      ensures DebitFor(b, p)(b.entries[k]) == 0
    {
      var j := b.entries[k].tx;
      if IsPaymentOf(b.txs[j], p) {
        PaymentTxUnique(b.txs, i, j, p);
      }
    }
    SumOnTx(b.entries, i, DebitFor(b, p));
    SumOfThree(Posting(i, b.txs[i]), DebitFor(b, p));
  }

  /** Transaction i is the one and only payment transaction of p, and of its amount. */
  ghost predicate RecordedAt(b: Books, p: int, i: int) {
    && 0 <= p < |b.payments| && 0 <= i < |b.txs| && IsPaymentOf(b.txs[i], p) && b.txs[i].amount == b.payments[p].amount
    && forall j :: 0 <= j < |b.txs| && IsPaymentOf(b.txs[j], p) ==> j == i
  }

  ghost predicate RefundedAt(b: Books, p: int, i: int) {
    0 <= p < |b.payments| && 0 <= i < |b.txs| && IsRefundOf(b.txs[i], p) && b.txs[i].amount == b.payments[p].amount
  }

  ghost predicate CapturedRecorded(b: Books) {
    forall p :: 0 <= p < |b.payments| && b.payments[p].status == Bookings.Captured ==> exists i :: RecordedAt(b, p, i)
  }

  lemma {:induction false} GrossIsClearingDebits(b: Books, n: nat)
    requires Sound(b) && CapturedRecorded(b) && n <= |b.payments|
    ensures Sum(b.payments[..n], AmountOf(EVERYTHING, Bookings.Captured)) == Sum(b.entries, CapturedDebit(b, n))
  {
    if n == 0 {
      NothingBelowZero(b, b.entries);
    } else {
      var p := n - 1;
      GrossIsClearingDebits(b, p);
      GrossSnoc(b.payments, p);
      OneMorePayment(b, p);
    }
  }

  lemma GrossSnoc(payments: seq<PaymentRow>, p: nat)
    requires p < |payments|
    ensures Sum(payments[..p + 1], AmountOf(EVERYTHING, Bookings.Captured))
         == Sum(payments[..p], AmountOf(EVERYTHING, Bookings.Captured))
             + AmountOf(EVERYTHING, Bookings.Captured)(payments[p])
  {
    assert payments[..p + 1] == payments[..p] + [payments[p]];
    SumSnoc(payments[..p], payments[p], AmountOf(EVERYTHING, Bookings.Captured));
  }

  lemma OneMorePayment(b: Books, p: nat)
    requires Sound(b) && CapturedRecorded(b) && p < |b.payments|
    ensures Sum(b.entries, CapturedDebit(b, p + 1))
         == Sum(b.entries, CapturedDebit(b, p)) + AmountOf(EVERYTHING, Bookings.Captured)(b.payments[p])
  {
    if b.payments[p].status == Bookings.Captured {
      var i :| RecordedAt(b, p, i);
      ClearingDebitOfPayment(b, p, i);
      forall k | 0 <= k < |b.entries|
        ensures CapturedDebit(b, p + 1)(b.entries[k])
                == CapturedDebit(b, p)(b.entries[k]) + DebitFor(b, p)(b.entries[k])
      {
        OneMoreEntry(b, p, b.entries[k]);
      }
      SumSplit(b.entries, CapturedDebit(b, p + 1), b.entries, CapturedDebit(b, p), DebitFor(b, p));
    } else {
      SumSame(b.entries, CapturedDebit(b, p + 1), b.entries, CapturedDebit(b, p));
    }
  }

  lemma OneMoreEntry(b: Books, p: nat, e: Entry)
    requires p < |b.payments| && b.payments[p].status == Bookings.Captured
    ensures CapturedDebit(b, p + 1)(e) == CapturedDebit(b, p)(e) + DebitFor(b, p)(e)
  {
  }

  lemma {:induction false} NothingBelowZero(b: Books, entries: seq<Entry>)
    ensures Sum(entries, CapturedDebit(b, 0)) == 0
  {
    if entries != [] {
      NothingBelowZero(b, entries[..|entries| - 1]);
    }
  }

  lemma CapturedIsRecorded(b: Books, p: int)
    requires Sound(b) && Healthy(b, EVERYTHING) && 0 <= p < |b.payments| && b.payments[p].status == Bookings.Captured
    ensures exists i :: RecordedAt(b, p, i)
  {
    HealthyIff(b, EVERYTHING);
    assert Selected(EVERYTHING, b.payments[p], Bookings.Captured);
    var i :| 0 <= i < |b.txs| && IsPaymentOf(b.txs[i], p);
    assert SelectedTx(EVERYTHING, b.txs[i]);
    ToleranceIsEquality(b.txs[i].amount, b.payments[p].amount);
    forall j | 0 <= j < |b.txs| && IsPaymentOf(b.txs[j], p)
      ensures j == i
    {
      PaymentTxUnique(b.txs, i, j, p);
    }
    assert RecordedAt(b, p, i);
  }

  lemma RefundedIsRecorded(b: Books, p: int)
    requires Healthy(b, EVERYTHING) && 0 <= p < |b.payments| && b.payments[p].status == Bookings.Refunded
    ensures exists i :: RefundedAt(b, p, i)
  {
    HealthyIff(b, EVERYTHING);
    assert Selected(EVERYTHING, b.payments[p], Bookings.Refunded);
    var i :| 0 <= i < |b.txs| && IsRefundOf(b.txs[i], p);
    assert SelectedTx(EVERYTHING, b.txs[i]);
    ToleranceIsEquality(b.txs[i].amount, b.payments[p].amount);
    assert RefundedAt(b, p, i);
  }

  /** An unfiltered healthy report of any reachable ledger means the books agree: every captured payment has
      exactly one payment transaction, of equal amount; gross payments are exactly what those transactions
      debited to PAYMENT_CLEARING; every refunded payment has a refund of the full amount. */
  lemma HealthyMeansBooksAgree(steps: seq<Step>)
    requires Healthy(Run(steps), EVERYTHING)
    ensures var b := Run(steps);
            && CapturedRecorded(b)
            && Sum(b.payments, AmountOf(EVERYTHING, Bookings.Captured))
               == Sum(b.entries, CapturedDebit(b, |b.payments|))
            && (forall p :: 0 <= p < |b.payments| && b.payments[p].status == Bookings.Refunded ==>
                exists i :: RefundedAt(b, p, i))
  {
    var b := Run(steps);
    RunSound(steps);
    forall p | 0 <= p < |b.payments| && b.payments[p].status == Bookings.Captured
      ensures exists i :: RecordedAt(b, p, i)
    {
      CapturedIsRecorded(b, p);
    }
    forall p | 0 <= p < |b.payments| && b.payments[p].status == Bookings.Refunded
      ensures exists i :: RefundedAt(b, p, i)
    {
      RefundedIsRecorded(b, p);
    }
    GrossIsClearingDebits(b, |b.payments|);
    assert b.payments[..|b.payments|] == b.payments;
  }

  /** The exact scope of an unfiltered healthy report: the balance check never fires on a reachable ledger,
      and the amount check covers refunds too, so a single partial refund makes the report unhealthy. */
  lemma HealthyReachableIff(steps: seq<Step>)
    ensures var b := Run(steps);
            Healthy(b, EVERYTHING) <==>
            && (forall p :: 0 <= p < |b.payments| && b.payments[p].status == Bookings.Captured ==>
                HasPaymentTx(b.txs, p))
            && (forall p :: 0 <= p < |b.payments| && b.payments[p].status == Bookings.Refunded ==>
                HasRefundTx(b.txs, p))
            && (forall i :: 0 <= i < |b.txs| && b.txs[i].payment.Some? && 0 <= b.txs[i].payment.value < |b.payments| ==>
                  b.txs[i].amount == b.payments[b.txs[i].payment.value].amount)
  {
    var b := Run(steps);
    RunSound(steps);
    HealthyIff(b, EVERYTHING);
    forall i | 0 <= i < |b.txs|
      ensures SelectedTx(EVERYTHING, b.txs[i]) && Balanced(b, i)
    {
      SoundTxBalances(b, i);
    }
    forall p | 0 <= p < |b.payments|
      ensures Selected(EVERYTHING, b.payments[p], Bookings.Captured) <==> b.payments[p].status == Bookings.Captured
      ensures Selected(EVERYTHING, b.payments[p], Bookings.Refunded) <==> b.payments[p].status == Bookings.Refunded
    {
    }
  }

  lemma SoundTxBalances(b: Books, i: int)
    requires Sound(b) && 0 <= i < |b.txs|
    ensures Balanced(b, i)
  {
    SumSplit(b.entries, DebitsOf(i), b.entries, ImbalanceOf(i), CreditsOf(i));
    ToleranceIsEquality(Sum(b.entries, DebitsOf(i)), Sum(b.entries, CreditsOf(i)));
  }

  /** Any refund of a part of a payment leaves an unfiltered report unhealthy. */
  lemma PartialRefundIsUnhealthy(steps: seq<Step>, p: int, org: int, amount: int, now: int)
    requires RecordRefund(Run(steps), p, org, amount, now).Ok? && amount != Run(steps).payments[p].amount
    ensures !Healthy(Run(steps + [Refund(p, org, amount, now)]), EVERYTHING)
  {
    var more := steps + [Refund(p, org, amount, now)];
    assert more[..|steps|] == steps;
    var b, c := Run(steps), Run(more);
    assert c.txs[|b.txs|].payment == Some(p) && c.txs[|b.txs|].amount == amount && c.payments == b.payments;
    HealthyReachableIff(more);
  }

  /** A captured and recorded payment, of which a part is refunded. */
  const PARTLY_REFUNDED: seq<Step> := [
    OpenPayment(7, 1000, 1, 0), MarkPayment(0, Bookings.Captured), Pay(0, 7, 1000, 0, 0, 0), Refund(0, 7, 400, 0)]

  lemma PaymentCaptured(steps: seq<Step>)
    requires steps == PARTLY_REFUNDED
    ensures var b := Run(steps[..2]);
            |b.payments| == 1 && b.payments[0].amount == 1000 && b.payments[0].status == Bookings.Captured
                && b.txs == []
  {
    RunPrefix(steps, 0);
    RunPrefix(steps, 1);
    assert steps[..0] == [];
  }

  lemma Refundable(b: Books, p: int, org: int, amount: int, bp: int, fee: int, now: int, part: int)
    requires 0 <= p < |b.payments| && b.txs == [] && part <= b.payments[p].amount
    ensures var c := Next(b, Pay(p, org, amount, bp, fee, now));
            c.payments == b.payments && RecordRefund(c, p, org, part, now).Ok?
  {
    var t := Pays(b, p, org, amount, bp, fee, now);
    assert [t] == [] + [t];
    SumSnoc([], t, RefundOf(p));
  }

  lemma PartRefundable(steps: seq<Step>)
    requires steps == PARTLY_REFUNDED
    ensures var b := Run(steps[..3]);
            |b.payments| == 1 && b.payments[0].amount == 1000 && RecordRefund(b, 0, 7, 400, 0).Ok?
  {
    PaymentCaptured(steps);
    RunPrefix(steps, 2);
    Refundable(Run(steps[..2]), 0, 7, 1000, 0, 0, 0, 400);
  }

  /** Its books are in order, and the report says otherwise. */
  lemma PartlyRefunded(steps: seq<Step>)
    requires steps == PARTLY_REFUNDED
    ensures !Healthy(Run(steps), EVERYTHING) && Sound(Run(steps))
  {
    PartRefundable(steps);
    PartialRefundIsUnhealthy(steps[..3], 0, 7, 400, 0);
    assert steps[..3] + [Refund(0, 7, 400, 0)] == steps;
    RunSound(steps);
  }
}
