/** The tables of the finance services and the transactions that write them: payments and
    refunds recorded in a double-entry ledger, adjustments, payouts and settlements.
    Money is in paise, percentages are in basis points, ids are row numbers. */
module Ledger {
  import opened Wrappers
  import opened Sums
  import Bookings

  datatype Account =
    | PaymentClearing | PartnerPayable | PlatformRevenue | PayoutPending | AdjustmentExpense | AdjustmentIncome

  datatype Entry = Entry(tx: int, org: int, account: Account, debit: int, credit: int)

  datatype Kind = PaymentTx | RefundTx | PayoutTx | AdjustmentTx

  /** The unique idempotency key of a transaction. */
  datatype Key = PayKey(payment: int) | RefundKey(payment: int, total: int) | StampKey(kind: Kind, org: int, stamp: int)

  /** bp, fee, commission and credit are the transaction's metadata: percentage and fixed fee in force,
      commission taken or reversed, and the direction of an adjustment. */
  datatype Tx = Tx(
    org: int, kind: Kind, amount: int, payment: Option<int>, payout: Option<int>, settlement: Option<int>,
    key: Key, bp: int, fee: int, commission: int, credit: bool, at: int)

  datatype PaymentRow = PaymentRow(org: int, amount: int, status: Bookings.PaymentStatus, provider: int, at: int)

  datatype PayoutStatus = Processing | Completed | Failed

  datatype PayoutRow = PayoutRow(org: int, amount: int, status: PayoutStatus, settlement: Option<int>)

  datatype SettlementRow = SettlementRow(org: int, from: int, to: int, gross: int, commission: int, net: int)

  datatype Books = Books(
    payments: seq<PaymentRow>, txs: seq<Tx>, entries: seq<Entry>,
    payouts: seq<PayoutRow>, settlements: seq<SettlementRow>)

  datatype Fault = NotFound | BadRequest | Forbidden | DuplicateKey

  type Outcome = Result<Books, Fault>

  const EMPTY_BOOKS := Books([], [], [], [], [])

  /** Percentage of an amount plus a fee, rounded to the nearest paisa, halves up. */
  function Commission(amount: int, bp: int, fee: int): int {
    (amount * bp + 10000 * fee + 5000) / 10000
  }

  predicate HasKey(txs: seq<Tx>, key: Key) {
    exists i :: 0 <= i < |txs| && txs[i].key == key
  }

  predicate IsPaymentOf(t: Tx, p: int) {
    t.kind == PaymentTx && t.payment == Some(p)
  }

  predicate IsRefundOf(t: Tx, p: int) {
    t.kind == RefundTx && t.payment == Some(p)
  }

  function RefundOf(p: int): Tx -> int {
    (t: Tx) => if IsRefundOf(t, p) then t.amount else 0
  }

  function Refunded(txs: seq<Tx>, p: int): int {
    Sum(txs, RefundOf(p))
  }

  /** The first recorded payment transaction of a payment. */
  function FindPaymentTx(txs: seq<Tx>, p: int): (r: Option<Tx>)
    ensures r.Some? ==> r.value in txs && IsPaymentOf(r.value, p)
    ensures r.None? ==> forall i :: 0 <= i < |txs| ==> !IsPaymentOf(txs[i], p)
  {
    if txs == [] then None
    else if IsPaymentOf(txs[0], p) then Some(txs[0])
    else FindPaymentTx(txs[1..], p)
  }

  /** The transaction a payout was initiated with, as its row number. */
  function FindPayoutTx(txs: seq<Tx>, id: int): (r: Option<int>)
    ensures r.Some? ==> 0 <= r.value < |txs| && txs[r.value].payout == Some(id)
    ensures r.None? ==> forall i :: 0 <= i < |txs| ==> txs[i].payout != Some(id)
  {
    if txs == [] then None
    else
      var rest := FindPayoutTx(txs[..|txs| - 1], id);
      if rest.Some? then rest else if txs[|txs| - 1].payout == Some(id) then Some(|txs| - 1) else None
  }

  // ------------------------------------------------------------ ledger entries of a transaction

  function PaymentEntries(tx: int, org: int, amount: int, commission: int): seq<Entry> {
    [Entry(tx, org, PaymentClearing, amount, 0),
     Entry(tx, org, PartnerPayable, 0, amount - commission),
     Entry(tx, org, PlatformRevenue, 0, commission)]
  }

  function RefundEntries(tx: int, org: int, amount: int, commission: int): seq<Entry> {
    [Entry(tx, org, PartnerPayable, amount - commission, 0),
     Entry(tx, org, PlatformRevenue, commission, 0),
     Entry(tx, org, PaymentClearing, 0, amount)]
  }

  /** One amount moved from the debited to the credited account. */
  function Transfer(tx: int, org: int, debited: Account, credited: Account, amount: int): seq<Entry> {
    [Entry(tx, org, debited, amount, 0), Entry(tx, org, credited, 0, amount)]
  }

  function Post(b: Books, t: Tx, entries: seq<Entry>): Books {
    b.(txs := b.txs + [t], entries := b.entries + entries)
  }

  // ------------------------------------------------------------ transactions

  function RecordPayment(b: Books, p: int, org: int, amount: int, bp: int, fee: int, now: int): Outcome {
    if HasKey(b.txs, PayKey(p)) then Ok(b)
    else if !(0 <= p < |b.payments|) then Err(NotFound)
    else
      var c := Commission(amount, bp, fee);
      Ok(Post(b, Tx(org, PaymentTx, amount, Some(p), None, None, PayKey(p), bp, fee, c, false, now),
              PaymentEntries(|b.txs|, org, amount, c)))
  }

  function RecordRefund(b: Books, p: int, org: int, amount: int, now: int): Outcome {
    if !(0 <= p < |b.payments|) then Err(NotFound)
    else if FindPaymentTx(b.txs, p).None? then Err(BadRequest)
    else
      var total := Refunded(b.txs, p) + amount;
      if total > b.payments[p].amount + 1 then Err(BadRequest)
      else if HasKey(b.txs, RefundKey(p, total)) then Err(DuplicateKey)
      else
        var bp := FindPaymentTx(b.txs, p).value.bp;
        var c := Commission(amount, bp, 0);
        Ok(Post(b, Tx(org, RefundTx, amount, Some(p), None, None, RefundKey(p, total), bp, 0, c, false, now),
                RefundEntries(|b.txs|, org, amount, c)))
  }

  function RecordAdjustment(b: Books, org: int, amount: int, credit: bool, stamp: int, now: int): Outcome {
    var key := StampKey(AdjustmentTx, org, stamp);
    if HasKey(b.txs, key) then Err(DuplicateKey)
    else Ok(Post(b, Tx(org, AdjustmentTx, amount, None, None, None, key, 0, 0, 0, credit, now),
                 if credit then Transfer(|b.txs|, org, AdjustmentExpense, PartnerPayable, amount)
                 else Transfer(|b.txs|, org, PartnerPayable, AdjustmentIncome, amount)))
  }

  /** The balance was read before the transaction began, so it may be out of date. The request form
      refuses less than one rupee; a settlement can be paid out once. */
  function InitiatePayout(b: Books, org: int, amount: int, settlement: Option<int>, approved: bool,
                          seenBalance: int, stamp: int, now: int): Outcome {
    var key := StampKey(PayoutTx, org, stamp);
    if amount < 100 then Err(BadRequest)
    else if !approved then Err(Forbidden)
    else if amount > seenBalance then Err(BadRequest)
    else if settlement.Some? && !(0 <= settlement.value < |b.settlements|) then Err(NotFound)
    else if settlement.Some? && exists i :: 0 <= i < |b.payouts| && b.payouts[i].settlement == settlement
        then Err(DuplicateKey)
    else if HasKey(b.txs, key) then Err(DuplicateKey)
    else Ok(Post(b.(payouts := b.payouts + [PayoutRow(org, amount, Processing, settlement)]),
                 Tx(org, PayoutTx, amount, None, Some(|b.payouts|), settlement, key, 0, 0, 0, false, now),
                 Transfer(|b.txs|, org, PartnerPayable, PayoutPending, amount)))
  }

  /** Completion or failure of a payout. The status was read before the transaction began, and only a
      payout already seen in the target status is left alone. */
  function ResolvePayout(b: Books, id: int, target: PayoutStatus, seen: PayoutStatus): Outcome {
    if !(0 <= id < |b.payouts|) then Err(NotFound)
    else if seen == target then Ok(b)
    else
      var row := b.payouts[id];
      var marked := b.(payouts := b.payouts[id := row.(status := target)]);
      match FindPayoutTx(b.txs, id)
      case None => Ok(marked)
      case Some(tx) =>
        var credited := if target == Completed then PaymentClearing else PartnerPayable;
        Ok(marked.(entries := b.entries + Transfer(tx, row.org, PayoutPending, credited, row.amount)))
  }

  predicate Eligible(t: Tx, org: int, from: int, to: int) {
    t.org == org && t.settlement == None && from <= t.at <= to
  }

  function NetOf(t: Tx): int {
    match t.kind
    case PaymentTx => t.amount - t.commission
    case RefundTx => -(t.amount - t.commission)
    case _ => 0
  }

  function GrossOf(t: Tx): int {
    match t.kind
    case PaymentTx => t.amount
    case RefundTx => -t.amount
    case _ => 0
  }

  function EligibleGross(org: int, from: int, to: int): Tx -> int {
    (t: Tx) => if Eligible(t, org, from, to) then GrossOf(t) else 0
  }

  function EligibleNet(org: int, from: int, to: int): Tx -> int {
    (t: Tx) => if Eligible(t, org, from, to) then NetOf(t) else 0
  }

  /** Every eligible transaction is linked to the new settlement. */
  function Link(txs: seq<Tx>, org: int, from: int, to: int, id: int): seq<Tx> {
    seq(|txs|, i requires 0 <= i < |txs| =>
      if Eligible(txs[i], org, from, to) then txs[i].(settlement := Some(id)) else txs[i])
  }

  function CreateSettlement(b: Books, org: int, from: int, to: int): Outcome {
    if from >= to then Err(BadRequest)
    else if !exists i :: 0 <= i < |b.txs| && Eligible(b.txs[i], org, from, to) then Err(BadRequest)
    else
      var gross, net := Sum(b.txs, EligibleGross(org, from, to)), Sum(b.txs, EligibleNet(org, from, to));
      Ok(b.(settlements := b.settlements + [SettlementRow(org, from, to, gross, gross - net, net)],
            txs := Link(b.txs, org, from, to, |b.settlements|)))
  }

  // ------------------------------------------------------------ runs

  datatype Step =
    | OpenPayment(org: int, amount: int, provider: int, at: int)
    | MarkPayment(payment: int, status: Bookings.PaymentStatus)
    | Pay(payment: int, org: int, amount: int, bp: int, fee: int, at: int)
    | Refund(payment: int, org: int, amount: int, at: int)
    | Adjust(org: int, amount: int, credit: bool, stamp: int, at: int)
    | Payout(org: int, amount: int, settlement: Option<int>, approved: bool, seenBalance: int, stamp: int, at: int)
    | Complete(id: int, seen: PayoutStatus)
    | Fail(id: int, seen: PayoutStatus)
    | Settle(org: int, from: int, to: int)

  function Commit(b: Books, step: Step): Outcome {
    match step
    case OpenPayment(org, amount, provider, at) =>
      if amount < 0 then Err(BadRequest)
      else Ok(b.(payments := b.payments + [PaymentRow(org, amount, Bookings.Initiated, provider, at)]))
    case MarkPayment(p, status) =>
      if 0 <= p < |b.payments|
      then Ok(b.(payments := b.payments[p := b.payments[p].(status := status)]))
      else Err(NotFound)
    case Pay(p, org, amount, bp, fee, at) => RecordPayment(b, p, org, amount, bp, fee, at)
    case Refund(p, org, amount, at) => RecordRefund(b, p, org, amount, at)
    case Adjust(org, amount, credit, stamp, at) => RecordAdjustment(b, org, amount, credit, stamp, at)
    case Payout(org, amount, s, ok, seen, stamp, at) => InitiatePayout(b, org, amount, s, ok, seen, stamp, at)
    case Complete(id, seen) => ResolvePayout(b, id, Completed, seen)
    case Fail(id, seen) => ResolvePayout(b, id, Failed, seen)
    case Settle(org, from, to) => CreateSettlement(b, org, from, to)
  }

  function Next(b: Books, step: Step): Books {
    match Commit(b, step)
    case Ok(c) => c
    case Err(_) => b
  }

  function Run(steps: seq<Step>): Books {
    if steps == [] then EMPTY_BOOKS else Next(Run(steps[..|steps| - 1]), steps[|steps| - 1])
  }

  lemma RunPrefix(steps: seq<Step>, n: nat)
    requires n < |steps|
    ensures Run(steps[..n + 1]) == Next(Run(steps[..n]), steps[n])
  {
    assert steps[..n + 1][..n] == steps[..n];
  }

  /** The row of a payment recorded for the first time. */
  lemma Pays(b: Books, p: int, org: int, amount: int, bp: int, fee: int, now: int) returns (t: Tx)
    requires 0 <= p < |b.payments| && !HasKey(b.txs, PayKey(p))
    ensures var c := Next(b, Pay(p, org, amount, bp, fee, now)); c.txs == b.txs + [t] && c.payments == b.payments
    ensures IsPaymentOf(t, p) && t.amount == amount && t.key == PayKey(p) && t.payout == None
  {
    t := Next(b, Pay(p, org, amount, bp, fee, now)).txs[|b.txs|];
  }

  // ------------------------------------------------------------ what every transaction keeps

  function EntriesOf(entries: seq<Entry>, tx: int): seq<Entry> {
    if entries == [] then []
    else
      var rest, e := EntriesOf(entries[..|entries| - 1], tx), entries[|entries| - 1];
      if e.tx == tx then rest + [e] else rest
  }

  function ImbalanceOf(tx: int): Entry -> int {
    (e: Entry) => if e.tx == tx then e.debit - e.credit else 0
  }

  /** The entries a transaction row stands for when it is recorded. */
  function Posting(tx: int, t: Tx): seq<Entry> {
    match t.kind
    case PaymentTx => PaymentEntries(tx, t.org, t.amount, t.commission)
    case RefundTx => RefundEntries(tx, t.org, t.amount, t.commission)
    case PayoutTx => Transfer(tx, t.org, PartnerPayable, PayoutPending, t.amount)
    case AdjustmentTx =>
      if t.credit then Transfer(tx, t.org, AdjustmentExpense, PartnerPayable, t.amount)
      else Transfer(tx, t.org, PartnerPayable, AdjustmentIncome, t.amount)
  }

  /** Keys are unique and say what the row is; percentages and commissions agree with the recorded payment. */
  ghost predicate RowsSound(txs: seq<Tx>) {
    && KeysUnique(txs)
    && (forall i :: 0 <= i < |txs| ==> RowShape(txs[i]))
    && (forall i, j, p :: 0 <= i < |txs| && 0 <= j < |txs| && IsPaymentOf(txs[i], p) && IsRefundOf(txs[j], p) ==>
          txs[j].bp == txs[i].bp)
    && (forall j, p :: 0 <= j < |txs| && IsRefundOf(txs[j], p) ==> FindPaymentTx(txs, p).Some?)
  }

  predicate RowShape(t: Tx) {
    match t.kind
    case PaymentTx => t.payment.Some? && t.payout.None? && t.key == PayKey(t.payment.value)
                      && t.commission == Commission(t.amount, t.bp, t.fee)
    case RefundTx => t.payment.Some? && t.payout.None? && t.key.RefundKey? && t.key.payment == t.payment.value
                     && t.commission == Commission(t.amount, t.bp, 0)
    case PayoutTx => t.payment.None? && t.payout.Some? && t.key.StampKey?
    case AdjustmentTx => t.payment.None? && t.payout.None? && t.key.StampKey?
  }

  /** Rows agree in everything but the settlement they are linked to. */
  ghost predicate SameButLinks(a: seq<Tx>, b: seq<Tx>) {
    |a| == |b| && forall i :: 0 <= i < |a| ==> b[i] == a[i].(settlement := b[i].settlement)
  }

  ghost predicate EntriesSound(b: Books) {
    && (forall i :: 0 <= i < |b.entries| ==> 0 <= b.entries[i].tx < |b.txs|)
    && (forall id :: 0 <= id < |b.txs| && b.txs[id].kind != PayoutTx ==>
        EntriesOf(b.entries, id) == Posting(id, b.txs[id]))
    && (forall id :: 0 <= id < |b.txs| ==> Sum(b.entries, ImbalanceOf(id)) == 0)
  }

  ghost predicate PayoutsSound(b: Books) {
    && (forall id :: 0 <= id < |b.txs| && b.txs[id].payout.Some? ==>
          0 <= b.txs[id].payout.value < |b.payouts| && b.txs[id].kind == PayoutTx
          && b.txs[id].org == b.payouts[b.txs[id].payout.value].org)
    && (forall i :: 0 <= i < |b.payouts| ==> FindPayoutTx(b.txs, i).Some? && b.payouts[i].amount >= 100)
  }

  ghost predicate Sound(b: Books) {
    && RowsSound(b.txs) && EntriesSound(b) && PayoutsSound(b)
    && forall p :: 0 <= p < |b.payments| ==> b.payments[p].amount >= 0
  }

  lemma {:induction false} EntriesOfConcat(a: seq<Entry>, b: seq<Entry>, tx: int)
    ensures EntriesOf(a + b, tx) == EntriesOf(a, tx) + EntriesOf(b, tx)
  {
    if b == [] {
      assert a + b == a;
    } else {
      assert (a + b)[..|a + b| - 1] == a + b[..|b| - 1];
      EntriesOfConcat(a, b[..|b| - 1], tx);
    }
  }

  lemma {:induction false} NoEntriesOf(entries: seq<Entry>, tx: int)
    requires forall i :: 0 <= i < |entries| ==> entries[i].tx != tx
    ensures EntriesOf(entries, tx) == [] && Sum(entries, ImbalanceOf(tx)) == 0
  {
    if entries != [] {
      NoEntriesOf(entries[..|entries| - 1], tx);
    }
  }

  lemma {:induction false} AllEntriesOf(entries: seq<Entry>, tx: int)
    requires forall i :: 0 <= i < |entries| ==> entries[i].tx == tx
    ensures EntriesOf(entries, tx) == entries
  {
    if entries != [] {
      AllEntriesOf(entries[..|entries| - 1], tx);
    }
  }

  lemma PostingOwn(tx: int, t: Tx)
    ensures forall i :: 0 <= i < |Posting(tx, t)| ==> Posting(tx, t)[i].tx == tx && Posting(tx, t)[i].org == t.org
  {
  }

  lemma PostingEntries(tx: int, t: Tx)
    ensures EntriesOf(Posting(tx, t), tx) == Posting(tx, t)
  {
    PostingOwn(tx, t);
    AllEntriesOf(Posting(tx, t), tx);
  }

  lemma PostingBalances(tx: int, t: Tx)
    ensures Sum(Posting(tx, t), ImbalanceOf(tx)) == 0
  {
    match t.kind
    case PaymentTx => SumOfThree(Posting(tx, t), ImbalanceOf(tx));
    case RefundTx => SumOfThree(Posting(tx, t), ImbalanceOf(tx));
    case _ => SumOfTwo(Posting(tx, t), ImbalanceOf(tx));
  }

  lemma SumOfTwo(s: seq<Entry>, f: Entry -> int)
    requires |s| == 2
    ensures Sum(s, f) == f(s[0]) + f(s[1])
  {
    assert s == [] + [s[0]] + [s[1]];
    SumSnoc([], s[0], f);
    SumSnoc([] + [s[0]], s[1], f);
  }

  lemma SumOfThree(s: seq<Entry>, f: Entry -> int)
    requires |s| == 3
    ensures Sum(s, f) == f(s[0]) + f(s[1]) + f(s[2])
  {
    SumOfTwo(s[..2], f);
  }

  /** A recorded row with its posting. */
  ghost predicate Recorded(b: Books, c: Books, t: Tx) {
    c.txs == b.txs + [t] && c.entries == b.entries + Posting(|b.txs|, t)
  }

  lemma RecordKeepsEntries(b: Books, c: Books, t: Tx)
    requires EntriesSound(b) && Recorded(b, c, t)
    ensures EntriesSound(c)
  {
    var n := |b.txs|;
    PostingOwn(n, t);
    PostingEntries(n, t);
    PostingBalances(n, t);
    forall id | 0 <= id < |c.txs|
      ensures c.txs[id].kind != PayoutTx ==> EntriesOf(c.entries, id) == Posting(id, c.txs[id])
      ensures Sum(c.entries, ImbalanceOf(id)) == 0
    {
      EntriesOfConcat(b.entries, Posting(n, t), id);
      SumConcat(b.entries, Posting(n, t), ImbalanceOf(id));
      if id < n {
        NoEntriesOf(Posting(n, t), id);
      } else {
        NoEntriesOf(b.entries, n);
      }
    }
  }

  lemma TransferKeepsEntries(b: Books, c: Books, tx: int, org: int, debited: Account, credited: Account, amount: int)
    requires EntriesSound(b) && c.txs == b.txs && 0 <= tx < |b.txs| && b.txs[tx].kind == PayoutTx
    requires c.entries == b.entries + Transfer(tx, org, debited, credited, amount)
    ensures EntriesSound(c)
  {
    var more := Transfer(tx, org, debited, credited, amount);
    forall id | 0 <= id < |c.txs|
      ensures id != tx ==> EntriesOf(c.entries, id) == EntriesOf(b.entries, id)
      ensures Sum(c.entries, ImbalanceOf(id)) == 0
    {
      EntriesOfConcat(b.entries, more, id);
      SumConcat(b.entries, more, ImbalanceOf(id));
      SumOfTwo(more, ImbalanceOf(id));
      if id != tx {
        NoEntriesOf(more, id);
      }
    }
  }

  lemma {:induction false} FindPaymentStable(a: seq<Tx>, b: seq<Tx>, p: int)
    requires SameButLinks(a, b)
    ensures FindPaymentTx(a, p).Some? <==> FindPaymentTx(b, p).Some?
  {
  }

  lemma LinkKeepsRows(a: seq<Tx>, b: seq<Tx>)
    requires RowsSound(a) && SameButLinks(a, b)
    ensures RowsSound(b)
  {
    forall j, p | 0 <= j < |b| && IsRefundOf(b[j], p)
      ensures FindPaymentTx(b, p).Some?
    {
      assert IsRefundOf(a[j], p);
      FindPaymentStable(a, b, p);
    }
    forall i, j, p | 0 <= i < |b| && 0 <= j < |b| && IsPaymentOf(b[i], p) && IsRefundOf(b[j], p)
      ensures b[j].bp == b[i].bp
    {
      assert IsPaymentOf(a[i], p) && IsRefundOf(a[j], p);
    }
  }

  ghost predicate KeysUnique(txs: seq<Tx>) {
    forall i, j :: 0 <= i < j < |txs| ==> txs[i].key != txs[j].key
  }

  /** At most one payment transaction of a payment is ever recorded. */
  lemma PaymentTxUnique(txs: seq<Tx>, i: int, j: int, p: int)
    requires KeysUnique(txs) && 0 <= i < |txs| && 0 <= j < |txs| && RowShape(txs[i]) && RowShape(txs[j])
    requires IsPaymentOf(txs[i], p) && IsPaymentOf(txs[j], p)
    ensures i == j
  {
  }

  lemma AppendKeepsRows(txs: seq<Tx>, t: Tx)
    requires RowsSound(txs) && RowShape(t) && !HasKey(txs, t.key)
    requires t.kind == RefundTx ==>
             FindPaymentTx(txs, t.payment.value).Some? && t.bp == FindPaymentTx(txs, t.payment.value).value.bp
    ensures RowsSound(txs + [t])
  {
    var s := txs + [t];
    forall j, p | 0 <= j < |s| && IsRefundOf(s[j], p)
      ensures FindPaymentTx(s, p).Some?
    {
      var found := FindPaymentTx(txs, p);
      assert found.Some?;
      var i :| 0 <= i < |txs| && txs[i] == found.value;
      assert IsPaymentOf(s[i], p);
    }
    forall i, j, p | 0 <= i < |s| && 0 <= j < |s| && IsPaymentOf(s[i], p) && IsRefundOf(s[j], p)
      ensures s[j].bp == s[i].bp
    {
      var found := FindPaymentTx(txs, p);
      var k :| 0 <= k < |txs| && txs[k] == found.value;
      assert RowShape(s[i]) && RowShape(s[k]);
      PaymentTxUnique(s, i, k, p);
    }
  }

  lemma {:induction false} FindPayoutStable(a: seq<Tx>, b: seq<Tx>, id: int)
    requires |a| <= |b| && forall i :: 0 <= i < |a| ==> b[i].payout == a[i].payout
    ensures FindPayoutTx(a, id).Some? ==> FindPayoutTx(b, id) == FindPayoutTx(a, id)
    decreases |b|
  {
    if FindPayoutTx(a, id).Some? {
      if |b| > |a| {
        FindPayoutStable(a, b[..|b| - 1], id);
      } else if a != [] {
        FindPayoutStable(a[..|a| - 1], b[..|b| - 1], id);
        FindPayoutSame(a[..|a| - 1], b[..|b| - 1], id);
      }
    }
  }

  lemma {:induction false} FindPayoutSame(a: seq<Tx>, b: seq<Tx>, id: int)
    requires |a| == |b| && forall i :: 0 <= i < |a| ==> b[i].payout == a[i].payout
    ensures FindPayoutTx(b, id) == FindPayoutTx(a, id)
  {
    if a != [] {
      FindPayoutSame(a[..|a| - 1], b[..|b| - 1], id);
    }
  }

  lemma PayoutsKept(b: Books, c: Books)
    requires PayoutsSound(b) && |c.txs| >= |b.txs| && |c.payouts| >= |b.payouts|
    requires forall i :: 0 <= i < |b.txs| ==> c.txs[i] == b.txs[i].(settlement := c.txs[i].settlement)
    requires forall i :: 0 <= i < |b.payouts| ==>
             c.payouts[i].org == b.payouts[i].org && c.payouts[i].amount == b.payouts[i].amount
    requires forall i :: |b.payouts| <= i < |c.payouts| ==> c.payouts[i].amount >= 100 && FindPayoutTx(c.txs, i).Some?
    requires forall i :: |b.txs| <= i < |c.txs| && c.txs[i].payout.Some? ==>
               0 <= c.txs[i].payout.value < |c.payouts| && c.txs[i].kind == PayoutTx
                   && c.txs[i].org == c.payouts[c.txs[i].payout.value].org
    ensures PayoutsSound(c)
  {
  }

  /** A newly recorded row keeps the tables sound. */
  lemma RecordKeepsSound(b: Books, c: Books, t: Tx)
    requires Sound(b) && Recorded(b, c, t) && RowShape(t) && !HasKey(b.txs, t.key) && c.payments == b.payments
    requires t.kind == RefundTx ==>
             FindPaymentTx(b.txs, t.payment.value).Some? && t.bp == FindPaymentTx(b.txs, t.payment.value).value.bp
    requires if t.kind == PayoutTx
             then t.payout == Some(|b.payouts|) && t.amount >= 100
                  && c.payouts == b.payouts + [PayoutRow(t.org, t.amount, Processing, t.settlement)]
             else c.payouts == b.payouts
    ensures Sound(c)
  {
    AppendKeepsRows(b.txs, t);
    RecordKeepsEntries(b, c, t);
    assert c.txs[|b.txs|] == t;
    PayoutsKept(b, c);
  }

  lemma PayKeepsSound(b: Books, p: int, org: int, amount: int, bp: int, fee: int, now: int)
    requires Sound(b) && RecordPayment(b, p, org, amount, bp, fee, now).Ok?
    ensures Sound(RecordPayment(b, p, org, amount, bp, fee, now).value)
  {
    var c := RecordPayment(b, p, org, amount, bp, fee, now).value;
    if c != b {
      RecordKeepsSound(b, c, c.txs[|b.txs|]);
    }
  }

  lemma RefundKeepsSound(b: Books, p: int, org: int, amount: int, now: int)
    requires Sound(b) && RecordRefund(b, p, org, amount, now).Ok?
    ensures Sound(RecordRefund(b, p, org, amount, now).value)
  {
    var c := RecordRefund(b, p, org, amount, now).value;
    RecordKeepsSound(b, c, c.txs[|b.txs|]);
  }

  lemma AdjustKeepsSound(b: Books, org: int, amount: int, credit: bool, stamp: int, now: int)
    requires Sound(b) && RecordAdjustment(b, org, amount, credit, stamp, now).Ok?
    ensures Sound(RecordAdjustment(b, org, amount, credit, stamp, now).value)
  {
    var c := RecordAdjustment(b, org, amount, credit, stamp, now).value;
    RecordKeepsSound(b, c, c.txs[|b.txs|]);
  }

  lemma PayoutKeepsSound(b: Books, step: Step)
    requires Sound(b) && step.Payout? && Commit(b, step).Ok?
    ensures Sound(Commit(b, step).value)
  {
    var c := Commit(b, step).value;
    RecordKeepsSound(b, c, c.txs[|b.txs|]);
  }

  lemma SettleKeepsSound(b: Books, org: int, from: int, to: int)
    requires Sound(b) && CreateSettlement(b, org, from, to).Ok?
    ensures Sound(CreateSettlement(b, org, from, to).value)
  {
    var c := CreateSettlement(b, org, from, to).value;
    assert SameButLinks(b.txs, c.txs);
    LinkKeepsRows(b.txs, c.txs);
    LinkKeepsEntries(b, c);
    PayoutsKept(b, c);
  }

  lemma StepKeepsSound(b: Books, step: Step)
    requires Sound(b)
    ensures Sound(Next(b, step))
  {
    if Commit(b, step).Ok? {
      match step
      case OpenPayment(_, _, _, _) =>
      case MarkPayment(_, _) =>
      case Settle(org, from, to) => SettleKeepsSound(b, org, from, to);
      case Complete(id, seen) => ResolveKeepsSound(b, id, Completed, seen);
      case Fail(id, seen) => ResolveKeepsSound(b, id, Failed, seen);
      case Pay(p, org, amount, bp, fee, at) => PayKeepsSound(b, p, org, amount, bp, fee, at);
      case Refund(p, org, amount, at) => RefundKeepsSound(b, p, org, amount, at);
      case Adjust(org, amount, credit, stamp, at) => AdjustKeepsSound(b, org, amount, credit, stamp, at);
      case Payout(_, _, _, _, _, _, _) => PayoutKeepsSound(b, step);
    }
  }

  lemma LinkKeepsEntries(b: Books, c: Books)
    requires EntriesSound(b) && SameButLinks(b.txs, c.txs) && c.entries == b.entries
    ensures EntriesSound(c)
  {
  }

  lemma ResolveKeepsSound(b: Books, id: int, target: PayoutStatus, seen: PayoutStatus)
    requires Sound(b) && ResolvePayout(b, id, target, seen).Ok?
    ensures Sound(ResolvePayout(b, id, target, seen).value)
  {
    var c := ResolvePayout(b, id, target, seen).value;
    if seen != target {
      var tx := FindPayoutTx(b.txs, id).value;
      TransferKeepsEntries(b, c, tx, b.payouts[id].org, PayoutPending,
                           if target == Completed then PaymentClearing else PartnerPayable, b.payouts[id].amount);
      PayoutsKept(b, c);
    }
  }

  lemma {:induction false} RunSound(steps: seq<Step>)
    ensures Sound(Run(steps))
  {
    if steps != [] {
      RunSound(steps[..|steps| - 1]);
      StepKeepsSound(Run(steps[..|steps| - 1]), steps[|steps| - 1]);
    }
  }
}
