/** What each transaction of the finance services moves between the accounts of its organisation, and the row it
    leaves. */
module Postings {
  import opened Wrappers
  import opened Sums
  import opened Ledger

  function DebitOn(org: int, account: Account): Entry -> int {
    (e: Entry) => if e.org == org && e.account == account then e.debit - e.credit else 0
  }

  /** Debits less credits of an organisation on an account. */
  function Balance(b: Books, org: int, account: Account): int {
    Sum(b.entries, DebitOn(org, account))
  }

  /** What is taken from one account is put on others: every account of every organisation moves by the amount
      given, and by nothing else. */
  ghost predicate Moves(b: Books, c: Books, org: int, moved: Account -> int) {
    forall o, account :: Balance(c, o, account) == Balance(b, o, account) + if o == org then moved(account) else 0
  }

  lemma PostTwo(b: Books, c: Books, more: seq<Entry>, org: int, moved: Account -> int)
    requires c.entries == b.entries + more && |more| == 2
    requires forall o, account :: DebitOn(o, account)(more[0]) + DebitOn(o, account)(more[1])
                                  == if o == org then moved(account) else 0
    ensures Moves(b, c, org, moved)
  {
    forall o, account
      ensures Balance(c, o, account) == Balance(b, o, account) + if o == org then moved(account) else 0
    {
      SumConcat(b.entries, more, DebitOn(o, account));
      SumOfTwo(more, DebitOn(o, account));
    }
  }

  lemma PostThree(b: Books, c: Books, more: seq<Entry>, org: int, moved: Account -> int)
    requires c.entries == b.entries + more && |more| == 3
    requires forall o, account ::
               DebitOn(o, account)(more[0]) + DebitOn(o, account)(more[1]) + DebitOn(o, account)(more[2])
               == if o == org then moved(account) else 0
    ensures Moves(b, c, org, moved)
  {
    forall o, account
      ensures Balance(c, o, account) == Balance(b, o, account) + if o == org then moved(account) else 0
    {
      SumConcat(b.entries, more, DebitOn(o, account));
      SumOfThree(more, DebitOn(o, account));
    }
  }

  /** A payment is cleared in full, and owed to the partner but for the commission. */
  function PaymentMoves(amount: int, commission: int): Account -> int {
    (a: Account) => match a
      case PaymentClearing => amount
      case PartnerPayable => commission - amount
      case PlatformRevenue => -commission
      case _ => 0
  }

  /** One amount from the credited to the debited account. */
  function TransferMoves(debited: Account, credited: Account, amount: int): Account -> int {
    (a: Account) => if a == debited then amount else if a == credited then -amount else 0
  }

  lemma PaymentPosts(b: Books, p: int, org: int, amount: int, bp: int, fee: int, now: int)
    requires 0 <= p < |b.payments| && forall i :: 0 <= i < |b.txs| ==> b.txs[i].key != PayKey(p)
    ensures var r := RecordPayment(b, p, org, amount, bp, fee, now);
            && r.Ok? && |r.value.txs| == |b.txs| + 1 && r.value.txs[..|b.txs|] == b.txs
            && var t := r.value.txs[|b.txs|];
               && t.org == org && t.kind == PaymentTx && t.amount == amount && t.payment == Some(p)
               && t.settlement == None && t.bp == bp && t.fee == fee && t.at == now && t.key == PayKey(p)
               && -5000 < 10000 * t.commission - amount * bp - 10000 * fee <= 5000
               && Moves(b, r.value, org, PaymentMoves(amount, t.commission))
  {
    var c := RecordPayment(b, p, org, amount, bp, fee, now).value;
    var t := c.txs[|b.txs|];
    PostThree(b, c, PaymentEntries(|b.txs|, org, amount, t.commission), org, PaymentMoves(amount, t.commission));
  }

  /** A payment is recorded once: the second call changes nothing. */
  lemma PaymentRepeats(b: Books, p: int, org: int, amount: int, bp: int, fee: int, now: int)
    requires exists i :: 0 <= i < |b.txs| && b.txs[i].key == PayKey(p)
    ensures RecordPayment(b, p, org, amount, bp, fee, now) == Ok(b)
  {
  }

  /** A refund of a recorded payment goes through within the cap and under a new key. It gives back the same
      percentage of commission, and moves the opposite of a payment without a fee. */
  lemma RefundPosts(b: Books, p: int, org: int, amount: int, now: int, i: nat)
    requires i < |b.txs| && b.txs[i].kind == PaymentTx && b.txs[i].payment == Some(p)
    requires forall j :: 0 <= j < |b.txs| && b.txs[j].kind == PaymentTx && b.txs[j].payment == Some(p) ==> j == i
    ensures var r := RecordRefund(b, p, org, amount, now);
            && (r.Ok? <==> 0 <= p < |b.payments| && Refunded(b.txs, p) + amount <= b.payments[p].amount + 1
                           && forall j :: 0 <= j < |b.txs| ==>
                                b.txs[j].key != RefundKey(p, Refunded(b.txs, p) + amount))
            && (r.Ok? ==>
                  && |r.value.txs| == |b.txs| + 1 && r.value.txs[..|b.txs|] == b.txs
                  && var t := r.value.txs[|b.txs|];
                     && t.org == org && t.kind == RefundTx && t.amount == amount && t.payment == Some(p)
                     && t.settlement == None && t.at == now && t.key == RefundKey(p, Refunded(b.txs, p) + amount)
                     && -5000 < 10000 * t.commission - amount * b.txs[i].bp <= 5000
                     && Moves(b, r.value, org, PaymentMoves(-amount, -t.commission)))
  {
    var r := RecordRefund(b, p, org, amount, now);
    if r.Ok? {
      var t := r.value.txs[|b.txs|];
      PostThree(b, r.value, RefundEntries(|b.txs|, org, amount, t.commission), org,
                PaymentMoves(-amount, -t.commission));
    }
  }

  /** Without a recorded payment there is nothing to refund. */
  lemma NothingToRefund(b: Books, p: int, org: int, amount: int, now: int)
    requires forall j :: 0 <= j < |b.txs| ==> !(b.txs[j].kind == PaymentTx && b.txs[j].payment == Some(p))
    ensures RecordRefund(b, p, org, amount, now).Err?
  {
  }

  /** An adjustment under a new stamp: a credit is an expense owed to the partner, a debit an income taken from
      what it is owed. */
  lemma AdjustmentPosts(b: Books, org: int, amount: int, credit: bool, stamp: int, now: int)
    ensures var r := RecordAdjustment(b, org, amount, credit, stamp, now);
            && (r.Ok? <==> forall i :: 0 <= i < |b.txs| ==> b.txs[i].key != StampKey(AdjustmentTx, org, stamp))
            && (r.Ok? ==>
                  && |r.value.txs| == |b.txs| + 1 && r.value.txs[..|b.txs|] == b.txs
                  && var t := r.value.txs[|b.txs|];
                     && t.org == org && t.kind == AdjustmentTx && t.amount == amount && t.credit == credit
                     && t.settlement == None && t.at == now
                     && Moves(b, r.value, org, if credit then TransferMoves(AdjustmentExpense, PartnerPayable, amount)
                              else TransferMoves(PartnerPayable, AdjustmentIncome, amount)))
  {
    var r := RecordAdjustment(b, org, amount, credit, stamp, now);
    if r.Ok? {
      if credit {
        PostTwo(b, r.value, Transfer(|b.txs|, org, AdjustmentExpense, PartnerPayable, amount), org,
                TransferMoves(AdjustmentExpense, PartnerPayable, amount));
      } else {
        PostTwo(b, r.value, Transfer(|b.txs|, org, PartnerPayable, AdjustmentIncome, amount), org,
                TransferMoves(PartnerPayable, AdjustmentIncome, amount));
      }
    }
  }

  /** A payout takes its amount from what the partner is owed and holds it as pending. */
  lemma PayoutPosts(b: Books, org: int, amount: int, settlement: Option<int>, approved: bool, seen: int, stamp: int,
                    now: int)
    requires InitiatePayout(b, org, amount, settlement, approved, seen, stamp, now).Ok?
    ensures var c := InitiatePayout(b, org, amount, settlement, approved, seen, stamp, now).value;
            && |c.txs| == |b.txs| + 1 && c.txs[..|b.txs|] == b.txs
            && var t := c.txs[|b.txs|];
               && t.org == org && t.kind == PayoutTx && t.amount == amount && t.payout == Some(|b.payouts|)
               && t.settlement == settlement && t.at == now
               && Moves(b, c, org, TransferMoves(PartnerPayable, PayoutPending, amount))
  {
    var c := InitiatePayout(b, org, amount, settlement, approved, seen, stamp, now).value;
    PostTwo(b, c, Transfer(|b.txs|, org, PartnerPayable, PayoutPending, amount), org,
            TransferMoves(PartnerPayable, PayoutPending, amount));
  }

  /** A payout not seen in its target status is marked, and its pending amount leaves with the payment provider, or
      is owed to the partner again. */
  lemma ResolutionPosts(b: Books, id: int, target: PayoutStatus, seen: PayoutStatus)
    requires 0 <= id < |b.payouts| && (exists i :: 0 <= i < |b.txs| && b.txs[i].payout == Some(id))
    requires target != Processing
    ensures var r, row := ResolvePayout(b, id, target, seen), b.payouts[id];
            && r.Ok? && r.value.txs == b.txs
            && (seen == target ==> r.value == b)
            && (seen != target ==>
                  && r.value.payouts == b.payouts[id := PayoutRow(row.org, row.amount, target, row.settlement)]
                  && Moves(b, r.value, row.org,
                           TransferMoves(PayoutPending, if target == Completed then PaymentClearing else PartnerPayable,
                                         row.amount)))
  {
    if seen != target {
      var c, row := ResolvePayout(b, id, target, seen).value, b.payouts[id];
      var credited := if target == Completed then PaymentClearing else PartnerPayable;
      PostTwo(b, c, Transfer(FindPayoutTx(b.txs, id).value, row.org, PayoutPending, credited, row.amount), row.org,
              TransferMoves(PayoutPending, credited, row.amount));
    }
  }
}
