/** Loyalty points: accounts updated in place beside an append-only ledger of rows under unique
    idempotency keys, and the referral programme that awards them. Each transaction is one step. */
module Loyalty {
  import opened Wrappers
  import opened Sums

  datatype Kind = Earned | Redeemed | Referral | Bonus

  /** What a default key is built from: the reference given, or else the time of the call. */
  datatype Reference = Of(id: int) | At(stamp: int)

  datatype Key =
    | Goodwill(dispute: int)
    | ReferrerReward(referral: int)
    | RefereeReward(referral: int)
    | EarnKey(user: int, kind: Kind, reference: Reference)
    | RedeemKey(user: int, reference: Reference)
    | Chosen(text: int)

  datatype Row = Row(user: int, kind: Kind, points: int, balanceAfter: int, key: Key)

  datatype Account = Account(balance: int, lifetime: int)

  /** Referrals by referee; rewards and minimum come from the campaign, or are 100, 50 and 0 without one. */
  datatype ReferralRow = ReferralRow(id: int, referrer: int, pending: bool, campaign: Option<Campaign>)

  datatype Campaign = Campaign(minimum: int, referrerReward: int, refereeReward: int)

  datatype Points = Points(accounts: map<int, Account>, rows: seq<Row>, referrals: map<int, ReferralRow>)

  datatype Fault = BadRequest | Forbidden | Conflict

  predicate HasKey(rows: seq<Row>, key: Key) {
    exists i :: 0 <= i < |rows| && rows[i].key == key
  }

  function AccountOf(p: Points, user: int): Account {
    if user in p.accounts then p.accounts[user] else Account(0, 0)
  }

  /** Adds points under a key; the account is opened if need be, and a known key changes no points. */
  function AddPoints(p: Points, user: int, points: int, kind: Kind, key: Key): Points {
    var a := AccountOf(p, user);
    if HasKey(p.rows, key) then p.(accounts := p.accounts[user := a])
    else p.(accounts := p.accounts[user := Account(a.balance + points, a.lifetime + points)],
            rows := p.rows + [Row(user, kind, points, a.balance + points, key)])
  }

  function Redeem(p: Points, user: int, points: int, key: Key): Result<Points, Fault> {
    if points <= 0 then Ok(p)
    else if user !in p.accounts || p.accounts[user].balance < points then Err(BadRequest)
    else if HasKey(p.rows, key) then Ok(p)
    else
      var a := p.accounts[user];
      Ok(p.(accounts := p.accounts[user := a.(balance := a.balance - points)],
            rows := p.rows + [Row(user, Redeemed, -points, a.balance - points, key)]))
  }

  function ApplyReferral(p: Points, id: int, referrer: int, referee: int, campaign: Option<Campaign>)
    : Result<Points, Fault>
  {
    if referrer == referee then Err(Forbidden)
    else if referee in p.referrals then Err(Conflict)
    else Ok(p.(referrals := p.referrals[referee := ReferralRow(id, referrer, true, campaign)]))
  }

  function Terms(r: ReferralRow): Campaign {
    if r.campaign.Some? then r.campaign.value else Campaign(0, 100, 50)
  }

  /** seenPending is what the call read before its transaction began; the transaction does not look again. */
  function Qualify(p: Points, referee: int, seenPending: bool, amount: int): Points {
    if referee !in p.referrals || !seenPending || amount < Terms(p.referrals[referee]).minimum then p
    else
      var r := p.referrals[referee];
      var q := p.(referrals := p.referrals[referee := r.(pending := false)]);
      var rewarded := AddPoints(q, r.referrer, Terms(r).referrerReward, Referral, ReferrerReward(r.id));
      AddPoints(rewarded, referee, Terms(r).refereeReward, Bonus, RefereeReward(r.id))
  }

  // ------------------------------------------------------------ runs

  datatype Step =
    | Earn(user: int, points: int, key: Key)
    | Spend(user: int, points: int, key: Key)
    | Apply(id: int, referrer: int, referee: int, campaign: Option<Campaign>)
    | QualifyStep(referee: int, seenPending: bool, amount: int)

  const NO_POINTS := Points(map[], [], map[])

  function Next(p: Points, step: Step): Points {
    match step
    case Earn(user, points, key) => AddPoints(p, user, points, Earned, key)
    case Spend(user, points, key) => (match Redeem(p, user, points, key) case Ok(q) => q case Err(_) => p)
    case Apply(id, referrer, referee, campaign) =>
      (match ApplyReferral(p, id, referrer, referee, campaign) case Ok(q) => q case Err(_) => p)
    case QualifyStep(referee, seenPending, amount) => Qualify(p, referee, seenPending, amount)
  }

  function Run(steps: seq<Step>): Points {
    if steps == [] then NO_POINTS else Next(Run(steps[..|steps| - 1]), steps[|steps| - 1])
  }

  // ------------------------------------------------------------ the ledger explains the accounts

  function PointsOf(user: int): Row -> int {
    (r: Row) => if r.user == user then r.points else 0
  }

  function AwardsOf(user: int): Row -> int {
    (r: Row) => if r.user == user && r.kind != Redeemed then r.points else 0
  }

  ghost predicate KeysUnique(rows: seq<Row>) {
    forall i, j :: 0 <= i < j < |rows| ==> rows[i].key != rows[j].key
  }

  /** The balance of every account is the sum of its rows and its lifetime earnings the sum of its
      awards; every row's balanceAfter is the sum of that account's rows up to it. */
  ghost predicate Explained(p: Points) {
    && KeysUnique(p.rows)
    && (forall user :: AccountExplained(p, user))
    && (forall i :: 0 <= i < |p.rows| ==> p.rows[i].balanceAfter == Sum(p.rows[..i + 1], PointsOf(p.rows[i].user)))
  }

  predicate AccountExplained(p: Points, user: int) {
    AccountOf(p, user) == Account(Sum(p.rows, PointsOf(user)), Sum(p.rows, AwardsOf(user)))
  }

  /** One more row, and the account that it is for. */
  ghost predicate Appended(p: Points, q: Points, r: Row) {
    && q.rows == p.rows + [r] && !HasKey(p.rows, r.key)
    && r.balanceAfter == AccountOf(p, r.user).balance + r.points
    && (forall user :: AccountOf(q, user).balance == AccountOf(p, user).balance + PointsOf(user)(r))
    && (forall user :: AccountOf(q, user).lifetime == AccountOf(p, user).lifetime + AwardsOf(user)(r))
  }

  ghost predicate SamePoints(p: Points, q: Points) {
    q.rows == p.rows && forall user :: AccountOf(q, user) == AccountOf(p, user)
  }

  lemma AppendedExplained(p: Points, q: Points, r: Row)
    requires Explained(p) && Appended(p, q, r)
    ensures Explained(q)
  {
    forall user
      ensures AccountExplained(q, user)
    {
      assert AccountExplained(p, user);
      SumSnoc(p.rows, r, PointsOf(user));
      SumSnoc(p.rows, r, AwardsOf(user));
    }
    forall i | 0 <= i < |q.rows|
      ensures q.rows[i].balanceAfter == Sum(q.rows[..i + 1], PointsOf(q.rows[i].user))
    {
      if i < |p.rows| {
        assert q.rows[..i + 1] == p.rows[..i + 1];
      } else {
        assert q.rows[..i + 1] == p.rows + [r];
        SumSnoc(p.rows, r, PointsOf(r.user));
        assert AccountExplained(p, r.user);
      }
    }
  }

  lemma SameExplained(p: Points, q: Points)
    requires Explained(p) && SamePoints(p, q)
    ensures Explained(q)
  {
    forall user
      ensures AccountExplained(q, user)
    {
      assert AccountExplained(p, user);
    }
  }

  lemma AddPointsExplained(p: Points, user: int, points: int, kind: Kind, key: Key)
    requires Explained(p) && kind != Redeemed
    ensures Explained(AddPoints(p, user, points, kind, key))
  {
    var q := AddPoints(p, user, points, kind, key);
    if HasKey(p.rows, key) {
      SameExplained(p, q);
    } else {
      AppendedExplained(p, q, q.rows[|p.rows|]);
    }
  }

  lemma StepExplained(p: Points, step: Step)
    requires Explained(p)
    ensures Explained(Next(p, step))
  {
    match step
    case Earn(user, points, key) => AddPointsExplained(p, user, points, Earned, key);
    case Spend(user, points, key) =>
      var q := Next(p, step);
      if q.rows != p.rows {
        AppendedExplained(p, q, q.rows[|p.rows|]);
      }
    case Apply(_, _, _, _) => SameExplained(p, Next(p, step));
    case QualifyStep(referee, seenPending, amount) =>
      if referee in p.referrals && seenPending && amount >= Terms(p.referrals[referee]).minimum {
        var r := p.referrals[referee];
        var q := p.(referrals := p.referrals[referee := r.(pending := false)]);
        SameExplained(p, q);
        AddPointsExplained(q, r.referrer, Terms(r).referrerReward, Referral, ReferrerReward(r.id));
        AddPointsExplained(AddPoints(q, r.referrer, Terms(r).referrerReward, Referral, ReferrerReward(r.id)),
                           referee, Terms(r).refereeReward, Bonus, RefereeReward(r.id));
      }
  }

  /** In every reachable state the rows explain every account. */
  lemma {:induction false} RunExplained(steps: seq<Step>)
    ensures Explained(Run(steps))
  {
    if steps == [] {
      assert forall user :: AccountExplained(NO_POINTS, user);
    } else {
      RunExplained(steps[..|steps| - 1]);
      StepExplained(Run(steps[..|steps| - 1]), steps[|steps| - 1]);
    }
  }

  // ------------------------------------------------------------ no account is overdrawn

  /** Awards of a step are not negative; what is spent never is. */
  predicate Awards(step: Step) {
    match step
    case Earn(_, points, _) => points >= 0
    case Apply(_, _, _, campaign) => campaign.Some? ==>
      campaign.value.referrerReward >= 0 && campaign.value.refereeReward >= 0
    case _ => true
  }

  ghost predicate Solvent(p: Points) {
    && (forall user :: user in p.accounts ==> p.accounts[user].balance >= 0)
    && (forall referee :: referee in p.referrals ==>
        Terms(p.referrals[referee]).referrerReward >= 0 && Terms(p.referrals[referee]).refereeReward >= 0)
    && (forall i :: 0 <= i < |p.rows| ==> p.rows[i].balanceAfter >= 0)
  }

  lemma AwardSolvent(p: Points, user: int, points: int, kind: Kind, key: Key)
    requires Solvent(p) && points >= 0
    ensures Solvent(AddPoints(p, user, points, kind, key))
  {
  }

  lemma StepSolvent(p: Points, step: Step)
    requires Solvent(p) && Awards(step)
    ensures Solvent(Next(p, step))
  {
    if step.QualifyStep? && step.referee in p.referrals {
      var r := p.referrals[step.referee];
      var q := p.(referrals := p.referrals[step.referee := r.(pending := false)]);
      AwardSolvent(q, r.referrer, Terms(r).referrerReward, Referral, ReferrerReward(r.id));
      AwardSolvent(AddPoints(q, r.referrer, Terms(r).referrerReward, Referral, ReferrerReward(r.id)),
                   step.referee, Terms(r).refereeReward, Bonus, RefereeReward(r.id));
    }
  }

  /** No balance, present or past, is ever negative in a run whose awards are not. */
  lemma {:induction false} NeverOverdrawn(steps: seq<Step>)
    requires forall i :: 0 <= i < |steps| ==> Awards(steps[i])
    ensures Solvent(Run(steps))
  {
    if steps != [] {
      NeverOverdrawn(steps[..|steps| - 1]);
      StepSolvent(Run(steps[..|steps| - 1]), steps[|steps| - 1]);
    }
  }

  /** The condition is needed: earning takes any amount, and a negative one overdraws an account
      exactly when it exceeds the balance and its key is new. */
  lemma EarnOverdrawsIff(p: Points, user: int, points: int, key: Key)
    requires AccountOf(p, user).balance >= 0
    ensures AccountOf(Next(p, Earn(user, points, key)), user).balance < 0
       <==> !HasKey(p.rows, key) && points < -AccountOf(p, user).balance
  {
  }

  // ------------------------------------------------------------ keys

  ghost predicate RowsGrow(p: Points, q: Points) {
    |p.rows| <= |q.rows| && q.rows[..|p.rows|] == p.rows
  }

  lemma StepGrows(p: Points, step: Step)
    ensures RowsGrow(p, Next(p, step))
  {
  }

  lemma {:induction false} RunGrows(steps: seq<Step>, n: nat)
    requires n <= |steps|
    ensures RowsGrow(Run(steps[..n]), Run(steps))
  {
    if n == |steps| {
      assert steps[..n] == steps;
    } else {
      var before := steps[..|steps| - 1];
      assert before[..n] == steps[..n];
      RunGrows(before, n);
      StepGrows(Run(before), steps[|steps| - 1]);
    }
  }

  lemma {:induction false} KeyStays(steps: seq<Step>, n: nat, key: Key)
    requires n <= |steps| && HasKey(Run(steps[..n]).rows, key)
    ensures HasKey(Run(steps).rows, key)
  {
    RunGrows(steps, n);
    var before, after := Run(steps[..n]).rows, Run(steps).rows;
    var i :| 0 <= i < |before| && before[i].key == key;
    assert after[..|before|][i].key == key;
  }

  /** A key once used is used up: at any later point of any run, earning under it again changes no
      balance and no row, and redeeming under it again is accepted if and only if the balance would
      still cover it, for the balance is checked before the key. */
  lemma KeyUsedOnce(steps: seq<Step>, n: nat, user: int, points: int, key: Key)
    requires n <= |steps| && HasKey(Run(steps[..n]).rows, key) && points > 0
    ensures SamePoints(Run(steps), Next(Run(steps), Earn(user, points, key)))
    ensures Next(Run(steps), Spend(user, points, key)) == Run(steps)
    ensures Redeem(Run(steps), user, points, key).Ok? <==> AccountOf(Run(steps), user).balance >= points
  {
    KeyStays(steps, n, key);
  }

  /** Two calls that both read the referral as pending reward it once: the second changes nothing. */
  lemma QualifyTwice(p: Points, referee: int, amount: int, again: int)
    requires referee in p.referrals && amount >= Terms(p.referrals[referee]).minimum
    ensures Qualify(Qualify(p, referee, true, amount), referee, true, again) == Qualify(p, referee, true, amount)
  {
    var r := p.referrals[referee];
    var q := p.(referrals := p.referrals[referee := r.(pending := false)]);
    var rewarded := AddPoints(q, r.referrer, Terms(r).referrerReward, Referral, ReferrerReward(r.id));
    var done := AddPoints(rewarded, referee, Terms(r).refereeReward, Bonus, RefereeReward(r.id));
    AddedHasKey(q, r.referrer, Terms(r).referrerReward, Referral, ReferrerReward(r.id));
    AddedHasKey(rewarded, referee, Terms(r).refereeReward, Bonus, RefereeReward(r.id));
    AddedKeepsKey(rewarded, referee, Terms(r).refereeReward, Bonus, RefereeReward(r.id), ReferrerReward(r.id));
    assert done.referrals[referee := done.referrals[referee].(pending := false)] == done.referrals;
    AddAgain(done, r.referrer, Terms(r).referrerReward, Referral, ReferrerReward(r.id));
    AddAgain(done, referee, Terms(r).refereeReward, Bonus, RefereeReward(r.id));
  }

  lemma AddedHasKey(p: Points, user: int, points: int, kind: Kind, key: Key)
    ensures var q := AddPoints(p, user, points, kind, key);
            HasKey(q.rows, key) && user in q.accounts && p.accounts.Keys <= q.accounts.Keys
  {
    var q := AddPoints(p, user, points, kind, key);
    if !HasKey(p.rows, key) {
      assert q.rows[|p.rows|].key == key;
    }
  }

  lemma AddedKeepsKey(p: Points, user: int, points: int, kind: Kind, key: Key, other: Key)
    requires HasKey(p.rows, other)
    ensures HasKey(AddPoints(p, user, points, kind, key).rows, other)
  {
    var i :| 0 <= i < |p.rows| && p.rows[i].key == other;
    assert AddPoints(p, user, points, kind, key).rows[i].key == other;
  }

  lemma AddAgain(p: Points, user: int, points: int, kind: Kind, key: Key)
    requires HasKey(p.rows, key) && user in p.accounts
    ensures AddPoints(p, user, points, kind, key) == p
  {
  }

  // ------------------------------------------------------------ what each call gives and takes

  /** An award under a new key is added to the balance and to the lifetime earnings of its user, and a row says so;
      nobody else's account changes. */
  lemma AwardIs(p: Points, user: int, points: int, kind: Kind, key: Key)
    requires forall i :: 0 <= i < |p.rows| ==> p.rows[i].key != key
    ensures var before, q := AccountOf(p, user), AddPoints(p, user, points, kind, key);
            && q.accounts == p.accounts[user := Account(before.balance + points, before.lifetime + points)]
            && q.rows == p.rows + [Row(user, kind, points, before.balance + points, key)]
            && q.referrals == p.referrals
  {
  }

  /** A redemption of a positive number of points goes through exactly if the balance covers it; under a new key it
      is taken from the balance alone. */
  lemma RedeemedIff(p: Points, user: int, points: int, key: Key)
    ensures var r := Redeem(p, user, points, key);
            var used := exists i :: 0 <= i < |p.rows| && p.rows[i].key == key;
            && (r.Ok? <==> points <= 0 || (user in p.accounts && points <= p.accounts[user].balance))
            && (r.Ok? && (points <= 0 || used) ==> r.value == p)
            && (r.Ok? && points > 0 && !used ==>
                  var a := p.accounts[user];
                  && r.value.accounts == p.accounts[user := Account(a.balance - points, a.lifetime)]
                  && r.value.rows == p.rows + [Row(user, Redeemed, -points, a.balance - points, key)]
                  && r.value.referrals == p.referrals)
  {
  }

  /** Nobody refers himself, nobody is referred twice, and who referred him stays who it was. */
  lemma ReferredIff(p: Points, id: int, referrer: int, referee: int, campaign: Option<Campaign>)
    ensures var r := ApplyReferral(p, id, referrer, referee, campaign);
            && (r.Ok? <==> referrer != referee && referee !in p.referrals)
            && (r.Ok? ==> r.value == Points(p.accounts, p.rows,
                                            p.referrals[referee := ReferralRow(id, referrer, true, campaign)]))
  {
  }

  /** A booking of at least the campaign's minimum qualifies a pending referral: with its keys unused, the referrer
      gets the campaign's reward for referrers, or 100 points, and the referee the one for referees, or 50; a
      smaller booking, or a referral seen qualified, changes nothing. */
  lemma QualifiedIs(p: Points, referee: int, seenPending: bool, amount: int)
    requires referee in p.referrals && p.referrals[referee].referrer != referee
    requires var id := p.referrals[referee].id;
             forall i :: 0 <= i < |p.rows| ==> p.rows[i].key !in {ReferrerReward(id), RefereeReward(id)}
    ensures var r, q := p.referrals[referee], Qualify(p, referee, seenPending, amount);
            var (minimum, forReferrer, forReferee) := match r.campaign
              case Some(c) => (c.minimum, c.referrerReward, c.refereeReward)
              case None => (0, 100, 50);
            if !seenPending || amount < minimum then q == p
            else
              && AccountOf(q, r.referrer).balance == AccountOf(p, r.referrer).balance + forReferrer
              && AccountOf(q, referee).balance == AccountOf(p, referee).balance + forReferee
              && (forall user :: user != r.referrer && user != referee ==> AccountOf(q, user) == AccountOf(p, user))
              && q.referrals == p.referrals[referee := ReferralRow(r.id, r.referrer, false, r.campaign)]
              && |q.rows| == |p.rows| + 2 && q.rows[..|p.rows|] == p.rows
              && var (first, second) := (q.rows[|p.rows|], q.rows[|p.rows| + 1]);
                 && first.user == r.referrer && first.kind == Referral && first.key == ReferrerReward(r.id)
                 && second.user == referee && second.kind == Bonus && second.key == RefereeReward(r.id)
  {
    var r := p.referrals[referee];
    if seenPending && amount >= Terms(r).minimum {
      var q := p.(referrals := p.referrals[referee := r.(pending := false)]);
      AwardIs(q, r.referrer, Terms(r).referrerReward, Referral, ReferrerReward(r.id));
      var rewarded := AddPoints(q, r.referrer, Terms(r).referrerReward, Referral, ReferrerReward(r.id));
      AwardIs(rewarded, referee, Terms(r).refereeReward, Bonus, RefereeReward(r.id));
    }
  }

  /** No referral at all, nothing to qualify. */
  lemma UnreferredIs(p: Points, referee: int, seenPending: bool, amount: int)
    requires referee !in p.referrals
    ensures Qualify(p, referee, seenPending, amount) == p
  {
  }

  // ------------------------------------------------------------ the service

  class LoyaltyService {
    var accounts: map<int, Account>
    var rows: seq<Row>
    var referrals: map<int, ReferralRow>

    function View(): Points
      reads this
    {
      Points(accounts, rows, referrals)
    }

    constructor ()
      ensures View() == NO_POINTS
    {
      accounts, rows, referrals := map[], [], map[];
    }

    method AddPointsInternal(user: int, points: int, kind: Kind, key: Key)
      modifies this
      ensures View() == AddPoints(old(View()), user, points, kind, key)
    {
      if user !in accounts {
        accounts := accounts[user := Account(0, 0)];
      }
      var account := accounts[user];
      if HasKey(rows, key) {
        assert accounts == old(accounts)[user := account];
        return;
      }
      var newBalance, newLifetime := account.balance + points, account.lifetime + points;
      accounts := accounts[user := Account(newBalance, newLifetime)];
      rows := rows + [Row(user, kind, points, newBalance, key)];
    }

    /** Without a key of its own a call is keyed by its reference, or by the time. */
    method EarnPoints(user: int, points: int, reference: Option<int>, now: int, key: Option<Key>)
      modifies this
      ensures var k := if key.Some? then key.value
              else EarnKey(user, Earned, if reference.Some? then Of(reference.value) else At(now));
              View() == Next(old(View()), Earn(user, points, k))
    {
      var k := if key.Some? then key.value
          else EarnKey(user, Earned, if reference.Some? then Of(reference.value) else At(now));
      AddPointsInternal(user, points, Earned, k);
    }

    method RedeemPoints(user: int, points: int, reference: Option<int>, now: int, key: Option<Key>)
        returns (fault: Option<Fault>)
      modifies this
      ensures var k := if key.Some? then key.value
              else RedeemKey(user, if reference.Some? then Of(reference.value) else At(now));
              Reflects(old(View()), Redeem(old(View()), user, points, k), fault, View())
    {
      if points <= 0 { return None; }
      if user !in accounts || accounts[user].balance < points { return Some(BadRequest); }
      var k := if key.Some? then key.value
          else RedeemKey(user, if reference.Some? then Of(reference.value) else At(now));
      if HasKey(rows, k) { return None; }
      var newBalance := accounts[user].balance - points;
      accounts := accounts[user := accounts[user].(balance := newBalance)];
      rows := rows + [Row(user, Redeemed, -points, newBalance, k)];
      return None;
    }

    method QualifyReferral(referee: int, seenPending: bool, bookingAmount: int)
      modifies this
      ensures View() == Qualify(old(View()), referee, seenPending, bookingAmount)
    {
      if referee !in referrals || !seenPending { return; }
      var referral := referrals[referee];
      if bookingAmount < Terms(referral).minimum { return; }
      referrals := referrals[referee := referral.(pending := false)];
      AddPointsInternal(referral.referrer, Terms(referral).referrerReward, Referral, ReferrerReward(referral.id));
      AddPointsInternal(referee, Terms(referral).refereeReward, Bonus, RefereeReward(referral.id));
    }
  }
}
