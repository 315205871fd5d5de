/** Conservation of the daily mandates over every run of settlements. */
module Mandates {
  import opened Common
  import opened PaymentDb
  import opened Settlement

  /** What a payment takes from an account's mandate on a day. */
  function Charge(p: Payment, account: nat, day: nat): nat {
    if Account(p) == account && p.mandateDay == Some(day) && p.status != Failed then p.amount else 0
  }

  function Reserved(ps: seq<Payment>, account: nat, day: nat): nat {
    if ps == [] then 0 else Reserved(ps[..|ps| - 1], account, day) + Charge(ps[|ps| - 1], account, day)
  }

  lemma {:induction false} ReservedUpdate(ps: seq<Payment>, i: nat, q: Payment, account: nat, day: nat)
    requires i < |ps|
    ensures Reserved(ps[i := q], account, day) == Reserved(ps, account, day) - Charge(ps[i], account, day)
            + Charge(q, account, day)
  {
    var n := |ps| - 1;
    if i == n {
      assert ps[i := q][..n] == ps[..n];
    } else {
      ReservedUpdate(ps[..n], i, q, account, day);
      assert ps[i := q][..n] == ps[..n][i := q];
    }
  }

  lemma {:induction false} ReservedAgrees(ps: seq<Payment>, qs: seq<Payment>, account: nat, day: nat)
    requires |ps| == |qs| && forall i :: 0 <= i < |ps| ==> Charge(ps[i], account, day) == Charge(qs[i], account, day)
    ensures Reserved(ps, account, day) == Reserved(qs, account, day)
  {
    if ps != [] { ReservedAgrees(ps[..|ps| - 1], qs[..|qs| - 1], account, day); }
  }

  lemma {:induction false} ReservedBounds(ps: seq<Payment>, i: nat, account: nat, day: nat)
    requires i < |ps|
    ensures Charge(ps[i], account, day) <= Reserved(ps, account, day)
  {
    if i < |ps| - 1 { ReservedBounds(ps[..|ps| - 1], i, account, day); }
  }

  lemma {:induction false} ReservedNothing(ps: seq<Payment>, account: nat, day: nat)
    requires forall i :: 0 <= i < |ps| ==> Charge(ps[i], account, day) == 0
    ensures Reserved(ps, account, day) == 0
  {
    if ps != [] { ReservedNothing(ps[..|ps| - 1], account, day); }
  }

  /** A mandate's counter is what its unfailed payments of its day reserved, and within its limit. */
  predicate Conserved(db: Db, account: nat)
    requires account in db.mandates
  {
    var m := db.mandates[account];
    m.spent == Reserved(db.payments, account, m.day) && m.spent <= m.limit
  }

  /** No payment was reserved on a later day than its mandate has reached. */
  predicate DaysOk(w: World, account: nat)
    requires account in w.db.mandates
  {
    && w.db.mandates[account].day <= Day(w.now)
    && forall i :: 0 <= i < |w.db.payments| && Account(w.db.payments[i]) == account
                   && w.db.payments[i].mandateDay.Some? ==>
         w.db.payments[i].mandateDay.value <= w.db.mandates[account].day
  }

  predicate MandatesOk(w: World) {
    forall account :: account in w.db.mandates ==> Conserved(w.db, account) && DaysOk(w, account)
  }

  /** Both clock reads of a claim fall on one day. */
  predicate SameDay(e: Event) {
    e.Direct? || e.Exact? ==> Day(e.reservedAt) == Day(e.stampedAt)
  }

  /** A first claim on the account: its counter grows by the amount, or starts over on a new day. */
  lemma FirstClaimConserves(w: World, e: Event, account: nat)
    requires (e.Direct? || e.Exact?) && Timely(w, e) && FenceOk(w) && MandatesOk(w) && SameDay(e)
             && ClaimOf(w.db, e).Claimed?
    requires account in w.db.mandates && e.id < |w.db.payments| && w.db.payments[e.id].status == Open
             && Account(w.db.payments[e.id]) == account
    ensures account in Begin(w, e).db.mandates && Conserved(Begin(w, e).db, account) && DaysOk(Begin(w, e), account)
  {
    BeginShape(w, e);
    assert PaymentOk(w, e.id) && Conserved(w.db, account) && DaysOk(w, account);
    var db := ClaimOf(w.db, e).db;
    var q, m, n := db.payments[e.id], w.db.mandates[account], db.mandates[account];
    assert db.payments == w.db.payments[e.id := q];
    ReservedUpdate(w.db.payments, e.id, q, account, n.day);
    if m.day != n.day { ReservedNothing(w.db.payments, account, n.day); }
  }

  /** A claim on another account, or one made again, leaves the mandate and what is charged to it as they are. */
  lemma OtherClaim(w: World, e: Event, account: nat)
    requires (e.Direct? || e.Exact?) && Timely(w, e) && FenceOk(w) && ClaimOf(w.db, e).Claimed?
    requires account in w.db.mandates && e.id < |w.db.payments|
             && (w.db.payments[e.id].status != Open || Account(w.db.payments[e.id]) != account)
    ensures
      var db := ClaimOf(w.db, e).db;
      && e.id < |db.payments| && db.payments == w.db.payments[e.id := db.payments[e.id]]
      && account in db.mandates && db.mandates[account] == w.db.mandates[account]
      && Account(db.payments[e.id]) == Account(w.db.payments[e.id])
      && (Account(db.payments[e.id]) == account
          ==> db.payments[e.id].mandateDay == w.db.payments[e.id].mandateDay)
      && forall day :: Charge(db.payments[e.id], account, day) == Charge(w.db.payments[e.id], account, day)
  {
    BeginShape(w, e);
    assert PaymentOk(w, e.id);
  }

  lemma OtherClaimConserves(w: World, e: Event, account: nat)
    requires (e.Direct? || e.Exact?) && Timely(w, e) && FenceOk(w) && MandatesOk(w) && ClaimOf(w.db, e).Claimed?
    requires account in w.db.mandates && e.id < |w.db.payments|
             && (w.db.payments[e.id].status != Open || Account(w.db.payments[e.id]) != account)
    ensures account in Begin(w, e).db.mandates && Conserved(Begin(w, e).db, account) && DaysOk(Begin(w, e), account)
  {
    OtherClaim(w, e, account);
    assert Conserved(w.db, account) && DaysOk(w, account);
    ReservedUpdate(w.db.payments, e.id, ClaimOf(w.db, e).db.payments[e.id], account, w.db.mandates[account].day);
  }

  lemma ClaimConserves(w: World, e: Event, account: nat)
    requires (e.Direct? || e.Exact?) && Timely(w, e) && FenceOk(w) && MandatesOk(w) && SameDay(e)
             && ClaimOf(w.db, e).Claimed?
    requires account in Begin(w, e).db.mandates
    ensures account in w.db.mandates && Conserved(Begin(w, e).db, account) && DaysOk(Begin(w, e), account)
  {
    assert e.id < |w.db.payments| && account in w.db.mandates by { BeginShape(w, e); }
    if w.db.payments[e.id].status == Open && Account(w.db.payments[e.id]) == account {
      FirstClaimConserves(w, e, account);
    } else {
      OtherClaimConserves(w, e, account);
    }
  }

  /** Giving a reservation back never takes more than is there. */
  lemma ReleaseIsCovered(w: World, id: nat, fence: Time)
    requires MandatesOk(w) && InClaim(w.db, id, fence)
    ensures
      var p := w.db.payments[id];
      Account(p) in w.db.mandates && p.mandateDay == Some(w.db.mandates[Account(p)].day)
      ==> p.amount <= w.db.mandates[Account(p)].spent
  {
    var p := w.db.payments[id];
    if Account(p) in w.db.mandates {
      assert Conserved(w.db, Account(p));
      ReservedBounds(w.db.payments, id, Account(p), w.db.mandates[Account(p)].day);
    }
  }

  lemma FailConserves(w: World, id: nat, fence: Time, reverted: bool, account: nat)
    requires MandatesOk(w) && FenceOk(w) && InClaim(w.db, id, fence) && account in w.db.mandates
    ensures
      var db := WriteFailed(w.db, id, fence, reverted);
      account in db.mandates && Conserved(db, account) && DaysOk(w.(db := db), account)
  {
    assert Conserved(w.db, account) && DaysOk(w, account) && PaymentOk(w, id);
    ReleaseIsCovered(w, id, fence);
    var q := w.db.payments[id].(status := if reverted then Failed else SettlementUnknown);
    ReservedUpdate(w.db.payments, id, q, account, w.db.mandates[account].day);
  }

  /** Any event that leaves the mandates alone and every charge as it was. */
  lemma UnchangedConserves(w: World, w1: World, account: nat)
    requires MandatesOk(w) && w1.db.mandates == w.db.mandates && account in w.db.mandates && w.now <= w1.now
    requires |w1.db.payments| == |w.db.payments|
    requires forall i :: 0 <= i < |w.db.payments| ==>
      SameCharge(w.db.payments[i], w1.db.payments[i])
    ensures Conserved(w1.db, account) && DaysOk(w1, account)
  {
    assert Conserved(w.db, account) && DaysOk(w, account);
    ReservedAgrees(w.db.payments, w1.db.payments, account, w.db.mandates[account].day);
  }

  predicate SameCharge(p: Payment, q: Payment) {
    q.owner == p.owner && q.agent == p.agent && q.mandateDay == p.mandateDay && q.amount == p.amount
      && (q.status == Failed <==> p.status == Failed)
  }

  lemma OpenConserves(w: World, owner: nat, agent: Option<nat>, amount: nat, intent: Option<nat>, requestHash: nat,
                      account: nat)
    requires MandatesOk(w) && account in w.db.mandates
    ensures var db := NewPayment(w.db, owner, agent, amount, intent, requestHash);
            Conserved(db, account) && DaysOk(w.(db := db), account)
  {
    var db := NewPayment(w.db, owner, agent, amount, intent, requestHash);
    assert Conserved(w.db, account) && DaysOk(w, account);
    assert db.payments[..|w.db.payments|] == w.db.payments;
  }

  lemma CreateConserves(w: World, drawn: nat, limit: nat, account: nat)
    requires MandatesOk(w) && drawn !in w.db.mandates && (account in w.db.mandates || account == drawn)
    requires forall i :: 0 <= i < |w.db.payments| ==> Account(w.db.payments[i]) != drawn
    ensures var db := NewMandate(w.db, drawn, limit, Day(w.now));
            Conserved(db, account) && DaysOk(w.(db := db), account)
  {
    if account == drawn {
      ReservedNothing(w.db.payments, account, Day(w.now));
    } else {
      assert Conserved(w.db, account) && DaysOk(w, account);
    }
  }

  /** Every event whose claim does not straddle midnight conserves every mandate. */
  lemma NextConserves(w: World, e: Event)
    requires FenceOk(w) && MandatesOk(w) && SameDay(e)
    ensures MandatesOk(Next(w, e))
  {
    forall account | account in Next(w, e).db.mandates
      ensures Conserved(Next(w, e).db, account) && DaysOk(Next(w, e), account)
    {
      EventConserves(w, e, account);
    }
  }

  lemma EventConserves(w: World, e: Event, account: nat)
    requires FenceOk(w) && MandatesOk(w) && SameDay(e) && account in Next(w, e).db.mandates
    ensures Conserved(Next(w, e).db, account) && DaysOk(Next(w, e), account)
  {
    match e
    case Direct(_, _, _, _, _, _, _, _) => BeginConserves(w, e, account);
    case Exact(_, _, _, _, _, _, _, _) => BeginConserves(w, e, account);
    case OpenIntent(_, _, _, _, _) => OpenEventConserves(w, e, account);
    case CreateAgent(_, _) => CreateEventConserves(w, e, account);
    case FailWrite(a, reverted) => FailEventConserves(w, a, reverted, account);
    case _ => QuietConserves(w, e, account);
  }

  lemma OpenEventConserves(w: World, e: Event, account: nat)
    requires MandatesOk(w) && e.OpenIntent? && account in Next(w, e).db.mandates
    ensures Conserved(Next(w, e).db, account) && DaysOk(Next(w, e), account)
  {
    if Next(w, e).db != w.db { OpenConserves(w, e.owner, e.agent, e.amount, e.intent, e.requestHash, account); }
    else { UnchangedConserves(w, Next(w, e), account); }
  }

  lemma CreateEventConserves(w: World, e: Event, account: nat)
    requires MandatesOk(w) && e.CreateAgent? && account in Next(w, e).db.mandates
    ensures Conserved(Next(w, e).db, account) && DaysOk(Next(w, e), account)
  {
    if Next(w, e).db != w.db { CreateConserves(w, e.account, e.limit, account); }
    else { UnchangedConserves(w, Next(w, e), account); }
  }

  lemma QuietConserves(w: World, e: Event, account: nat)
    requires FenceOk(w) && MandatesOk(w) && account in Next(w, e).db.mandates
    requires !e.Direct? && !e.Exact? && !e.OpenIntent? && !e.CreateAgent? && !e.FailWrite?
    ensures Conserved(Next(w, e).db, account) && DaysOk(Next(w, e), account)
  {
    UnchangedConserves(w, Next(w, e), account);
  }

  lemma BeginConserves(w: World, e: Event, account: nat)
    requires (e.Direct? || e.Exact?) && FenceOk(w) && MandatesOk(w) && SameDay(e) && account in Next(w, e).db.mandates
    ensures Conserved(Next(w, e).db, account) && DaysOk(Next(w, e), account)
  {
    if Timely(w, e) && ClaimOf(w.db, e).Claimed? {
      ClaimConserves(w, e, account);
    } else {
      UnchangedConserves(w, w, account);
    }
  }

  lemma FailEventConserves(w: World, a: nat, reverted: bool, account: nat)
    requires FenceOk(w) && MandatesOk(w) && account in Next(w, FailWrite(a, reverted)).db.mandates
    ensures var w1 := Next(w, FailWrite(a, reverted)); Conserved(w1.db, account) && DaysOk(w1, account)
  {
    var w1 := Next(w, FailWrite(a, reverted));
    if w1.db == w.db { UnchangedConserves(w, w1, account); }
    else { FailConserves(w, w.attempts[a].payment, w.attempts[a].fence, reverted, account); }
  }

  /** In every run whose claims do not straddle midnight each mandate's counter equals the sum of the amounts of
      its payments reserved on its day and not failed, and stays within the daily limit; a payment counts once
      however often it is resumed. */
  lemma {:induction false} MandatesConserved(now: Time, mandates: map<nat, Mandate>, es: seq<Event>)
    requires FreshMandates(now, mandates) && forall i :: 0 <= i < |es| ==> SameDay(es[i])
    ensures MandatesOk(Exec(Start(now, mandates), es))
  {
    if es != [] {
      MandatesConserved(now, mandates, es[..|es| - 1]);
      ExecKeepsFences(now, mandates, es[..|es| - 1]);
      NextConserves(Exec(Start(now, mandates), es[..|es| - 1]), es[|es| - 1]);
    }
  }

  /** On every day, what the unfailed payments of an account reserved stays within its limit. */
  ghost predicate WithinLimits(db: Db) {
    forall account: nat, day: nat ::
      account in db.mandates ==> Reserved(db.payments, account, day) <= db.mandates[account].limit
  }

  /** A day whose charges only fall. */
  lemma {:induction false} ReservedFalls(ps: seq<Payment>, qs: seq<Payment>, account: nat, day: nat)
    requires |ps| == |qs| && forall i :: 0 <= i < |ps| ==> Charge(qs[i], account, day) <= Charge(ps[i], account, day)
    ensures Reserved(qs, account, day) <= Reserved(ps, account, day)
  {
    if ps != [] { ReservedFalls(ps[..|ps| - 1], qs[..|qs| - 1], account, day); }
  }

  /** Days after the one a mandate has reached hold no reservation. */
  lemma NothingLater(w: World, account: nat, day: nat)
    requires account in w.db.mandates && DaysOk(w, account) && w.db.mandates[account].day < day
    ensures Reserved(w.db.payments, account, day) == 0
  {
    ReservedNothing(w.db.payments, account, day);
  }

  /** On a day a mandate has passed, no event of these runs adds a charge. */
  lemma EarlierDaysFall(w: World, e: Event, account: nat, day: nat)
    requires FenceOk(w) && MandatesOk(w) && SameDay(e) && account in w.db.mandates && account in Next(w, e).db.mandates
    requires MandatesOk(Next(w, e)) && day < Next(w, e).db.mandates[account].day
    ensures Reserved(Next(w, e).db.payments, account, day) <= Reserved(w.db.payments, account, day)
  {
    var w1 := Next(w, e);
    if (e.Direct? || e.Exact?) && Timely(w, e) && ClaimOf(w.db, e).Claimed? {
      ClaimLeavesEarlierDays(w, e, account, day);
    } else if e.OpenIntent? && w1.db != w.db {
      assert w1.db.payments[..|w.db.payments|] == w.db.payments;
    } else {
      UnclaimedDaysFall(w, e, account, day);
    }
  }

  lemma UnclaimedDaysFall(w: World, e: Event, account: nat, day: nat)
    requires FenceOk(w) && (e.OpenIntent? ==> Next(w, e).db == w.db)
    requires e.Direct? || e.Exact? ==> !(Timely(w, e) && ClaimOf(w.db, e).Claimed?)
    ensures Reserved(Next(w, e).db.payments, account, day) <= Reserved(w.db.payments, account, day)
  {
    var w1 := Next(w, e);
    forall i | 0 <= i < |w.db.payments|
      ensures i < |w1.db.payments| && Charge(w1.db.payments[i], account, day) <= Charge(w.db.payments[i], account, day)
    {
      PaymentsEvolve(w, e, i);
      UnclaimedDay(w, e, i);
    }
    SameLength(w, e);
    ReservedFalls(w.db.payments, w1.db.payments, account, day);
  }

  lemma SameLength(w: World, e: Event)
    requires e.OpenIntent? ==> Next(w, e).db == w.db
    ensures |Next(w, e).db.payments| == |w.db.payments|
  {}

  /** Only a claim records a day, and no payment comes back from failure. */
  lemma UnclaimedDay(w: World, e: Event, i: nat)
    requires FenceOk(w) && i < |w.db.payments| && i < |Next(w, e).db.payments|
    requires e.Direct? || e.Exact? ==> !(Timely(w, e) && ClaimOf(w.db, e).Claimed?)
    ensures
      var p, q := w.db.payments[i], Next(w, e).db.payments[i];
      q.mandateDay == p.mandateDay && (p.status == Failed ==> q.status == Failed)
  {}

  lemma ClaimLeavesEarlierDays(w: World, e: Event, account: nat, day: nat)
    requires (e.Direct? || e.Exact?) && Timely(w, e) && FenceOk(w) && SameDay(e) && ClaimOf(w.db, e).Claimed?
    requires account in w.db.mandates && account in Begin(w, e).db.mandates
             && day < Begin(w, e).db.mandates[account].day
    ensures Reserved(Begin(w, e).db.payments, account, day) == Reserved(w.db.payments, account, day)
  {
    BeginShape(w, e);
    assert PaymentOk(w, e.id);
    var db := ClaimOf(w.db, e).db;
    assert db.payments == w.db.payments[e.id := db.payments[e.id]];
    ReservedUpdate(w.db.payments, e.id, db.payments[e.id], account, day);
  }

  lemma LimitsStep(w: World, e: Event)
    requires FenceOk(w) && MandatesOk(w) && SameDay(e) && WithinLimits(w.db)
    ensures WithinLimits(Next(w, e).db)
  {
    NextConserves(w, e);
    var w1 := Next(w, e);
    forall account: nat, day: nat | account in w1.db.mandates
      ensures Reserved(w1.db.payments, account, day) <= w1.db.mandates[account].limit
    {
      assert Conserved(w1.db, account) && DaysOk(w1, account);
      if day > w1.db.mandates[account].day { NothingLater(w1, account, day); }
      else if day < w1.db.mandates[account].day { EarlierDaysStay(w, e, account, day); }
    }
  }

  lemma EarlierDaysStay(w: World, e: Event, account: nat, day: nat)
    requires FenceOk(w) && MandatesOk(w) && SameDay(e) && WithinLimits(w.db) && MandatesOk(Next(w, e))
    requires account in Next(w, e).db.mandates && day < Next(w, e).db.mandates[account].day
    ensures Reserved(Next(w, e).db.payments, account, day) <= Next(w, e).db.mandates[account].limit
  {
    if account in w.db.mandates {
      EarlierDaysFall(w, e, account, day);
      LimitStays(w, e, account);
    } else {
      ReservedNothing(Next(w, e).db.payments, account, day);
    }
  }

  lemma LimitStays(w: World, e: Event, account: nat)
    requires FenceOk(w) && account in w.db.mandates
    ensures account in Next(w, e).db.mandates && Next(w, e).db.mandates[account].limit == w.db.mandates[account].limit
  {
    if (e.Direct? || e.Exact?) && Timely(w, e) && ClaimOf(w.db, e).Claimed? { BeginShape(w, e); }
  }

  /** In every run whose claims do not straddle midnight, no day of any account ever holds more unfailed reservations
      than the daily limit, however late the payments of that day are settled, resumed or failed. */
  lemma {:induction false} EveryDayWithinLimit(now: Time, mandates: map<nat, Mandate>, es: seq<Event>)
    requires FreshMandates(now, mandates) && forall i :: 0 <= i < |es| ==> SameDay(es[i])
    ensures WithinLimits(Exec(Start(now, mandates), es).db)
  {
    if es != [] {
      EveryDayWithinLimit(now, mandates, es[..|es| - 1]);
      MandatesConserved(now, mandates, es[..|es| - 1]);
      ExecKeepsFences(now, mandates, es[..|es| - 1]);
      LimitsStep(Exec(Start(now, mandates), es[..|es| - 1]), es[|es| - 1]);
    }
  }

  /** In such a run the clamp at zero never takes effect when a revert releases a reservation. */
  lemma {:induction false} ClampNeverActs(now: Time, mandates: map<nat, Mandate>, es: seq<Event>, id: nat, fence: Time)
    requires FreshMandates(now, mandates) && forall i :: 0 <= i < |es| ==> SameDay(es[i])
    ensures
      var db := Exec(Start(now, mandates), es).db;
      InClaim(db, id, fence) ==>
        var p := db.payments[id];
        Account(p) in db.mandates && p.mandateDay == Some(db.mandates[Account(p)].day)
        ==> p.amount <= db.mandates[Account(p)].spent
  {
    MandatesConserved(now, mandates, es);
    var w := Exec(Start(now, mandates), es);
    if InClaim(w.db, id, fence) { ReleaseIsCovered(w, id, fence); }
  }

  // ----- the two clock reads -----

  /** The mandate has moved past the day a claim reserves on, and that day's reservations happen to equal its amount. */
  predicate Coincides(w: World, e: Event)
    requires (e.Direct? || e.Exact?) && e.id < |w.db.payments| && Account(w.db.payments[e.id]) in w.db.mandates
  {
    var p := w.db.payments[e.id];
    Day(e.reservedAt) < w.db.mandates[Account(p)].day
      && Reserved(w.db.payments, Account(p), Day(e.reservedAt)) == p.amount
  }

  /** A claim that reserves a positive amount on a mandate keeps its counter and its days in order exactly when the two
      clock reads, for the reservation and for the recorded day, fall on the same day.  The counter alone can also come
      out right by coincidence, when an overlapping claim has moved the mandate on and this one moves it back. */
  lemma ConservedIffSameDay(w: World, e: Event)
    requires (e.Direct? || e.Exact?) && Timely(w, e) && FenceOk(w) && MandatesOk(w) && ClaimOf(w.db, e).Claimed?
    requires e.id < |w.db.payments| && w.db.payments[e.id].status == Open && w.db.payments[e.id].amount > 0
    requires Account(w.db.payments[e.id]) in w.db.mandates
    ensures
      var account := Account(w.db.payments[e.id]);
      && account in Next(w, e).db.mandates
      && (Conserved(Next(w, e).db, account) && DaysOk(Next(w, e), account) <==> SameDay(e))
      && (Conserved(Next(w, e).db, account) <==> SameDay(e) || Coincides(w, e))
  {
    BeginShape(w, e);
    var account := Account(w.db.payments[e.id]);
    if SameDay(e) { ClaimConserves(w, e, account); } else { StraddleExactly(w, e); }
  }

  lemma StraddleExactly(w: World, e: Event)
    requires (e.Direct? || e.Exact?) && Timely(w, e) && FenceOk(w) && MandatesOk(w) && ClaimOf(w.db, e).Claimed?
             && !SameDay(e)
    requires e.id < |w.db.payments| && w.db.payments[e.id].status == Open && w.db.payments[e.id].amount > 0
    requires Account(w.db.payments[e.id]) in w.db.mandates
    ensures
      var account := Account(w.db.payments[e.id]);
      account in Begin(w, e).db.mandates && !DaysOk(Begin(w, e), account)
        && (Conserved(Begin(w, e).db, account) <==> Coincides(w, e))
  {
    BeginShape(w, e);
    var account := Account(w.db.payments[e.id]);
    var db := ClaimOf(w.db, e).db;
    var q, m, n := db.payments[e.id], w.db.mandates[account], db.mandates[account];
    assert db.payments == w.db.payments[e.id := q];
    assert Conserved(w.db, account) && DaysOk(w, account) && PaymentOk(w, e.id);
    ReservedUpdate(w.db.payments, e.id, q, account, n.day);
    if m.day < n.day { ReservedNothing(w.db.payments, account, n.day); }
    assert Account(db.payments[e.id]) == account && q.mandateDay == Some(Day(e.stampedAt)) && n.day < Day(e.stampedAt);
  }

  // The five events of a straddling claim, and the tables they lead to.

  function Intent(amount: nat): Payment {
    Payment(7, None, amount, None, 0, Open, None, None, None, None, None, false, None, None)
  }

  function MidnightClaim(amount: nat): Payment {
    Intent(amount).(status := Settling, startedAt := Some(DAY), mode := Some(Mock), scope := Some(1),
                    mandateDay := Some(1))
  }

  function Straddle(): seq<Event> {
    var d := Deployment(Mock, true, 1);
    [OpenIntent(7, None, 5, None, 0), OpenIntent(7, None, 3, None, 0),
     Direct(d, 0, 7, false, None, true, DAY - 1, DAY), Direct(d, 1, 7, false, None, true, DAY, DAY), FailWrite(0, true)]
  }

  lemma StraddleClaims()
    ensures
      var d := Deployment(Mock, true, 1);
      var before := Db([Intent(5), Intent(3)], map[7 := Mandate(10, 0, 0)]);
      var between := Db([MidnightClaim(5), Intent(3)], map[7 := Mandate(10, 5, 0)]);
      && ClaimDirect(before, d, 0, 7, false, None, true, DAY - 1, DAY) == Claimed(between)
      && ClaimDirect(between, d, 1, 7, false, None, true, DAY, DAY)
         == Claimed(Db([MidnightClaim(5), MidnightClaim(3)], map[7 := Mandate(10, 3, 1)]))
  {
    assert Day(DAY - 1) == 0 && Day(DAY) == 1;
  }

  lemma StraddleRuns()
    ensures Exec(Start(0, map[7 := Mandate(10, 0, 0)]), Straddle()).db
         == Db([MidnightClaim(5).(status := Failed), MidnightClaim(3)], map[7 := Mandate(10, 0, 1)])
  {
    var w0 := Start(0, map[7 := Mandate(10, 0, 0)]);
    var es := Straddle();
    Unrolled(w0, es);
    StraddleClaims();
    var w2 := Next(Next(w0, es[0]), es[1]);
    assert w2.db == Db([Intent(5), Intent(3)], map[7 := Mandate(10, 0, 0)]);
    var w3 := Next(w2, es[2]);
    var w4 := Next(w3, es[3]);
    assert w4.db.payments == [MidnightClaim(5), MidnightClaim(3)];
    assert w4.attempts[0] == Attempt(0, DAY, false, Working);
    assert Next(w4, es[4]).db == WriteFailed(w4.db, 0, DAY, true);
  }

  /** A claim reserving just before midnight and stamped just after it, a second claim on the new day, and a proven
      revert of the first: the clamp acts, and the second reservation is no longer counted. */
  lemma StraddlingClaimLosesAReservation()
    ensures
      var db := Exec(Start(0, map[7 := Mandate(10, 0, 0)]), Straddle()).db;
      && 7 in db.mandates && db.mandates[7].spent == 0 && Reserved(db.payments, 7, db.mandates[7].day) == 3
      && !Conserved(db, 7)
  {
    StraddleRuns();
    var ps := [MidnightClaim(5).(status := Failed), MidnightClaim(3)];
    assert ps[..1][..0] == [] && ps[..1][0] == ps[0];
    assert Reserved(ps, 7, 1) == Reserved(ps[..1], 7, 1) + Charge(ps[1], 7, 1);
    assert Reserved(ps[..1], 7, 1) == Reserved(ps[..1][..0], 7, 1) + Charge(ps[0], 7, 1);
  }

  // Two claims of one account around midnight: the first to read its day is the last to lock the mandate.

  function Overlap(): seq<Event> {
    var d := Deployment(Mock, true, 1);
    [OpenIntent(7, None, 5, None, 0), OpenIntent(7, None, 3, None, 0), OpenIntent(7, None, 10, None, 0),
     Direct(d, 0, 7, false, None, true, DAY, DAY), Direct(d, 1, 7, false, None, true, DAY - 1, DAY)]
  }

  const LateClaim := Direct(Deployment(Mock, true, 1), 2, 7, false, None, true, DAY, DAY)

  lemma OverlapClaims()
    ensures
      var d := Deployment(Mock, true, 1);
      var before := Db([Intent(5), Intent(3), Intent(10)], map[7 := Mandate(10, 0, 0)]);
      var first := Db([MidnightClaim(5), Intent(3), Intent(10)], map[7 := Mandate(10, 5, 1)]);
      var second := Db([MidnightClaim(5), MidnightClaim(3), Intent(10)], map[7 := Mandate(10, 3, 0)]);
      && ClaimDirect(before, d, 0, 7, false, None, true, DAY, DAY) == Claimed(first)
      && ClaimDirect(first, d, 1, 7, false, None, true, DAY - 1, DAY) == Claimed(second)
      && ClaimDirect(second, d, 2, 7, false, None, true, DAY, DAY)
           == Claimed(Db([MidnightClaim(5), MidnightClaim(3), MidnightClaim(10)], map[7 := Mandate(10, 10, 1)]))
  {
    assert Day(DAY - 1) == 0 && Day(DAY) == 1;
  }

  lemma OverlapRuns()
    ensures
      var w := Exec(Start(0, map[7 := Mandate(10, 0, 0)]), Overlap());
      && w.now == DAY && w.db == Db([MidnightClaim(5), MidnightClaim(3), Intent(10)], map[7 := Mandate(10, 3, 0)])
      && Next(w, LateClaim).db == Db([MidnightClaim(5), MidnightClaim(3), MidnightClaim(10)],
                                     map[7 := Mandate(10, 10, 1)])
  {
    var w0 := Start(0, map[7 := Mandate(10, 0, 0)]);
    var es := Overlap();
    Unrolled(w0, es);
    OverlapClaims();
    var w3 := Next(Next(Next(w0, es[0]), es[1]), es[2]);
    assert w3.db == Db([Intent(5), Intent(3), Intent(10)], map[7 := Mandate(10, 0, 0)]);
    var w4 := Next(w3, es[3]);
    var w5 := Next(w4, es[4]);
    assert w5.now == DAY;
  }

  /** An overlapping claim that read its day before midnight moves the mandate back to the old day and drops the other
      claim's reservation; the new day then starts from nothing, and more than the daily limit is reserved on it. */
  lemma OverlappingClaimPassesTheLimit()
    ensures
      var w := Exec(Start(0, map[7 := Mandate(10, 0, 0)]), Overlap());
      && 7 in w.db.mandates && w.db.mandates[7] == Mandate(10, 3, 0) && Reserved(w.db.payments, 7, 0) == 0
      && Reserved(w.db.payments, 7, 1) == 8
      && Reserved(Next(w, LateClaim).db.payments, 7, 1) == 18
  {
    OverlapRuns();
    ReservedThree(MidnightClaim(5), MidnightClaim(3), Intent(10), 0);
    ReservedThree(MidnightClaim(5), MidnightClaim(3), Intent(10), 1);
    ReservedThree(MidnightClaim(5), MidnightClaim(3), MidnightClaim(10), 1);
  }

  lemma ReservedThree(a: Payment, b: Payment, c: Payment, day: nat)
    ensures Reserved([a, b, c], 7, day) == Charge(a, 7, day) + Charge(b, 7, day) + Charge(c, 7, day)
  {
    assert [a, b, c][..2] == [a, b] && [a, b][..1] == [a] && [a][..0] == [];
    assert Reserved([a], 7, day) == Charge(a, 7, day);
    assert Reserved([a, b], 7, day) == Reserved([a], 7, day) + Charge(b, 7, day);
  }

  lemma Unrolled(w: World, es: seq<Event>)
    requires |es| == 5
    ensures Exec(w, es) == Next(Next(Next(Next(Next(w, es[0]), es[1]), es[2]), es[3]), es[4])
  {
    assert es[..4][..3] == es[..3] && es[..3][..2] == es[..2] && es[..2][..1] == es[..1] && es[..1][..0] == [];
    assert Exec(w, es[..1]) == Next(w, es[0]);
    assert Exec(w, es[..2]) == Next(Exec(w, es[..1]), es[1]);
    assert Exec(w, es[..3]) == Next(Exec(w, es[..2]), es[2]);
    assert Exec(w, es[..4]) == Next(Exec(w, es[..3]), es[3]);
  }
}
