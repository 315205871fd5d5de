/** Settlement attempts, sweeps and resumptions interleaving on the payment tables. */
module Settlement {
  import opened Common
  import opened PaymentDb

  /** An attempt still working on its claim; one whose first write failed; one that returned or died. */
  datatype Pc = Working | Faulted | Done

  datatype Attempt = Attempt(payment: nat, fence: Time, x402: bool, pc: Pc)

  /** `current` names, for each claimed payment, the attempt that made its latest claim. */
  datatype World = World(now: Time, db: Db, attempts: seq<Attempt>, current: map<nat, nat>)

  datatype Event = Advance(elapsed: nat)
                 | OpenIntent(owner: nat, agent: Option<nat>, amount: nat, intent: Option<nat>, requestHash: nat)
                 | CreateAgent(account: nat, limit: nat)
                 | Challenge(id: nat, owner: nat, scope: nat)
                 | Direct(d: Deployment, id: nat, owner: nat, confidential: bool, auth: Option<Auth>, admitted: bool,
                          reservedAt: Time, stampedAt: Time)
                 | Exact(id: nat, owner: nat, scope: nat, requestHash: nat, payerAuth: Auth, admitted: bool,
                         reservedAt: Time, stampedAt: Time)
                 | SettleWrite(attempt: nat, tx: nat, acknowledged: bool)
                 | FailWrite(attempt: nat, reverted: bool)
                 | Sweep(at: Time)
                 | Consume(id: nat, receipt: nat)

  /** The transaction of a claim event, wherever the clock stands. */
  function ClaimOf(db: Db, e: Event): Claim
    requires e.Direct? || e.Exact?
  {
    if e.Direct? then ClaimDirect(db, e.d, e.id, e.owner, e.confidential, e.auth, e.admitted, e.reservedAt, e.stampedAt)
    else ClaimX402(db, e.id, e.owner, e.scope, e.requestHash, e.payerAuth, e.admitted, e.reservedAt, e.stampedAt)
  }

  /** The clock does not run backwards between commits and within a claim.  The day of the reservation is read before
      the mandate is locked, so other claims may commit between that reading and the stamp. */
  predicate Timely(w: World, e: Event)
    requires e.Direct? || e.Exact?
  {
    e.reservedAt <= e.stampedAt && w.now <= e.stampedAt
  }

  function Next(w: World, e: Event): World {
    match e
    case Advance(elapsed) => w.(now := w.now + elapsed)
    case OpenIntent(owner, agent, amount, intent, requestHash) =>
      if agent.Some? && agent.value !in w.db.mandates then w
      else
        var r := OpenIntentFor(w.db, owner, agent, amount, intent, requestHash);
        if r.Opened? then w.(db := r.db) else w
    case CreateAgent(account, limit) =>
      // A freshly drawn agent id names no mandate and no payment account yet.
      if account in w.db.mandates || exists i :: 0 <= i < |w.db.payments| && Account(w.db.payments[i]) == account then w
      else w.(db := NewMandate(w.db, account, limit, Day(w.now)))
    case Challenge(id, owner, scope) =>
      var r := Challenged(w.db, id, owner, scope);
      if r.Claimed? then w.(db := r.db) else w
    case Direct(_, _, _, _, _, _, _, _) => if Timely(w, e) then Begin(w, e) else w
    case Exact(_, _, _, _, _, _, _, _) => if Timely(w, e) then Begin(w, e) else w
    case SettleWrite(a, tx, acknowledged) =>
      if a >= |w.attempts| || w.attempts[a].pc != Working then w
      else w.(db := WriteSettled(w.db, w.attempts[a].payment, w.attempts[a].fence, tx),
              attempts := w.attempts[a := w.attempts[a].(pc := if acknowledged then Done else Faulted)])
    case FailWrite(a, reverted) =>
      // Only a settlement that threw is known to have reverted, and x402 never takes a revert as proof.
      if a >= |w.attempts| || w.attempts[a].pc == Done
        || (reverted && (w.attempts[a].x402 || w.attempts[a].pc != Working)) then w
      else w.(db := WriteFailed(w.db, w.attempts[a].payment, w.attempts[a].fence, reverted),
              attempts := w.attempts[a := w.attempts[a].(pc := Done)])
    case Sweep(at) => if at <= w.now then w.(db := Swept(w.db, at)) else w
    case Consume(id, receipt) => w.(db := WriteConsumed(w.db, id, receipt))
  }

  /** A claim and the attempt it starts. */
  function Begin(w: World, e: Event): World
    requires e.Direct? || e.Exact?
  {
    var r := ClaimOf(w.db, e);
    if !r.Claimed? then w
    else w.(now := e.stampedAt, db := r.db, attempts := w.attempts + [Attempt(e.id, e.stampedAt, e.Exact?, Working)],
            current := w.current[e.id := |w.attempts|])
  }

  function Exec(w: World, es: seq<Event>): World {
    if es == [] then w else Next(Exec(w, es[..|es| - 1]), es[|es| - 1])
  }

  /** A start with mandates on some accounts and no payments. */
  function Start(now: Time, mandates: map<nat, Mandate>): World { World(now, Db([], mandates), [], map[]) }

  predicate FreshMandates(now: Time, mandates: map<nat, Mandate>) {
    forall k :: k in mandates ==> mandates[k].spent == 0 && mandates[k].day <= Day(now)
  }

  // ----- the fence -----

  /** A live attempt is the current one, or its payment has moved past anything its fence can match. */
  predicate LiveOk(w: World, i: nat)
    requires i < |w.attempts|
  {
    var a := w.attempts[i];
    && a.payment < |w.db.payments| && a.fence <= w.now
    && (a.pc != Done ==>
      var p := w.db.payments[a.payment];
      || (p.status == Settling && p.startedAt == Some(a.fence) && a.payment in w.current && w.current[a.payment] == i)
      || p.status == Settled || p.status == Consumed
      || (a.fence + STALE < w.now && p.status != Open
          && (p.status == Settling ==> p.startedAt.Some? && a.fence + STALE < p.startedAt.value)))
  }

  predicate PaymentOk(w: World, id: nat)
    requires id < |w.db.payments|
  {
    var p := w.db.payments[id];
    && (p.mandateDay.None? <==> p.status == Open)
    && (p.status != Open ==> p.mode.Some?)
    && (p.mode == Some(X402) ==> (p.auth.Some? <==> p.status != Open) && p.scope.Some? && !p.confidential)
    && (p.status == Open ==> !p.confidential)
    && (p.status == Open && p.mode != Some(X402) ==> p.mode.None? && p.auth.None?)
    && (p.status == Settling ==> p.startedAt.Some? && p.startedAt.value <= w.now)
  }

  /** No two x402 payments of one deployment spend the same token authorization. */
  predicate AuthorizationsOk(db: Db) {
    forall i, j :: 0 <= i < j < |db.payments| ==> !Conflicting(db.payments[i], db.payments[j])
  }

  predicate Conflicting(p: Payment, q: Payment) {
    p.mode == Some(X402) && q.mode == Some(X402) && p.scope == q.scope && p.auth.Some? && q.auth.Some?
      && p.auth.value.spends == q.auth.value.spends
  }

  ghost predicate FenceOk(w: World) {
    && (forall i :: 0 <= i < |w.attempts| ==> LiveOk(w, i))
    && (forall id :: 0 <= id < |w.db.payments| ==> PaymentOk(w, id))
    && AuthorizationsOk(w.db)
  }

  lemma BeginShape(w: World, e: Event)
    requires (e.Direct? || e.Exact?) && Timely(w, e) && ClaimOf(w.db, e).Claimed? && FenceOk(w)
    ensures
      var db := ClaimOf(w.db, e).db;
      && e.id < |w.db.payments| == |db.payments|
      && (forall i :: 0 <= i < |db.payments| && i != e.id ==> db.payments[i] == w.db.payments[i])
      && var p, q := w.db.payments[e.id], db.payments[e.id];
      && (p.status == Open || p.status == SettlementUnknown) && q.status == Settling && q.startedAt == Some(e.stampedAt)
      && q.mandateDay == (if p.mandateDay.Some? then p.mandateDay else Some(Day(e.stampedAt)))
      && q.owner == p.owner && q.agent == p.agent && q.amount == p.amount && q.intent == p.intent
      && q.requestHash == p.requestHash
      && db.mandates == (if p.status == Open
                         then ReserveOn(w.db.mandates, Account(p), Day(e.reservedAt), p.amount).GetOr(map[])
                         else w.db.mandates)
      && (p.status == Open ==> ReserveOn(w.db.mandates, Account(p), Day(e.reservedAt), p.amount).Some?)
      && q.mode.Some? && (q.mode == Some(X402) ==> q.auth.Some? && q.scope.Some?)
      && (q.mode == Some(X402) <==> p.mode == Some(X402))
      && (p.status == SettlementUnknown
          ==> q.mode == p.mode && q.scope == p.scope && q.auth == p.auth && q.confidential == p.confidential)
      && (e.Direct? ==> q.mode != Some(X402))
  {
    assert PaymentOk(w, e.id);
  }

  lemma BeginKeeps(w: World, e: Event)
    requires (e.Direct? || e.Exact?) && Timely(w, e) && FenceOk(w)
    ensures FenceOk(Begin(w, e))
  {
    if ClaimOf(w.db, e).Claimed? {
      BeginShape(w, e);
      var w1 := Begin(w, e);
      forall i | 0 <= i < |w1.attempts| ensures LiveOk(w1, i) { if i < |w.attempts| { assert LiveOk(w, i); } }
      forall id | 0 <= id < |w1.db.payments| ensures PaymentOk(w1, id) { assert PaymentOk(w, id); }
      BeginAuthorizations(w, e);
    }
  }

  lemma BeginAuthorizations(w: World, e: Event)
    requires (e.Direct? || e.Exact?) && Timely(w, e) && FenceOk(w) && ClaimOf(w.db, e).Claimed?
    ensures AuthorizationsOk(ClaimOf(w.db, e).db)
  {
    BeginShape(w, e);
    var db := ClaimOf(w.db, e).db;
    forall i, j | 0 <= i < j < |db.payments| ensures !Conflicting(db.payments[i], db.payments[j]) {
      assert !Conflicting(w.db.payments[i], w.db.payments[j]);
      if e.Exact? {
        var other := if i == e.id then j else i;
        assert (i == e.id || j == e.id) ==> !SpendsSame(w.db.payments[other], e.scope, e.payerAuth);
      }
    }
  }

  lemma SweepKeeps(w: World, at: Time)
    requires FenceOk(w)
    ensures FenceOk(Next(w, Sweep(at)))
  {
    var w1 := Next(w, Sweep(at));
    forall i | 0 <= i < |w1.attempts| ensures LiveOk(w1, i) {
      assert LiveOk(w, i);
    }
    forall id | 0 <= id < |w1.db.payments| ensures PaymentOk(w1, id) { assert PaymentOk(w, id); }
    forall i, j | 0 <= i < j < |w1.db.payments| ensures !Conflicting(w1.db.payments[i], w1.db.payments[j]) {
      assert !Conflicting(w.db.payments[i], w.db.payments[j]);
    }
  }

  /** With a clock that never runs backwards, every event keeps every live attempt fenced. */
  lemma NextKeepsFences(w: World, e: Event)
    requires FenceOk(w)
    ensures FenceOk(Next(w, e))
  {
    if e.Direct? || e.Exact? {
      if Timely(w, e) { BeginKeeps(w, e); }
    } else if e.Sweep? {
      SweepKeeps(w, e.at);
    } else if e.SettleWrite? || e.FailWrite? {
      WriteKeeps(w, e);
    } else {
      QuietKeeps(w, e);
    }
  }

  lemma WriteKeeps(w: World, e: Event)
    requires FenceOk(w) && (e.SettleWrite? || e.FailWrite?)
    ensures FenceOk(Next(w, e))
  {
    var w1 := Next(w, e);
    WriteAttempts(w, e);
    forall id | 0 <= id < |w1.db.payments| ensures PaymentOk(w1, id) { assert PaymentOk(w, id); }
    forall i, j | 0 <= i < j < |w1.db.payments| ensures !Conflicting(w1.db.payments[i], w1.db.payments[j]) {
      assert !Conflicting(w.db.payments[i], w.db.payments[j]);
    }
  }

  lemma WriteAttempts(w: World, e: Event)
    requires FenceOk(w) && (e.SettleWrite? || e.FailWrite?)
    ensures var w1 := Next(w, e); forall i :: 0 <= i < |w1.attempts| ==> LiveOk(w1, i)
  {
    var w1 := Next(w, e);
    forall i | 0 <= i < |w1.attempts| ensures LiveOk(w1, i) {
      assert LiveOk(w, i);
      if e.attempt < |w.attempts| { assert LiveOk(w, e.attempt); }
    }
  }

  lemma QuietKeeps(w: World, e: Event)
    requires FenceOk(w) && !e.Direct? && !e.Exact? && !e.Sweep? && !e.SettleWrite? && !e.FailWrite?
    ensures FenceOk(Next(w, e))
  {
    var w1 := Next(w, e);
    QuietPayments(w, e);
    forall i | 0 <= i < |w1.attempts| ensures LiveOk(w1, i) { assert LiveOk(w, i); }
    QuietAuthorizations(w, e);
  }

  lemma QuietPayments(w: World, e: Event)
    requires FenceOk(w) && !e.Direct? && !e.Exact? && !e.Sweep? && !e.SettleWrite? && !e.FailWrite?
    ensures var w1 := Next(w, e); forall id :: 0 <= id < |w1.db.payments| ==> PaymentOk(w1, id)
  {
    var w1 := Next(w, e);
    forall id | 0 <= id < |w1.db.payments|
      ensures PaymentOk(w1, id)
    {
      if id < |w.db.payments| { assert PaymentOk(w, id); }
    }
  }

  lemma QuietAuthorizations(w: World, e: Event)
    requires FenceOk(w) && !e.Direct? && !e.Exact? && !e.Sweep? && !e.SettleWrite? && !e.FailWrite?
    ensures AuthorizationsOk(Next(w, e).db)
  {
    var w1 := Next(w, e);
    forall i, j | 0 <= i < j < |w1.db.payments| ensures !Conflicting(w1.db.payments[i], w1.db.payments[j]) {
      if j < |w.db.payments| { assert !Conflicting(w.db.payments[i], w.db.payments[j]); }
      if e.Challenge? { assert e.id < |w.db.payments| ==> PaymentOk(w, e.id); }
    }
  }

  lemma {:induction false} ExecKeepsFences(now: Time, mandates: map<nat, Mandate>, es: seq<Event>)
    ensures FenceOk(Exec(Start(now, mandates), es))
  {
    if es != [] {
      ExecKeepsFences(now, mandates, es[..|es| - 1]);
      NextKeepsFences(Exec(Start(now, mandates), es[..|es| - 1]), es[|es| - 1]);
    }
  }

  /** A write of an attempt changes its payment only while that attempt made the latest claim and the
      payment has not left it; a stale attempt changes nothing at all. */
  lemma {:induction false} OnlyTheCurrentAttemptWrites(now: Time, mandates: map<nat, Mandate>, es: seq<Event>, e: Event)
    requires e.SettleWrite? || e.FailWrite?
    ensures
      var w := Exec(Start(now, mandates), es);
      Next(w, e).db != w.db ==>
        && e.attempt < |w.attempts| && w.attempts[e.attempt].payment in w.current
        && w.current[w.attempts[e.attempt].payment] == e.attempt
        && w.db.payments[w.attempts[e.attempt].payment].status == Settling
  {
    ExecKeepsFences(now, mandates, es);
    var w := Exec(Start(now, mandates), es);
    if e.attempt < |w.attempts| { assert LiveOk(w, e.attempt); }
  }

  /** One token authorization never pays for two x402 payments of a deployment. */
  lemma {:induction false} AuthorizationsNeverShared(now: Time, mandates: map<nat, Mandate>, es: seq<Event>, i: nat,
                                                     j: nat)
    ensures
      var ps := Exec(Start(now, mandates), es).db.payments;
      i < |ps| && j < |ps| && Conflicting(ps[i], ps[j]) ==> i == j
  {
    ExecKeepsFences(now, mandates, es);
    var ps := Exec(Start(now, mandates), es).db.payments;
    if i < |ps| && j < |ps| && i != j {
      assert !Conflicting(ps[if i < j then i else j], ps[if i < j then j else i]);
    }
  }

  // ----- what a payment keeps -----

  /** What a payment keeps for good. */
  predicate Keeps(p: Payment, q: Payment) {
    && q.owner == p.owner && q.agent == p.agent && q.amount == p.amount && q.intent == p.intent
    && q.requestHash == p.requestHash
    && (p.status != Open
        ==> q.mode == p.mode && q.scope == p.scope && q.auth == p.auth && q.confidential == p.confidential
            && q.mandateDay == p.mandateDay)
    && (p.status == Failed || p.status == Consumed ==> q == p)
    && (p.status == Settled ==> q == p || (q.status == Consumed && q == p.(status := Consumed, receipt := q.receipt)))
    && (p.status != Open ==> q.status != Open)
  }

  lemma ClaimEvolves(w: World, e: Event, id: nat)
    requires FenceOk(w) && id < |w.db.payments| && (e.Direct? || e.Exact?)
    ensures id < |Next(w, e).db.payments| && Keeps(w.db.payments[id], Next(w, e).db.payments[id])
    ensures Next(w, e).db.payments[id].status == Consumed && !e.Consume? ==> w.db.payments[id].status == Consumed
  {
    assert PaymentOk(w, id);
    if Timely(w, e) && ClaimOf(w.db, e).Claimed? { BeginShape(w, e); }
  }

  lemma WriteEvolves(w: World, e: Event, id: nat)
    requires FenceOk(w) && id < |w.db.payments| && (e.SettleWrite? || e.FailWrite?)
    ensures id < |Next(w, e).db.payments| && Keeps(w.db.payments[id], Next(w, e).db.payments[id])
    ensures Next(w, e).db.payments[id].status == Consumed && !e.Consume? ==> w.db.payments[id].status == Consumed
  {
    assert PaymentOk(w, id);
  }

  lemma QuietEvolves(w: World, e: Event, id: nat)
    requires FenceOk(w) && id < |w.db.payments| && !e.Direct? && !e.Exact? && !e.SettleWrite? && !e.FailWrite?
    ensures id < |Next(w, e).db.payments| && Keeps(w.db.payments[id], Next(w, e).db.payments[id])
    ensures Next(w, e).db.payments[id].status == Consumed && !e.Consume? ==> w.db.payments[id].status == Consumed
  {
    assert PaymentOk(w, id);
  }

  /** Consumed and failed payments never change, a settled one is only ever consumed, and the mode, scope,
      authorization, confidentiality and mandate day are fixed from the first claim on. */
  lemma PaymentsEvolve(w: World, e: Event, id: nat)
    requires FenceOk(w) && id < |w.db.payments|
    ensures id < |Next(w, e).db.payments| && Keeps(w.db.payments[id], Next(w, e).db.payments[id])
    ensures Next(w, e).db.payments[id].status == Consumed && !e.Consume? ==> w.db.payments[id].status == Consumed
  {
    if e.Direct? || e.Exact? {
      ClaimEvolves(w, e, id);
    } else if e.SettleWrite? || e.FailWrite? {
      WriteEvolves(w, e, id);
    } else {
      QuietEvolves(w, e, id);
    }
  }

  /** From any moment of a run to any later one. */
  lemma {:induction false} PaymentsEvolveForever(now: Time, mandates: map<nat, Mandate>, es: seq<Event>,
                                                 more: seq<Event>, id: nat)
    requires id < |Exec(Start(now, mandates), es).db.payments|
    ensures
      var w := Exec(Start(now, mandates), es);
      id < |Exec(w, more).db.payments| && Keeps(w.db.payments[id], Exec(w, more).db.payments[id])
  {
    var w := Exec(Start(now, mandates), es);
    if more != [] {
      PaymentsEvolveForever(now, mandates, es, more[..|more| - 1], id);
      var v := Exec(w, more[..|more| - 1]);
      ExecKeepsFences(now, mandates, es);
      FencesFrom(w, more[..|more| - 1]);
      PaymentsEvolve(v, more[|more| - 1], id);
    }
  }

  lemma {:induction false} FencesFrom(w: World, es: seq<Event>)
    requires FenceOk(w)
    ensures FenceOk(Exec(w, es))
  {
    if es != [] {
      FencesFrom(w, es[..|es| - 1]);
      NextKeepsFences(Exec(w, es[..|es| - 1]), es[|es| - 1]);
    }
  }

  // ----- intent keys -----

  predicate IntentsUnique(db: Db) {
    forall i, j :: 0 <= i < j < |db.payments|
                   ==> !SameIntent(db.payments[j], db.payments[i].owner, db.payments[i].intent)
  }

  lemma IntentsStep(w: World, e: Event)
    requires FenceOk(w) && IntentsUnique(w.db)
    ensures IntentsUnique(Next(w, e).db)
  {
    var v := Next(w, e);
    forall i, j | 0 <= i < j < |v.db.payments|
      ensures !SameIntent(v.db.payments[j], v.db.payments[i].owner, v.db.payments[i].intent)
    {
      if j < |w.db.payments| {
        PaymentsEvolve(w, e, i);
        PaymentsEvolve(w, e, j);
        assert !SameIntent(w.db.payments[j], w.db.payments[i].owner, w.db.payments[i].intent);
      } else if e.OpenIntent? {
        assert !SameIntent(w.db.payments[i], e.owner, e.intent);
      }
    }
  }

  /** An owner's intent key opens one payment, however often it is used. */
  lemma {:induction false} IntentsNeverShared(now: Time, mandates: map<nat, Mandate>, es: seq<Event>)
    ensures IntentsUnique(Exec(Start(now, mandates), es).db)
  {
    if es != [] {
      IntentsNeverShared(now, mandates, es[..|es| - 1]);
      ExecKeepsFences(now, mandates, es[..|es| - 1]);
      IntentsStep(Exec(Start(now, mandates), es[..|es| - 1]), es[|es| - 1]);
    }
  }
}
