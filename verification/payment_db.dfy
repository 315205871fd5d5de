/** Payment intents and daily mandates, and the transactions that move them.
    Payments are an append-only table indexed by id; time is in milliseconds. */
module PaymentDb {
  import opened Common

  type Time = nat

  const DAY: nat := 86_400_000
  const STALE: nat := 120_000

  function Day(t: Time): nat { t / DAY }

  datatype Mode = Mock | Authorized | Simulated | X402
  /** The modes a deployment can be configured with. */
  type ConfiguredMode = m: Mode | m == Mock || m == Authorized witness Mock

  datatype Status = Open | Settling | SettlementUnknown | Settled | Failed | Consumed

  /** A token authorization: the payer-and-nonce pair it spends, and the signature over it. */
  datatype Auth = Auth(spends: nat, signature: nat)

  datatype Payment = Payment(owner: nat, agent: Option<nat>, amount: nat, intent: Option<nat>, requestHash: nat,
                             status: Status, startedAt: Option<Time>, mode: Option<Mode>, scope: Option<nat>,
                             auth: Option<Auth>, mandateDay: Option<nat>, confidential: bool, settleTx: Option<nat>,
                             receipt: Option<nat>)

  datatype Mandate = Mandate(limit: nat, spent: nat, day: nat)

  datatype Db = Db(payments: seq<Payment>, mandates: map<nat, Mandate>)

  /** How the process making a claim is configured; an unmetered one only simulates. */
  datatype Deployment = Deployment(mode: ConfiguredMode, metered: bool, scope: nat) {
    function Scope(): Option<nat> { if metered then Some(scope) else None }
  }

  /** The mandate a payment draws on: its agent's, or else its owner's. */
  function Account(p: Payment): nat { p.agent.GetOr(p.owner) }

  /** Rolls a mandate to the given day and adds an amount, unless that passes the daily limit. */
  function Reserve(m: Mandate, day: nat, amount: nat): Option<Mandate> {
    var spent := if m.day == day then m.spent else 0;
    if spent + amount > m.limit then None else Some(Mandate(m.limit, spent + amount, day))
  }

  /** Reserves an amount on an account; an account without a mandate is unlimited. */
  function ReserveOn(mandates: map<nat, Mandate>, account: nat, day: nat, amount: nat): Option<map<nat, Mandate>> {
    if account !in mandates then Some(mandates)
    else
      var next := Reserve(mandates[account], day, amount);
      if next.None? then None else Some(mandates[account := next.value])
  }

  function Release(mandates: map<nat, Mandate>, account: nat, day: nat, amount: nat): map<nat, Mandate> {
    if account in mandates && mandates[account].day == day then
      var m := mandates[account];
      mandates[account := m.(spent := if m.spent >= amount then m.spent - amount else 0)]
    else mandates
  }

  // ----- transactions -----

  datatype Claim = Rejected | Already | Claimed(db: Db)

  function NewPayment(db: Db, owner: nat, agent: Option<nat>, amount: nat, intent: Option<nat>, requestHash: nat): Db {
    db.(payments := db.payments + [Payment(owner, agent, amount, intent, requestHash, Open, None, None, None, None,
                                           None, false, None, None)])
  }

  /** How opening a payment ends: a new one, the one its intent key already opened, or a key used for another
      request. */
  datatype Opening = Opened(db: Db) | Repeated(id: nat) | IntentTaken

  predicate SameIntent(p: Payment, owner: nat, intent: Option<nat>) {
    intent.Some? && p.owner == owner && p.intent == intent
  }

  function FindIntent(ps: seq<Payment>, owner: nat, intent: Option<nat>): (i: nat)
    ensures i <= |ps| && (i < |ps| ==> SameIntent(ps[i], owner, intent))
            && forall j :: 0 <= j < i ==> !SameIntent(ps[j], owner, intent)
  {
    if ps == [] || SameIntent(ps[0], owner, intent) then 0 else 1 + FindIntent(ps[1..], owner, intent)
  }

  function OpenIntentFor(db: Db, owner: nat, agent: Option<nat>, amount: nat, intent: Option<nat>, requestHash: nat)
      : Opening {
    var i := FindIntent(db.payments, owner, intent);
    if i == |db.payments| then Opened(NewPayment(db, owner, agent, amount, intent, requestHash))
    else if db.payments[i].requestHash == requestHash then Repeated(i) else IntentTaken
  }

  function NewMandate(db: Db, account: nat, limit: nat, day: nat): Db {
    db.(mandates := db.mandates[account := Mandate(limit, 0, day)])
  }

  /** Binds an open payment to the x402 protocol. */
  function Challenged(db: Db, id: nat, owner: nat, scope: nat): Claim {
    if id >= |db.payments| || db.payments[id].owner != owner then Rejected
    else
      var p := db.payments[id];
      if p.status != Open || (p.mode.Some? && p.mode != Some(X402)) then Rejected
      else if p.mode.Some? then (if p.scope == Some(scope) then Already else Rejected)
      else Claimed(db.(payments := db.payments[id := p.(mode := Some(X402), scope := Some(scope))]))
  }

  /** The claim of a direct settlement.  The clock is read for the reservation at `reservedAt` and again,
      for the fence and the recorded day, at `stampedAt`. */
  function ClaimDirect(db: Db, d: Deployment, id: nat, owner: nat, confidential: bool, auth: Option<Auth>,
                       admitted: bool, reservedAt: Time, stampedAt: Time): Claim {
    if id >= |db.payments| || db.payments[id].owner != owner then Rejected
    else
      var p := db.payments[id];
      if p.mode == Some(X402) then Rejected
      else if p.status == Settled then Already
      else if p.status != Open && !(p.status == SettlementUnknown && p.mode.Some?) then Rejected
      else if p.status == Open && ((d.mode == Authorized && auth.None?) || (confidential && p.agent.Some?) || !admitted)
        then Rejected
      else if p.status != Open
        && (p.scope != d.Scope() || confidential != p.confidential || (auth.Some? && p.auth != auth)) then Rejected
      else
        var mandates := if p.status == Open then ReserveOn(db.mandates, Account(p), Day(reservedAt), p.amount)
          else Some(db.mandates);
        if mandates.None? then Rejected
        else
          Claimed(Db(db.payments[id := Stamped(p, d, confidential, auth, stampedAt)], mandates.value))
  }

  /** A payment as a direct claim leaves it: what an earlier claim fixed stays. */
  function Stamped(p: Payment, d: Deployment, confidential: bool, auth: Option<Auth>, at: Time): Payment {
    p.(status := Settling, startedAt := Some(at),
       mode := Some(p.mode.GetOr(if d.metered then d.mode else Simulated)),
       auth := if p.auth.Some? then p.auth else auth,
       mandateDay := Some(p.mandateDay.GetOr(Day(at))),
       confidential := confidential, scope := d.Scope())
  }

  /** The same token authorization is bound to another x402 payment of this deployment. */
  predicate BoundElsewhere(db: Db, id: nat, scope: nat, auth: Auth) {
    exists i :: 0 <= i < |db.payments| && i != id && SpendsSame(db.payments[i], scope, auth)
  }

  predicate SpendsSame(p: Payment, scope: nat, auth: Auth) {
    p.mode == Some(X402) && p.scope == Some(scope) && p.auth.Some? && p.auth.value.spends == auth.spends
  }

  /** The claim of an x402 settlement; only the first one reserves. */
  function ClaimX402(db: Db, id: nat, owner: nat, scope: nat, requestHash: nat, auth: Auth, admitted: bool,
                     reservedAt: Time, stampedAt: Time): Claim {
    if id >= |db.payments| || db.payments[id].owner != owner then Rejected
    else
      var p := db.payments[id];
      if p.mode != Some(X402) || p.scope != Some(scope) || p.requestHash != requestHash then Rejected
      else if (p.auth.Some? && p.auth.value != auth) || BoundElsewhere(db, id, scope, auth) then Rejected
      else if p.status == Settled || p.status == Consumed then Already
      else if p.status != Open && p.status != SettlementUnknown then Rejected
      else if p.auth.None? && !admitted then Rejected
      else
        var mandates := if p.auth.None? then ReserveOn(db.mandates, Account(p), Day(reservedAt), p.amount)
          else Some(db.mandates);
        if mandates.None? then Rejected
        else
          var q := p.(status := Settling, startedAt := Some(stampedAt), auth := Some(auth),
                      mandateDay := Some(p.mandateDay.GetOr(Day(stampedAt))), confidential := false);
          Claimed(Db(db.payments[id := q], mandates.value))
  }

  /** The payment is still in the claim this fence was stamped for. */
  predicate InClaim(db: Db, id: nat, fence: Time) {
    id < |db.payments| && db.payments[id].status == Settling && db.payments[id].startedAt == Some(fence)
  }

  function WriteSettled(db: Db, id: nat, fence: Time, tx: nat): Db {
    if !InClaim(db, id, fence) then db
    else db.(payments :=
             db.payments[id := db.payments[id].(status := Settled, settleTx := Some(tx), startedAt := None)])
  }

  /** A proven revert fails the payment and gives its reservation back; anything else only quarantines it. */
  function WriteFailed(db: Db, id: nat, fence: Time, reverted: bool): Db {
    if !InClaim(db, id, fence) then db
    else
      var p := db.payments[id];
      Db(db.payments[id := p.(status := if reverted then Failed else SettlementUnknown)],
         if reverted && p.mandateDay.Some? then Release(db.mandates, Account(p), p.mandateDay.value, p.amount)
         else db.mandates)
  }

  function SweptPayment(p: Payment, at: Time): Payment {
    if p.status == Settling && p.startedAt.Some? && p.startedAt.value + STALE < at then p.(status := SettlementUnknown)
    else p
  }

  /** Quarantines every claim older than two minutes. */
  function Swept(db: Db, at: Time): Db {
    db.(payments := seq(|db.payments|, i requires 0 <= i < |db.payments| => SweptPayment(db.payments[i], at)))
  }

  function WriteConsumed(db: Db, id: nat, receipt: nat): Db {
    if id >= |db.payments| || db.payments[id].status != Settled then db
    else db.(payments := db.payments[id := db.payments[id].(status := Consumed, receipt := Some(receipt))])
  }

  // ----- the tables -----

  /** The two tables; each method is one transaction of the gateway. */
  class PaymentTables {
    var payments: seq<Payment>
    var mandates: map<nat, Mandate>

    constructor (m: map<nat, Mandate>)
      ensures Contents() == Db([], m)
    {
      payments, mandates := [], m;
    }

    function Contents(): Db
      reads this
    {
      Db(payments, mandates)
    }

    /** Opens a payment, or finds the one that this intent key opened for the same request. */
    method OpenPayment(owner: nat, agent: Option<nat>, amount: nat, intent: Option<nat>, requestHash: nat)
        returns (id: Option<nat>)
      modifies this
      ensures
        var r := OpenIntentFor(old(Contents()), owner, agent, amount, intent, requestHash);
        && id == (if r.Opened? then Some(|old(payments)|) else if r.Repeated? then Some(r.id) else None)
        && Contents() == if r.Opened? then r.db else old(Contents())
    {
      if intent.Some? {
        var existing := FindIntent(payments, owner, intent);
        if existing < |payments| {
          return if payments[existing].requestHash == requestHash then Some(existing) else None;
        }
      }
      id := Some(|payments|);
      payments := payments + [Payment(owner, agent, amount, intent, requestHash, Open, None, None, None, None, None,
                                      false, None, None)];
    }

    /** Locks the mandate, rolls it to the day, and adds the amount; false means the limit was passed. */
    method AssertMandate(account: nat, day: nat, amount: nat) returns (ok: bool)
      modifies this`mandates
      ensures ok == ReserveOn(old(mandates), account, day, amount).Some?
      ensures mandates == if ok then ReserveOn(old(mandates), account, day, amount).value else old(mandates)
    {
      if account !in mandates { return true; }
      var m := mandates[account];
      var spent := if m.day == day then m.spent else 0;
      if spent + amount > m.limit { return false; }
      mandates := mandates[account := m.(day := day, spent := spent + amount)];
      ok := true;
    }

    method ClaimSettlement(d: Deployment, id: nat, owner: nat, confidential: bool, auth: Option<Auth>, admitted: bool,
                           reservedAt: Time, stampedAt: Time) returns (claimed: bool)
      modifies this
      ensures var r := ClaimDirect(old(Contents()), d, id, owner, confidential, auth, admitted, reservedAt, stampedAt);
        && claimed == r.Claimed?
        && Contents() == if r.Claimed? then r.db else old(Contents())
    {
      if id >= |payments| || payments[id].owner != owner { return false; }
      var p := payments[id];
      if p.mode == Some(X402) || p.status == Settled || p.status == Consumed { return false; }
      if p.status != Open && !(p.status == SettlementUnknown && p.mode.Some?) { return false; }
      if p.status == Open {
        if (d.mode == Authorized && auth.None?) || (confidential && p.agent.Some?) || !admitted { return false; }
        var ok := AssertMandate(Account(p), Day(reservedAt), p.amount);
        if !ok { return false; }
      } else {
        if p.scope != d.Scope() || confidential != p.confidential || (auth.Some? && p.auth != auth) { return false; }
      }
      var q := p.(status := Settling, startedAt := Some(stampedAt));
      if q.mode.None? { q := q.(mode := Some(if d.metered then d.mode else Simulated)); }
      if q.auth.None? { q := q.(auth := auth); }
      if q.mandateDay.None? { q := q.(mandateDay := Some(Day(stampedAt))); }
      q := q.(confidential := confidential, scope := d.Scope());
      assert q == Stamped(p, d, confidential, auth, stampedAt);
      payments := payments[id := q];
      claimed := true;
    }

    method ClaimX402Settlement(id: nat, owner: nat, scope: nat, requestHash: nat, auth: Auth, admitted: bool,
                               reservedAt: Time, stampedAt: Time) returns (claimed: bool)
      modifies this
      ensures var r := ClaimX402(old(Contents()), id, owner, scope, requestHash, auth, admitted, reservedAt, stampedAt);
        && claimed == r.Claimed?
        && Contents() == if r.Claimed? then r.db else old(Contents())
    {
      if id >= |payments| || payments[id].owner != owner { return false; }
      var p := payments[id];
      if p.mode != Some(X402) || p.scope != Some(scope) || p.requestHash != requestHash { return false; }
      if p.auth.Some? && p.auth.value != auth { return false; }
      if BoundElsewhere(Contents(), id, scope, auth) || (p.status != Open && p.status != SettlementUnknown) {
        return false;
      }
      if p.auth.None? {
        if !admitted { return false; }
        var ok := AssertMandate(Account(p), Day(reservedAt), p.amount);
        if !ok { return false; }
      }
      var q := p.(status := Settling, startedAt := Some(stampedAt), auth := Some(auth), confidential := false);
      if q.mandateDay.None? { q := q.(mandateDay := Some(Day(stampedAt))); }
      payments := payments[id := q];
      claimed := true;
    }

    method FinishSettlement(id: nat, fence: Time, tx: nat)
      modifies this`payments
      ensures Contents() == WriteSettled(old(Contents()), id, fence, tx)
    {
      if id < |payments| && payments[id].status == Settling && payments[id].startedAt == Some(fence) {
        payments := payments[id := payments[id].(status := Settled, settleTx := Some(tx), startedAt := None)];
      }
    }

    method FailSettlement(id: nat, fence: Time, reverted: bool)
      modifies this
      ensures Contents() == WriteFailed(old(Contents()), id, fence, reverted)
    {
      if id < |payments| && payments[id].status == Settling && payments[id].startedAt == Some(fence) {
        var p := payments[id];
        payments := payments[id := p.(status := if reverted then Failed else SettlementUnknown)];
        if reverted && p.mandateDay.Some? && Account(p) in mandates && mandates[Account(p)].day == p.mandateDay.value {
          var m := mandates[Account(p)];
          mandates := mandates[Account(p) := m.(spent := if m.spent >= p.amount then m.spent - p.amount else 0)];
        }
      }
    }

    method Quarantine(at: Time)
      modifies this`payments
      ensures Contents() == Swept(old(Contents()), at)
    {
      var ps := payments;
      payments := seq(|ps|, i requires 0 <= i < |ps| => SweptPayment(ps[i], at));
      assert Contents().payments == Swept(old(Contents()), at).payments;
    }
  }
}
