/** The durable row of one agent run, its hash-chained journal, and the atomic
    transactions of the run store.  Sealing is the identity; the journal MAC is an
    arbitrary function of the hashed material. */
module AgentStore {
  import opened Common

  type Time = nat
  type Token = nat
  type Hash = nat

  datatype Status = Queued | Running | AwaitingPayment | OutcomeUnknown
                  | Completed | Cancelled | Failed | Exhausted

  datatype Phase = Ready | Challenge | AwaitingAuthorization | PaymentReady
                 | SettlementDispatched | Paid | InferenceDispatched

  datatype Kind = Created | StepPrepared | SessionExpired | BudgetExhausted | PaymentRequired | Stopped
                | SettlementMarked | SettlementCompleted | InferenceMarked | InferenceCompleted
                | UnknownOutcome | StepFailed | StateUnavailable | LeaseExpired
                | CancelAsked | SettlementReconciled | PreparationResumed | PaymentAuthorized

  /** A finished step: what was paid for, and the receipt it produced. */
  datatype Entry = Entry(receipt: Hash, paymentId: nat, settlementTx: nat, amount: nat)

  /** The step in progress. */
  datatype Pending = Pending(key: nat, expiresAt: Time, paymentId: Option<nat>, amount: Option<nat>,
                             settlementTx: Option<nat>, paid: bool)

  datatype Limits = Limits(steps: nat, budget: nat, deadline: Time)

  datatype State = State(limits: Limits, phase: Phase, history: seq<Entry>, pending: Option<Pending>, final: bool)

  datatype Row = Row(id: nat, owner: nat, intent: nat, requestHash: nat, createdAt: Time,
                     limits: Limits, status: Status, step: nat, spent: nat, sealed: State, version: nat,
                     leaseToken: Option<Token>, leaseUntil: Time, cancelRequested: bool,
                     ledgerSequence: nat, ledgerHead: Hash)

  datatype Material = Material(runId: nat, sequence: nat, kind: Kind, previous: Hash, payload: nat, createdAt: Time)

  datatype Action = Action(material: Material, actionHash: Hash)

  datatype Config = Config(mac: Material -> Hash, lease: nat, mock: bool)

  const ZERO: Hash := 0

  predicate Terminal(s: Status) { s in {Completed, Cancelled, Failed, Exhausted} }

  /** A committed marker of this phase says an external call may have happened. */
  predicate Uncertain(p: Phase) { p == SettlementDispatched || p == InferenceDispatched }

  predicate IsDispatch(k: Kind) { k == SettlementMarked || k == InferenceMarked }

  function Total(history: seq<Entry>): nat {
    if history == [] then 0 else Total(history[..|history| - 1]) + history[|history| - 1].amount
  }

  /** What a state says has been spent; a paid step without an amount is malformed. */
  function SpentBy(s: State): Option<nat> {
    if s.pending.None? || !s.pending.value.paid then Some(Total(s.history))
    else if s.pending.value.amount.None? then None
    else Some(Total(s.history) + s.pending.value.amount.value)
  }

  /** The metadata check made whenever a sealed state is opened. */
  function Open(row: Row): Option<State> {
    var s := row.sealed;
    if s.limits == row.limits && |s.history| == row.step && SpentBy(s) == Some(row.spent) then Some(s) else None
  }

  function NewAction(c: Config, row: Row, kind: Kind, payload: nat, now: Time): Action {
    var m := Material(row.id, row.ledgerSequence + 1, kind, row.ledgerHead, payload, now);
    Action(m, c.mac(m))
  }

  // ----- the fenced update -----

  datatype Fence = Held(token: Token) | Version(owner: Option<nat>, version: nat)
  datatype Refusal = NotFound | Conflict

  /** What a caller asks to change; absent fields keep their value. */
  datatype Patch = Patch(status: Option<Status>, clearLease: bool, step: Option<nat>, spent: Option<nat>, cancel: bool)

  const NoPatch := Patch(None, false, None, None, false)

  function Ending(s: Status): Patch { Patch(Some(s), true, None, None, false) }

  datatype Mutation = Refuse | Apply(patch: Patch, sealed: Option<State>, action: Action)
  datatype Written = Refused(why: Refusal) | Wrote(row: Row, action: Action)

  function FenceRefusal(row: Row, fence: Fence, now: Time): Option<Refusal> {
    match fence
    case Version(owner, version) =>
      if owner.Some? && row.owner != owner.value then Some(NotFound)
      else if version != row.version then Some(Conflict) else None
    case Held(token) =>
      if row.status != Running || row.leaseToken != Some(token) || row.leaseUntil <= now then Some(Conflict) else None
  }

  function Patched(row: Row, p: Patch, sealed: Option<State>, a: Action): Row {
    row.(status := p.status.GetOr(row.status), step := p.step.GetOr(row.step), spent := p.spent.GetOr(row.spent),
         leaseToken := if p.clearLease then None else row.leaseToken,
         cancelRequested := row.cancelRequested || p.cancel,
         sealed := sealed.GetOr(row.sealed), version := row.version + 1,
         ledgerSequence := a.material.sequence, ledgerHead := a.actionHash)
  }

  function ChangeRow(row: Row, fence: Fence, now: Time, m: Mutation): Written {
    var refusal := FenceRefusal(row, fence, now);
    if refusal.Some? then Refused(refusal.value)
    else if m.Refuse? then Refused(Conflict)
    else Wrote(Patched(row, m.patch, m.sealed, m.action), m.action)
  }

  /** The mutation of AgentRuntime.write, decided on the locked row: a dispatch marker is
      admitted only under a live lease, before the deadline and before any cancel. */
  function Mutate(c: Config, row: Row, kind: Kind, state: Option<State>, p: Patch, now: Time, payload: nat): Mutation {
    if IsDispatch(kind) && (row.leaseToken.None? || row.leaseUntil <= now) then Refuse
    else if IsDispatch(kind) && (row.cancelRequested || row.limits.deadline <= now) then
      Apply(Ending(if row.cancelRequested then Cancelled else Exhausted), None,
            NewAction(c, row, Stopped, payload, now))
    else
      Apply(Overridden(row, p), state, NewAction(c, row, kind, payload, now))
  }

  /** A requested cancel turns every write that would continue or complete the run into a cancellation. */
  function Overridden(row: Row, p: Patch): Patch {
    if row.cancelRequested && p.status.Some? && p.status.value in {Queued, Completed, AwaitingPayment}
    then p.(status := Some(Cancelled)) else p
  }

  function Write(c: Config, row: Row, fence: Fence, kind: Kind, state: Option<State>, p: Patch, now: Time, payload: nat)
      : Written {
    ChangeRow(row, fence, now, Mutate(c, row, kind, state, p, now, payload))
  }

  /** The lease sweep: only a run whose lease is still expired under the lock is touched. */
  function Expiry(c: Config, row: Row, now: Time, payload: nat): Mutation {
    if row.status != Running || row.leaseToken.None? || row.leaseUntil > now then Refuse
    else Apply(Ending(OutcomeUnknown), None, NewAction(c, row, LeaseExpired, payload, now))
  }

  function Sweep(c: Config, row: Row, version: nat, now: Time, payload: nat): Written {
    ChangeRow(row, Version(None, version), now, Expiry(c, row, now, payload))
  }

  function AfterSweep(c: Config, row: Row, version: nat, now: Time, payload: nat): Row {
    var written := Sweep(c, row, version, now, payload);
    if written.Wrote? then written.row else row
  }

  function Claimed(c: Config, row: Row, token: Token, now: Time): Row {
    row.(status := Running, leaseToken := Some(token), leaseUntil := now + c.lease, version := row.version + 1)
  }

  function Beat(c: Config, row: Row, token: Token, now: Time): Option<Row> {
    if FenceRefusal(row, Held(token), now).Some? then None else Some(row.(leaseUntil := now + c.lease))
  }

  // ----- the store itself -----

  /** Rows and journals keyed by run id.  Each method is one transaction. */
  class AgentRunStore {
    const config: Config
    var rows: map<nat, Row>
    var journals: map<nat, seq<Action>>

    ghost predicate Valid()
      reads this
    {
      && rows.Keys == journals.Keys
      && (forall id :: id in rows ==> rows[id].id == id)
      && (forall i, j :: i in rows && j in rows && rows[i].owner == rows[j].owner && rows[i].intent == rows[j].intent
                         ==> i == j)
    }

    constructor (c: Config)
      ensures Valid() && config == c && rows == map[]
    {
      config, rows, journals := c, map[], map[];
    }

    /** Creates a run once per (owner, idempotency key); a repeat returns the run that exists. */
    method Insert(run: Row, action: Action) returns (saved: Row)
      requires Valid() && run.id !in rows
      modifies this
      ensures Valid()
      ensures saved.owner == run.owner && saved.intent == run.intent && saved.id in rows && rows[saved.id] == saved
      ensures (exists id :: id in old(rows) && old(rows)[id].owner == run.owner && old(rows)[id].intent == run.intent)
              ==> rows == old(rows) && journals == old(journals)
      ensures (forall id :: id in old(rows) ==> old(rows)[id].owner != run.owner || old(rows)[id].intent != run.intent)
              ==> saved == run && rows == old(rows)[run.id := run] && journals == old(journals)[run.id := [action]]
    {
      var left := rows.Keys;
      while left != {}
        invariant left <= rows.Keys
        invariant forall id :: id in rows.Keys - left ==> rows[id].owner != run.owner || rows[id].intent != run.intent
        decreases left
      {
        var id :| id in left;
        if rows[id].owner == run.owner && rows[id].intent == run.intent { return rows[id]; }
        left := left - {id};
      }
      rows, journals := rows[run.id := run], journals[run.id := [action]];
      saved := run;
    }

    /** Hands the oldest queued run to a fresh token, or finds that nothing is queued. */
    method Claim(token: Token, now: Time) returns (claimed: Option<Row>)
      requires Valid()
      modifies this`rows
      ensures Valid()
      ensures claimed.None? ==> rows == old(rows) && forall id :: id in rows ==> rows[id].status != Queued
      ensures claimed.Some? ==>
        && claimed.value.id in old(rows) && old(rows)[claimed.value.id].status == Queued
        && claimed.value == Claimed(config, old(rows)[claimed.value.id], token, now)
        && rows == old(rows)[claimed.value.id := claimed.value]
        && forall id :: id in old(rows) && old(rows)[id].status == Queued
                        ==> !Earlier(old(rows)[id], old(rows)[claimed.value.id])
    {
      var best: Option<Row> := None;
      var left := rows.Keys;
      while left != {}
        invariant left <= rows.Keys
        invariant best.None? ==> forall id :: id in rows.Keys - left ==> rows[id].status != Queued
        invariant best.Some?
                  ==> best.value.id in rows && rows[best.value.id] == best.value && best.value.status == Queued
        invariant best.Some? ==> forall id :: id in rows.Keys - left && rows[id].status == Queued
                                              ==> !Earlier(rows[id], best.value)
        decreases left
      {
        var id :| id in left;
        if rows[id].status == Queued && (best.None? || Earlier(rows[id], best.value)) { best := Some(rows[id]); }
        left := left - {id};
      }
      if best.None? { return None; }
      var row := Claimed(config, best.value, token, now);
      rows := rows[row.id := row];
      claimed := Some(row);
    }

    /** Extends a live lease; says whether the token still holds the run. */
    method Heartbeat(id: nat, token: Token, now: Time) returns (alive: bool)
      requires Valid()
      modifies this`rows
      ensures Valid()
      ensures alive == (id in old(rows) && Beat(config, old(rows)[id], token, now).Some?)
      ensures rows == if alive then old(rows)[id := Beat(config, old(rows)[id], token, now).value] else old(rows)
    {
      if id !in rows || rows[id].status != Running || rows[id].leaseToken != Some(token) || rows[id].leaseUntil <= now {
        return false;
      }
      rows := rows[id := rows[id].(leaseUntil := now + config.lease)];
      alive := true;
    }

    /** Locks the row, checks the fence, and commits the row together with its journal action. */
    method Change(id: nat, fence: Fence, now: Time, mutate: Row -> Mutation) returns (r: Written)
      requires Valid()
      modifies this
      ensures Valid()
      ensures id !in old(rows) ==> r == Refused(NotFound)
      ensures id in old(rows) ==> r == ChangeRow(old(rows)[id], fence, now, mutate(old(rows)[id]))
      ensures r.Refused? ==> rows == old(rows) && journals == old(journals)
      ensures r.Wrote?
              ==> rows == old(rows)[id := r.row] && journals == old(journals)[id := old(journals)[id] + [r.action]]
    {
      if id !in rows { return Refused(NotFound); }
      var row := rows[id];
      var refusal := FenceRefusal(row, fence, now);
      if refusal.Some? { return Refused(refusal.value); }
      var change := mutate(row);
      if change.Refuse? { return Refused(Conflict); }
      var updated := Patched(row, change.patch, change.sealed, change.action);
      rows := rows[id := updated];
      journals := journals[id := journals[id] + [change.action]];
      r := Wrote(updated, change.action);
    }
  }

  predicate Earlier(a: Row, b: Row) {
    a.createdAt < b.createdAt || (a.createdAt == b.createdAt && a.id < b.id)
  }

  // ----- facts the protocol proofs use -----

  lemma TotalAppend(h: seq<Entry>, e: Entry)
    ensures Total(h + [e]) == Total(h) + e.amount
  {
    assert (h + [e])[..|h|] == h;
  }

  /** A token that does not hold a live lease can change nothing. */
  lemma OnlyTheHolderWrites(c: Config, row: Row, token: Token, kind: Kind, state: Option<State>, p: Patch, now: Time,
                            payload: nat)
    ensures Write(c, row, Held(token), kind, state, p, now, payload).Wrote? ==>
      row.status == Running && row.leaseToken == Some(token) && now < row.leaseUntil
  {}
}
