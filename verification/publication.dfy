/** Claimed inference requests, sessions and policy activations interleaving on one database:
    the claim transaction, the provider call, and the one transaction that publishes a result. */
module Publication {
  import opened Common
  import opened Executions
  import PaymentDb
  import Settlement
  import Tcb = TcbLifecycle

  /** Where a request is: before its claim, holding a committed claim, inside its publication transaction
      with the provider called, answered, or past the policy gate, or gone. */
  datatype Pc = Arrived | Claimed | Calling | Answered(receipt: nat) | Admitted(receipt: nat) | Gone

  /** A request and the policy it was started under. */
  datatype Request = Request(binding: Binding, policy: Tcb.Policy, pc: Pc)

  datatype Receipt = Receipt(hash: nat, payment: nat, owner: nat, policy: Tcb.Policy)
  datatype Response = Response(requestHash: nat, receipt: nat)
  datatype Usage = Usage(calls: nat, units: nat)
  datatype Dispatch = Dispatch(request: nat, binding: Binding)

  /** A session opening between its policy check and its commit. */
  datatype Opening = Opening(policy: Tcb.Policy, open: bool)

  /** The advisory lifecycle lock: shared by publications and session openings, exclusive to one operation. */
  datatype World = World(pay: Settlement.World, tcb: seq<Tcb.Row>, active: nat, exclusive: bool,
                         requests: seq<Request>, openings: seq<Opening>, sessions: seq<Tcb.Policy>,
                         executions: map<nat, Execution>, receipts: seq<Receipt>, usage: map<nat, Usage>,
                         responses: map<(nat, nat), Response>, dispatches: seq<Dispatch>)

  datatype Event = Pay(e: Settlement.Event)
                 | LockLifecycle | CommitLifecycle(op: Tcb.Event) | UnlockLifecycle
                 | Arrive(binding: Binding, policy: Tcb.Policy)
                 | ClaimTx(r: nat, proven: bool, acknowledged: bool)
                 | BeginPublish(r: nat, proven: bool)
                 | ProviderAnswers(r: nat, receipt: nat)
                 | AdmitPublish(r: nat)
                 | CommitPublish(r: nat)
                 | Abandon(r: nat)
                 | AdmitSession(policy: Tcb.Policy) | CommitSession(s: nat) | AbandonSession(s: nat)

  /** Someone holds the lifecycle lock shared. */
  predicate SharedHeld(w: World) {
    (exists i :: 0 <= i < |w.requests| && w.requests[i].pc.Admitted?)
      || (exists i :: 0 <= i < |w.openings| && w.openings[i].open)
  }

  /** The policy gate: the lock can be shared and the active policy is the expected one. */
  predicate GateOpen(w: World, policy: Tcb.Policy) {
    !w.exclusive && Tcb.ActiveRow(w.tcb).Some? && Tcb.PolicyOf(w.tcb[Tcb.ActiveRow(w.tcb).value]) == Some(policy)
  }

  /** The payment can be consumed by this binding; `proven` stands for the settlement proof on chain. */
  predicate Consumable(w: World, b: Binding, price: nat, proven: bool) {
    && b.payment < |w.pay.db.payments|
    && var p := w.pay.db.payments[b.payment];
       p.owner == b.owner && p.requestHash == b.requestHash && p.status == PaymentDb.Settled && price <= p.amount
         && proven
  }

  predicate Answerable(w: World, b: Binding) { b.key.Some? && (b.owner, b.key.value) in w.responses }

  function At(w: World, r: nat, pc: Pc): World
    requires r < |w.requests|
  {
    w.(requests := w.requests[r := w.requests[r].(pc := pc)])
  }

  /** The claim transaction: replay, or check the payment and the policy and insert the permanent claim. */
  function DoClaim(price: nat, w: World, r: nat, proven: bool, acknowledged: bool): World
    requires r < |w.requests|
  {
    var b := w.requests[r].binding;
    var c := ClaimExecution(w.executions, b, r);
    if Answerable(w, b) || !Consumable(w, b, price, proven) || !GateOpen(w, w.requests[r].policy) || !c.Fresh?
      then At(w, r, Gone)
    else At(w.(executions := c.rows), r, if acknowledged then Claimed else Gone)
  }

  /** Why a publication transaction is rolled back. */
  datatype Rollback = ReceiptExists | ResponseExists | ClaimLost | PaymentTaken

  /** The tables one publication writes. */
  datatype Tables = Tables(payments: seq<PaymentDb.Payment>, receipts: seq<Receipt>, usage: map<nat, Usage>,
                           responses: map<(nat, nat), Response>, executions: map<nat, Execution>)

  function TablesOf(w: World): Tables { Tables(w.pay.db.payments, w.receipts, w.usage, w.responses, w.executions) }

  function WithTables(w: World, t: Tables): World {
    w.(pay := w.pay.(db := w.pay.db.(payments := t.payments)), receipts := t.receipts, usage := t.usage,
       responses := t.responses, executions := t.executions)
  }

  function AddUsage(usage: map<nat, Usage>, owner: nat, price: nat): map<nat, Usage> {
    var u := if owner in usage then usage[owner] else Usage(0, 0);
    usage[owner := Usage(u.calls + 1, u.units + price)]
  }

  predicate HashTaken(receipts: seq<Receipt>, hash: nat) { exists i :: 0 <= i < |receipts| && receipts[i].hash == hash }

  /** All the writes of the publication transaction at once. */
  function PublishTables(t: Tables, price: nat, b: Binding, policy: Tcb.Policy, claim: nat, receipt: nat)
      : Result<Tables, Rollback> {
    var done := CompleteExecution(t.executions, b, claim, receipt);
    if b.payment >= |t.payments| || t.payments[b.payment].status != PaymentDb.Settled then Err(PaymentTaken)
    else if HashTaken(t.receipts, receipt) then Err(ReceiptExists)
    else if b.key.Some? && (b.owner, b.key.value) in t.responses then Err(ResponseExists)
    else if done.None? then Err(ClaimLost)
    else Ok(Tables(
      t.payments[b.payment := t.payments[b.payment].(status := PaymentDb.Consumed, receipt := Some(receipt))],
      t.receipts + [Receipt(receipt, b.payment, b.owner, policy)],
      AddUsage(t.usage, b.owner, price),
      if b.key.Some? then t.responses[(b.owner, b.key.value) := Response(b.requestHash, receipt)] else t.responses,
      done.value))
  }

  function Publish(price: nat, w: World, r: nat, receipt: nat): Result<World, Rollback>
    requires r < |w.requests|
  {
    var t := PublishTables(TablesOf(w), price, w.requests[r].binding, w.requests[r].policy, r, receipt);
    if t.Err? then Err(t.error) else Ok(At(WithTables(w, t.value), r, Gone))
  }

  function DoCommit(price: nat, w: World, r: nat): World
    requires r < |w.requests| && w.requests[r].pc.Admitted?
  {
    var end := Publish(price, w, r, w.requests[r].pc.receipt);
    if end.Ok? then end.value else At(w, r, Gone)
  }

  function Next(price: nat, w: World, e: Event): World {
    match e
    case Pay(p) => if p.Consume? then w else w.(pay := Settlement.Next(w.pay, p))
    case LockLifecycle => if SharedHeld(w) then w else w.(exclusive := true)
    case CommitLifecycle(op) =>
      if !w.exclusive then w
      else
        var reply := Tcb.Answer(w.tcb, op);
        w.(tcb := Tcb.After(w.tcb, reply), active := if reply.Changed? then reply.row else w.active, exclusive := false)
    case UnlockLifecycle => w.(exclusive := false)
    case Arrive(b, policy) => w.(requests := w.requests + [Request(b, policy, Arrived)])
    case ClaimTx(r, proven, acknowledged) =>
      if r >= |w.requests| || w.requests[r].pc != Arrived || w.exclusive then w
      else DoClaim(price, w, r, proven, acknowledged)
    case BeginPublish(r, proven) =>
      if r >= |w.requests| || w.requests[r].pc != Claimed then w
      else if Answerable(w, w.requests[r].binding) || !Consumable(w, w.requests[r].binding, price, proven)
        then At(w, r, Gone)
      else At(w.(dispatches := w.dispatches + [Dispatch(r, w.requests[r].binding)]), r, Calling)
    case ProviderAnswers(r, receipt) =>
      if r >= |w.requests| || w.requests[r].pc != Calling then w else At(w, r, Answered(receipt))
    case AdmitPublish(r) =>
      if r >= |w.requests| || !w.requests[r].pc.Answered? || w.exclusive then w
      else At(w, r, if GateOpen(w, w.requests[r].policy) then Admitted(w.requests[r].pc.receipt) else Gone)
    case CommitPublish(r) =>
      if r >= |w.requests| || !w.requests[r].pc.Admitted? then w else DoCommit(price, w, r)
    case Abandon(r) => if r >= |w.requests| then w else At(w, r, Gone)
    case AdmitSession(policy) =>
      if GateOpen(w, policy) then w.(openings := w.openings + [Opening(policy, true)]) else w
    case CommitSession(s) =>
      if s >= |w.openings| || !w.openings[s].open then w
      else w.(openings := w.openings[s := w.openings[s].(open := false)],
              sessions := w.sessions + [w.openings[s].policy])
    case AbandonSession(s) =>
      if s >= |w.openings| then w else w.(openings := w.openings[s := w.openings[s].(open := false)])
  }

  function Exec(price: nat, w: World, es: seq<Event>): World {
    if es == [] then w else Next(price, Exec(price, w, es[..|es| - 1]), es[|es| - 1])
  }

  /** An empty database behind an initialized policy table. */
  function Start(now: nat, mandates: map<nat, PaymentDb.Mandate>, tcb: seq<Tcb.Row>, active: nat): World {
    World(Settlement.Start(now, mandates), tcb, active, false, [], [], [], map[], [], map[], map[], [])
  }

  // ----- the invariant -----

  function ConsumedBy(ps: seq<PaymentDb.Payment>, owner: nat): nat {
    if ps == [] then 0
    else ConsumedBy(ps[..|ps| - 1], owner) + if ps[|ps| - 1].owner == owner && ps[|ps| - 1].status == PaymentDb.Consumed
      then 1 else 0
  }

  /** A request past its claim owns the dispatched execution of a settled payment. */
  predicate RequestOk(w: World, r: nat)
    requires r < |w.requests|
  {
    var q := w.requests[r];
    (q.pc != Arrived && q.pc != Gone ==>
      && q.binding.payment in w.executions && w.executions[q.binding.payment] == Execution(r, q.binding, None)
      && q.binding.payment < |w.pay.db.payments| && w.pay.db.payments[q.binding.payment].status == PaymentDb.Settled)
  }

  predicate ExecutionOk(w: World, p: nat)
    requires p in w.executions
  {
    var x := w.executions[p];
    && x.claim < |w.requests| && x.binding == w.requests[x.claim].binding && w.requests[x.claim].pc != Arrived
    && p < |w.pay.db.payments| && w.pay.db.payments[p].owner == x.binding.owner
  }

  /** A payment is consumed exactly when it names a receipt that its completed execution names as well. */
  predicate PaymentPublished(w: World, p: nat)
    requires p < |w.pay.db.payments|
  {
    && (w.pay.db.payments[p].status == PaymentDb.Consumed <==> p in w.executions && w.executions[p].receipt.Some?)
    && (w.pay.db.payments[p].status == PaymentDb.Consumed ==>
         w.pay.db.payments[p].receipt == w.executions[p].receipt
         && exists i :: 0 <= i < |w.receipts| && Names(w.receipts[i], p, w.executions[p].receipt.value))
  }

  predicate Names(x: Receipt, payment: nat, hash: nat) { x.payment == payment && x.hash == hash }

  predicate ReceiptOk(w: World, i: nat)
    requires i < |w.receipts|
  {
    var x := w.receipts[i];
    x.payment in w.executions && w.executions[x.payment].receipt == Some(x.hash)
      && w.executions[x.payment].binding.owner == x.owner
  }

  /** A stored response belongs to a completed execution of that owner and key. */
  predicate ResponseOk(w: World, id: (nat, nat))
    requires id in w.responses
  {
    exists p :: p in w.executions && Backs(w.executions[p], id, w.responses[id])
  }

  predicate Backs(x: Execution, id: (nat, nat), response: Response) {
    x.receipt == Some(response.receipt) && x.binding.owner == id.0 && x.binding.key == Some(id.1)
      && x.binding.requestHash == response.requestHash
  }

  predicate DispatchOk(w: World, i: nat)
    requires i < |w.dispatches|
  {
    var d := w.dispatches[i];
    && d.request < |w.requests| && d.binding == w.requests[d.request].binding && w.requests[d.request].pc != Arrived
    && w.requests[d.request].pc != Claimed
    && d.binding.payment in w.executions && w.executions[d.binding.payment].claim == d.request
    && w.executions[d.binding.payment].binding == d.binding
  }

  ghost predicate RecordsOk(w: World) {
    && Settlement.FenceOk(w.pay) && Unique(w.executions)
    && (forall r :: 0 <= r < |w.requests| ==> RequestOk(w, r))
    && (forall p :: p in w.executions ==> ExecutionOk(w, p))
    && (forall p :: 0 <= p < |w.pay.db.payments| ==> PaymentPublished(w, p))
  }

  ghost predicate TablesOk(price: nat, w: World) {
    && (forall i :: 0 <= i < |w.receipts| ==> ReceiptOk(w, i))
    && (forall i, j :: 0 <= i < j < |w.receipts|
                       ==> w.receipts[i].hash != w.receipts[j].hash && w.receipts[i].payment != w.receipts[j].payment)
    && (forall id :: id in w.responses ==> ResponseOk(w, id))
    && (forall owner :: UsageOk(price, w, owner))
  }

  /** Usage counts the consumed payments of an owner, each at the configured price. */
  predicate UsageOk(price: nat, w: World, owner: nat) {
    Counts(w.usage, owner, ConsumedBy(w.pay.db.payments, owner), price)
  }

  predicate Counts(usage: map<nat, Usage>, owner: nat, calls: nat, price: nat) {
    if owner in usage then usage[owner] == Usage(calls, calls * price) else calls == 0
  }

  ghost predicate DispatchesOk(w: World) {
    && (forall i :: 0 <= i < |w.dispatches| ==> DispatchOk(w, i))
    && (forall i, j :: 0 <= i < j < |w.dispatches|
                       ==> w.dispatches[i].binding.payment != w.dispatches[j].binding.payment)
  }

  /** Whoever holds the lock shared expects the policy that is active, and nobody holds it exclusively meanwhile. */
  ghost predicate LockOk(w: World) {
    && Tcb.Governed(w.tcb, w.active)
    && (w.exclusive ==> !SharedHeld(w))
    && (forall r :: 0 <= r < |w.requests| && w.requests[r].pc.Admitted?
                    ==> Tcb.PolicyOf(w.tcb[w.active]) == Some(w.requests[r].policy))
    && (forall s :: 0 <= s < |w.openings| && w.openings[s].open
                    ==> Tcb.PolicyOf(w.tcb[w.active]) == Some(w.openings[s].policy))
  }

  ghost predicate Inv(price: nat, w: World) {
    RecordsOk(w) && TablesOk(price, w) && DispatchesOk(w) && LockOk(w)
  }
}
