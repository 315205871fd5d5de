/** What every interleaving of claims, publications, sessions and activations keeps. */
module PublicationSafety {
  import opened Common
  import opened Executions
  import opened Publication
  import PaymentDb
  import Settlement
  import Tcb = TcbLifecycle

  // ----- counting consumed payments -----

  lemma {:induction false} CountSame(ps: seq<PaymentDb.Payment>, qs: seq<PaymentDb.Payment>, owner: nat)
    requires |ps| <= |qs|
    requires forall i :: 0 <= i < |ps|
                         ==> qs[i].owner == ps[i].owner
                             && (qs[i].status == PaymentDb.Consumed <==> ps[i].status == PaymentDb.Consumed)
    requires forall i :: |ps| <= i < |qs| ==> qs[i].status != PaymentDb.Consumed
    ensures ConsumedBy(qs, owner) == ConsumedBy(ps, owner)
  {
    if qs != [] {
      if |qs| > |ps| {
        CountSame(ps, qs[..|qs| - 1], owner);
      } else {
        CountSame(ps[..|ps| - 1], qs[..|qs| - 1], owner);
      }
    }
  }

  lemma {:induction false} CountOneMore(ps: seq<PaymentDb.Payment>, id: nat, q: PaymentDb.Payment, owner: nat)
    requires id < |ps| && ps[id].status != PaymentDb.Consumed && q.status == PaymentDb.Consumed
             && q.owner == ps[id].owner
    ensures ConsumedBy(ps[id := q], owner) == ConsumedBy(ps, owner) + if q.owner == owner then 1 else 0
  {
    var n := |ps| - 1;
    if id == n {
      assert ps[id := q][..n] == ps[..n];
    } else {
      CountOneMore(ps[..n], id, q, owner);
      assert ps[id := q][..n] == ps[..n][id := q];
    }
  }

  // ----- settlement events -----

  lemma PayShape(w: World, p: Settlement.Event)
    requires Settlement.FenceOk(w.pay) && !p.Consume?
    ensures
      var ps, qs := w.pay.db.payments, Settlement.Next(w.pay, p).db.payments;
      && |ps| <= |qs|
      && (forall i :: 0 <= i < |ps|
                      ==> Settlement.Keeps(ps[i], qs[i]) && (qs[i].status == PaymentDb.Consumed ==> qs[i] == ps[i]))
      && (forall i :: |ps| <= i < |qs| ==> qs[i].status == PaymentDb.Open)
  {
    var ps, qs := w.pay.db.payments, Settlement.Next(w.pay, p).db.payments;
    forall i | 0 <= i < |ps|
      ensures i < |qs| && Settlement.Keeps(ps[i], qs[i]) && (qs[i].status == PaymentDb.Consumed ==> qs[i] == ps[i])
    {
      Settlement.PaymentsEvolve(w.pay, p, i);
    }
    if (p.Direct? || p.Exact?) && Settlement.Timely(w.pay, p) && Settlement.ClaimOf(w.pay.db, p).Claimed? {
      Settlement.BeginShape(w.pay, p);
    }
  }

  lemma PayKeeps(price: nat, w: World, p: Settlement.Event)
    requires Inv(price, w) && !p.Consume?
    ensures Inv(price, Next(price, w, Pay(p)))
  {
    var w1 := Next(price, w, Pay(p));
    PayRecords(w, w1, p);
    forall owner: nat ensures UsageOk(price, w1, owner) { PayUsage(price, w, w1, p, owner); }
    SameTables(price, w, w1);
  }

  lemma PayRecords(w: World, w1: World, p: Settlement.Event)
    requires RecordsOk(w) && !p.Consume? && w1 == w.(pay := Settlement.Next(w.pay, p))
    ensures RecordsOk(w1)
  {
    PayShape(w, p);
    Settlement.NextKeepsFences(w.pay, p);
    forall r | 0 <= r < |w1.requests| ensures RequestOk(w1, r) { assert RequestOk(w, r); }
    forall x | x in w1.executions ensures ExecutionOk(w1, x) { assert ExecutionOk(w, x); }
    forall i | 0 <= i < |w1.pay.db.payments| ensures PaymentPublished(w1, i) {
      if i < |w.pay.db.payments| { assert PaymentPublished(w, i); }
    }
  }

  lemma PayUsage(price: nat, w: World, w1: World, p: Settlement.Event, owner: nat)
    requires RecordsOk(w) && UsageOk(price, w, owner) && !p.Consume? && w1 == w.(pay := Settlement.Next(w.pay, p))
    ensures UsageOk(price, w1, owner)
  {
    PayShape(w, p);
    CountSame(w.pay.db.payments, w1.pay.db.payments, owner);
  }

  /** Receipts, responses and dispatches depend only on the executions and the requests. */
  lemma SameTables(price: nat, w: World, w1: World)
    requires TablesOk(price, w) && DispatchesOk(w)
    requires w1.receipts == w.receipts && w1.responses == w.responses && w1.executions == w.executions
    requires w1.dispatches == w.dispatches && w1.requests == w.requests
    ensures forall i :: 0 <= i < |w1.receipts| ==> ReceiptOk(w1, i)
    ensures forall id :: id in w1.responses ==> ResponseOk(w1, id)
    ensures DispatchesOk(w1)
  {
    forall i | 0 <= i < |w1.receipts| ensures ReceiptOk(w1, i) { assert ReceiptOk(w, i); }
    forall id | id in w1.responses ensures ResponseOk(w1, id) { assert ResponseOk(w, id); }
    forall i | 0 <= i < |w1.dispatches| ensures DispatchOk(w1, i) { assert DispatchOk(w, i); }
  }

  // ----- what the parts of the invariant depend on -----

  predicate SameRecords(w: World, w1: World) {
    w1.pay == w.pay && w1.executions == w.executions && w1.receipts == w.receipts && w1.responses == w.responses
      && w1.usage == w.usage
  }

  /** Requests keep their bindings, none goes back, and new ones may arrive. */
  predicate RequestsGrow(w: World, w1: World) {
    && |w.requests| <= |w1.requests|
    && forall q :: 0 <= q < |w.requests| ==>
         && w1.requests[q].binding == w.requests[q].binding
         && (w1.requests[q].pc == Arrived ==> w.requests[q].pc == Arrived)
         && (w1.requests[q].pc == Claimed ==> w.requests[q].pc == Arrived || w.requests[q].pc == Claimed)
  }

  lemma RecordsFrame(w: World, w1: World)
    requires RecordsOk(w) && SameRecords(w, w1) && RequestsGrow(w, w1)
             && forall q :: 0 <= q < |w1.requests| ==> RequestOk(w1, q)
    ensures RecordsOk(w1)
  {
    forall x | x in w1.executions ensures ExecutionOk(w1, x) { assert ExecutionOk(w, x); }
    forall i | 0 <= i < |w1.pay.db.payments| ensures PaymentPublished(w1, i) { assert PaymentPublished(w, i); }
  }

  lemma TablesFrame(price: nat, w: World, w1: World)
    requires TablesOk(price, w) && SameRecords(w, w1)
    ensures TablesOk(price, w1)
  {
    forall i | 0 <= i < |w1.receipts| ensures ReceiptOk(w1, i) { assert ReceiptOk(w, i); }
    forall id | id in w1.responses ensures ResponseOk(w1, id) { ResponseStays(w, w1, id); }
    forall owner: nat ensures UsageOk(price, w1, owner) { assert UsageOk(price, w, owner); }
  }

  lemma DispatchesFrame(w: World, w1: World)
    requires DispatchesOk(w) && SameRecords(w, w1) && RequestsGrow(w, w1) && w1.dispatches == w.dispatches
    ensures DispatchesOk(w1)
  {
    forall i | 0 <= i < |w1.dispatches| ensures DispatchOk(w1, i) { assert DispatchOk(w, i); }
  }

  // ----- requests moving on -----

  /** Moves that touch no table: leaving, or advancing within the publication transaction. */
  predicate MayMove(w: World, r: nat, pc: Pc)
    requires r < |w.requests|
  {
    var from := w.requests[r].pc;
    pc == Gone
    || (from != Arrived && from != Gone && (pc == Calling || pc.Answered?))
    || (from != Arrived && from != Gone && pc.Admitted? && GateOpen(w, w.requests[r].policy))
  }

  lemma MoveKeeps(price: nat, w: World, r: nat, pc: Pc)
    requires Inv(price, w) && r < |w.requests| && MayMove(w, r, pc)
    ensures Inv(price, At(w, r, pc))
  {
    var w1 := At(w, r, pc);
    MoveRequests(w, r, pc);
    RecordsFrame(w, w1);
    TablesFrame(price, w, w1);
    DispatchesFrame(w, w1);
    MoveLocks(w, r, pc);
  }

  lemma MoveRequests(w: World, r: nat, pc: Pc)
    requires RecordsOk(w) && r < |w.requests| && MayMove(w, r, pc)
    ensures var w1 := At(w, r, pc);
      RequestsGrow(w, w1) && SameRecords(w, w1) && forall q :: 0 <= q < |w1.requests| ==> RequestOk(w1, q)
  {
    var w1 := At(w, r, pc);
    forall q | 0 <= q < |w1.requests| ensures RequestOk(w1, q) { assert RequestOk(w, q) && RequestOk(w, r); }
  }

  lemma MoveLocks(w: World, r: nat, pc: Pc)
    requires LockOk(w) && r < |w.requests| && MayMove(w, r, pc)
    ensures LockOk(At(w, r, pc))
  {
    Tcb.ActiveRowIs(w.tcb, w.active);
  }

  // ----- the claim -----

  lemma ClaimKeeps(price: nat, w: World, r: nat, proven: bool, acknowledged: bool)
    requires Inv(price, w) && r < |w.requests| && w.requests[r].pc == Arrived
    ensures Inv(price, DoClaim(price, w, r, proven, acknowledged))
  {
    var w1 := DoClaim(price, w, r, proven, acknowledged);
    var b := w.requests[r].binding;
    if w1.executions == w.executions {
      MoveKeeps(price, w, r, Gone);
    } else {
      ClaimRecords(price, w, w1, r);
      ClaimTables(price, w, w1, r);
      ClaimLocks(w, w1, r);
    }
  }

  /** What a committed claim changed. */
  predicate NewClaim(price: nat, w: World, w1: World, r: nat) {
    && r < |w.requests| && w.requests[r].pc == Arrived
    && var b := w.requests[r].binding;
    && !Collides(w.executions, b) && Consumable(w, b, price, true)
    && (w1 == At(w.(executions := w.executions[b.payment := Execution(r, b, None)]), r, Claimed)
        || w1 == At(w.(executions := w.executions[b.payment := Execution(r, b, None)]), r, Gone))
  }

  lemma ClaimRecords(price: nat, w: World, w1: World, r: nat)
    requires RecordsOk(w) && NewClaim(price, w, w1, r)
    ensures RecordsOk(w1)
  {
    ClaimExecutions(price, w, w1, r);
    ClaimRequests(price, w, w1, r);
    forall i | 0 <= i < |w1.pay.db.payments| ensures PaymentPublished(w1, i) { assert PaymentPublished(w, i); }
  }

  lemma ClaimExecutions(price: nat, w: World, w1: World, r: nat)
    requires RecordsOk(w) && NewClaim(price, w, w1, r)
    ensures Unique(w1.executions) && forall x :: x in w1.executions ==> ExecutionOk(w1, x)
  {
    FreshClaimUnique(w.executions, w.requests[r].binding, r);
    forall x | x in w1.executions ensures ExecutionOk(w1, x) { if x in w.executions { assert ExecutionOk(w, x); } }
  }

  lemma FreshClaimUnique(rows: map<nat, Execution>, b: Binding, claim: nat)
    requires Unique(rows) && !Collides(rows, b)
    ensures Unique(rows[b.payment := Execution(claim, b, None)])
  {}

  lemma ClaimRequests(price: nat, w: World, w1: World, r: nat)
    requires RecordsOk(w) && NewClaim(price, w, w1, r)
    ensures forall q :: 0 <= q < |w1.requests| ==> RequestOk(w1, q)
  {
    forall q | 0 <= q < |w1.requests| ensures RequestOk(w1, q) { assert RequestOk(w, q); }
  }

  lemma ClaimTables(price: nat, w: World, w1: World, r: nat)
    requires TablesOk(price, w) && DispatchesOk(w) && NewClaim(price, w, w1, r)
    ensures TablesOk(price, w1) && DispatchesOk(w1)
  {
    forall i | 0 <= i < |w1.receipts| ensures ReceiptOk(w1, i) { assert ReceiptOk(w, i); }
    forall id | id in w1.responses ensures ResponseOk(w1, id) { ResponseStays(w, w1, id); }
    forall owner: nat ensures UsageOk(price, w1, owner) { assert UsageOk(price, w, owner); }
    forall i | 0 <= i < |w1.dispatches| ensures DispatchOk(w1, i) { assert DispatchOk(w, i); }
  }

  lemma ResponseStays(w: World, w1: World, id: (nat, nat))
    requires id in w.responses && ResponseOk(w, id) && id in w1.responses && w1.responses[id] == w.responses[id]
    requires forall p :: p in w.executions && w.executions[p].receipt.Some?
                         ==> p in w1.executions && w1.executions[p] == w.executions[p]
    ensures ResponseOk(w1, id)
  {
    var p :| p in w.executions && Backs(w.executions[p], id, w.responses[id]);
    assert Backs(w1.executions[p], id, w1.responses[id]);
  }

  lemma ClaimLocks(w: World, w1: World, r: nat)
    requires LockOk(w) && r < |w.requests| && w1.tcb == w.tcb && w1.active == w.active && w1.exclusive == w.exclusive
             && w1.openings == w.openings
    requires |w1.requests| == |w.requests|
             && (forall i :: 0 <= i < |w.requests| && i != r ==> w1.requests[i] == w.requests[i])
             && !w1.requests[r].pc.Admitted?
    ensures LockOk(w1)
  {}

  // ----- the dispatch -----

  lemma DispatchKeeps(price: nat, w: World, r: nat)
    requires Inv(price, w) && r < |w.requests| && w.requests[r].pc == Claimed
    ensures Inv(price, At(w.(dispatches := w.dispatches + [Dispatch(r, w.requests[r].binding)]), r, Calling))
  {
    MoveKeeps(price, w, r, Calling);
    var w0 := At(w, r, Calling);
    var w1 := w0.(dispatches := w.dispatches + [Dispatch(r, w.requests[r].binding)]);
    OnlyDispatches(price, w0, w1);
    NewDispatch(w, r);
  }

  lemma NewDispatch(w: World, r: nat)
    requires DispatchesOk(w) && r < |w.requests| && w.requests[r].pc == Claimed && RequestOk(w, r)
    ensures DispatchesOk(At(w.(dispatches := w.dispatches + [Dispatch(r, w.requests[r].binding)]), r, Calling))
  {
    var w1 := At(w.(dispatches := w.dispatches + [Dispatch(r, w.requests[r].binding)]), r, Calling);
    forall i | 0 <= i < |w.dispatches|
      ensures DispatchOk(w1, i) && w.dispatches[i].binding.payment != w.requests[r].binding.payment
    {
      assert DispatchOk(w, i);
    }
  }

  lemma OnlyDispatches(price: nat, w: World, w1: World)
    requires RecordsOk(w) && TablesOk(price, w) && LockOk(w) && w1 == w.(dispatches := w1.dispatches)
    ensures RecordsOk(w1) && TablesOk(price, w1) && LockOk(w1)
  {
    forall q | 0 <= q < |w1.requests| ensures RequestOk(w1, q) { assert RequestOk(w, q); }
    RecordsFrame(w, w1);
    TablesFrame(price, w, w1);
  }

  // ----- the publication -----

  /** On the claimed path a publication can only be rolled back because the receipt hash exists already: the payment
      is still settled, no response is stored under the key, and the claim is the one that was made. */
  lemma PublishNeverReplays(price: nat, w: World, r: nat, receipt: nat)
    requires Inv(price, w) && r < |w.requests| && w.requests[r].pc != Arrived && w.requests[r].pc != Gone
    ensures !Answerable(w, w.requests[r].binding)
    ensures Publish(price, w, r, receipt).Ok? || Publish(price, w, r, receipt) == Err(ReceiptExists)
  {
    var b := w.requests[r].binding;
    assert RequestOk(w, r);
    if Answerable(w, b) {
      var id := (b.owner, b.key.value);
      assert ResponseOk(w, id);
      var p :| p in w.executions && Backs(w.executions[p], id, w.responses[id]);
      assert SameIntent(w.executions[p].binding, w.executions[b.payment].binding);
      assert false;
    }
  }

  /** What a committed publication changed. */
  predicate NewPublication(price: nat, w: World, w1: World, r: nat, receipt: nat) {
    && r < |w.requests| && w.requests[r].pc != Arrived && w.requests[r].pc != Gone
    && Publish(price, w, r, receipt) == Ok(w1)
  }

  lemma ConsumedPayment(w: World, id: nat, receipt: nat)
    requires id < |w.pay.db.payments| && w.pay.db.payments[id].status == PaymentDb.Settled
    ensures
      var p := w.pay.db.payments[id];
      Settlement.Next(w.pay, Settlement.Consume(id, receipt)).db.payments
        == w.pay.db.payments[id := p.(status := PaymentDb.Consumed, receipt := Some(receipt))]
  {}

  lemma PublishRequests(price: nat, w: World, w1: World, r: nat, receipt: nat)
    requires RecordsOk(w) && NewPublication(price, w, w1, r, receipt)
    ensures forall q :: 0 <= q < |w1.requests| ==> RequestOk(w1, q)
    ensures forall x :: x in w1.executions ==> ExecutionOk(w1, x)
  {
    assert RequestOk(w, r);
    forall q | 0 <= q < |w1.requests| ensures RequestOk(w1, q) { assert RequestOk(w, q); }
    forall x | x in w1.executions ensures ExecutionOk(w1, x) { assert ExecutionOk(w, x); }
  }

  lemma PublishPayments(price: nat, w: World, w1: World, r: nat, receipt: nat)
    requires RecordsOk(w) && NewPublication(price, w, w1, r, receipt)
    ensures forall i :: 0 <= i < |w1.pay.db.payments| ==> PaymentPublished(w1, i)
  {
    var b := w.requests[r].binding;
    assert RequestOk(w, r);
    assert Names(w1.receipts[|w.receipts|], b.payment, receipt);
    forall i | 0 <= i < |w1.pay.db.payments| ensures PaymentPublished(w1, i) {
      assert PaymentPublished(w, i);
      if i != b.payment && w.pay.db.payments[i].status == PaymentDb.Consumed {
        var k :| 0 <= k < |w.receipts| && Names(w.receipts[k], i, w.executions[i].receipt.value);
        assert Names(w1.receipts[k], i, w1.executions[i].receipt.value);
      }
    }
  }

  lemma PublishedPay(price: nat, w: World, w1: World, r: nat, receipt: nat)
    requires NewPublication(price, w, w1, r, receipt)
    ensures w1.pay == Settlement.Next(w.pay, Settlement.Consume(w.requests[r].binding.payment, receipt))
  {}

  lemma PublishRecords(price: nat, w: World, w1: World, r: nat, receipt: nat)
    requires RecordsOk(w) && NewPublication(price, w, w1, r, receipt)
    ensures RecordsOk(w1)
  {
    var b := w.requests[r].binding;
    assert RequestOk(w, r);
    PublishedPay(price, w, w1, r, receipt);
    Settlement.NextKeepsFences(w.pay, Settlement.Consume(b.payment, receipt));
    assert Unique(w1.executions);
    PublishRequests(price, w, w1, r, receipt);
    PublishPayments(price, w, w1, r, receipt);
  }

  lemma PublishReceipts(price: nat, w: World, w1: World, r: nat, receipt: nat)
    requires RecordsOk(w) && TablesOk(price, w) && NewPublication(price, w, w1, r, receipt)
    ensures forall i :: 0 <= i < |w1.receipts| ==> ReceiptOk(w1, i)
    ensures forall i, j :: 0 <= i < j < |w1.receipts|
                           ==> w1.receipts[i].hash != w1.receipts[j].hash
                               && w1.receipts[i].payment != w1.receipts[j].payment
    ensures forall id :: id in w1.responses ==> ResponseOk(w1, id)
  {
    var b := w.requests[r].binding;
    assert RequestOk(w, r);
    forall i | 0 <= i < |w1.receipts| ensures ReceiptOk(w1, i) { if i < |w.receipts| { assert ReceiptOk(w, i); } }
    forall i | 0 <= i < |w.receipts| ensures w.receipts[i].payment != b.payment { assert ReceiptOk(w, i); }
    PublishResponses(price, w, w1, r, receipt);
  }

  lemma PublishResponses(price: nat, w: World, w1: World, r: nat, receipt: nat)
    requires RecordsOk(w) && TablesOk(price, w) && NewPublication(price, w, w1, r, receipt)
    ensures forall id :: id in w1.responses ==> ResponseOk(w1, id)
  {
    var b := w.requests[r].binding;
    assert RequestOk(w, r);
    forall id | id in w1.responses ensures ResponseOk(w1, id) {
      if b.key.Some? && id == (b.owner, b.key.value) {
        assert Backs(w1.executions[b.payment], id, w1.responses[id]);
      } else {
        ResponseStays(w, w1, id);
      }
    }
  }

  lemma PublishUsage(price: nat, w: World, w1: World, r: nat, receipt: nat, owner: nat)
    requires RecordsOk(w) && UsageOk(price, w, owner) && NewPublication(price, w, w1, r, receipt)
    ensures UsageOk(price, w1, owner)
  {
    var b := w.requests[r].binding;
    assert RequestOk(w, r) && ExecutionOk(w, b.payment);
    ConsumedPayment(w, b.payment, receipt);
    CountOneMore(w.pay.db.payments, b.payment, w1.pay.db.payments[b.payment], owner);
    UsageAdds(w.usage, b.owner, price, owner, ConsumedBy(w.pay.db.payments, owner));
  }

  lemma UsageAdds(usage: map<nat, Usage>, payer: nat, price: nat, owner: nat, calls: nat)
    requires Counts(usage, owner, calls, price)
    ensures Counts(AddUsage(usage, payer, price), owner, if owner == payer then calls + 1 else calls, price)
  {
    assert (calls + 1) * price == calls * price + price;
  }

  lemma PublishDispatches(price: nat, w: World, w1: World, r: nat, receipt: nat)
    requires RecordsOk(w) && DispatchesOk(w) && NewPublication(price, w, w1, r, receipt)
    ensures DispatchesOk(w1)
  {
    assert RequestOk(w, r);
    forall i | 0 <= i < |w1.dispatches| ensures DispatchOk(w1, i) { assert DispatchOk(w, i); }
  }

  lemma CommitKeeps(price: nat, w: World, r: nat)
    requires Inv(price, w) && r < |w.requests| && w.requests[r].pc.Admitted?
    ensures Inv(price, DoCommit(price, w, r))
  {
    var receipt := w.requests[r].pc.receipt;
    PublishNeverReplays(price, w, r, receipt);
    var end := Publish(price, w, r, receipt);
    if end.Ok? {
      PublishRecords(price, w, end.value, r, receipt);
      PublishReceipts(price, w, end.value, r, receipt);
      forall owner: nat
        ensures UsageOk(price, end.value, owner)
      {
        PublishUsage(price, w, end.value, r, receipt, owner);
      }
      PublishDispatches(price, w, end.value, r, receipt);
      ClaimLocks(w, end.value, r);
    } else {
      MoveKeeps(price, w, r, Gone);
    }
  }

  // ----- the remaining events -----

  lemma ArriveKeeps(price: nat, w: World, b: Binding, policy: Tcb.Policy)
    requires Inv(price, w)
    ensures Inv(price, Next(price, w, Arrive(b, policy)))
  {
    var w1 := Next(price, w, Arrive(b, policy));
    forall q | 0 <= q < |w1.requests| ensures RequestOk(w1, q) { if q < |w.requests| { assert RequestOk(w, q); } }
    RecordsFrame(w, w1);
    TablesFrame(price, w, w1);
    DispatchesFrame(w, w1);
    ArriveLocks(w, w1);
  }

  lemma ArriveLocks(w: World, w1: World)
    requires LockOk(w) && w1 == w.(requests := w1.requests) && |w1.requests| == |w.requests| + 1
    requires w1.requests[..|w.requests|] == w.requests && w1.requests[|w.requests|].pc == Arrived
    ensures LockOk(w1)
  {
    assert forall i :: 0 <= i < |w.requests| ==> w1.requests[i] == w1.requests[..|w.requests|][i];
  }

  /** Events of the lock, the policies and the sessions leave every payment record alone. */
  lemma GateEventsKeep(price: nat, w: World, w1: World)
    requires Inv(price, w) && LockOk(w1)
    requires w1 == w.(tcb := w1.tcb, active := w1.active, exclusive := w1.exclusive, openings := w1.openings,
                      sessions := w1.sessions)
    ensures Inv(price, w1)
  {
    forall q | 0 <= q < |w1.requests| ensures RequestOk(w1, q) { assert RequestOk(w, q); }
    RecordsFrame(w, w1);
    TablesFrame(price, w, w1);
    DispatchesFrame(w, w1);
  }

  /** The lock excludes every activation while a publication or a session opening is past its gate. */
  lemma LifecycleKeeps(price: nat, w: World, e: Event)
    requires LockOk(w) && e.CommitLifecycle?
    ensures LockOk(Next(price, w, e))
  {
    if w.exclusive { var next := Tcb.GovernedStep(w.tcb, w.active, e.op); }
  }

  lemma AdmitSessionKeeps(price: nat, w: World, policy: Tcb.Policy)
    requires LockOk(w)
    ensures LockOk(Next(price, w, AdmitSession(policy)))
  {
    Tcb.ActiveRowIs(w.tcb, w.active);
  }

  lemma CommitSessionKeeps(price: nat, w: World, opening: nat)
    requires LockOk(w)
    ensures LockOk(Next(price, w, CommitSession(opening)))
  {
    if w.exclusive { assert !SharedHeld(w); }
  }

  lemma AbandonSessionKeeps(price: nat, w: World, opening: nat)
    requires LockOk(w)
    ensures LockOk(Next(price, w, AbandonSession(opening)))
  {
    var w1 := Next(price, w, AbandonSession(opening));
    if w.exclusive { assert !SharedHeld(w1); }
  }

  lemma OpeningKeeps(price: nat, w: World, e: Event)
    requires LockOk(w) && (e.AdmitSession? || e.CommitSession? || e.AbandonSession?)
    ensures LockOk(Next(price, w, e))
  {
    match e
    case AdmitSession(policy) => AdmitSessionKeeps(price, w, policy);
    case CommitSession(opening) => CommitSessionKeeps(price, w, opening);
    case AbandonSession(opening) => AbandonSessionKeeps(price, w, opening);
  }

  lemma PayEventKeeps(price: nat, w: World, p: Settlement.Event)
    requires Inv(price, w)
    ensures Inv(price, Next(price, w, Pay(p)))
  {
    if !p.Consume? { PayKeeps(price, w, p); }
  }

  lemma ClaimEventKeeps(price: nat, w: World, r: nat, proven: bool, acknowledged: bool)
    requires Inv(price, w)
    ensures Inv(price, Next(price, w, ClaimTx(r, proven, acknowledged)))
  {
    if r < |w.requests| && w.requests[r].pc == Arrived && !w.exclusive {
      ClaimKeeps(price, w, r, proven, acknowledged);
    }
  }

  lemma BeginEventKeeps(price: nat, w: World, r: nat, proven: bool)
    requires Inv(price, w)
    ensures Inv(price, Next(price, w, BeginPublish(r, proven)))
  {
    if r < |w.requests| && w.requests[r].pc == Claimed {
      MoveKeeps(price, w, r, Gone);
      DispatchKeeps(price, w, r);
    }
  }

  lemma AnswerEventKeeps(price: nat, w: World, r: nat, receipt: nat)
    requires Inv(price, w)
    ensures Inv(price, Next(price, w, ProviderAnswers(r, receipt)))
  {
    if r < |w.requests| && w.requests[r].pc == Calling { MoveKeeps(price, w, r, Answered(receipt)); }
  }

  lemma AdmitEventKeeps(price: nat, w: World, r: nat)
    requires Inv(price, w)
    ensures Inv(price, Next(price, w, AdmitPublish(r)))
  {
    if r < |w.requests| && w.requests[r].pc.Answered? && !w.exclusive {
      MoveKeeps(price, w, r, if GateOpen(w, w.requests[r].policy) then Admitted(w.requests[r].pc.receipt) else Gone);
    }
  }

  lemma AbandonEventKeeps(price: nat, w: World, r: nat)
    requires Inv(price, w)
    ensures Inv(price, Next(price, w, Abandon(r)))
  {
    if r < |w.requests| { MoveKeeps(price, w, r, Gone); }
  }

  lemma CommitEventKeeps(price: nat, w: World, r: nat)
    requires Inv(price, w)
    ensures Inv(price, Next(price, w, CommitPublish(r)))
  {
    if r < |w.requests| && w.requests[r].pc.Admitted? { CommitKeeps(price, w, r); }
  }

  lemma LockEventKeeps(price: nat, w: World, e: Event)
    requires Inv(price, w) && (e.LockLifecycle? || e.UnlockLifecycle?)
    ensures Inv(price, Next(price, w, e))
  {
    LockingKeeps(price, w, e);
    GateEventsKeep(price, w, Next(price, w, e));
  }

  lemma LockingKeeps(price: nat, w: World, e: Event)
    requires LockOk(w) && (e.LockLifecycle? || e.UnlockLifecycle?)
    ensures LockOk(Next(price, w, e))
  {}

  lemma LifecycleEventKeeps(price: nat, w: World, op: Tcb.Event)
    requires Inv(price, w)
    ensures Inv(price, Next(price, w, CommitLifecycle(op)))
  {
    LifecycleKeeps(price, w, CommitLifecycle(op));
    GateEventsKeep(price, w, Next(price, w, CommitLifecycle(op)));
  }

  lemma SessionEventKeeps(price: nat, w: World, e: Event)
    requires Inv(price, w) && (e.AdmitSession? || e.CommitSession? || e.AbandonSession?)
    ensures Inv(price, Next(price, w, e))
  {
    OpeningKeeps(price, w, e);
    SessionFrame(price, w, e);
    GateEventsKeep(price, w, Next(price, w, e));
  }

  lemma SessionFrame(price: nat, w: World, e: Event)
    requires e.AdmitSession? || e.CommitSession? || e.AbandonSession?
    ensures var w1 := Next(price, w, e); w1 == w.(openings := w1.openings, sessions := w1.sessions)
  {}

  /** Every event keeps the invariant. */
  lemma NextKeeps(price: nat, w: World, e: Event)
    requires Inv(price, w)
    ensures Inv(price, Next(price, w, e))
  {
    match e
    case Pay(p) => PayEventKeeps(price, w, p);
    case Arrive(b, policy) => ArriveKeeps(price, w, b, policy);
    case ClaimTx(r, proven, acknowledged) => ClaimEventKeeps(price, w, r, proven, acknowledged);
    case BeginPublish(r, proven) => BeginEventKeeps(price, w, r, proven);
    case ProviderAnswers(r, receipt) => AnswerEventKeeps(price, w, r, receipt);
    case AdmitPublish(r) => AdmitEventKeeps(price, w, r);
    case CommitPublish(r) => CommitEventKeeps(price, w, r);
    case Abandon(r) => AbandonEventKeeps(price, w, r);
    case LockLifecycle => LockEventKeeps(price, w, e);
    case UnlockLifecycle => LockEventKeeps(price, w, e);
    case CommitLifecycle(op) => LifecycleEventKeeps(price, w, op);
    case _ => SessionEventKeeps(price, w, e);
  }

  lemma {:induction false} ExecKeeps(price: nat, w: World, es: seq<Event>)
    requires Inv(price, w)
    ensures Inv(price, Exec(price, w, es))
  {
    if es != [] {
      ExecKeeps(price, w, es[..|es| - 1]);
      NextKeeps(price, Exec(price, w, es[..|es| - 1]), es[|es| - 1]);
    }
  }

  lemma StartOk(price: nat, now: nat, mandates: map<nat, PaymentDb.Mandate>, tcb: seq<Tcb.Row>, active: nat)
    requires Tcb.Governed(tcb, active)
    ensures Inv(price, Start(now, mandates, tcb, active))
  {}
}
