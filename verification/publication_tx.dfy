/** The publication transaction as it is written: each table is changed in place, one after the other, and a failure
    anywhere puts all of them back. */
module PublicationTx {
  import opened Common
  import opened Executions
  import opened Publication
  import PaymentDb
  import Tcb = TcbLifecycle

  class GatewayTables {
    var payments: seq<PaymentDb.Payment>
    var receipts: seq<Receipt>
    var usage: map<nat, Usage>
    var responses: map<(nat, nat), Response>
    const claims: ExecutionTable

    constructor (table: ExecutionTable, ps: seq<PaymentDb.Payment>)
      ensures claims == table && Contents() == Tables(ps, [], map[], map[], table.rows)
    {
      claims, payments, receipts, usage, responses := table, ps, [], map[], map[];
    }

    function Contents(): Tables
      reads this, claims
    { Tables(payments, receipts, usage, responses, claims.rows) }

    method Rollback(t: Tables)
      modifies this, claims
      ensures Contents() == t
    {
      payments, receipts, usage, responses := t.payments, t.receipts, t.usage, t.responses;
      claims.rows := t.executions;
    }

    /** Consumes a settled payment; false means it was not settled any more. */
    method ConsumePayment(id: nat) returns (ok: bool)
      modifies this`payments
      ensures ok == (id < |old(payments)| && old(payments)[id].status == PaymentDb.Settled)
      ensures payments == if ok then old(payments)[id := old(payments)[id].(status := PaymentDb.Consumed)]
              else old(payments)
    {
      if id >= |payments| || payments[id].status != PaymentDb.Settled { return false; }
      payments := payments[id := payments[id].(status := PaymentDb.Consumed)];
      ok := true;
    }

    /** Inserts a receipt unless its hash exists. */
    method InsertReceipt(x: Receipt) returns (ok: bool)
      modifies this`receipts
      ensures ok == !HashTaken(old(receipts), x.hash)
      ensures receipts == if ok then old(receipts) + [x] else old(receipts)
    {
      for i := 0 to |receipts|
        invariant receipts == old(receipts) && forall j :: 0 <= j < i ==> receipts[j].hash != x.hash
      {
        if receipts[i].hash == x.hash { return false; }
      }
      receipts := receipts + [x];
      ok := true;
    }

    method CountUse(owner: nat, price: nat)
      modifies this`usage
      ensures usage == AddUsage(old(usage), owner, price)
    {
      if owner in usage {
        usage := usage[owner := Usage(usage[owner].calls + 1, usage[owner].units + price)];
      } else {
        usage := usage[owner := Usage(1, price)];
      }
    }

    /** Stores the response under its key, if it has one; false means the key is taken. */
    method StoreResponse(b: Binding, receipt: nat) returns (ok: bool)
      modifies this`responses
      ensures ok == !(b.key.Some? && (b.owner, b.key.value) in old(responses))
      ensures responses == if ok && b.key.Some?
              then old(responses)[(b.owner, b.key.value) := Response(b.requestHash, receipt)] else old(responses)
    {
      if b.key.None? { return true; }
      if (b.owner, b.key.value) in responses { return false; }
      responses := responses[(b.owner, b.key.value) := Response(b.requestHash, receipt)];
      ok := true;
    }

    /** One publication for a claimed request; either every table takes its part or none changes. */
    method PublishResult(price: nat, b: Binding, policy: Tcb.Policy, claim: nat, receipt: nat) returns (published: bool)
      requires Unique(claims.rows)
      modifies this, claims
      ensures Unique(claims.rows)
      ensures var t := PublishTables(old(Contents()), price, b, policy, claim, receipt);
        published == t.Ok? && Contents() == if t.Ok? then t.value else old(Contents())
    {
      var saved := Contents();
      var ok := ConsumePayment(b.payment);
      if !ok { return false; }
      ok := InsertReceipt(Receipt(receipt, b.payment, b.owner, policy));
      if ok {
        payments := payments[b.payment := payments[b.payment].(receipt := Some(receipt))];
        CountUse(b.owner, price);
        ok := StoreResponse(b, receipt);
        if ok { ok := claims.Complete(b, claim, receipt); }
      }
      if !ok { Rollback(saved); }
      published := ok;
    }
  }
}
