/** The permanent execution claims: one per payment, and one per owner and idempotency key. */
module Executions {
  import opened Common

  datatype Binding = Binding(payment: nat, owner: nat, requestHash: nat, key: Option<nat>)

  /** A claim; completed exactly when it names a receipt. */
  datatype Execution = Execution(claim: nat, binding: Binding, receipt: Option<nat>)

  datatype ClaimReply = Fresh(rows: map<nat, Execution>) | Conflict | Uncertain

  predicate SameIntent(a: Binding, b: Binding) { a.key.Some? && a.key == b.key && a.owner == b.owner }

  /** A row the unique indexes would collide with. */
  predicate Collides(rows: map<nat, Execution>, b: Binding) {
    b.payment in rows || exists p :: p in rows && SameIntent(rows[p].binding, b)
  }

  /** Whichever colliding row is found: the same binding means the outcome is uncertain, another one is a conflict. */
  function ClaimExecution(rows: map<nat, Execution>, b: Binding, claim: nat): ClaimReply {
    if !Collides(rows, b) then Fresh(rows[b.payment := Execution(claim, b, None)])
    else if b.payment in rows && rows[b.payment].binding == b then Uncertain else Conflict
  }

  function CompleteExecution(rows: map<nat, Execution>, b: Binding, claim: nat, receipt: nat)
      : Option<map<nat, Execution>> {
    if b.payment in rows && rows[b.payment].claim == claim && rows[b.payment].receipt.None?
       && rows[b.payment].binding.owner == b.owner && rows[b.payment].binding.requestHash == b.requestHash
    then Some(rows[b.payment := rows[b.payment].(receipt := Some(receipt))])
    else None
  }

  /** Rows are filed under their payment, and no two carry one owner and key. */
  predicate Unique(rows: map<nat, Execution>) {
    && (forall p :: p in rows ==> rows[p].binding.payment == p)
    && (forall p, q :: p in rows && q in rows && SameIntent(rows[p].binding, rows[q].binding) ==> p == q)
  }

  class ExecutionTable {
    var rows: map<nat, Execution>

    constructor ()
      ensures rows == map[]
    {
      rows := map[];
    }

    /** Inserts the claim unless a unique index rejects it; never replaces a row. */
    method Claim(b: Binding, claim: nat) returns (r: ClaimReply)
      requires Unique(rows)
      modifies this
      ensures Unique(rows) && r == ClaimExecution(old(rows), b, claim)
      ensures rows == if r.Fresh? then r.rows else old(rows)
    {
      var intents := set p | p in rows && SameIntent(rows[p].binding, b);
      if b.payment !in rows && intents == {} {
        assert forall p :: p in rows && SameIntent(rows[p].binding, b) ==> p in intents;
        rows := rows[b.payment := Execution(claim, b, None)];
        return Fresh(rows);
      }
      if b.payment !in rows {
        var p :| p in intents;
        assert SameIntent(rows[p].binding, b);
      }
      r := if b.payment in rows && rows[b.payment].binding == b then Uncertain else Conflict;
    }

    /** Completes the very claim that was made, once. */
    method Complete(b: Binding, claim: nat, receipt: nat) returns (ok: bool)
      requires Unique(rows)
      modifies this
      ensures Unique(rows)
      ensures ok == CompleteExecution(old(rows), b, claim, receipt).Some?
      ensures rows == if ok then CompleteExecution(old(rows), b, claim, receipt).value else old(rows)
    {
      if b.payment !in rows { return false; }
      var row := rows[b.payment];
      if row.claim != claim || row.receipt.Some? || row.binding.owner != b.owner
        || row.binding.requestHash != b.requestHash {
        return false;
      }
      rows := rows[b.payment := row.(receipt := Some(receipt))];
      ok := true;
    }
  }
}
