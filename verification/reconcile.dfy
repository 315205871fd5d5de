/** The reconciliation pass: pages of a hundred uncertain payments in id order, while settlements, sweeps and its own
    attempts keep changing which payments are uncertain. */
module Reconcile {
  import opened Common

  type Id = nat

  const PAGE: nat := 100

  predicate Increasing(s: seq<Id>) { forall i, j :: 0 <= i < j < |s| ==> s[i] < s[j] }

  /** The first `limit` ids of the table after `after` that are eligible at this time. */
  function Select(table: seq<Id>, eligible: (nat, Id) -> bool, time: nat, after: Option<Id>, limit: nat): seq<Id> {
    if table == [] || limit == 0 then []
    else if (after.None? || after.value < table[0]) && eligible(time, table[0])
      then [table[0]] + Select(table[1..], eligible, time, after, limit - 1)
    else Select(table[1..], eligible, time, after, limit)
  }

  predicate Past(after: Option<Id>, id: Id) { after.None? || after.value < id }

  /** The last id a page reaches: its last row when it is full, and the whole table otherwise. */
  predicate Reached(rows: seq<Id>, limit: nat, id: Id) { |rows| < limit || (rows != [] && id <= rows[|rows| - 1]) }

  /** A page is in order, holds only eligible rows past the cursor, and misses none of those it reaches. */
  lemma {:induction false} SelectIsPage(table: seq<Id>, eligible: (nat, Id) -> bool, time: nat, after: Option<Id>,
                                        limit: nat)
    requires Increasing(table)
    ensures
      var rows := Select(table, eligible, time, after, limit);
      && |rows| <= limit && Increasing(rows)
      && (forall id :: id in rows ==> id in table && Past(after, id) && eligible(time, id))
      && (forall id :: id in table && Past(after, id) && eligible(time, id) && Reached(rows, limit, id) ==> id in rows)
  {
    if table != [] && limit != 0 {
      var head, rest := table[0], table[1..];
      var taken := Past(after, head) && eligible(time, head);
      var more := if taken then limit - 1 else limit;
      SelectIsPage(rest, eligible, time, after, more);
      var tail := Select(rest, eligible, time, after, more);
      var rows := Select(table, eligible, time, after, limit);
      assert table == [head] + rest;
      forall i, j | 0 <= i < j < |rows| ensures rows[i] < rows[j] {
        if taken {
          assert rows == [head] + tail;
          if i == 0 { assert rows[j] in tail && rows[j] in rest; }
        }
      }
      forall id | id in table && Past(after, id) && eligible(time, id) && Reached(rows, limit, id) ensures id in rows {
        if id != head {
          assert id in rest;
        }
      }
    }
  }

  /** How many of the first `n` attempts succeeded. */
  function Successes(succeeds: nat -> bool, n: nat): nat {
    if n == 0 then 0 else Successes(succeeds, n - 1) + if succeeds(n - 1) then 1 else 0
  }

  /** How many ids of the table the pass has still to go over. */
  function Remaining(table: seq<Id>, after: Option<Id>): nat {
    if table == [] then 0 else (if Past(after, table[0]) then 1 else 0) + Remaining(table[1..], after)
  }

  lemma {:induction false} RemainingShrinks(table: seq<Id>, after: Option<Id>, later: Id)
    requires Past(after, later) && later in table
    ensures Remaining(table, Some(later)) < Remaining(table, after)
  {
    if table[0] == later {
      RemainingFalls(table[1..], after, later);
    } else {
      RemainingShrinks(table[1..], after, later);
    }
  }

  lemma {:induction false} RemainingFalls(table: seq<Id>, after: Option<Id>, later: Id)
    requires Past(after, later)
    ensures Remaining(table, Some(later)) <= Remaining(table, after)
  {
    if table != [] { RemainingFalls(table[1..], after, later); }
  }

  /** One reading of the table: when, and from which cursor. */
  datatype Look = Look(time: nat, after: Option<Id>)

  /** The payment was not eligible at a reading that had not passed it yet. */
  predicate Missed(eligible: (nat, Id) -> bool, looks: seq<Look>, id: Id) {
    exists k :: 0 <= k < |looks| && Past(looks[k].after, id) && !eligible(looks[k].time, id)
  }

  /** The payment was eligible when a page holding it was read. */
  predicate Seen(eligible: (nat, Id) -> bool, looks: seq<Look>, id: Id) {
    exists k :: 0 <= k < |looks| && Past(looks[k].after, id) && eligible(looks[k].time, id)
  }

  /** Attempts so far: in order, up to the cursor, and complete up to it. */
  predicate Swept(table: seq<Id>, eligible: (nat, Id) -> bool, looks: seq<Look>, attempts: seq<Id>, after: Option<Id>) {
    && Increasing(attempts)
    && (forall id :: id in attempts ==> id in table && !Past(after, id) && Seen(eligible, looks, id))
    && (forall id :: id in table && !Past(after, id) ==> id in attempts || Missed(eligible, looks, id))
  }

  lemma SweptPage(table: seq<Id>, eligible: (nat, Id) -> bool, looks: seq<Look>, attempts: seq<Id>, after: Option<Id>,
                  time: nat, rows: seq<Id>)
    requires Increasing(table) && Swept(table, eligible, looks, attempts, after)
    requires rows == Select(table, eligible, time, after, PAGE) && |rows| == PAGE
    ensures Swept(table, eligible, looks + [Look(time, after)], attempts + rows, Some(rows[|rows| - 1]))
    ensures rows[|rows| - 1] in table && Past(after, rows[|rows| - 1])
  {
    SelectIsPage(table, eligible, time, after, PAGE);
    var last, all, times := rows[|rows| - 1], attempts + rows, looks + [Look(time, after)];
    assert last in rows;
    Joined(attempts, rows, after);
    forall id | id in table && !Past(Some(last), id) ensures id in all || Missed(eligible, times, id) {
      Carried(eligible, looks, Look(time, after), id);
      if Past(after, id) && id !in rows { assert Past(times[|looks|].after, id) && !eligible(times[|looks|].time, id); }
    }
    forall id | id in all ensures id in table && !Past(Some(last), id) && Seen(eligible, times, id) {
      Carried(eligible, looks, Look(time, after), id);
      if id in rows {
        var i :| 0 <= i < |rows| && rows[i] == id;
        assert id <= last;
        assert Past(times[|looks|].after, id) && eligible(times[|looks|].time, id);
      }
    }
  }

  lemma Carried(eligible: (nat, Id) -> bool, looks: seq<Look>, look: Look, id: Id)
    ensures Missed(eligible, looks, id) ==> Missed(eligible, looks + [look], id)
    ensures Seen(eligible, looks, id) ==> Seen(eligible, looks + [look], id)
  {
    var more := looks + [look];
    if Missed(eligible, looks, id) {
      var k :| 0 <= k < |looks| && Past(looks[k].after, id) && !eligible(looks[k].time, id);
      assert more[k] == looks[k];
    }
    if Seen(eligible, looks, id) {
      var k :| 0 <= k < |looks| && Past(looks[k].after, id) && eligible(looks[k].time, id);
      assert more[k] == looks[k];
    }
  }

  lemma Joined(attempts: seq<Id>, rows: seq<Id>, after: Option<Id>)
    requires Increasing(attempts) && Increasing(rows)
    requires (forall id :: id in attempts ==> !Past(after, id)) && (forall id :: id in rows ==> Past(after, id))
    ensures Increasing(attempts + rows)
  {
    var all := attempts + rows;
    forall i, j | 0 <= i < j < |all| ensures all[i] < all[j] {
      if i < |attempts| <= j {
        assert attempts[i] in attempts && rows[j - |attempts|] in rows;
      }
    }
  }

  /** What a finished pass promises. */
  predicate Complete(table: seq<Id>, eligible: (nat, Id) -> bool, looks: seq<Look>, attempts: seq<Id>) {
    && Increasing(attempts) && (forall id :: id in attempts ==> id in table && Seen(eligible, looks, id))
    && (forall id :: id in table ==> id in attempts || Missed(eligible, looks, id))
  }

  lemma LastPage(table: seq<Id>, eligible: (nat, Id) -> bool, looks: seq<Look>, attempts: seq<Id>, after: Option<Id>,
                 time: nat, rows: seq<Id>)
    requires Increasing(table) && Swept(table, eligible, looks, attempts, after)
    requires rows == Select(table, eligible, time, after, PAGE) && |rows| < PAGE
    ensures Complete(table, eligible, looks + [Look(time, after)], attempts + rows)
  {
    SelectIsPage(table, eligible, time, after, PAGE);
    Joined(attempts, rows, after);
    var times := looks + [Look(time, after)];
    forall id | id in attempts + rows ensures id in table && Seen(eligible, times, id) {
      Carried(eligible, looks, Look(time, after), id);
      if id in rows { assert Past(times[|looks|].after, id) && eligible(times[|looks|].time, id); }
    }
    forall id | id in table ensures id in attempts + rows || Missed(eligible, looks + [Look(time, after)], id) {
      Carried(eligible, looks, Look(time, after), id);
      if Past(after, id) && id !in rows { assert Past(times[|looks|].after, id) && !eligible(times[|looks|].time, id); }
    }
  }

  /** One pass over a finite table whose eligible rows change at every await.  It ends even if every attempt fails;
      no payment is attempted twice; only payments read as eligible are attempted; and a payment that is eligible at
      every reading until its turn is attempted. */
  method ReconcilePayments(table: seq<Id>, eligible: (nat, Id) -> bool, succeeds: nat -> bool)
    returns (recovered: nat, attempts: seq<Id>, looks: seq<Look>)
    requires Increasing(table)
    ensures Complete(table, eligible, looks, attempts)
    ensures recovered == Successes(succeeds, |attempts|)
  {
    recovered, attempts, looks := 0, [], [];
    var after: Option<Id> := None;
    var time := 0;
    while true
      invariant Swept(table, eligible, looks, attempts, after)
      invariant recovered == Successes(succeeds, |attempts|)
      decreases Remaining(table, after)
    {
      var rows := Select(table, eligible, time, after, PAGE);
      ghost var before := attempts;
      SelectIsPage(table, eligible, time, after, PAGE);
      ghost var read := time;
      looks, time := looks + [Look(time, after)], time + 1;
      var i := 0;
      while i < |rows|
        invariant 0 <= i <= |rows| && attempts == before + rows[..i]
        invariant recovered == Successes(succeeds, |attempts|)
      {
        if succeeds(|attempts|) { recovered := recovered + 1; }
        attempts, time, i := attempts + [rows[i]], time + 1, i + 1;
      }
      assert attempts == before + rows;
      if |rows| < PAGE {
        LastPage(table, eligible, looks[..|looks| - 1], before, after, read, rows);
        assert looks == looks[..|looks| - 1] + [Look(read, after)];
        return;
      }
      SweptPage(table, eligible, looks[..|looks| - 1], before, after, read, rows);
      assert looks == looks[..|looks| - 1] + [Look(read, after)];
      RemainingShrinks(table, after, rows[|rows| - 1]);
      after := Some(rows[|rows| - 1]);
    }
  }
}
