/** The in-process wallet login limiter: fixed windows per key in a map that remembers only the most recently used
    keys, against the limiter that never forgets one. */
module LoginLimiter {
  import opened Common

  type Key = nat
  type Time = nat

  const WINDOW_MS: nat := 60_000

  datatype Counter = Counter(count: nat, reset: Time)
  datatype Entry = Entry(key: Key, counter: Counter)
  datatype Call = Call(key: Key, limit: nat, now: Time)

  /** What a take leaves behind, and how long the caller has to wait: nothing when it is admitted. */
  datatype Taken<T> = Taken(entries: T, wait: nat)

  // ----- the reference: a limiter that never forgets -----

  function Current(previous: Option<Counter>, now: Time): (r: Counter)
    ensures now < r.reset
  {
    if previous.Some? && previous.value.reset > now then previous.value else Counter(0, now + WINDOW_MS)
  }

  function Known(m: map<Key, Counter>, key: Key): Option<Counter> { if key in m then Some(m[key]) else None }

  function TakeUnbounded(m: map<Key, Counter>, c: Call): Taken<map<Key, Counter>> {
    var value := Current(Known(m, c.key), c.now);
    if value.count >= c.limit then Taken(if c.key in m then m[c.key := value] else m, value.reset - c.now)
    else Taken(m[c.key := Counter(value.count + 1, value.reset)], 0)
  }

  function Unbounded(cs: seq<Call>): map<Key, Counter> {
    if cs == [] then map[] else TakeUnbounded(Unbounded(cs[..|cs| - 1]), cs[|cs| - 1]).entries
  }

  // ----- the bounded map, in insertion order -----

  function Find(es: seq<Entry>, key: Key): (i: nat)
    ensures i <= |es| && (i < |es| ==> es[i].key == key) && forall j :: 0 <= j < i ==> es[j].key != key
  {
    if es == [] || es[0].key == key then 0 else 1 + Find(es[1..], key)
  }

  function Stored(es: seq<Entry>, key: Key): Option<Counter> {
    var i := Find(es, key);
    if i < |es| then Some(es[i].counter) else None
  }

  function Without(es: seq<Entry>, i: nat): seq<Entry>
    requires i < |es|
  {
    es[..i] + es[i + 1..]
  }

  /** A known caller moves to the end even when it is denied; a new one displaces the oldest when the map is full. */
  function Take(capacity: nat, es: seq<Entry>, c: Call): Taken<seq<Entry>> {
    var i := Find(es, c.key);
    var value := Current(Stored(es, c.key), c.now);
    var touched := if i < |es| then Without(es, i) + [Entry(c.key, value)] else es;
    if value.count >= c.limit then Taken(touched, value.reset - c.now)
    else
      var next := Entry(c.key, Counter(value.count + 1, value.reset));
      if i < |es| then Taken(Without(es, i) + [next], 0)
      else Taken((if |es| >= capacity && es != [] then es[1..] else es) + [next], 0)
  }

  function Bounded(capacity: nat, cs: seq<Call>): seq<Entry> {
    if cs == [] then [] else Take(capacity, Bounded(capacity, cs[..|cs| - 1]), cs[|cs| - 1]).entries
  }

  class MemoryWalletLoginLimiter {
    const capacity: nat
    var entries: seq<Entry>

    constructor (limit: nat)
      requires 1 <= limit <= 1_000_000
      ensures capacity == limit && entries == []
    {
      capacity, entries := limit, [];
    }

    method Delete(key: Key)
      modifies this`entries
      ensures var i := Find(old(entries), key);
        entries == if i < |old(entries)| then Without(old(entries), i) else old(entries)
    {
      var i := Find(entries, key);
      if i < |entries| { entries := Without(entries, i); }
    }

    /** Admits a login attempt, or says how long it has to wait. */
    method TakeQuota(key: Key, limit: nat, now: Time) returns (wait: nat)
      requires capacity >= 1
      modifies this`entries
      ensures Take(capacity, old(entries), Call(key, limit, now)) == Taken(entries, wait)
    {
      var previous := Stored(entries, key);
      var value := if previous.Some? && previous.value.reset > now then previous.value else Counter(0, now + WINDOW_MS);
      if previous.Some? {
        Delete(key);
        entries := entries + [Entry(key, value)];
      }
      if value.count >= limit { return value.reset - now; }
      if previous.Some? {
        entries := entries[|entries| - 1 := Entry(key, Counter(value.count + 1, value.reset))];
        assert entries == Without(old(entries), Find(old(entries), key))
               + [Entry(key, Counter(value.count + 1, value.reset))];
      } else {
        if |entries| >= capacity { entries := entries[1..]; }
        entries := entries + [Entry(key, Counter(value.count + 1, value.reset))];
      }
      wait := 0;
    }
  }

  // ----- recency -----

  predicate Used(cs: seq<Call>, k: Key) { exists i :: 0 <= i < |cs| && cs[i].key == k }

  /** The other keys used since the last use of `k`. */
  function Since(cs: seq<Call>, k: Key): set<Key> {
    if cs == [] || cs[|cs| - 1].key == k then {} else Since(cs[..|cs| - 1], k) + {cs[|cs| - 1].key}
  }

  function Keys(es: seq<Entry>): set<Key> { set i | 0 <= i < |es| :: es[i].key }

  /** The map holds each key once, in the order of last use. */
  predicate ByRecency(cs: seq<Call>, es: seq<Entry>) {
    forall p, q :: 0 <= p < q < |es| ==>
      es[p].key != es[q].key && es[q].key in Since(cs, es[p].key) && es[p].key !in Since(cs, es[q].key)
  }

  lemma SinceStep(cs: seq<Call>, c: Call, k: Key)
    ensures Since(cs + [c], k) == if c.key == k then {} else Since(cs, k) + {c.key}
  {
    assert (cs + [c])[..|cs|] == cs;
  }

  lemma BoundedStep(capacity: nat, cs: seq<Call>, c: Call)
    ensures Bounded(capacity, cs + [c]) == Take(capacity, Bounded(capacity, cs), c).entries
  {
    assert (cs + [c])[..|cs|] == cs;
  }

  /** Dropping an entry, and putting the key just used at the end, keeps the order. */
  lemma Requeue(cs: seq<Call>, es: seq<Entry>, c: Call, rest: seq<Entry>, e: Entry)
    requires ByRecency(cs, es) && e.key == c.key
    requires rest == es || (exists i :: 0 <= i < |es| && rest == Without(es, i))
    requires forall i :: 0 <= i < |rest| ==> rest[i].key != c.key
    ensures ByRecency(cs + [c], rest + [e])
  {
    var v := rest + [e];
    forall p, q | 0 <= p < q < |v|
      ensures v[p].key != v[q].key && v[q].key in Since(cs + [c], v[p].key) && v[p].key !in Since(cs + [c], v[q].key)
    {
      SinceStep(cs, c, v[p].key);
      SinceStep(cs, c, v[q].key);
    }
  }

  /** A denied call of a key that is not in the map leaves the order alone. */
  lemma Ignored(cs: seq<Call>, es: seq<Entry>, c: Call)
    requires ByRecency(cs, es) && forall i :: 0 <= i < |es| ==> es[i].key != c.key
    ensures ByRecency(cs + [c], es)
  {
    forall p, q | 0 <= p < q < |es|
      ensures es[p].key != es[q].key && es[q].key in Since(cs + [c], es[p].key)
              && es[p].key !in Since(cs + [c], es[q].key)
    {
      SinceStep(cs, c, es[p].key);
      SinceStep(cs, c, es[q].key);
    }
  }

  lemma TakeByRecency(capacity: nat, cs: seq<Call>, es: seq<Entry>, c: Call)
    requires capacity >= 1 && |es| <= capacity && ByRecency(cs, es)
    ensures var v := Take(capacity, es, c).entries; |v| <= capacity && ByRecency(cs + [c], v)
  {
    var i := Find(es, c.key);
    var v := Take(capacity, es, c).entries;
    if i < |es| {
      assert v[..|v| - 1] == Without(es, i) && v == Without(es, i) + [v[|v| - 1]];
      Requeue(cs, es, c, Without(es, i), v[|v| - 1]);
    } else if v == es {
      Ignored(cs, es, c);
    } else if |es| >= capacity {
      assert es[1..] == Without(es, 0);
      Requeue(cs, es, c, es[1..], v[|v| - 1]);
    } else {
      Requeue(cs, es, c, es, v[|v| - 1]);
    }
  }

  /** The map never exceeds its capacity, and its order is the order of last use. */
  lemma {:induction false} OrderIsRecency(capacity: nat, cs: seq<Call>)
    requires capacity >= 1
    ensures |Bounded(capacity, cs)| <= capacity && ByRecency(cs, Bounded(capacity, cs))
  {
    if cs != [] {
      var front, c := cs[..|cs| - 1], cs[|cs| - 1];
      assert cs == front + [c];
      OrderIsRecency(capacity, front);
      TakeByRecency(capacity, front, Bounded(capacity, front), c);
    }
  }

  // ----- agreement with the limiter that never forgets -----

  /** Between consecutive uses of `k` fewer than `capacity` distinct other keys are used. */
  predicate Close(capacity: nat, cs: seq<Call>, k: Key) {
    forall i :: 0 <= i < |cs| && cs[i].key == k && Used(cs[..i], k) ==> |Since(cs[..i], k)| < capacity
  }

  /** The map knows of `k` what the reference knows, or has dropped it behind `capacity` other keys. */
  predicate Agrees(capacity: nat, cs: seq<Call>, k: Key) {
    var es, m := Bounded(capacity, cs), Unbounded(cs);
    && (k in m ==> Used(cs, k))
    && (Stored(es, k) == Known(m, k) || (Stored(es, k).None? && k in m && capacity <= |Since(cs, k)|))
  }

  lemma KeysAfter(cs: seq<Call>, es: seq<Entry>)
    requires ByRecency(cs, es) && es != []
    ensures Keys(es[1..]) <= Since(cs, es[0].key) && |Keys(es[1..])| == |es| - 1
  {
    Distinct(cs, es[1..]);
  }

  lemma {:induction false} Distinct(cs: seq<Call>, es: seq<Entry>)
    requires ByRecency(cs, es)
    ensures |Keys(es)| == |es|
  {
    if es == [] {
      assert Keys(es) == {};
    } else {
      var front := es[..|es| - 1];
      Distinct(cs, front);
      assert Keys(es) == Keys(front) + {es[|es| - 1].key};
      assert es[|es| - 1].key !in Keys(front);
    }
  }

  /** A key is dropped only behind `capacity` other keys. */
  lemma DroppedBehind(cs: seq<Call>, es: seq<Entry>, c: Call)
    requires ByRecency(cs, es) && es != [] && (forall i :: 0 <= i < |es| ==> es[i].key != c.key)
    ensures |es| <= |Since(cs + [c], es[0].key)|
  {
    KeysAfter(cs, es);
    SinceStep(cs, c, es[0].key);
    var s := Keys(es[1..]) + {c.key};
    assert c.key !in Keys(es[1..]);
    SubsetSize(s, Since(cs + [c], es[0].key));
  }

  lemma SubsetSize(a: set<Key>, b: set<Key>)
    requires a <= b
    ensures |a| <= |b|
  {
    assert b == a + (b - a);
  }

  lemma FindUnique(es: seq<Entry>, i: nat)
    requires i < |es| && forall j :: 0 <= j < |es| && j != i ==> es[j].key != es[i].key
    ensures Stored(es, es[i].key) == Some(es[i].counter)
  {}

  lemma FindAbsent(es: seq<Entry>, k: Key)
    requires forall j :: 0 <= j < |es| ==> es[j].key != k
    ensures Stored(es, k).None?
  {}

  /** Taking one key leaves what is stored of another, unless it is the oldest and is dropped. */
  lemma OthersUntouched(capacity: nat, cs: seq<Call>, es: seq<Entry>, c: Call, k: Key)
    requires capacity >= 1 && ByRecency(cs, es) && |es| <= capacity && k != c.key
    ensures
      var v := Take(capacity, es, c).entries;
      Stored(v, k) == Stored(es, k) || (Stored(v, k).None? && capacity <= |Since(cs + [c], k)|)
  {
    var v := Take(capacity, es, c).entries;
    TakeByRecency(capacity, cs, es, c);
    var i := Find(es, c.key);
    var p := Find(es, k);
    if p == |es| {
      FindAbsent(v, k);
    } else if i < |es| {
      var q := if p < i then p else p - 1;
      assert v[q] == es[p];
      FindUnique(v, q);
    } else if v != es && |es| >= capacity {
      OldestDropped(capacity, cs, es, c, k);
    } else {
      assert v[p] == es[p];
      FindUnique(v, p);
    }
  }

  /** A new key displaces only the oldest entry of a full map. */
  lemma OldestDropped(capacity: nat, cs: seq<Call>, es: seq<Entry>, c: Call, k: Key)
    requires capacity >= 1 && ByRecency(cs, es) && |es| == capacity && k != c.key && Find(es, c.key) == |es|
             && Find(es, k) < |es|
    requires Take(capacity, es, c).entries != es && ByRecency(cs + [c], Take(capacity, es, c).entries)
    ensures
      var v := Take(capacity, es, c).entries;
      Stored(v, k) == Stored(es, k) || (Stored(v, k).None? && capacity <= |Since(cs + [c], k)|)
  {
    var v := Take(capacity, es, c).entries;
    var p := Find(es, k);
    if p == 0 {
      DroppedBehind(cs, es, c);
      FindAbsent(v, k);
    } else {
      assert v[p - 1] == es[p];
      FindUnique(v, p - 1);
    }
  }

  lemma OwnEntry(capacity: nat, cs: seq<Call>, es: seq<Entry>, c: Call)
    requires capacity >= 1 && ByRecency(cs, es) && |es| <= capacity
    ensures
      var value := Current(Stored(es, c.key), c.now);
      Stored(Take(capacity, es, c).entries, c.key) ==
        if value.count < c.limit then Some(Counter(value.count + 1, value.reset))
        else if Stored(es, c.key).Some? then Some(value) else None
  {
    var v := Take(capacity, es, c).entries;
    TakeByRecency(capacity, cs, es, c);
    if v != [] && v[|v| - 1].key == c.key { FindUnique(v, |v| - 1); } else { assert v == es; }
  }

  lemma {:induction false} UsedStep(cs: seq<Call>, c: Call, k: Key)
    ensures Used(cs + [c], k) <==> Used(cs, k) || c.key == k
  {
    var v := cs + [c];
    if Used(cs, k) {
      var i :| 0 <= i < |cs| && cs[i].key == k;
      assert v[i].key == k;
    }
    if c.key == k { assert v[|cs|].key == k; }
  }

  lemma AgreeStep(capacity: nat, cs: seq<Call>, c: Call, k: Key)
    requires capacity >= 1 && Agrees(capacity, cs, k) && (c.key == k && Used(cs, k) ==> |Since(cs, k)| < capacity)
    ensures Agrees(capacity, cs + [c], k)
    ensures c.key == k ==> Take(capacity, Bounded(capacity, cs), c).wait == TakeUnbounded(Unbounded(cs), c).wait
  {
    OrderIsRecency(capacity, cs);
    BoundedStep(capacity, cs, c);
    UnboundedStep(cs, c);
    UsedStep(cs, c, k);
    SinceStep(cs, c, k);
    if c.key == k { OwnEntry(capacity, cs, Bounded(capacity, cs), c); }
    else {
      OthersUntouched(capacity, cs, Bounded(capacity, cs), c, k);
      SubsetSize(Since(cs, k), Since(cs + [c], k));
    }
  }

  lemma UnboundedStep(cs: seq<Call>, c: Call)
    ensures Unbounded(cs + [c]) == TakeUnbounded(Unbounded(cs), c).entries
    ensures forall k :: k != c.key ==> Known(Unbounded(cs + [c]), k) == Known(Unbounded(cs), k)
  {
    assert (cs + [c])[..|cs|] == cs;
  }

  lemma {:induction false} AgreeAlways(capacity: nat, cs: seq<Call>, k: Key)
    requires capacity >= 1 && Close(capacity, cs, k)
    ensures Agrees(capacity, cs, k)
  {
    if cs != [] {
      var front, c := cs[..|cs| - 1], cs[|cs| - 1];
      assert cs == front + [c];
      forall i | 0 <= i < |front| && front[i].key == k && Used(front[..i], k)
        ensures |Since(front[..i], k)| < capacity
      {
        assert front[..i] == cs[..i] && cs[i].key == k;
      }
      AgreeAlways(capacity, front, k);
      assert cs[..|front|] == front;
      AgreeStep(capacity, front, c, k);
    }
  }

  /** A key whose uses are never separated by `capacity` distinct other keys is limited exactly as if nothing were ever
      forgotten, whatever happens to the other keys. */
  lemma DecidesAsUnbounded(capacity: nat, cs: seq<Call>, c: Call)
    requires capacity >= 1 && Close(capacity, cs + [c], c.key)
    ensures Take(capacity, Bounded(capacity, cs), c).wait == TakeUnbounded(Unbounded(cs), c).wait
  {
    var all := cs + [c];
    assert all[..|cs|] == cs;
    assert all[|cs|].key == c.key;
    forall i | 0 <= i < |cs| && cs[i].key == c.key && Used(cs[..i], c.key) ensures |Since(cs[..i], c.key)| < capacity {
      assert cs[..i] == all[..i] && all[i].key == c.key;
    }
    AgreeAlways(capacity, cs, c.key);
    AgreeStep(capacity, cs, c, c.key);
  }

  // ----- exactly when a key is remembered -----

  /** Every key used after an entry stands after it; every used key that is gone fell behind `capacity` others. */
  ghost predicate Remembers(capacity: nat, cs: seq<Call>, es: seq<Entry>) {
    && (forall p, x :: 0 <= p < |es| && x in Since(cs, es[p].key) ==> p < Find(es, x) < |es|)
    && (forall k: Key :: Used(cs, k) && Find(es, k) == |es| ==> capacity <= |Since(cs, k)|)
    && (forall p :: 0 <= p < |es| ==> Used(cs, es[p].key))
  }

  lemma FoundAt(es: seq<Entry>, i: nat)
    requires i < |es| && forall j :: 0 <= j < |es| && j != i ==> es[j].key != es[i].key
    ensures Find(es, es[i].key) == i
  {}

  /** Where an entry of the map stands after a take, and that it stands there alone. */
  lemma MovedTo(capacity: nat, cs: seq<Call>, es: seq<Entry>, c: Call, p: nat) returns (q: nat)
    requires capacity >= 1 && |es| <= capacity && ByRecency(cs, es) && c.limit >= 1
    requires p < |es| && es[p].key != c.key && !(Find(es, c.key) == |es| && |es| >= capacity && p == 0)
    ensures
      var v := Take(capacity, es, c).entries;
      && q < |v| - 1 && Find(v, es[p].key) == q && v[q].key == es[p].key
      && q == if Find(es, c.key) < |es| then (if p < Find(es, c.key) then p else p - 1)
              else if |es| >= capacity then p - 1 else p
  {
    TakeByRecency(capacity, cs, es, c);
    var i := Find(es, c.key);
    q := if i < |es| then (if p < i then p else p - 1) else if |es| >= capacity then p - 1 else p;
    FoundAt(Take(capacity, es, c).entries, q);
  }

  lemma LastIsCaller(capacity: nat, cs: seq<Call>, es: seq<Entry>, c: Call)
    requires capacity >= 1 && |es| <= capacity && ByRecency(cs, es) && c.limit >= 1
    ensures var v := Take(capacity, es, c).entries; v != [] && v[|v| - 1].key == c.key && Find(v, c.key) == |v| - 1
  {
    var v := Take(capacity, es, c).entries;
    TakeByRecency(capacity, cs, es, c);
    FoundAt(v, |v| - 1);
  }

  lemma OthersRemembered(capacity: nat, cs: seq<Call>, es: seq<Entry>, c: Call, p: nat, x: Key)
    requires capacity >= 1 && |es| <= capacity && ByRecency(cs, es) && Remembers(capacity, cs, es) && c.limit >= 1
    requires var v := Take(capacity, es, c).entries; p < |v| && x in Since(cs + [c], v[p].key)
    ensures var v := Take(capacity, es, c).entries; p < Find(v, x) < |v|
  {
    var v := Take(capacity, es, c).entries;
    LastIsCaller(capacity, cs, es, c);
    SinceStep(cs, c, v[p].key);
    if x != c.key {
      var o := CameFrom(capacity, cs, es, c, p);
      var f := Find(es, x);
      assert o < f < |es|;
      var q := MovedTo(capacity, cs, es, c, f);
    }
  }

  /** Where an entry that is not the caller's stood before a take. */
  lemma CameFrom(capacity: nat, cs: seq<Call>, es: seq<Entry>, c: Call, p: nat) returns (o: nat)
    requires capacity >= 1 && |es| <= capacity && ByRecency(cs, es) && c.limit >= 1
    requires var v := Take(capacity, es, c).entries; p < |v| && v[p].key != c.key
    ensures o < |es| && es[o].key == Take(capacity, es, c).entries[p].key
    ensures o == if Find(es, c.key) < |es| then (if p < Find(es, c.key) then p else p + 1)
                 else if |es| >= capacity then p + 1 else p
  {
    var i := Find(es, c.key);
    o := if i < |es| then (if p < i then p else p + 1) else if |es| >= capacity then p + 1 else p;
  }

  lemma AbsentBehind(capacity: nat, cs: seq<Call>, es: seq<Entry>, c: Call, k: Key)
    requires capacity >= 1 && |es| <= capacity && ByRecency(cs, es) && Remembers(capacity, cs, es) && c.limit >= 1
    requires var v := Take(capacity, es, c).entries; Used(cs + [c], k) && Find(v, k) == |v|
    ensures capacity <= |Since(cs + [c], k)|
  {
    LastIsCaller(capacity, cs, es, c);
    UsedStep(cs, c, k);
    SinceStep(cs, c, k);
    var p := Find(es, k);
    if p == |es| {
      SubsetSize(Since(cs, k), Since(cs + [c], k));
    } else if p == 0 && Find(es, c.key) == |es| && |es| >= capacity {
      DroppedBehind(cs, es, c);
    } else {
      var q := MovedTo(capacity, cs, es, c, p);
    }
  }

  lemma {:induction false} RemembersAlways(capacity: nat, cs: seq<Call>)
    requires capacity >= 1 && forall c :: c in cs ==> c.limit >= 1
    ensures Remembers(capacity, cs, Bounded(capacity, cs))
  {
    if cs != [] {
      var front, c := cs[..|cs| - 1], cs[|cs| - 1];
      assert cs == front + [c];
      RemembersAlways(capacity, front);
      OrderIsRecency(capacity, front);
      var es, v := Bounded(capacity, front), Bounded(capacity, cs);
      forall p, x | 0 <= p < |v| && x in Since(cs, v[p].key)
        ensures p < Find(v, x) < |v|
      {
        OthersRemembered(capacity, front, es, c, p, x);
      }
      forall k: Key | Used(cs, k) && Find(v, k) == |v|
        ensures capacity <= |Since(cs, k)|
      {
        AbsentBehind(capacity, front, es, c, k);
      }
      forall p | 0 <= p < |v| ensures Used(cs, v[p].key) { StillUsed(capacity, front, es, c, p); }
    }
  }

  lemma StillUsed(capacity: nat, cs: seq<Call>, es: seq<Entry>, c: Call, p: nat)
    requires forall q :: 0 <= q < |es| ==> Used(cs, es[q].key)
    requires p < |Take(capacity, es, c).entries|
    ensures Used(cs + [c], Take(capacity, es, c).entries[p].key)
  {
    UsedStep(cs, c, Take(capacity, es, c).entries[p].key);
  }

  /** With positive limits the limiter remembers a key exactly when it was used and fewer than `capacity` distinct
      other keys were used since. */
  lemma RememberedExactly(capacity: nat, cs: seq<Call>, k: Key)
    requires capacity >= 1 && forall c :: c in cs ==> c.limit >= 1
    ensures Stored(Bounded(capacity, cs), k).Some? <==> Used(cs, k) && |Since(cs, k)| < capacity
  {
    RemembersAlways(capacity, cs);
    OrderIsRecency(capacity, cs);
    var es := Bounded(capacity, cs);
    var p := Find(es, k);
    if p < |es| {
      var later := es[p + 1..];
      forall x | x in Since(cs, k) ensures x in Keys(later) {
        assert later[Find(es, x) - p - 1].key == x;
      }
      SubsetSize(Since(cs, k), Keys(later));
      Distinct(cs, later);
    }
  }

  // ----- exactly when the decisions differ -----

  /** A forgotten key is always admitted, as if it had never been used; the limiter that never forgets admits it only
      while its window has room. */
  lemma {:induction false} ForgottenIsAdmitted(capacity: nat, cs: seq<Call>, c: Call)
    requires capacity >= 1 && c.limit >= 1 && forall d :: d in cs ==> d.limit >= 1
    requires Used(cs, c.key) && capacity <= |Since(cs, c.key)|
    ensures
      var bounded := Take(capacity, Bounded(capacity, cs), c).wait;
      && bounded == 0
      && (bounded == TakeUnbounded(Unbounded(cs), c).wait
          <==> Current(Known(Unbounded(cs), c.key), c.now).count < c.limit)
  {
    RememberedExactly(capacity, cs, c.key);
  }

  /** While a key's uses have been close, its next decision is that of the limiter that never forgets exactly when the
      key is new, or fewer than `capacity` distinct other keys were used since, or its window still has room. */
  lemma {:induction false} DecidesAsUnboundedIff(capacity: nat, cs: seq<Call>, c: Call)
    requires capacity >= 1 && c.limit >= 1 && (forall d :: d in cs ==> d.limit >= 1) && Close(capacity, cs, c.key)
    ensures
      Take(capacity, Bounded(capacity, cs), c).wait == TakeUnbounded(Unbounded(cs), c).wait <==>
        !Used(cs, c.key) || |Since(cs, c.key)| < capacity || Current(Known(Unbounded(cs), c.key), c.now).count < c.limit
  {
    if Used(cs, c.key) && capacity <= |Since(cs, c.key)| {
      ForgottenIsAdmitted(capacity, cs, c);
    } else {
      AgreeAlways(capacity, cs, c.key);
      AgreeStep(capacity, cs, c, c.key);
    }
  }

  // ----- admissions per window -----

  function Admitted(cs: seq<Call>, from: nat, k: Key): nat {
    if |cs| <= from then 0
    else
      var front, c := cs[..|cs| - 1], cs[|cs| - 1];
      Admitted(front, from, k) + if c.key == k && TakeUnbounded(Unbounded(front), c).wait == 0 then 1 else 0
  }

  /** The call at `i` finds no window of its key open. */
  predicate OpensWindow(cs: seq<Call>, i: nat)
    requires i < |cs|
  {
    var known := Known(Unbounded(cs[..i]), cs[i].key);
    known.None? || known.value.reset <= cs[i].now
  }

  /** From the call that opens a window until the window ends, the counter is the number of admissions since. */
  lemma {:induction false} CounterCounts(cs: seq<Call>, i: nat, limit: nat)
    requires i < |cs| && OpensWindow(cs, i) && limit >= 1
    requires forall j :: i <= j < |cs| && cs[j].key == cs[i].key
                         ==> cs[j].limit == limit && cs[i].now <= cs[j].now < cs[i].now + WINDOW_MS
    ensures Known(Unbounded(cs), cs[i].key) == Some(Counter(Admitted(cs, i, cs[i].key), cs[i].now + WINDOW_MS))
    ensures Admitted(cs, i, cs[i].key) <= limit
    decreases |cs|
  {
    var front, c, k := cs[..|cs| - 1], cs[|cs| - 1], cs[i].key;
    if i == |cs| - 1 {
      assert front == cs[..i];
      assert Admitted(front, i, k) == 0;
    } else {
      assert front[..i] == cs[..i];
      CounterCounts(front, i, limit);
    }
  }

  /** The same count for the limiter that forgets. */
  function AdmittedBounded(capacity: nat, cs: seq<Call>, from: nat, k: Key): nat {
    if |cs| <= from then 0
    else
      var front, c := cs[..|cs| - 1], cs[|cs| - 1];
      AdmittedBounded(capacity, front, from, k) + if c.key == k && Take(capacity, Bounded(capacity, front), c).wait == 0
        then 1 else 0
  }

  lemma ClosePrefix(capacity: nat, cs: seq<Call>, k: Key)
    requires cs != [] && Close(capacity, cs, k)
    ensures Close(capacity, cs[..|cs| - 1], k)
  {
    var front := cs[..|cs| - 1];
    forall i | 0 <= i < |front| && front[i].key == k && Used(front[..i], k) ensures |Since(front[..i], k)| < capacity {
      assert front[..i] == cs[..i] && cs[i].key == k;
    }
  }

  lemma {:induction false} SameAdmissions(capacity: nat, cs: seq<Call>, from: nat, k: Key)
    requires capacity >= 1 && Close(capacity, cs, k)
    ensures AdmittedBounded(capacity, cs, from, k) == Admitted(cs, from, k)
    decreases |cs|
  {
    if |cs| > from {
      var front, c := cs[..|cs| - 1], cs[|cs| - 1];
      ClosePrefix(capacity, cs, k);
      SameAdmissions(capacity, front, from, k);
      if c.key == k {
        assert cs == front + [c];
        DecidesAsUnbounded(capacity, front, c);
      }
    }
  }

  /** At most `limit` attempts of a key are admitted in a window, counted from the attempt that opened it, as long as
      `capacity` distinct other keys never come between two of its attempts. */
  lemma AtMostLimitPerWindow(capacity: nat, cs: seq<Call>, i: nat, limit: nat)
    requires capacity >= 1 && i < |cs| && Close(capacity, cs, cs[i].key) && OpensWindow(cs, i) && limit >= 1
    requires forall j :: i <= j < |cs| && cs[j].key == cs[i].key
                         ==> cs[j].limit == limit && cs[i].now <= cs[j].now < cs[i].now + WINDOW_MS
    ensures AdmittedBounded(capacity, cs, i, cs[i].key) <= limit
  {
    CounterCounts(cs, i, limit);
    SameAdmissions(capacity, cs, i, cs[i].key);
  }

  /** With room for one key, a second key between two attempts of the first is enough: under a limit of one the first
      key is admitted twice in its window, where the limiter that never forgets refuses it. */
  lemma EvictionAdmitsAgain()
    ensures
      var cs := [Call(0, 1, 0), Call(1, 1, 0), Call(0, 1, 0)];
      && OpensWindow(cs, 0) && AdmittedBounded(1, cs, 0, 0) == 2
      && Take(1, Bounded(1, cs[..2]), cs[2]).wait == 0 && TakeUnbounded(Unbounded(cs[..2]), cs[2]).wait == WINDOW_MS
  {
    var cs := [Call(0, 1, 0), Call(1, 1, 0), Call(0, 1, 0)];
    assert cs[..2][..1] == cs[..1] && cs[..1][..0] == [];
    var a, b := Entry(0, Counter(1, WINDOW_MS)), Entry(1, Counter(1, WINDOW_MS));
    assert Unbounded(cs[..0]) == map[] && Bounded(1, cs[..0]) == [];
    UnboundedStep(cs[..0], cs[0]);
    BoundedStep(1, cs[..0], cs[0]);
    assert cs[..0] + [cs[0]] == cs[..1];
    assert Unbounded(cs[..1]) == map[0 := a.counter] && Bounded(1, cs[..1]) == [a];
    UnboundedStep(cs[..1], cs[1]);
    BoundedStep(1, cs[..1], cs[1]);
    assert cs[..1] + [cs[1]] == cs[..2];
    assert Unbounded(cs[..2]) == map[0 := a.counter, 1 := b.counter];
    assert Take(1, [a], cs[1]).entries == [b];
    assert Bounded(1, cs[..2]) == [b];
    AdmittedStep(1, cs[..0], cs[0], 0, 0);
    AdmittedStep(1, cs[..1], cs[1], 0, 0);
    assert cs[..2] + [cs[2]] == cs;
    AdmittedStep(1, cs[..2], cs[2], 0, 0);
  }

  lemma AdmittedStep(capacity: nat, cs: seq<Call>, c: Call, from: nat, k: Key)
    requires from <= |cs|
    ensures AdmittedBounded(capacity, cs + [c], from, k) ==
      AdmittedBounded(capacity, cs, from, k) + if c.key == k && Take(capacity, Bounded(capacity, cs), c).wait == 0
        then 1 else 0
  {
    assert (cs + [c])[..|cs|] == cs;
  }
}
