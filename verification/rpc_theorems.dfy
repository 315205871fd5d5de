/** Rate, order and accounting of the RPC fetch pool, over every mix of arrivals, aborts, timers, answers and
    budgets. */
module RpcTheorems {
  import opened Common
  import opened RpcPool

  // ----- the invariant -----

  function InService(e: Endpoint): multiset<Id> { if e.active.Some? then multiset{e.active.value.id} else multiset{} }

  /** Every accepted request is queued, in service, or was released once. */
  predicate Accounted(e: Endpoint) {
    Balanced(e.accepted, e.released, e.queue, InService(e))
  }

  predicate Numbered(e: Endpoint) { forall i :: 0 <= i < |e.accepted| ==> e.accepted[i] == i }

  predicate Increasing(s: seq<Id>) { forall i, j :: 0 <= i < j < |s| ==> s[i] < s[j] }

  function Started(e: Endpoint): seq<Id> { seq(|e.starts|, i requires 0 <= i < |e.starts| => e.starts[i].id) }

  /** Started requests, then the one waiting for its turn, then the queue. */
  function Line(e: Endpoint): seq<Id> {
    Started(e) + (if e.active.Some? && e.active.value.phase.Waiting? then [e.active.value.id] else []) + e.queue
  }

  predicate Standing(line: seq<Id>, n: nat) { Increasing(line) && forall id :: id in line ==> id < n }

  /** Requests stand in line in arrival order; the one being fetched is the last that started. */
  predicate Lined(e: Endpoint) {
    && Standing(Line(e), |e.accepted|)
    && (e.active.Some? && e.active.value.phase.Fetching?
        ==> e.starts != [] && e.starts[|e.starts| - 1].id == e.active.value.id)
  }

  /** No queued request has been aborted, and only accepted requests can be. */
  predicate Clean(e: Endpoint) {
    (forall id :: id in e.queue ==> id !in e.aborted) && (forall id :: id in e.aborted ==> id < |e.accepted|)
  }

  predicate Counted(maxPending: nat, e: Endpoint) {
    && e.pending == |e.queue| + (if e.active.Some? then 1 else 0) && e.pending <= maxPending
    && (e.running <==> e.active.Some?) && (e.queue != [] ==> e.running)
  }

  /** Starts lie at least the spacing in force apart. */
  predicate Spaced(e: Endpoint) {
    && e.spacing >= 1
    && (e.last.Some? <==> e.starts != []) && (e.starts != [] ==> e.last == Some(e.starts[|e.starts| - 1].at))
    && (forall i :: 0 <= i < |e.starts| ==> e.starts[i].spacing >= 1 && e.starts[i].at <= e.now)
    && (forall i :: 0 < i < |e.starts| ==> e.starts[i - 1].at + e.starts[i].spacing as real <= e.starts[i].at)
  }

  predicate Inv(maxPending: nat, e: Endpoint) {
    Accounted(e) && Numbered(e) && Lined(e) && Clean(e) && Counted(maxPending, e) && Spaced(e)
  }

  // ----- the drain -----

  /** With no aborted request in the queue the drain starts, or waits for, the head of the queue. */
  lemma DrainIs(e: Endpoint)
    requires Clean(e)
    ensures Drain(e) == if e.queue == [] then e.(running := false) else Begin(e.(queue := e.queue[1..]), e.queue[0])
  {}

  predicate Balanced(accepted: seq<Id>, released: seq<Id>, queue: seq<Id>, service: multiset<Id>) {
    multiset(accepted) == multiset(released) + multiset(queue) + service
  }

  lemma TakeHead(accepted: seq<Id>, released: seq<Id>, queue: seq<Id>)
    requires queue != [] && Balanced(accepted, released, queue, multiset{})
    ensures Balanced(accepted, released, queue[1..], multiset{queue[0]})
  {
    assert queue == [queue[0]] + queue[1..];
  }

  lemma Append(accepted: seq<Id>, released: seq<Id>, queue: seq<Id>, service: multiset<Id>, id: Id)
    requires Balanced(accepted, released, queue, service)
    ensures Balanced(accepted + [id], released, queue + [id], service)
  {}

  lemma Remove(accepted: seq<Id>, released: seq<Id>, queue: seq<Id>, service: multiset<Id>, i: nat)
    requires i < |queue| && Balanced(accepted, released, queue, service)
    ensures Balanced(accepted, released + [queue[i]], queue[..i] + queue[i + 1..], service)
  {
    assert queue == queue[..i] + [queue[i]] + queue[i + 1..];
  }

  lemma DrainAccounted(e: Endpoint)
    requires Accounted(e) && Clean(e) && e.active.None?
    ensures Accounted(Drain(e))
  {
    DrainIs(e);
    if e.queue != [] {
      TakeHead(e.accepted, e.released, e.queue);
      assert Balanced(Drain(e).accepted, Drain(e).released, Drain(e).queue, InService(Drain(e)));
    }
  }

  lemma BeginLined(e: Endpoint, id: Id)
    requires Standing(Started(e) + [id] + e.queue, |e.accepted|)
    ensures Lined(Begin(e, id))
  {
    var b := Begin(e, id);
    if b.active.value.phase.Fetching? { assert Started(b) == Started(e) + [id]; }
    assert Line(b) == Started(e) + [id] + e.queue;
  }

  lemma DrainLined(e: Endpoint)
    requires Standing(Started(e) + e.queue, |e.accepted|) && Clean(e) && e.active.None?
    ensures Lined(Drain(e))
  {
    DrainIs(e);
    if e.queue == [] {
      assert Line(Drain(e)) == Started(e) + e.queue;
    } else {
      var rest := e.(queue := e.queue[1..]);
      assert Started(rest) + [e.queue[0]] + rest.queue == Started(e) + e.queue;
      BeginLined(rest, e.queue[0]);
    }
  }

  lemma DrainRest(maxPending: nat, e: Endpoint)
    requires Clean(e) && e.active.None? && e.running && e.pending == |e.queue| <= maxPending && Spaced(e)
    ensures Clean(Drain(e)) && Counted(maxPending, Drain(e)) && Spaced(Drain(e))
    ensures Drain(e).accepted == e.accepted && Drain(e).now == e.now && Drain(e).spacing == e.spacing
    ensures StartsFrom(e, Drain(e))
  {
    DrainIs(e);
  }

  /** At most one request started, under the current spacing. */
  predicate StartsFrom(e: Endpoint, v: Endpoint) {
    || v.starts == e.starts
    || (|v.starts| == |e.starts| + 1 && v.starts[..|e.starts|] == e.starts && v.starts[|e.starts|].spacing == e.spacing)
  }

  // ----- each event keeps the invariant -----

  predicate Kept(maxPending: nat, e: Endpoint, v: Endpoint) {
    Inv(maxPending, v) && e.now <= v.now && e.spacing <= v.spacing && StartsFrom(e, v)
  }

  /** Going on to the next request after the one in service was released. */
  lemma ServeNext(maxPending: nat, e: Endpoint)
    requires Inv(maxPending, e) && e.active.Some?
    ensures Kept(maxPending, e, Drain(Release(e, e.active.value.id)))
  {
    var id := e.active.value.id;
    var r := Release(e, id);
    assert multiset(r.released) == multiset(e.released) + multiset{id};
    ServeLined(e);
    DrainKeeps(maxPending, r);
  }

  lemma ServeLined(e: Endpoint)
    requires Lined(e) && e.active.Some?
    ensures Standing(Started(e) + e.queue, |e.accepted|)
  {
    if e.active.value.phase.Waiting? {
      var n := |e.starts|;
      assert Line(e)[..n] + Line(e)[n + 1..] == Started(e) + e.queue;
      SpliceKeeps(Line(e), n);
    } else {
      assert Line(e) == Started(e) + e.queue;
    }
  }

  lemma SpliceKeeps(q: seq<Id>, i: nat)
    requires i < |q| && Increasing(q)
    ensures var r := q[..i] + q[i + 1..];
      Increasing(r) && multiset(q) == multiset(r) + multiset{q[i]} && q[i] !in r && forall id :: id in r ==> id in q
  {
    assert q == q[..i] + [q[i]] + q[i + 1..];
  }

  function Enqueued(e: Endpoint): Endpoint {
    var id := |e.accepted|;
    e.(pending := e.pending + 1, queue := e.queue + [id], accepted := e.accepted + [id])
  }

  lemma EnqueueKeeps(maxPending: nat, e: Endpoint)
    requires Inv(maxPending, e) && e.pending < maxPending
    ensures
      var v := Enqueued(e);
      && Accounted(v) && Numbered(v) && Lined(v) && Clean(v) && Spaced(v)
      && v.pending == |v.queue| + (if v.active.Some? then 1 else 0) <= maxPending
  {
    Append(e.accepted, e.released, e.queue, InService(e), |e.accepted|);
    var line := Line(e);
    assert Line(Enqueued(e)) == line + [|e.accepted|];
    forall i | 0 <= i < |line| ensures line[i] < |e.accepted| { assert line[i] in line; }
  }

  lemma AcceptKeeps(maxPending: nat, e: Endpoint, aborted: bool)
    requires Inv(maxPending, e)
    ensures Kept(maxPending, e, Next(maxPending, e, Arrive(aborted)))
  {
    IdleKeeps(maxPending, e);
    if !aborted && e.pending < maxPending {
      if e.running { JoinsQueue(maxPending, e); } else { FirstServed(maxPending, e); }
    }
  }

  lemma JoinsQueue(maxPending: nat, e: Endpoint)
    requires Inv(maxPending, e) && e.pending < maxPending && e.running
    ensures Kept(maxPending, e, Enqueued(e))
  {
    EnqueueKeeps(maxPending, e);
  }

  lemma FirstServed(maxPending: nat, e: Endpoint)
    requires Inv(maxPending, e) && e.pending < maxPending && !e.running
    ensures Kept(maxPending, e, Drain(Enqueued(e).(running := true)))
  {
    EnqueueKeeps(maxPending, e);
    var v := Enqueued(e).(running := true);
    assert Line(Enqueued(e)) == Started(v) + v.queue;
    DrainKeeps(maxPending, v);
  }

  /** Draining with nothing in service. */
  lemma DrainKeeps(maxPending: nat, e: Endpoint)
    requires Accounted(e) && Numbered(e) && Clean(e) && Spaced(e) && e.active.None? && e.running
             && e.pending == |e.queue| <= maxPending
    requires Standing(Started(e) + e.queue, |e.accepted|)
    ensures Kept(maxPending, e, Drain(e))
  {
    DrainAccounted(e);
    DrainLined(e);
    DrainRest(maxPending, e);
  }

  function Unqueued(e: Endpoint, i: nat): Endpoint
    requires i < |e.queue|
  {
    e.(queue := e.queue[..i] + e.queue[i + 1..], pending := e.pending - 1,
       released := e.released + [e.queue[i]], aborted := e.aborted + {e.queue[i]})
  }

  lemma UnqueueLined(e: Endpoint, i: nat)
    requires Lined(e) && Clean(e) && i < |e.queue|
    ensures Lined(Unqueued(e, i)) && Clean(Unqueued(e, i))
  {
    var v := Unqueued(e, i);
    QueueIncreasing(e);
    SpliceKeeps(e.queue, i);
    var n := |Line(e)| - |e.queue| + i;
    assert Line(e)[n] == e.queue[i] && Line(v) == Line(e)[..n] + Line(e)[n + 1..];
    assert Line(e)[n] in Line(e);
    SpliceKeeps(Line(e), n);
  }

  lemma UnqueueKeeps(maxPending: nat, e: Endpoint, i: nat)
    requires Inv(maxPending, e) && i < |e.queue|
    ensures Kept(maxPending, e, Unqueued(e, i))
  {
    Remove(e.accepted, e.released, e.queue, InService(e), i);
    UnqueueLined(e, i);
  }

  lemma QueueIncreasing(e: Endpoint)
    requires Lined(e)
    ensures Increasing(e.queue)
  {
    var d := |Line(e)| - |e.queue|;
    forall i, j | 0 <= i < j < |e.queue| ensures e.queue[i] < e.queue[j] {
      assert Line(e)[d + i] == e.queue[i] && Line(e)[d + j] == e.queue[j];
    }
  }

  lemma AbortKeeps(maxPending: nat, e: Endpoint, id: Id)
    requires Inv(maxPending, e)
    ensures Kept(maxPending, e, Next(maxPending, e, Abort(id)))
  {
    if IndexOf(e.queue, id) < |e.queue| { UnqueueKeeps(maxPending, e, IndexOf(e.queue, id)); }
    else if e.active.Some? && e.active.value.id == id { AbortActiveKeeps(maxPending, e, id); }
    else { IdleKeeps(maxPending, e); }
  }

  lemma AbortActiveKeeps(maxPending: nat, e: Endpoint, id: Id)
    requires Inv(maxPending, e) && IndexOf(e.queue, id) == |e.queue| && e.active.Some? && e.active.value.id == id
    ensures Kept(maxPending, e, Aborted(e, id))
  {
    ActiveAborted(maxPending, e, id);
    AbortedServed(maxPending, e, e.(aborted := e.aborted + {id}));
  }

  lemma AbortedServed(maxPending: nat, e: Endpoint, e1: Endpoint)
    requires Inv(maxPending, e1) && e1 == e.(aborted := e1.aborted) && e1.active.Some?
    ensures Kept(maxPending, e, e1) && Kept(maxPending, e, Drain(Release(e1, e1.active.value.id)))
  {
    ServeNext(maxPending, e1);
  }

  lemma ActiveAborted(maxPending: nat, e: Endpoint, id: Id)
    requires Inv(maxPending, e) && e.active.Some? && e.active.value.id == id && id !in e.queue[..IndexOf(e.queue, id)]
    requires IndexOf(e.queue, id) == |e.queue|
    ensures Inv(maxPending, e.(aborted := e.aborted + {id}))
  {
    assert e.queue[..|e.queue|] == e.queue;
    assert Line(e.(aborted := e.aborted + {id})) == Line(e);
    assert id in multiset(e.accepted);
    assert id in e.accepted;
  }

  lemma WakeKeeps(maxPending: nat, e: Endpoint)
    requires Inv(maxPending, e) && e.active.Some? && e.active.value.phase.Waiting?
    ensures Kept(maxPending, e, Begin(e, e.active.value.id))
  {
    assert Line(e) == Started(e) + [e.active.value.id] + e.queue;
    BeginLined(e, e.active.value.id);
  }

  lemma NextKeeps(maxPending: nat, e: Endpoint, event: Event)
    requires Inv(maxPending, e)
    ensures Kept(maxPending, e, Next(maxPending, e, event))
  {
    match event
    case Arrive(aborted) => AcceptKeeps(maxPending, e, aborted);
    case Abort(id) => AbortKeeps(maxPending, e, id);
    case Wake => WokenKeeps(maxPending, e);
    case FetchDone => DoneKeeps(maxPending, e);
    case Elapse(ms) => ElapseKeeps(maxPending, e, ms);
    case Lower(rps) => LowerKeeps(maxPending, e, rps);
  }

  lemma ElapseKeeps(maxPending: nat, e: Endpoint, ms: real)
    requires Inv(maxPending, e)
    ensures Kept(maxPending, e, Next(maxPending, e, Elapse(ms)))
  {
    IdleKeeps(maxPending, e);
    if ms > 0.0 { ClockKeeps(maxPending, e, e.now + ms, e.spacing); }
  }

  lemma LowerKeeps(maxPending: nat, e: Endpoint, rps: int)
    requires Inv(maxPending, e)
    ensures Kept(maxPending, e, Next(maxPending, e, Lower(rps)))
  {
    IdleKeeps(maxPending, e);
    if BudgetOk(rps) { ClockKeeps(maxPending, e, e.now, Lowered(e, rps).spacing); }
  }

  lemma WokenKeeps(maxPending: nat, e: Endpoint)
    requires Inv(maxPending, e)
    ensures Kept(maxPending, e, Next(maxPending, e, Wake))
  {
    IdleKeeps(maxPending, e);
    if e.active.Some? && e.active.value.phase.Waiting? { WakeKeeps(maxPending, e); }
  }

  lemma DoneKeeps(maxPending: nat, e: Endpoint)
    requires Inv(maxPending, e)
    ensures Kept(maxPending, e, Next(maxPending, e, FetchDone))
  {
    IdleKeeps(maxPending, e);
    if e.active.Some? && e.active.value.phase.Fetching? { ServeNext(maxPending, e); }
  }

  /** Time passing and budgets tightening leave the requests alone. */
  lemma ClockKeeps(maxPending: nat, e: Endpoint, now: real, spacing: nat)
    requires Inv(maxPending, e) && e.now <= now && e.spacing <= spacing
    ensures Kept(maxPending, e, e.(now := now, spacing := spacing))
  {
    assert Line(e.(now := now, spacing := spacing)) == Line(e);
  }

  lemma IdleKeeps(maxPending: nat, e: Endpoint)
    requires Inv(maxPending, e)
    ensures Kept(maxPending, e, e)
  {}

  lemma {:induction false} ExecKeeps(maxPending: nat, e: Endpoint, es: seq<Event>)
    requires Inv(maxPending, e)
    ensures Inv(maxPending, Exec(maxPending, e, es))
  {
    if es != [] {
      ExecKeeps(maxPending, e, es[..|es| - 1]);
      NextKeeps(maxPending, Exec(maxPending, e, es[..|es| - 1]), es[|es| - 1]);
    }
  }

  // ----- accounting and order -----

  /** What the accounting of an endpoint says. */
  ghost predicate Exact(e: Endpoint, maxPending: nat) {
    && e.pending == |e.queue| + (if e.active.Some? then 1 else 0) && 0 <= e.pending <= maxPending
    && e.pending == |e.accepted| - |e.released|
    && (forall id: Id :: multiset(e.released)[id] <= 1)
    && (forall id: Id ::
        id < |e.accepted| <==> id in e.released || id in e.queue || (e.active.Some? && e.active.value.id == id))
    && (e.queue != [] ==> e.running && e.active.Some?)
  }

  lemma AccountedIsExact(e: Endpoint, maxPending: nat)
    requires Accounted(e) && Numbered(e) && Counted(maxPending, e)
    ensures Exact(e, maxPending)
  {
    assert |multiset(e.accepted)| == |e.accepted| && |multiset(e.released)| == |e.released|
           && |multiset(e.queue)| == |e.queue|;
    forall id: Id ensures multiset(e.released)[id] <= 1 {
      OnceEach(e.accepted, id);
      assert multiset(e.released)[id] <= multiset(e.accepted)[id];
    }
    forall id: Id
      ensures id < |e.accepted| <==> id in e.released || id in e.queue || (e.active.Some? && e.active.value.id == id)
    {
      OnceEach(e.accepted, id);
      assert id in multiset(e.accepted)
             <==> id in multiset(e.released) || id in multiset(e.queue) || id in InService(e);
    }
  }

  /** The pending count is what is queued plus the request in service, never above the limit; every accepted request
      is released exactly once or still pending; and a queue that is not empty is being drained. */
  lemma PendingIsExact(maxPending: nat, rps: nat, now: real, es: seq<Event>)
    requires BudgetOk(rps)
    ensures Exact(Exec(maxPending, Created(rps, now), es), maxPending)
  {
    ExecKeeps(maxPending, Created(rps, now), es);
    AccountedIsExact(Exec(maxPending, Created(rps, now), es), maxPending);
  }

  lemma {:induction false} OnceEach(s: seq<Id>, id: Id)
    requires forall i :: 0 <= i < |s| ==> s[i] == i
    ensures multiset(s)[id] <= 1 && (id < |s| <==> id in multiset(s))
  {
    if s != [] {
      var front := s[..|s| - 1];
      assert s == front + [|s| - 1];
      OnceEach(front, id);
    }
  }

  /** Requests start in arrival order, one at a time: whatever arrived before a started request has been released,
      and so has every started request but the one in flight. */
  lemma StartsInArrivalOrder(maxPending: nat, rps: nat, now: real, es: seq<Event>, i: nat)
    requires BudgetOk(rps)
    ensures
      var e := Exec(maxPending, Created(rps, now), es);
      i < |e.starts| ==>
        && (forall j :: i < j < |e.starts| ==> e.starts[i].id < e.starts[j].id)
        && (forall id: Id :: id < e.starts[i].id ==> id in e.released)
        && (e.starts[i].id in e.released || (i == |e.starts| - 1 && e.active == Some(Active(e.starts[i].id, Fetching))))
  {
    ExecKeeps(maxPending, Created(rps, now), es);
    var e := Exec(maxPending, Created(rps, now), es);
    AccountedIsExact(e, maxPending);
    if i < |e.starts| { StartReleased(e, maxPending, i); }
  }

  lemma StartReleased(e: Endpoint, maxPending: nat, i: nat)
    requires Exact(e, maxPending) && Lined(e) && i < |e.starts|
    ensures forall j :: i < j < |e.starts| ==> e.starts[i].id < e.starts[j].id
    ensures forall id: Id :: id < e.starts[i].id ==> id in e.released
    ensures e.starts[i].id in e.released || (i == |e.starts| - 1 && e.active == Some(Active(e.starts[i].id, Fetching)))
  {
    var line, n := Line(e), |e.starts|;
    assert forall k :: 0 <= k < n ==> line[k] == e.starts[k].id;
    forall k | 0 <= k < |e.queue| ensures e.starts[i].id < e.queue[k] {
      assert line[|line| - |e.queue| + k] == e.queue[k];
    }
    if e.active.Some? && e.active.value.phase.Waiting? { assert line[n] == e.active.value.id; }
    assert line[i] in line;
  }

  lemma {:induction false} Gaps(e: Endpoint, i: nat, j: nat, s: nat)
    requires Spaced(e) && i <= j < |e.starts| && forall k :: i < k <= j ==> s <= e.starts[k].spacing
    ensures e.starts[i].at + ((j - i) * s) as real <= e.starts[j].at
    decreases j
  {
    if i < j {
      Gaps(e, i, j - 1, s);
      assert (j - i) * s == (j - 1 - i) * s + s;
    }
  }

  /** At most `rps` starts fall in a window of 1000 ms whose first start was made under that budget or a tighter one. */
  lemma WindowHolds(e: Endpoint, rps: nat, i: nat, j: nat, from: real)
    requires Spaced(e) && rps >= 1 && i <= j < |e.starts|
    requires forall k :: i < k <= j ==> Spacing(rps) <= e.starts[k].spacing
    requires from <= e.starts[i].at && e.starts[j].at < from + 1000.0
    ensures j - i + 1 <= rps
  {
    if j - i + 1 > rps {
      Gaps(e, i, j, Spacing(rps));
      Product(j - i, rps, Spacing(rps));
    }
  }

  lemma Product(a: nat, b: nat, s: nat)
    requires b <= a
    ensures b * s <= a * s
  {}

  lemma {:induction false} Later(maxPending: nat, e: Endpoint, es: seq<Event>)
    requires Inv(maxPending, e)
    ensures Inv(maxPending, Exec(maxPending, e, es)) && Since(e, Exec(maxPending, e, es))
  {
    if es != [] {
      var u := Exec(maxPending, e, es[..|es| - 1]);
      Later(maxPending, e, es[..|es| - 1]);
      NextKeeps(maxPending, u, es[|es| - 1]);
      SinceStep(e, u, Next(maxPending, u, es[|es| - 1]));
    }
  }

  /** The starts of `v` extend those of `e`, none of them under a looser budget. */
  predicate Since(e: Endpoint, v: Endpoint) {
    && e.now <= v.now && e.spacing <= v.spacing && |e.starts| <= |v.starts|
    && (forall k :: 0 <= k < |e.starts| ==> v.starts[k] == e.starts[k])
    && (forall k :: |e.starts| <= k < |v.starts| ==> e.spacing <= v.starts[k].spacing)
  }

  lemma SinceStep(e: Endpoint, u: Endpoint, v: Endpoint)
    requires Since(e, u) && u.now <= v.now && u.spacing <= v.spacing && StartsFrom(u, v)
    ensures Since(e, v)
  {
    if v.starts != u.starts {
      forall k | 0 <= k < |u.starts|
        ensures v.starts[k] == u.starts[k]
      {
        assert v.starts[..|u.starts|][k] == u.starts[k];
      }
    }
  }

  lemma WindowAfter(e: Endpoint, v: Endpoint, rps: nat, from: real, i: nat, j: nat)
    requires Spaced(e) && Spaced(v) && Since(e, v) && rps >= 1 && Spacing(rps) <= e.spacing && e.now <= from
    requires i <= j < |v.starts| && from <= v.starts[i].at && v.starts[j].at < from + 1000.0
    ensures j - i + 1 <= rps
  {
    TighterSince(e, v, Spacing(rps), from, i, j);
    WindowHolds(v, rps, i, j, from);
  }

  /** In any window of 1000 ms, closed at its beginning and open at its end, at most `rps` fetches start, where `rps`
      is the budget in force when the window begins, whatever clients, aborts and budgets come later. */
  lemma RateHolds(maxPending: nat, rps0: nat, now: real, es: seq<Event>, more: seq<Event>, rps: nat, from: real, i: nat,
                  j: nat)
    requires BudgetOk(rps0) && rps >= 1
    requires var e := Exec(maxPending, Created(rps0, now), es); Spacing(rps) <= e.spacing && e.now <= from
    ensures
      var v := Exec(maxPending, Exec(maxPending, Created(rps0, now), es), more);
      i <= j < |v.starts| && from <= v.starts[i].at && v.starts[j].at < from + 1000.0 ==> j - i + 1 <= rps
  {
    var e := Exec(maxPending, Created(rps0, now), es);
    ExecKeeps(maxPending, Created(rps0, now), es);
    Later(maxPending, e, more);
    var v := Exec(maxPending, e, more);
    if i <= j < |v.starts| && from <= v.starts[i].at && v.starts[j].at < from + 1000.0 {
      WindowAfter(e, v, rps, from, i, j);
    }
  }

  lemma StrictlyLater(e: Endpoint, i: nat, k: nat)
    requires Spaced(e) && i < k < |e.starts|
    ensures e.starts[i].at < e.starts[k].at
  {
    Gaps(e, i, k, 1);
  }

  lemma ExecSnoc(maxPending: nat, e: Endpoint, es: seq<Event>, event: Event)
    ensures Exec(maxPending, e, es + [event]) == Next(maxPending, Exec(maxPending, e, es), event)
  {
    assert (es + [event])[..|es|] == es;
  }

  // ----- windows closed at both ends -----

  /** Starts `i` to `j` fall in the window of 1000 ms closed at both ends. */
  predicate InClosed(e: Endpoint, from: real, i: nat, j: nat) {
    i <= j < |e.starts| && from <= e.starts[i].at && e.starts[j].at <= from + 1000.0
  }

  /** No window of 1000 ms closed at both ends, beginning under a budget of `rps` or a tighter one, holds more than
      `rps` starts in this run. */
  ghost predicate ClosedHolds(maxPending: nat, rps: nat, rps0: nat, now: real, es: seq<Event>, more: seq<Event>)
    requires BudgetOk(rps) && BudgetOk(rps0)
  {
    var e := Exec(maxPending, Created(rps0, now), es);
    var v := Exec(maxPending, e, more);
    Spacing(rps) <= e.spacing
    ==> forall from: real, i: nat, j: nat :: InClosed(v, from, i, j) && e.now <= from ==> j - i + 1 <= rps
  }

  ghost predicate ClosedAlways(maxPending: nat, rps: nat)
    requires BudgetOk(rps)
  {
    forall rps0: nat, now: real, es: seq<Event>, more: seq<Event> ::
      BudgetOk(rps0) ==> ClosedHolds(maxPending, rps, rps0, now, es, more)
  }

  /** `rps` spacings make exactly a second when `rps` divides it, and more otherwise. */
  lemma SpacingsOfASecond(rps: nat)
    requires BudgetOk(rps)
    ensures if 1000 % rps == 0 then Spacing(rps) * rps == 1000 else Spacing(rps) * rps > 1000
  {
    var ms, whole := Spacing(rps), 1000 / rps;
    assert whole * rps + 1000 % rps == 1000;
    Ordered(whole, ms - 1, rps);
    if 1000 % rps == 0 {
      Ordered(ms, whole, rps);
    } else {
      Ordered(whole, ms, rps);
      assert (whole + 1) * rps == whole * rps + rps;
      Ordered(ms, whole + 1, rps);
    }
  }

  lemma Ordered(a: int, b: int, c: nat)
    requires c >= 1
    ensures b <= a <==> b * c <= a * c
  {}

  lemma ClosedCount(e: Endpoint, ms: nat, rps: nat, from: real, i: nat, j: nat)
    requires Spaced(e) && ms * rps > 1000 && InClosed(e, from, i, j)
    requires forall k :: i < k <= j ==> ms <= e.starts[k].spacing
    ensures j - i + 1 <= rps
  {
    if j - i + 1 > rps {
      Gaps(e, i, j, ms);
      Product(j - i, rps, ms);
    }
  }

  lemma ClosedAfter(e: Endpoint, v: Endpoint, rps: nat, from: real, i: nat, j: nat)
    requires Spaced(v) && Since(e, v) && BudgetOk(rps) && 1000 % rps != 0 && Spacing(rps) <= e.spacing && e.now <= from
    requires Spaced(e) && InClosed(v, from, i, j)
    ensures j - i + 1 <= rps
  {
    TighterSince(e, v, Spacing(rps), from, i, j);
    SpacingsOfASecond(rps);
    ClosedCount(v, Spacing(rps), rps, from, i, j);
  }

  /** Between two starts in a window the spacing is at least what was in force when the window began. */
  lemma TighterSince(e: Endpoint, v: Endpoint, ms: nat, from: real, i: nat, j: nat)
    requires Spaced(e) && Spaced(v) && Since(e, v) && ms <= e.spacing && e.now <= from && i <= j < |v.starts|
             && from <= v.starts[i].at
    ensures forall k :: i < k <= j ==> ms <= v.starts[k].spacing
  {
    forall k | i < k <= j ensures ms <= v.starts[k].spacing {
      if k < |e.starts| { StrictlyLater(v, i, k); }
    }
  }

  lemma IndivisibleHolds(maxPending: nat, rps: nat, rps0: nat, now: real, es: seq<Event>, more: seq<Event>)
    requires BudgetOk(rps) && BudgetOk(rps0) && 1000 % rps != 0
    ensures ClosedHolds(maxPending, rps, rps0, now, es, more)
  {
    var e := Exec(maxPending, Created(rps0, now), es);
    ExecKeeps(maxPending, Created(rps0, now), es);
    Later(maxPending, e, more);
    var v := Exec(maxPending, e, more);
    if Spacing(rps) <= e.spacing {
      forall from: real, i: nat, j: nat | InClosed(v, from, i, j) && e.now <= from ensures j - i + 1 <= rps {
        ClosedAfter(e, v, rps, from, i, j);
      }
    }
  }

  /** One request after another, each arriving a spacing after the last one was answered at once. */
  function Beats(ms: nat, n: nat): seq<Event> {
    if n == 0 then [Arrive(false)] else Beats(ms, n - 1) + [FetchDone, Elapse(ms as real), Arrive(false)]
  }

  function BeatStarts(ms: nat, n: nat): seq<Start> { seq(n, i requires 0 <= i < n => Start(i, (i * ms) as real, ms)) }

  /** The endpoint just after beat `n`: its last request is in flight and nothing else is there. */
  predicate Beating(e: Endpoint, ms: nat, n: nat) {
    && e.now == (n * ms) as real && e.spacing == ms && e.last == Some(e.now) && e.running && e.pending == 1
    && e.queue == [] && e.active == Some(Active(n, Fetching)) && e.aborted == {} && |e.accepted| == n + 1
    && e.starts == BeatStarts(ms, n + 1)
  }

  lemma FirstBeat(maxPending: nat, rps: nat)
    requires BudgetOk(rps) && maxPending >= 1
    ensures Beating(Next(maxPending, Created(rps, 0.0), Arrive(false)), Spacing(rps), 0)
  {
    var c := Created(rps, 0.0);
    var queued := c.(pending := 1, queue := [0], accepted := [0], running := true);
    assert Accept(c, false, maxPending) == Drain(queued);
    assert Drain(queued) == Begin(queued.(queue := []), 0);
    assert Begin(queued.(queue := []), 0).starts == BeatStarts(Spacing(rps), 1);
  }

  /** The endpoint between two beats, at a time when the last start is `since` behind. */
  predicate Resting(e: Endpoint, ms: nat, n: nat, since: nat) {
    && e.now == (n * ms + since) as real && e.spacing == ms && e.last == Some((n * ms) as real) && !e.running
    && e.pending == 0
    && e.queue == [] && e.active.None? && e.aborted == {} && |e.accepted| == n + 1
    && e.starts == BeatStarts(ms, n + 1)
  }

  lemma BeatAnswered(maxPending: nat, e: Endpoint, ms: nat, n: nat)
    requires Beating(e, ms, n)
    ensures Resting(Next(maxPending, e, FetchDone), ms, n, 0)
  {}

  lemma BeatElapsed(maxPending: nat, e: Endpoint, ms: nat, n: nat)
    requires Resting(e, ms, n, 0) && ms >= 1
    ensures Resting(Next(maxPending, e, Elapse(ms as real)), ms, n, ms)
  {}

  lemma BeatArrives(maxPending: nat, e: Endpoint, ms: nat, n: nat)
    requires Resting(e, ms, n, ms) && maxPending >= 1
    ensures Beating(Next(maxPending, e, Arrive(false)), ms, n + 1)
  {
    var queued := e.(pending := 1, queue := [n + 1], accepted := e.accepted + [n + 1], running := true);
    assert Accept(e, false, maxPending) == Drain(queued);
    assert Drain(queued) == Begin(queued.(queue := []), n + 1);
    assert (n + 1) * ms == n * ms + ms;
    assert BeatStarts(ms, n + 2) == BeatStarts(ms, n + 1) + [Start(n + 1, e.now, ms)];
  }

  /** One beat further, whatever the events before it were. */
  lemma BeatToBeat(maxPending: nat, c: Endpoint, es: seq<Event>, ms: nat, n: nat)
    requires Beating(Exec(maxPending, c, es), ms, n) && ms >= 1 && maxPending >= 1
    ensures Beating(
              Exec(maxPending, c, es + [FetchDone] + [Elapse(ms as real)] + [Arrive(false)]), ms, n + 1)
  {
    var answered := es + [FetchDone];
    var elapsed := answered + [Elapse(ms as real)];
    assert Resting(Exec(maxPending, c, answered), ms, n, 0) by {
      ExecSnoc(maxPending, c, es, FetchDone);
      BeatAnswered(maxPending, Exec(maxPending, c, es), ms, n);
    }
    assert Resting(Exec(maxPending, c, elapsed), ms, n, ms) by {
      ExecSnoc(maxPending, c, answered, Elapse(ms as real));
      BeatElapsed(maxPending, Exec(maxPending, c, answered), ms, n);
    }
    ExecSnoc(maxPending, c, elapsed, Arrive(false));
    BeatArrives(maxPending, Exec(maxPending, c, elapsed), ms, n);
  }

  lemma {:induction false} Beat(maxPending: nat, rps: nat, n: nat)
    requires BudgetOk(rps) && maxPending >= 1
    ensures Beating(Exec(maxPending, Created(rps, 0.0), Beats(Spacing(rps), n)), Spacing(rps), n)
  {
    var c, ms := Created(rps, 0.0), Spacing(rps);
    if n == 0 {
      FirstBeat(maxPending, rps);
      ExecSnoc(maxPending, c, [], Arrive(false));
      assert [] + [Arrive(false)] == [Arrive(false)];
    } else {
      var es := Beats(ms, n - 1);
      Beat(maxPending, rps, n - 1);
      BeatToBeat(maxPending, c, es, ms, n - 1);
      assert es + [FetchDone] + [Elapse(ms as real)] + [Arrive(false)] == Beats(ms, n);
    }
  }

  /** A budget that divides the second lets one start more into a closed window. */
  lemma DivisibleFails(maxPending: nat, rps: nat)
    requires BudgetOk(rps) && maxPending >= 1 && 1000 % rps == 0
    ensures !ClosedHolds(maxPending, rps, rps, 0.0, [], Beats(Spacing(rps), rps))
  {
    Beat(maxPending, rps, rps);
    SpacingsOfASecond(rps);
    var e := Exec(maxPending, Created(rps, 0.0), []);
    var v := Exec(maxPending, e, Beats(Spacing(rps), rps));
    assert e == Created(rps, 0.0);
    assert InClosed(v, 0.0, 0, rps);
  }

  /** Windows closed at both ends meet the budget in every run exactly when the budget does not divide 1000, that is
      for every budget but 1, 2, 4, 5, 8, 10 and 20. */
  lemma ClosedWindowHoldsIff(maxPending: nat, rps: nat)
    requires BudgetOk(rps) && maxPending >= 1
    ensures ClosedAlways(maxPending, rps) <==> 1000 % rps != 0
  {
    if 1000 % rps == 0 {
      DivisibleFails(maxPending, rps);
    } else {
      forall rps0: nat, now: real, es: seq<Event>, more: seq<Event> | BudgetOk(rps0)
        ensures ClosedHolds(maxPending, rps, rps0, now, es, more)
      {
        IndivisibleHolds(maxPending, rps, rps0, now, es, more);
      }
    }
  }

  /** Under two requests a second three start within [0, 1000]. */
  lemma ClosedWindowHoldsOneMore()
    ensures
      && Beats(500, 2) == [Arrive(false), FetchDone, Elapse(500.0), Arrive(false), FetchDone, Elapse(500.0),
                           Arrive(false)]
      && Exec(3, Created(2, 0.0), Beats(500, 2)).starts
         == [Start(0, 0.0, 500), Start(1, 500.0, 500), Start(2, 1000.0, 500)]
  {
    Beat(3, 2, 2);
    assert Beats(500, 1) == [Arrive(false), FetchDone, Elapse(500.0), Arrive(false)];
  }
}
