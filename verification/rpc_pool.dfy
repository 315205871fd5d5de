/** One endpoint of the RPC fetch pool: a FIFO queue drained one request at a time, spaced by the tightest budget any
    client asked for.  The drain is suspended at its timer or at the fetch; everything between two suspensions runs
    undisturbed. */
module RpcPool {
  import opened Common

  type Id = nat

  const MAX_RPS := 20

  /** Milliseconds between two starts under a budget of `rps` requests a second. */
  function Spacing(rps: nat): (ms: nat)
    requires rps >= 1
    ensures ms * rps >= 1000 && (ms - 1) * rps < 1000
  {
    (1000 + rps - 1) / rps
  }

  predicate BudgetOk(rps: int) { 1 <= rps <= MAX_RPS }

  datatype Phase = Waiting | Fetching
  datatype Active = Active(id: Id, phase: Phase)
  datatype Start = Start(id: Id, at: real, spacing: nat)

  /** The variables of an endpoint, the clock, and a history of what it accepted, started and released. */
  datatype Endpoint = Endpoint(now: real, spacing: nat, last: Option<real>, running: bool, pending: int, queue: seq<Id>,
                               active: Option<Active>, aborted: set<Id>, accepted: seq<Id>, starts: seq<Start>,
                               released: seq<Id>)

  datatype Event = Elapse(ms: real)
                 | Arrive(aborted: bool)
                 | Abort(id: Id)
                 | Wake
                 | FetchDone
                 | Lower(rps: int)

  function Release(e: Endpoint, id: Id): Endpoint {
    e.(active := None, pending := e.pending - 1, released := e.released + [id])
  }

  /** Starts a request unless the spacing since the last start has not passed. */
  function Begin(e: Endpoint, id: Id): Endpoint {
    if e.last.Some? && e.last.value + e.spacing as real > e.now then e.(active := Some(Active(id, Waiting)))
    else e.(active := Some(Active(id, Fetching)), last := Some(e.now),
            starts := e.starts + [Start(id, e.now, e.spacing)])
  }

  /** The drain loop up to its next suspension. */
  function Drain(e: Endpoint): Endpoint
    decreases |e.queue|
  {
    if e.queue == [] then e.(running := false)
    else
      var id, e1 := e.queue[0], e.(queue := e.queue[1..]);
      if id in e.aborted then Drain(Release(e1, id)) else Begin(e1, id)
  }

  /** A request is refused when its signal has fired or the pool is full. */
  function Accept(e: Endpoint, aborted: bool, maxPending: nat): Endpoint {
    if aborted || e.pending >= maxPending then e
    else
      var id := |e.accepted|;
      var e1 := e.(pending := e.pending + 1, queue := e.queue + [id], accepted := e.accepted + [id]);
      if e1.running then e1 else Drain(e1.(running := true))
  }

  function IndexOf(queue: seq<Id>, id: Id): (i: nat)
    ensures i <= |queue| && (i < |queue| ==> queue[i] == id) && id !in queue[..i]
  {
    if queue == [] || queue[0] == id then 0
    else
      var i := IndexOf(queue[1..], id);
      assert queue[..i + 1] == [queue[0]] + queue[1..][..i];
      i + 1
  }

  function Aborted(e: Endpoint, id: Id): Endpoint {
    var i := IndexOf(e.queue, id);
    if i < |e.queue| then
      e.(queue := e.queue[..i] + e.queue[i + 1..], pending := e.pending - 1, released := e.released + [id],
         aborted := e.aborted + {id})
    else if e.active.Some? && e.active.value.id == id then
      var e1 := e.(aborted := e.aborted + {id});
      if e.active.value.phase.Waiting? then Drain(Release(e1, id)) else e1
    else e
  }

  function Woken(e: Endpoint): Endpoint {
    if e.active.Some? && e.active.value.phase.Waiting? then Begin(e, e.active.value.id) else e
  }

  function Done(e: Endpoint): Endpoint {
    if e.active.Some? && e.active.value.phase.Fetching? then Drain(Release(e, e.active.value.id)) else e
  }

  /** Clients can tighten the shared budget; none can loosen it. */
  function Lowered(e: Endpoint, rps: int): Endpoint {
    if !BudgetOk(rps) then e else e.(spacing := if e.spacing < Spacing(rps) then Spacing(rps) else e.spacing)
  }

  function Next(maxPending: nat, e: Endpoint, event: Event): Endpoint {
    match event
    case Elapse(ms) => if ms > 0.0 then e.(now := e.now + ms) else e
    case Arrive(aborted) => Accept(e, aborted, maxPending)
    case Abort(id) => Aborted(e, id)
    case Wake => Woken(e)
    case FetchDone => Done(e)
    case Lower(rps) => Lowered(e, rps)
  }

  function Exec(maxPending: nat, e: Endpoint, es: seq<Event>): Endpoint {
    if es == [] then e else Next(maxPending, Exec(maxPending, e, es[..|es| - 1]), es[|es| - 1])
  }

  function Created(rps: nat, now: real): Endpoint
    requires BudgetOk(rps)
  {
    Endpoint(now, Spacing(rps), None, false, 0, [], None, {}, [], [], [])
  }

  // ----- the pool as it runs -----

  class RpcEndpoint {
    const maxPending: nat
    var spacingMs: nat
    var lastStartedAt: Option<real>
    var running: bool
    var pendingCount: int
    var queue: seq<Id>
    var active: Option<Active>
    var aborted: set<Id>
    var accepted: seq<Id>
    var starts: seq<Start>
    var released: seq<Id>

    constructor (rps: nat, limit: nat)
      requires BudgetOk(rps)
      ensures maxPending == limit && forall now :: At(now) == Created(rps, now)
    {
      maxPending := limit;
      spacingMs, lastStartedAt, running, pendingCount := Spacing(rps), None, false, 0;
      queue, active, aborted, accepted, starts, released := [], None, {}, [], [], [];
    }

    ghost function At(now: real): Endpoint
      reads this
    { Endpoint(now, spacingMs, lastStartedAt, running, pendingCount, queue, active, aborted, accepted, starts,
               released) }

    method Finish(id: Id, now: real)
      modifies this
      ensures At(now) == Release(old(At(now)), id)
    {
      active, pendingCount, released := None, pendingCount - 1, released + [id];
    }

    method Attempt(id: Id, now: real)
      modifies this
      ensures At(now) == Begin(old(At(now)), id)
    {
      if lastStartedAt.Some? && lastStartedAt.value + spacingMs as real > now {
        active := Some(Active(id, Waiting));
      } else {
        lastStartedAt, active := Some(now), Some(Active(id, Fetching));
        starts := starts + [Start(id, now, spacingMs)];
      }
    }

    /** Takes requests off the queue until one has to wait or is being fetched. */
    method DrainQueue(now: real)
      modifies this
      ensures At(now) == Drain(old(At(now)))
    {
      while queue != []
        invariant Drain(At(now)) == Drain(old(At(now)))
        decreases |queue|
      {
        var id := queue[0];
        queue := queue[1..];
        if id !in aborted {
          Attempt(id, now);
          return;
        }
        Finish(id, now);
      }
      running := false;
    }

    method FetchFn(signalAborted: bool, now: real) returns (taken: bool)
      modifies this
      ensures At(now) == Accept(old(At(now)), signalAborted, maxPending)
      ensures taken <==> !signalAborted && old(pendingCount) < maxPending
    {
      if signalAborted || pendingCount >= maxPending { return false; }
      pendingCount := pendingCount + 1;
      var id := |accepted|;
      accepted, queue := accepted + [id], queue + [id];
      if !running {
        running := true;
        DrainQueue(now);
      }
      taken := true;
    }

    method OnAbort(id: Id, now: real)
      modifies this
      ensures At(now) == Aborted(old(At(now)), id)
    {
      var i := IndexOf(queue, id);
      if i < |queue| {
        queue := queue[..i] + queue[i + 1..];
        pendingCount, released, aborted := pendingCount - 1, released + [id], aborted + {id};
      } else if active.Some? && active.value.id == id {
        aborted := aborted + {id};
        if active.value.phase.Waiting? {
          Finish(id, now);
          DrainQueue(now);
        }
      }
    }

    method OnTimer(now: real)
      modifies this
      ensures At(now) == Woken(old(At(now)))
    {
      if active.Some? && active.value.phase.Waiting? { Attempt(active.value.id, now); }
    }

    method OnFetched(now: real)
      modifies this
      ensures At(now) == Done(old(At(now)))
    {
      if active.Some? && active.value.phase.Fetching? {
        Finish(active.value.id, now);
        DrainQueue(now);
      }
    }

    method LowerBudget(rps: int, now: real)
      modifies this`spacingMs
      ensures At(now) == Lowered(old(At(now)), rps)
    {
      if BudgetOk(rps) && spacingMs < Spacing(rps) { spacingMs := Spacing(rps); }
    }
  }
}
