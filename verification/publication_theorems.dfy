/** The guarantees of the gateway, for every sequence of events from an empty database behind an
    initialized policy table. */
module PublicationTheorems {
  import opened Common
  import opened Executions
  import opened Publication
  import opened PublicationSafety
  import PaymentDb
  import Settlement
  import Mandates
  import Tcb = TcbLifecycle

  /** The starting database. */
  datatype Setup = Setup(price: nat, now: nat, mandates: map<nat, PaymentDb.Mandate>, tcb: seq<Tcb.Row>, active: nat)

  predicate Ready(s: Setup) { Tcb.Governed(s.tcb, s.active) }

  function Reached(s: Setup, es: seq<Event>): World { Exec(s.price, Start(s.now, s.mandates, s.tcb, s.active), es) }

  lemma ReachedOk(s: Setup, es: seq<Event>)
    requires Ready(s)
    ensures Inv(s.price, Reached(s, es))
  {
    StartOk(s.price, s.now, s.mandates, s.tcb, s.active);
    ExecKeeps(s.price, Start(s.now, s.mandates, s.tcb, s.active), es);
  }

  /** The provider is called at most once per payment and at most once per owner and idempotency key, over any
      schedule of processes that die, lose acknowledgements or race. */
  lemma {:induction false} DispatchedAtMostOnce(s: Setup, es: seq<Event>, i: nat, j: nat)
    requires Ready(s)
    ensures
      var ds := Reached(s, es).dispatches;
      i < |ds| && j < |ds|
      && (ds[i].binding.payment == ds[j].binding.payment || SameIntent(ds[i].binding, ds[j].binding))
      ==> i == j
  {
    ReachedOk(s, es);
    var w := Reached(s, es);
    if i < |w.dispatches| && j < |w.dispatches| {
      assert DispatchOk(w, i) && DispatchOk(w, j);
    }
  }

  // ----- quarantine -----

  /** The claim on a payment is held by a request that is gone. */
  predicate Abandoned(w: World, p: nat) {
    p in w.executions && w.executions[p].receipt.None? && w.executions[p].claim < |w.requests|
      && w.requests[w.executions[p].claim].pc == Gone
  }

  /** The dispatches of `v` extend those of `w` by calls for other payments than `p`. */
  predicate NoDispatchFor(w: World, v: World, p: nat) {
    w.dispatches <= v.dispatches && forall i :: |w.dispatches| <= i < |v.dispatches|
                                                ==> v.dispatches[i].binding.payment != p
  }

  predicate StaysAbandoned(w: World, w1: World, p: nat) {
    Abandoned(w, p) && Abandoned(w1, p) && w1.executions[p] == w.executions[p] && NoDispatchFor(w, w1, p)
  }

  lemma AbandonedClaim(price: nat, w: World, r: nat, proven: bool, acknowledged: bool, p: nat)
    requires Abandoned(w, p) && r < |w.requests| && w.requests[r].pc == Arrived
    ensures StaysAbandoned(w, DoClaim(price, w, r, proven, acknowledged), p)
  {}

  lemma AbandonedCommit(price: nat, w: World, r: nat, p: nat)
    requires Abandoned(w, p) && r < |w.requests| && w.requests[r].pc.Admitted? && RequestOk(w, r)
    ensures StaysAbandoned(w, DoCommit(price, w, r), p)
  {}

  lemma AbandonedDispatch(price: nat, w: World, r: nat, proven: bool, p: nat)
    requires Abandoned(w, p) && r < |w.requests| && RequestOk(w, r)
    ensures StaysAbandoned(w, Next(price, w, BeginPublish(r, proven)), p)
  {}

  lemma AbandonedElsewhere(price: nat, w: World, e: Event, p: nat)
    requires Abandoned(w, p) && !e.ClaimTx? && !e.BeginPublish? && !e.CommitPublish?
    ensures StaysAbandoned(w, Next(price, w, e), p)
  {}

  lemma AbandonedClaimEvent(price: nat, w: World, r: nat, proven: bool, acknowledged: bool, p: nat)
    requires Abandoned(w, p)
    ensures StaysAbandoned(w, Next(price, w, ClaimTx(r, proven, acknowledged)), p)
  {
    if r < |w.requests| && w.requests[r].pc == Arrived && !w.exclusive {
      AbandonedClaim(price, w, r, proven, acknowledged, p);
    }
  }

  lemma AbandonedDispatchEvent(price: nat, w: World, r: nat, proven: bool, p: nat)
    requires RecordsOk(w) && Abandoned(w, p)
    ensures StaysAbandoned(w, Next(price, w, BeginPublish(r, proven)), p)
  {
    if r < |w.requests| { AbandonedDispatch(price, w, r, proven, p); }
  }

  lemma AbandonedCommitEvent(price: nat, w: World, r: nat, p: nat)
    requires RecordsOk(w) && Abandoned(w, p)
    ensures StaysAbandoned(w, Next(price, w, CommitPublish(r)), p)
  {
    if r < |w.requests| && w.requests[r].pc.Admitted? {
      assert RequestOk(w, r);
      AbandonedCommit(price, w, r, p);
    }
  }

  lemma AbandonedStep(price: nat, w: World, e: Event, p: nat)
    requires RecordsOk(w) && Abandoned(w, p)
    ensures StaysAbandoned(w, Next(price, w, e), p)
  {
    match e
    case ClaimTx(r, proven, acknowledged) => AbandonedClaimEvent(price, w, r, proven, acknowledged, p);
    case BeginPublish(r, proven) => AbandonedDispatchEvent(price, w, r, proven, p);
    case CommitPublish(r) => AbandonedCommitEvent(price, w, r, p);
    case _ => AbandonedElsewhere(price, w, e, p);
  }

  /** A claim whose holder died stays dispatched for ever: its payment is never consumed, and the provider is never
      called for it again. */
  lemma {:induction false} AbandonedForever(s: Setup, es: seq<Event>, more: seq<Event>, p: nat)
    requires Ready(s) && Abandoned(Reached(s, es), p)
    ensures
      var w := Reached(s, es);
      var v := Exec(s.price, w, more);
      && Abandoned(v, p) && v.executions[p] == w.executions[p]
      && p < |v.pay.db.payments| && v.pay.db.payments[p].status != PaymentDb.Consumed
      && NoDispatchFor(w, v, p)
  {
    var w := Reached(s, es);
    ReachedOk(s, es);
    ExecKeeps(s.price, w, more);
    AbandonedFrom(s.price, w, more, p);
    AbandonedPayment(Exec(s.price, w, more), p);
  }

  lemma AbandonedPayment(w: World, p: nat)
    requires RecordsOk(w) && Abandoned(w, p)
    ensures p < |w.pay.db.payments| && w.pay.db.payments[p].status != PaymentDb.Consumed
  {
    assert ExecutionOk(w, p) && PaymentPublished(w, p);
  }

  lemma AbandonedAlong(w: World, v: World, v1: World, p: nat)
    requires StaysAbandoned(w, v, p) && StaysAbandoned(v, v1, p)
    ensures StaysAbandoned(w, v1, p)
  {}

  lemma {:induction false} AbandonedFrom(price: nat, w: World, more: seq<Event>, p: nat)
    requires Inv(price, w) && Abandoned(w, p)
    ensures StaysAbandoned(w, Exec(price, w, more), p)
  {
    if more != [] {
      var v := Exec(price, w, more[..|more| - 1]);
      AbandonedFrom(price, w, more[..|more| - 1], p);
      RecordsKept(price, w, more[..|more| - 1]);
      AbandonedStep(price, v, more[|more| - 1], p);
      AbandonedAlong(w, v, Next(price, v, more[|more| - 1]), p);
    }
  }

  lemma RecordsKept(price: nat, w: World, more: seq<Event>)
    requires Inv(price, w)
    ensures RecordsOk(Exec(price, w, more))
  {
    ExecKeeps(price, w, more);
  }

  // ----- publication -----

  /** The receipt of a consumed payment of its owner. */
  predicate Paid(x: Receipt, ps: seq<PaymentDb.Payment>) {
    x.payment < |ps| && ps[x.payment].status == PaymentDb.Consumed && ps[x.payment].receipt == Some(x.hash)
      && ps[x.payment].owner == x.owner
  }

  /** A payment is consumed exactly when its execution is completed; then payment, execution and exactly one receipt
      name the same hash.  Every receipt belongs to a consumed payment, and an owner's usage counts its consumed
      payments at the one configured price. */
  lemma {:induction false} PublicationAllOrNothing(s: Setup, es: seq<Event>)
    requires Ready(s)
    ensures
      var w := Reached(s, es);
      var ps := w.pay.db.payments;
      && (forall p :: 0 <= p < |ps|
                      ==> (ps[p].status == PaymentDb.Consumed
                           <==> p in w.executions && w.executions[p].receipt.Some?))
      && (forall p :: 0 <= p < |ps| && ps[p].status == PaymentDb.Consumed ==>
           (p in w.executions && ps[p].receipt == w.executions[p].receipt && ps[p].receipt.Some?
            && exists i :: 0 <= i < |w.receipts| && Names(w.receipts[i], p, ps[p].receipt.value)))
      && (forall i :: 0 <= i < |w.receipts| ==> Paid(w.receipts[i], ps))
      && (forall i, j :: 0 <= i < j < |w.receipts|
                         ==> w.receipts[i].payment != w.receipts[j].payment && w.receipts[i].hash != w.receipts[j].hash)
      && (forall owner :: UsageOk(s.price, w, owner))
  {
    ReachedOk(s, es);
    var w := Reached(s, es);
    var ps := w.pay.db.payments;
    forall p | 0 <= p < |ps| && ps[p].status == PaymentDb.Consumed
      ensures p in w.executions && ps[p].receipt == w.executions[p].receipt && ps[p].receipt.Some?
      ensures exists i :: 0 <= i < |w.receipts| && Names(w.receipts[i], p, ps[p].receipt.value)
    {
      assert PaymentPublished(w, p);
    }
    forall p | 0 <= p < |ps|
      ensures ps[p].status == PaymentDb.Consumed <==> p in w.executions && w.executions[p].receipt.Some?
    {
      assert PaymentPublished(w, p);
    }
    forall i | 0 <= i < |w.receipts| ensures Paid(w.receipts[i], ps) {
      assert ReceiptOk(w, i);
      assert ExecutionOk(w, w.receipts[i].payment);
      assert PaymentPublished(w, w.receipts[i].payment);
    }
  }

  /** For a request holding a claim the stored-response replay inside the publication, the response collision and the
      lost-claim branch are all unreachable: a publication commits unless its receipt hash already exists. */
  lemma {:induction false} ReplayBranchesUnreachable(s: Setup, es: seq<Event>, r: nat, receipt: nat)
    requires Ready(s)
    ensures
      var w := Reached(s, es);
      r < |w.requests| && w.requests[r].pc != Arrived && w.requests[r].pc != Gone ==>
        !Answerable(w, w.requests[r].binding)
          && (Publish(s.price, w, r, receipt).Ok? || Publish(s.price, w, r, receipt) == Err(ReceiptExists))
  {
    ReachedOk(s, es);
    var w := Reached(s, es);
    if r < |w.requests| && w.requests[r].pc != Arrived && w.requests[r].pc != Gone {
      PublishNeverReplays(s.price, w, r, receipt);
    }
  }

  // ----- the policy gate -----

  /** No receipt and no session is committed under a policy that is not the active one when it commits. */
  lemma {:induction false} CommittedUnderActivePolicy(s: Setup, es: seq<Event>, e: Event)
    requires Ready(s)
    ensures
      var w := Reached(s, es);
      var w1 := Next(s.price, w, e);
      && w1.active < |w1.tcb| && w1.tcb[w1.active].status == Tcb.Active
      && (w1.receipts != w.receipts ==>
          |w1.receipts| == |w.receipts| + 1
            && Tcb.PolicyOf(w1.tcb[w1.active]) == Some(w1.receipts[|w.receipts|].policy))
      && (w1.sessions != w.sessions ==>
          |w1.sessions| == |w.sessions| + 1 && Tcb.PolicyOf(w1.tcb[w1.active]) == Some(w1.sessions[|w.sessions|]))
  {
    var w := Reached(s, es);
    ReachedOk(s, es);
    ActiveNow(s.price, w);
    NextKeeps(s.price, w, e);
    ActiveNow(s.price, Next(s.price, w, e));
    CommitsUnderGate(s.price, w, e);
  }

  lemma ActiveNow(price: nat, w: World)
    requires Inv(price, w)
    ensures LockOk(w) && w.active < |w.tcb| && w.tcb[w.active].status == Tcb.Active
  {}

  lemma CommitsUnderGate(price: nat, w: World, e: Event)
    requires LockOk(w) && w.active < |w.tcb|
    ensures
      var w1 := Next(price, w, e);
      && (w1.receipts != w.receipts ==>
          w1.tcb == w.tcb && w1.active == w.active
          && |w1.receipts| == |w.receipts| + 1
          && Tcb.PolicyOf(w.tcb[w.active]) == Some(w1.receipts[|w.receipts|].policy))
      && (w1.sessions != w.sessions ==>
          w1.tcb == w.tcb && w1.active == w.active
          && |w1.sessions| == |w.sessions| + 1 && Tcb.PolicyOf(w.tcb[w.active]) == Some(w1.sessions[|w.sessions|]))
  {
    if e.CommitPublish? { ReceiptUnderGate(price, w, e.r); }
    else if e.CommitSession? { SessionUnderGate(price, w, e.s); }
    else { OthersCommitNothing(price, w, e); }
  }

  lemma OthersCommitNothing(price: nat, w: World, e: Event)
    requires !e.CommitPublish? && !e.CommitSession?
    ensures Next(price, w, e).receipts == w.receipts && Next(price, w, e).sessions == w.sessions
  {}

  lemma ReceiptUnderGate(price: nat, w: World, r: nat)
    requires LockOk(w) && w.active < |w.tcb|
    ensures
      var w1 := Next(price, w, CommitPublish(r));
      && w1.sessions == w.sessions && w1.tcb == w.tcb && w1.active == w.active
      && (w1.receipts != w.receipts ==>
          |w1.receipts| == |w.receipts| + 1 && Tcb.PolicyOf(w.tcb[w.active]) == Some(w1.receipts[|w.receipts|].policy))
  {}

  lemma SessionUnderGate(price: nat, w: World, s: nat)
    requires LockOk(w) && w.active < |w.tcb|
    ensures
      var w1 := Next(price, w, CommitSession(s));
      && w1.receipts == w.receipts && w1.tcb == w.tcb && w1.active == w.active
      && (w1.sessions != w.sessions ==>
          |w1.sessions| == |w.sessions| + 1 && Tcb.PolicyOf(w.tcb[w.active]) == Some(w1.sessions[|w.sessions|]))
  {}

  // ----- the payments behind the gateway -----

  /** The settlement event an event of the gateway stands for, if any. */
  function PaymentEvent(price: nat, w: World, e: Event): Option<Settlement.Event> {
    if e.Pay? && !e.e.Consume? then Some(e.e)
    else if e.CommitPublish? && e.r < |w.requests| && w.requests[e.r].pc.Admitted?
      && Publish(price, w, e.r, w.requests[e.r].pc.receipt).Ok?
    then Some(Settlement.Consume(w.requests[e.r].binding.payment, w.requests[e.r].pc.receipt))
    else None
  }

  lemma PaymentStep(price: nat, w: World, e: Event)
    ensures
      var p := PaymentEvent(price, w, e);
      Next(price, w, e).pay == if p.Some? then Settlement.Next(w.pay, p.value) else w.pay
  {}

  function PaymentEvents(s: Setup, es: seq<Event>): seq<Settlement.Event> {
    if es == [] then []
    else
      var e := PaymentEvent(s.price, Reached(s, es[..|es| - 1]), es[|es| - 1]);
      PaymentEvents(s, es[..|es| - 1]) + if e.Some? then [e.value] else []
  }

  /** The payment tables behind the gateway go through a run of settlements, so everything proved of those holds
      here. */
  lemma {:induction false} PaymentsAreASettlementRun(s: Setup, es: seq<Event>)
    ensures Reached(s, es).pay == Settlement.Exec(Settlement.Start(s.now, s.mandates), PaymentEvents(s, es))
  {
    if es != [] {
      PaymentsAreASettlementRun(s, es[..|es| - 1]);
      var w := Reached(s, es[..|es| - 1]);
      var e := PaymentEvent(s.price, w, es[|es| - 1]);
      PaymentStep(s.price, w, es[|es| - 1]);
      var front := PaymentEvents(s, es[..|es| - 1]);
      if e.Some? {
        assert PaymentEvents(s, es) == front + [e.value];
      } else {
        assert PaymentEvents(s, es) == front + [] == front;
      }
    }
  }

  lemma {:induction false} SameDayEvents(s: Setup, es: seq<Event>)
    requires forall i :: 0 <= i < |es| && es[i].Pay? ==> Mandates.SameDay(es[i].e)
    ensures forall i :: 0 <= i < |PaymentEvents(s, es)| ==> Mandates.SameDay(PaymentEvents(s, es)[i])
  {
    if es != [] { SameDayEvents(s, es[..|es| - 1]); }
  }

  /** With publications interleaved, the mandates are conserved as long as no claim straddles midnight. */
  lemma {:induction false} MandatesConservedBehindGateway(s: Setup, es: seq<Event>)
    requires Settlement.FreshMandates(s.now, s.mandates)
    requires forall i :: 0 <= i < |es| && es[i].Pay? ==> Mandates.SameDay(es[i].e)
    ensures Mandates.MandatesOk(Reached(s, es).pay)
  {
    PaymentsAreASettlementRun(s, es);
    SameDayEvents(s, es);
    Mandates.MandatesConserved(s.now, s.mandates, PaymentEvents(s, es));
  }
}
