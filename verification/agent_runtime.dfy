/** The run protocol: any number of runners, lease sweeps, heartbeats, cancels and resumes
    interleave on one durable run.  A runner is a program counter naming the await it is
    suspended at; each step executes one database transaction or one external call. */
module AgentRuntime {
  import opened Common
  import opened AgentStore

  datatype Decision = Malformed | Continue | Finish

  /** What an external call answered; Failure covers errors, time-outs and rejected results,
      Contended an error of the class the runner treats as a lost run. */
  datatype Reply = Ready(expiresAt: Time) | Demand(paymentId: nat, amount: nat) | Intent(open: bool, amount: nat)
                 | Settled(tx: nat) | Inferred(receipt: Hash, decision: Decision) | Failure | Contended

  /** How a transaction ended for its caller: acknowledged, committed without an answer, or never run. */
  datatype Io = Acknowledged | Unanswered | NotRun

  datatype Pc = Opening
              | Stopping(after: Pc)
              | Preparing | CheckingSession | Challenging | ReadingIntent(paymentId: nat, amount: nat)
              | AfterChallenge | Settling | AfterSettlement | Inferring
              | Completing(receipt: Hash, decision: Decision)
              | Saving(kind: Kind, patch: Patch, next: Pc)
              | Recovering | Finished

  /** The variables of one activation of the runner. */
  datatype Runner = Runner(pc: Pc, row: Row, state: Option<State>, lostLease: bool)

  /** An external call with an effect: the step it belongs to and the payment it names. */
  datatype Call = SettleCall(step: nat, paymentId: nat) | InferCall(step: nat, paymentId: nat)

  /** An answer a runner saw. */
  datatype Outcome = SettleSeen(step: nat, tx: nat) | InferSeen(step: nat, receipt: Hash)

  /** `seen` holds every row a request may have read, `calls` every effectful external call,
      `settleBy` and `inferBy` which runner committed the dispatch marker of a step. */
  datatype World = World(now: Time, row: Row, journal: seq<Action>, runners: map<Token, Runner>, nextToken: Token,
                         seen: set<Row>, calls: seq<Call>, outcomes: set<Outcome>,
                         settleBy: map<nat, Token>, inferBy: map<nat, Token>)

  datatype Event = Tick(elapsed: nat)
                 | Claim
                 | Heartbeat(token: Token)
                 | LoseLease(token: Token)
                 | Crash(token: Token)
                 | SweepLease(version: nat, payload: nat)
                 | Cancel(read: Row, payload: nat)
                 | Resume(read: Row, authorized: bool, settlement: Option<Proof>, inference: Option<Answer>,
                          payload: nat)
                 | Run(token: Token, reply: Reply, io: Io, payload: nat)

  /** The payments row a reconciliation reads. */
  datatype Proof = Proof(settled: bool, tx: nat, amount: nat)
  /** The cached response a reconciliation reads. */
  datatype Answer = Answer(receipt: Hash, decision: Decision)

  // ----- pieces of the protocol -----

  /** The state and row changes that record a finished inference. */
  function Completion(row: Row, s: State, receipt: Hash, decision: Decision): Option<(State, Patch)> {
    if s.pending.None? || s.pending.value.paymentId.None? || s.pending.value.settlementTx.None?
      || s.pending.value.amount.None? then None
    else
      var p := s.pending.value;
      var entry := Entry(receipt, p.paymentId.value, p.settlementTx.value, p.amount.value);
      var status := if row.cancelRequested then Cancelled else if decision.Malformed? then Failed
                    else if decision.Finish? then Completed
                    else if row.step + 1 >= row.limits.steps then Exhausted else Queued;
      Some((s.(history := s.history + [entry], pending := None, phase := Phase.Ready,
               final := s.final || decision.Finish?),
            Patch(Some(status), true, Some(row.step + 1), None, false)))
  }

  function Paying(s: State, tx: nat): State
    requires s.pending.Some?
  {
    s.(phase := Paid, pending := Some(s.pending.value.(paid := true, settlementTx := Some(tx))))
  }

  /** Appends a committed write to the durable state. */
  function Commit(w: World, row: Row, action: Action): World {
    w.(row := row, journal := w.journal + [action], seen := w.seen + {row})
  }

  function Goto(w: World, token: Token, r: Runner): World { w.(runners := w.runners[token := r]) }

  /** An exception reached the catch clause of the runner. */
  function Thrown(r: Runner, conflict: bool): Runner {
    r.(pc := if conflict || r.lostLease || r.state.None? then Finished else Recovering)
  }

  /** One attempt of a runner to commit the write it is suspended at. */
  function Save(c: Config, w: World, token: Token, io: Io, payload: nat): World
    requires token in w.runners && w.runners[token].pc.Saving?
  {
    var r := w.runners[token];
    var Saving(kind, patch, next) := r.pc;
    var inCatch := kind in {UnknownOutcome, StepFailed, StateUnavailable};
    if r.lostLease && kind != StateUnavailable then Goto(w, token, r.(pc := Finished))
    else if io.NotRun? then Goto(w, token, if inCatch then r.(pc := Finished) else Thrown(r, false))
    else
      var written := Write(c, w.row, Held(token), kind, r.state, patch, w.now, payload);
      match written
      case Refused(_) => Goto(w, token, if inCatch || io.Acknowledged? then r.(pc := Finished) else Thrown(r, false))
      case Wrote(row, action) =>
        var w1 := Commit(w, row, action);
        var w2 := if action.material.kind == SettlementMarked then w1.(settleBy := w1.settleBy[row.step := token])
                  else if action.material.kind == InferenceMarked then w1.(inferBy := w1.inferBy[row.step := token])
                  else w1;
        if io.Unanswered? then Goto(w2, token, if inCatch then r.(pc := Finished) else Thrown(r, false))
        else Goto(w2, token, r.(row := row, pc := if IsDispatch(kind) && row.status != Running then Finished else next))
  }

  /** The next await of a runner. */
  function Step(c: Config, w: World, token: Token, reply: Reply, io: Io, payload: nat): World
    requires token in w.runners
  {
    var r := w.runners[token];
    match r.pc
    case Finished => w
    case Saving(_, _, _) => Save(c, w, token, io, payload)
    case Opening =>
      var s := Open(r.row);
      Goto(w, token, if s.None? then r.(pc := Saving(StateUnavailable, Ending(Failed), Finished))
                     else r.(state := s, pc := Stopping(Preparing)))
    case Recovering =>
      var s := Open(w.row);
      if s.None? then Goto(w, token, r.(row := w.row, pc := Finished))
      else
        var unknown := Uncertain(s.value.phase);
        Goto(w, token, Runner(Saving(if unknown then UnknownOutcome else StepFailed,
          Ending(if unknown then OutcomeUnknown else Failed), Finished), w.row, s, r.lostLease))
    case _ => if r.state.None? then w else Progress(c, w, token, r, r.state.value, reply)
  }

  // ----- the awaits between opening the state and saving it -----

  function AtStop(w: World, token: Token, r: Runner, after: Pc): World {
    var row := w.row;
    var r1 := r.(row := row);
    Goto(w, token, if row.cancelRequested || row.limits.deadline <= w.now || row.step >= row.limits.steps
      then r1.(pc := Saving(Stopped, Ending(if row.cancelRequested then Cancelled else Exhausted), Finished))
      else r1.(pc := after))
  }

  function AtPreparation(w: World, token: Token, r: Runner, s: State, reply: Reply): World {
    if !reply.Ready? then Goto(w, token, Thrown(r, reply.Contended?))
    else if s.pending.Some? then Goto(w, token, r.(pc := CheckingSession))
    else
      var pending := Pending(r.row.step, reply.expiresAt, None, None, None, false);
      Goto(w, token, r.(state := Some(s.(phase := Challenge, pending := Some(pending))),
                        pc := Saving(StepPrepared, NoPatch, CheckingSession)))
  }

  function AtSessionCheck(w: World, token: Token, r: Runner, s: State): World {
    if s.pending.None? then Goto(w, token, Thrown(r, false))
    else Goto(w, token, r.(pc :=
      if s.pending.value.expiresAt <= w.now then Saving(SessionExpired, Ending(Failed), Finished)
      else if s.phase == Challenge then Challenging else Stopping(AfterChallenge)))
  }

  function AtChallenge(w: World, token: Token, r: Runner, reply: Reply): World {
    if reply.Demand? then Goto(w, token, r.(pc := ReadingIntent(reply.paymentId, reply.amount)))
    else Goto(w, token, Thrown(r, reply.Contended?))
  }

  function AtIntent(c: Config, w: World, token: Token, r: Runner, s: State, paymentId: nat, amount: nat, reply: Reply)
      : World {
    if !(reply.Intent? && reply.open && reply.amount == amount) || s.pending.None? then Goto(w, token, Thrown(r, false))
    else if amount + r.row.spent > r.row.limits.budget then
      Goto(w, token, r.(pc := Saving(BudgetExhausted, Ending(Exhausted), Finished)))
    else
      var pending := s.pending.value.(paymentId := Some(paymentId), amount := Some(amount));
      Goto(w, token, r.(
        state := Some(s.(phase := if c.mock then PaymentReady else AwaitingAuthorization, pending := Some(pending))),
        pc := if c.mock then Saving(PaymentRequired, NoPatch, Stopping(AfterChallenge))
              else Saving(PaymentRequired, Ending(AwaitingPayment), Finished)))
  }

  function BeforeSettlement(w: World, token: Token, r: Runner, s: State): World {
    if s.phase != PaymentReady then Goto(w, token, r.(pc := Stopping(AfterSettlement)))
    else if s.pending.None? || s.pending.value.amount.None?
            || s.pending.value.amount.value + r.row.spent > r.row.limits.budget then
      Goto(w, token, Thrown(r, false))
    else
      Goto(w, token, r.(state := Some(s.(phase := SettlementDispatched)),
                        pc := Saving(SettlementMarked, NoPatch, Settling)))
  }

  /** The bounded call is not made at all once the deadline has passed. */
  function AtSettlement(w: World, token: Token, r: Runner, s: State, reply: Reply): World {
    if r.row.limits.deadline <= w.now || s.pending.None? || s.pending.value.paymentId.None?
      || s.pending.value.amount.None? then
      Goto(w, token, Thrown(r, false))
    else
      var w1 := w.(calls := w.calls + [SettleCall(r.row.step, s.pending.value.paymentId.value)]);
      if reply.Settled? then
        var patch := Patch(None, false, None, Some(r.row.spent + s.pending.value.amount.value), false);
        Goto(w1.(outcomes := w1.outcomes + {SettleSeen(r.row.step, reply.tx)}), token,
             r.(state := Some(Paying(s, reply.tx)),
                pc := Saving(SettlementCompleted, patch, Stopping(AfterSettlement))))
      else Goto(w1, token, Thrown(r, reply.Contended?))
  }

  function BeforeInference(w: World, token: Token, r: Runner, s: State): World {
    if s.phase != Paid then Goto(w, token, Thrown(r, false))
    else
      Goto(w, token, r.(state := Some(s.(phase := InferenceDispatched)),
                        pc := Saving(InferenceMarked, NoPatch, Inferring)))
  }

  function AtInference(w: World, token: Token, r: Runner, s: State, reply: Reply): World {
    if r.row.limits.deadline <= w.now || s.pending.None? || s.pending.value.paymentId.None? then
      Goto(w, token, Thrown(r, false))
    else
      var w1 := w.(calls := w.calls + [InferCall(r.row.step, s.pending.value.paymentId.value)]);
      if reply.Inferred? then
        Goto(w1.(outcomes := w1.outcomes + {InferSeen(r.row.step, reply.receipt)}), token,
             r.(pc := Completing(reply.receipt, reply.decision)))
      else Goto(w1, token, Thrown(r, reply.Contended?))
  }

  function AtCompletion(w: World, token: Token, r: Runner, s: State, receipt: Hash, decision: Decision): World {
    var done := Completion(w.row, s, receipt, decision);
    if done.None? then Goto(w, token, Thrown(r.(row := w.row), false))
    else
      Goto(w, token, r.(row := w.row, state := Some(done.value.0),
                        pc := Saving(InferenceCompleted, done.value.1, Finished)))
  }

  function Progress(c: Config, w: World, token: Token, r: Runner, s: State, reply: Reply): World {
    match r.pc
    case Stopping(after) => AtStop(w, token, r, after)
    case Preparing => AtPreparation(w, token, r, s, reply)
    case CheckingSession => AtSessionCheck(w, token, r, s)
    case Challenging => AtChallenge(w, token, r, reply)
    case ReadingIntent(paymentId, amount) => AtIntent(c, w, token, r, s, paymentId, amount, reply)
    case AfterChallenge => BeforeSettlement(w, token, r, s)
    case Settling => AtSettlement(w, token, r, s, reply)
    case AfterSettlement => BeforeInference(w, token, r, s)
    case Inferring => AtInference(w, token, r, s, reply)
    case Completing(receipt, decision) => AtCompletion(w, token, r, s, receipt, decision)
    case _ => w
  }

  /** A write made outside a runner, fenced by the version the request read. */
  function Request(c: Config, w: World, read: Row, kind: Kind, s: State, patch: Patch, payload: nat): World {
    var written := Write(c, w.row, Version(Some(read.owner), read.version), kind, Some(s), patch, w.now, payload);
    if written.Wrote? then Commit(w, written.row, written.action) else w
  }

  /** A write a request asks for. */
  datatype Ask = Ask(kind: Kind, state: State, patch: Patch)

  function Asked(c: Config, w: World, read: Row, ask: Option<Ask>, payload: nat): World {
    if ask.None? then w else Request(c, w, read, ask.value.kind, ask.value.state, ask.value.patch, payload)
  }

  /** What AgentRuntime.cancel writes after reading `read`. */
  function CancelAsk(read: Row): Option<Ask> {
    if Terminal(read.status) || read.cancelRequested || Open(read).None? then None
    else Some(Ask(CancelAsked, read.sealed,
      if read.status == Running || read.status == OutcomeUnknown then NoPatch.(cancel := true)
      else Ending(Cancelled).(cancel := true)))
  }

  /** What AgentRuntime.resume writes after reading `read`, the authorization and the two proofs of outcome. */
  function ResumeAsk(read: Row, authorized: bool, settlement: Option<Proof>, inference: Option<Answer>): Option<Ask> {
    if Open(read).None? then None
    else if read.status == OutcomeUnknown then
      var s := read.sealed;
      var back := Patch(Some(if read.cancelRequested then Cancelled else Queued), false, None, None, false);
      if s.phase == InferenceDispatched && s.pending.Some? then
        if inference.None? then None
        else
          var done := Completion(read, s, inference.value.receipt, inference.value.decision);
          if done.None? then None else Some(Ask(InferenceCompleted, done.value.0, done.value.1))
      else if s.phase == SettlementDispatched && s.pending.Some? && s.pending.value.paymentId.Some? then
        if settlement.None? || !settlement.value.settled || Some(settlement.value.amount) != s.pending.value.amount
          then None
        else Some(Ask(SettlementReconciled, Paying(s, settlement.value.tx),
                      back.(spent := Some(read.spent + settlement.value.amount))))
      else Some(Ask(PreparationResumed, s, back))
    else if read.status != AwaitingPayment || read.sealed.phase != AwaitingAuthorization || read.sealed.pending.None?
      || !authorized then None
    else Some(Ask(PaymentAuthorized, read.sealed.(phase := PaymentReady),
                  Patch(Some(Queued), false, None, None, false)))
  }

  function DoSweep(c: Config, w: World, version: nat, payload: nat): World {
    var written := Sweep(c, w.row, version, w.now, payload);
    if written.Wrote? then Commit(w, written.row, written.action) else w
  }

  function Next(c: Config, w: World, e: Event): World {
    match e
    case Tick(elapsed) => w.(now := w.now + elapsed)
    case Claim =>
      if w.row.status != Queued then w
      else
        var row := Claimed(c, w.row, w.nextToken, w.now);
        w.(row := row, seen := w.seen + {row}, nextToken := w.nextToken + 1,
           runners := w.runners[w.nextToken := Runner(Opening, row, None, false)])
    case Heartbeat(token) =>
      var beat := Beat(c, w.row, token, w.now);
      if beat.None? then w else w.(row := beat.value, seen := w.seen + {beat.value})
    case LoseLease(token) =>
      if token in w.runners then Goto(w, token, w.runners[token].(lostLease := true)) else w
    case Crash(token) =>
      if token in w.runners then Goto(w, token, w.runners[token].(pc := Finished)) else w
    case SweepLease(version, payload) => DoSweep(c, w, version, payload)
    case Cancel(read, payload) => if read in w.seen then Asked(c, w, read, CancelAsk(read), payload) else w
    case Resume(read, authorized, settlement, inference, payload) =>
      if read in w.seen then Asked(c, w, read, ResumeAsk(read, authorized, settlement, inference), payload) else w
    case Run(token, reply, io, payload) => if token in w.runners then Step(c, w, token, reply, io, payload) else w
  }

  function Exec(c: Config, w: World, es: seq<Event>): World {
    if es == [] then w else Next(c, Exec(c, w, es[..|es| - 1]), es[|es| - 1])
  }

  // ----- creation -----

  /** The parameters a run is created with. */
  datatype Origin = Origin(id: nat, owner: nat, intent: nat, requestHash: nat, limits: Limits, at: Time, payload: nat)

  /** A newly created run and its first journal action. */
  function Fresh(c: Config, o: Origin): (Row, Action) {
    var s := State(o.limits, Phase.Ready, [], None, false);
    var row := Row(o.id, o.owner, o.intent, o.requestHash, o.at, o.limits, Queued, 0, 0, s, 0, None, 0, false, 0, ZERO);
    var a := NewAction(c, row, Created, o.payload, o.at);
    (row.(ledgerHead := a.actionHash, ledgerSequence := 1), a)
  }

  function Start(c: Config, o: Origin): World {
    var (row, a) := Fresh(c, o);
    World(o.at, row, [a], map[], 0, {row}, [], {}, map[], map[])
  }

  /** The host only creates runs with at least one step. */
  predicate Creatable(o: Origin) { o.limits.steps >= 1 }
}
