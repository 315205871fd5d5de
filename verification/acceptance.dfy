/** The acceptance journal: a write-ahead state machine driven by repeated operator invocations in different modes.
    Every invocation may die at any save and any reply may be lost; only the journal file, the one-time recovery
    record and what was sent to the gateway survive it. */
module Acceptance {
  import opened Common

  type Time = nat
  type Hash = nat

  datatype Phase = New | SessionStarting | Session | ChallengeStarting | Challenge | SettlementStarting | Settled
                 | CompletionStarting | ResponseReceived | Completed | AbortedUnspent

  datatype Mode = Preflight | Execute | Recover | RecoverCompleted | PrepareManifest | UnlockStale

  datatype Plan = Plan(id: nat, price: nat)
  datatype Context = Context(plan: Plan, api: nat, payer: Option<nat>)

  datatype Wallet = Wallet(address: nat, expiresAt: Time)
  datatype SessionKeys = SessionKeys(id: nat, wrapKey: nat, expiresAt: Time, attRef: Hash)
  /** The fixed prompt, sealed under a wrap key for a session. */
  datatype Request = Request(sessionId: nat, wrapKey: nat)
  /** Recovering a signature yields its signer exactly for the message that was signed. */
  datatype Signature = Signature(signer: nat, value: nat, validBefore: nat, nonce: nat)
  datatype Authorization = Authorization(from: nat, validAfter: nat, validBefore: nat, signature: Signature)

  datatype Journal = Journal(plan: Plan, api: nat, owner: nat, key: nat, phase: Phase, wallet: Option<Wallet>,
                             session: Option<SessionKeys>, request: Option<Request>, paymentId: Option<nat>,
                             authorization: Option<Authorization>, settleTx: Option<Hash>, result: Option<Hash>,
                             expected: Option<Hash>, checkedAt: Option<Time>, replayVerified: bool,
                             completionPosts: nat)

  datatype Post = WalletChallenge | WalletVerify
                | OpenSession
                | UnpaidInference(request: Request, key: nat)
                | SettlePayment(paymentId: nat, authorization: Authorization)
                | PaidInference(replay: bool, request: Request, key: nat, paymentId: nat)

  datatype PaymentStatus = Open | Settling | Paid | Consumed | Other
  datatype PaymentView = PaymentView(status: PaymentStatus, amount: nat, confidential: bool, settleTx: Option<Hash>,
                                     receiptHash: Option<Hash>)
  /** What the gateway shows of the payment and of its receipt; `genuine` says the receipt has the expected origin,
      model, input and signature, `attRef` which session it names. */
  datatype Evidence = Evidence(payment: Option<PaymentView>, receipt: Option<ReceiptView>)
  datatype ReceiptView = ReceiptView(typedHash: Hash, genuine: bool, attRef: Hash)

  /** What leaves and reaches the operator: requests sent, a settlement the gateway confirmed, a payment it showed. */
  datatype Entry = Sent(post: Post) | Confirmed(paymentId: nat, tx: Hash) | Shown(paymentId: nat, view: PaymentView)

  /** How replacing the journal file ended: done, done by a process that then died, or never done. */
  datatype Io = Done | DoneThenDied | NotDone

  datatype Checks = Checks(ok: bool, balance: nat)
  datatype LoginEnv = LoginEnv(now: Time, challenged: bool, wallet: Option<Wallet>, later: Time, save: Io)
  datatype SessionEnv = SessionEnv(quoted: bool, mark: Io, reply: Option<SessionKeys>, now: Time, save: Io)
  datatype ChallengeEnv = ChallengeEnv(mark: Io, reply: Option<nat>, save: Io)
  datatype SettleEnv = SettleEnv(checks: Checks, now: Time, mark: Io, reply: Option<(nat, Hash)>, save: Io)
  datatype CompleteEnv = CompleteEnv(checks: Checks, mark: Io, reply: Option<Hash>, save: Io)
  datatype ReplayEnv = ReplayEnv(evidence: Evidence, now: Time, mark: Io, reply: Option<Hash>, save: Io)
  datatype RecoverEnv = RecoverEnv(evidence: Evidence, save: Io)
  datatype FinishEnv = FinishEnv(verified: bool, now: Time, save: Io)

  /** Everything an invocation learns from outside: replies, clocks, and where it dies. */
  datatype Env = Env(checks: Checks, key: nat, create: Io, login: LoginEnv, session: SessionEnv, checkedAt: Time,
                     challenge: ChallengeEnv, settle: SettleEnv, complete: CompleteEnv, replay: ReplayEnv,
                     recover: RecoverEnv, finish: FinishEnv)

  /** A running invocation: the durable cell, the trace, its copy of the journal, and whether it still runs. */
  datatype Run = Run(cell: Option<Journal>, trace: seq<Entry>, state: Journal, going: bool)

  const MAX_COMPLETION_POSTS := 100
  const AUTHORIZATION_SECONDS := 600
  const WALLET_SESSION_MAX_MS := 1_830_000

  // ----- saving and checking -----

  function Stop(r: Run): Run { r.(going := false) }

  function Log(r: Run, e: Entry): Run { r.(trace := r.trace + [e]) }

  /** The journal schema rejects more than a hundred completion requests before anything is written. */
  function Save(r: Run, j: Journal, io: Io): Run {
    if j.completionPosts > MAX_COMPLETION_POSTS || io.NotDone? then Run(r.cell, r.trace, j, false)
    else Run(Some(j), r.trace, j, io.Done?)
  }

  predicate RequestOk(j: Journal) {
    j.session.Some? && j.request.Some? && j.request.value == Request(j.session.value.id, j.session.value.wrapKey)
  }

  /** The saved authorization is the payer's own signature for this payment at the planned price. */
  predicate AuthorizationOk(j: Journal, plan: Plan, payer: nat) {
    && j.authorization.Some? && j.paymentId.Some? && j.authorization.value.from == payer
    && j.authorization.value.validAfter == 0
    && j.authorization.value.signature == Signature(payer, plan.price, j.authorization.value.validBefore,
                                                    j.paymentId.value)
  }

  predicate Passes(c: Checks, plan: Plan, withBalance: bool) { c.ok && (withBalance ==> plan.price <= c.balance) }

  predicate Ambiguous(p: Phase) { p in {SessionStarting, ChallengeStarting, SettlementStarting, CompletionStarting} }

  function Least(a: nat, b: nat): nat { if a <= b then a else b }

  function Sign(plan: Plan, payer: nat, paymentId: nat, session: SessionKeys, now: Time): Authorization {
    var validBefore := Least(now / 1000 + AUTHORIZATION_SECONDS, session.expiresAt / 1000);
    Authorization(payer, 0, validBefore, Signature(payer, plan.price, validBefore, paymentId))
  }

  // ----- the steps of an invocation -----

  function Login(r: Run, payer: nat, mode: Mode, env: LoginEnv): Run {
    var s := r.state;
    if !r.going then r
    else if s.wallet.Some? && s.wallet.value.address != payer then Stop(r)
    else if s.wallet.Some? && env.now < s.wallet.value.expiresAt then r
    else if mode != Execute && mode != RecoverCompleted then Stop(r)
    else
      var r1 := Log(r, Sent(WalletChallenge));
      if !env.challenged then Stop(r1)
      else
        var r2 := Log(r1, Sent(WalletVerify));
        if env.wallet.None? || env.wallet.value.address != payer || env.wallet.value.expiresAt <= env.later
           || env.wallet.value.expiresAt > env.later + WALLET_SESSION_MAX_MS then Stop(r2)
        else Save(r2, s.(wallet := env.wallet), env.save)
  }

  function OpenStep(r: Run, env: SessionEnv): Run {
    if !r.going || r.state.phase != New then r
    else if !env.quoted then Stop(r)
    else
      var r1 := Save(r, r.state.(phase := SessionStarting), env.mark);
      if !r1.going then r1
      else
        var r2 := Log(r1, Sent(OpenSession));
        if env.reply.None? || env.reply.value.expiresAt <= env.now then Stop(r2)
        else Save(r2, r2.state.(session := env.reply,
                                request := Some(Request(env.reply.value.id, env.reply.value.wrapKey)),
                                phase := Session), env.save)
  }

  function CheckStep(r: Run, plan: Plan, payer: nat, now: Time): Run {
    var s := r.state;
    if !r.going then r
    else if !RequestOk(s) || (s.authorization.Some? && !AuthorizationOk(s, plan, payer)) then Stop(r)
    else if s.phase in {Session, Challenge, Settled} && s.session.value.expiresAt <= now then Stop(r)
    else r
  }

  function ChallengeStep(r: Run, env: ChallengeEnv): Run {
    if !r.going || r.state.phase != Session then r
    else if r.state.request.None? then Stop(r)
    else
      var r1 := Save(r, r.state.(phase := ChallengeStarting), env.mark);
      if !r1.going then r1
      else
        var r2 := Log(r1, Sent(UnpaidInference(r.state.request.value, r.state.key)));
        if env.reply.None? then Stop(r2)
        else Save(r2, r2.state.(paymentId := env.reply, phase := Challenge), env.save)
  }

  /** The authorization a settlement uses: the saved one while it is valid, never a replacement. */
  function Authorize(j: Journal, plan: Plan, payer: nat, now: Time): Option<Authorization> {
    if j.paymentId.None? || j.session.None? then None
    else if j.authorization.None? then Some(Sign(plan, payer, j.paymentId.value, j.session.value, now))
    else if AuthorizationOk(j, plan, payer)
      && now / 1000 < j.authorization.value.validBefore <= j.session.value.expiresAt / 1000 then j.authorization
    else None
  }

  function SettleStep(r: Run, plan: Plan, payer: nat, env: SettleEnv): Run {
    if !r.going || r.state.phase != Challenge then r
    else if r.state.paymentId.None? || !Passes(env.checks, plan, true) then Stop(r)
    else
      var a := Authorize(r.state, plan, payer, env.now);
      if a.None? then Stop(r)
      else
        var r1 := Save(r, r.state.(authorization := a, phase := SettlementStarting), env.mark);
        if !r1.going then r1
        else
          var p := r.state.paymentId.value;
          var r2 := Log(r1, Sent(SettlePayment(p, a.value)));
          if env.reply.None? || env.reply.value.0 != p then Stop(r2)
          else Save(Log(r2, Confirmed(p, env.reply.value.1)),
                    r2.state.(settleTx := Some(env.reply.value.1), phase := Settled), env.save)
  }

  function CompleteStep(r: Run, plan: Plan, payer: nat, env: CompleteEnv): Run {
    var s := r.state;
    if !r.going || s.phase != Settled then r
    else if !Passes(env.checks, plan, false) || !AuthorizationOk(s, plan, payer) || s.request.None? then Stop(r)
    else
      var r1 := Save(r, s.(phase := CompletionStarting, completionPosts := s.completionPosts + 1), env.mark);
      if !r1.going then r1
      else
        var r2 := Log(r1, Sent(PaidInference(false, s.request.value, s.key, s.paymentId.value)));
        if env.reply.None? then Stop(r2)
        else Save(r2, r2.state.(result := env.reply, phase := ResponseReceived), env.save)
  }

  function ExecuteSteps(r: Run, plan: Plan, payer: nat, env: Env): Run {
    if r.going && Ambiguous(r.state.phase) then Stop(r)
    else
      var r1 := CheckStep(OpenStep(r, env.session), plan, payer, env.checkedAt);
      CompleteStep(SettleStep(ChallengeStep(r1, env.challenge), plan, payer, env.settle), plan, payer, env.complete)
  }

  /** The consumption of the payment is proven by the gateway's own persisted records. */
  predicate ProvenConsumed(e: Evidence, s: Journal, plan: Plan) {
    && s.session.Some? && e.payment.Some? && e.receipt.Some?
    && e.payment.value.status == Consumed && e.payment.value.receiptHash == Some(e.receipt.value.typedHash)
    && e.payment.value.amount == plan.price && !e.payment.value.confidential && e.payment.value.settleTx.Some?
    && e.receipt.value.genuine && e.receipt.value.attRef == s.session.value.attRef
    && (s.settleTx.Some? ==> s.settleTx == e.payment.value.settleTx)
    && (s.result.Some? ==> s.result == e.payment.value.receiptHash)
  }

  function ReplayStep(r: Run, plan: Plan, env: ReplayEnv): Run {
    var s, e := r.state, env.evidence;
    if !r.going then r
    else if s.paymentId.None? || s.request.None? then Stop(r)
    else
      var r0 := if e.payment.Some? then Log(r, Shown(s.paymentId.value, e.payment.value)) else r;
      if !ProvenConsumed(e, s, plan) || s.session.value.expiresAt <= env.now then Stop(r0)
      else
        var j := s.(expected := e.payment.value.receiptHash, settleTx := e.payment.value.settleTx,
                    phase := CompletionStarting, completionPosts := s.completionPosts + 1);
        var r1 := Save(r0, j, env.mark);
        if !r1.going then r1
        else
          var r2 := Log(r1, Sent(PaidInference(true, s.request.value, s.key, s.paymentId.value)));
          if env.reply.None? || env.reply != j.expected then Stop(r2)
          else Save(r2, j.(result := env.reply, replayVerified := true, phase := ResponseReceived), env.save)
  }

  /** Read-only recovery; its one write records a settlement the gateway shows. */
  function RecoverStep(r: Run, plan: Plan, env: RecoverEnv): Run {
    var s, e := r.state, env.evidence;
    if !r.going || s.paymentId.None? then r
    else
      var r0 := if e.payment.Some? then Log(r, Shown(s.paymentId.value, e.payment.value)) else r;
      if s.phase != SettlementStarting || e.payment.None? || e.payment.value.status != Paid
        || e.payment.value.settleTx.None? then r0
      else if e.payment.value.amount != plan.price || e.payment.value.confidential then Stop(r0)
      else Save(r0, s.(settleTx := e.payment.value.settleTx, phase := Settled), env.save)
  }

  function FinishStep(r: Run, env: FinishEnv): Run {
    var s := r.state;
    if !r.going then r
    else if s.result.None? || s.settleTx.None? || !env.verified then Stop(r)
    else Save(r, s.(phase := Completed, checkedAt := if s.checkedAt.None? then Some(env.now) else s.checkedAt),
              env.save)
  }

  /** What execute, recover-completed and prepare-manifest require before using the saved payment. */
  function PaidStep(r: Run, plan: Plan, payer: nat): Run {
    if r.going && (!RequestOk(r.state) || !AuthorizationOk(r.state, plan, payer)) then Stop(r) else r
  }

  /** An invocation that has loaded or created its journal. */
  function Drive(r: Run, plan: Plan, payer: nat, mode: Mode, env: Env): Run {
    var r1 := Login(r, payer, mode, env.login);
    if mode == Recover then RecoverStep(r1, plan, env.recover)
    else
      var r2 := PaidStep(if mode == Execute then ExecuteSteps(r1, plan, payer, env) else r1, plan, payer);
      FinishStep(if mode == RecoverCompleted then ReplayStep(r2, plan, env.replay) else r2, env.finish)
  }

  predicate InScope(j: Journal, c: Context) { j.plan == c.plan && j.api == c.api && c.payer == Some(j.owner) }

  function Created(c: Context, key: nat): Journal
    requires c.payer.Some?
  {
    Journal(c.plan, c.api, c.payer.value, key, New, None, None, None, None, None, None, None, None, None, false, 0)
  }

  /** The journal file, the recovery record, and everything sent or shown so far. */
  datatype World = World(cell: Option<Journal>, recorded: bool, trace: seq<Entry>)

  /** What lets an invocation past loading its journal and checking the environment. */
  predicate Admitted(cell: Option<Journal>, c: Context, mode: Mode, env: Env) {
    && mode != UnlockStale
    && (cell.Some? ==> (cell.value.phase != AbortedUnspent || mode == Preflight) && InScope(cell.value, c))
    && Passes(env.checks, c.plan, c.payer.Some? && (cell.None? || cell.value.phase in {New, Session, Challenge}))
    && mode != Preflight && c.payer.Some?
  }

  /** One invocation of the acceptance program. */
  function Invoke(w: World, c: Context, mode: Mode, env: Env): World {
    if !Admitted(w.cell, c, mode, env) then w
    else if w.cell.None? && mode != Execute then w
    else
      var created := Created(c, env.key);
      var r0 := if w.cell.Some? then Run(w.cell, w.trace, w.cell.value, true)
                else Save(Run(None, w.trace, created, true), created, env.create);
      var r := Drive(r0, c.plan, c.payer.value, mode, env);
      World(r.cell, w.recorded, r.trace)
  }

  // ----- the one-time rearm -----

  /** An operator-reviewed proof that nothing was spent; `literals` stands for its fixed fields. */
  datatype Proof = Proof(plan: Plan, journal: Journal, payer: nat, paymentId: nat, nonce: nat, checkedAt: Time,
                         literals: bool, fromBlock: nat, blockNumber: nat, blockTimestamp: nat, before: Economics,
                         current: Economics)
  datatype Economics = Economics(receipts: nat, responses: nat, calls: nat, units: nat)

  predicate RearmEligible(j: Journal) {
    && j.phase == SettlementStarting && j.completionPosts == 0 && j.result.None? && j.settleTx.None? && j.expected.None?
    && j.paymentId.Some? && j.authorization.Some? && j.session.Some? && j.request.Some? && j.wallet.Some?
  }

  predicate ProofCovers(j: Journal, proof: Proof, now: Time) {
    && proof.literals && j.plan == proof.plan && proof.journal == j
    && j.paymentId == Some(proof.paymentId) && proof.nonce == proof.paymentId
    && j.authorization.Some? && j.authorization.value.from == proof.payer && j.wallet.Some?
    && j.wallet.value.address == proof.payer
    && j.owner == proof.payer
    && proof.checkedAt <= now + 30_000 && now <= proof.checkedAt + 60_000 && proof.fromBlock <= proof.blockNumber
    && proof.before == proof.current
  }

  /** The journal an operator may go back to: the original authorization either retried or abandoned. */
  function Rearmed(plan: Plan, j: Journal, proof: Proof, now: Time, archive: bool): Option<Journal> {
    if !RearmEligible(j) || !ProofCovers(j, proof, now) || !RequestOk(j) || !AuthorizationOk(j, plan, proof.payer)
      then None
    else
      var validBefore := j.authorization.value.validBefore;
      if archive then
        if validBefore <= now / 1000 && validBefore <= proof.blockTimestamp then Some(j.(phase := AbortedUnspent))
        else None
      else if now < j.session.value.expiresAt && now < j.wallet.value.expiresAt
        && now / 1000 < validBefore <= j.session.value.expiresAt / 1000
      then Some(j.(phase := Challenge)) else None
  }

  /** The recovery program; without `execute` it is a dry run. */
  function Rearm(w: World, plan: Plan, proof: Proof, now: Time, archive: bool, execute: bool, record: Io, save: Io)
      : World {
    if w.cell.None? || w.cell.value.plan != plan then w
    else
      var j := Rearmed(plan, w.cell.value, proof, now, archive);
      if j.None? || !execute || w.recorded || record.NotDone? then w
      else if record.DoneThenDied? || save.NotDone? then w.(recorded := true)
      else World(j, true, w.trace)
  }

  // ----- histories -----

  datatype Invocation = Accept(context: Context, mode: Mode, env: Env)
                      | Reopen(plan: Plan, proof: Proof, now: Time, archive: bool, execute: bool, record: Io, save: Io)

  function Next(w: World, i: Invocation): World {
    match i
    case Accept(c, mode, env) => Invoke(w, c, mode, env)
    case Reopen(plan, proof, now, archive, execute, record, save) =>
      Rearm(w, plan, proof, now, archive, execute, record, save)
  }

  function Exec(w: World, xs: seq<Invocation>): World {
    if xs == [] then w else Next(Exec(w, xs[..|xs| - 1]), xs[|xs| - 1])
  }

  const Start := World(None, false, [])
}
