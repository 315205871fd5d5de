/** The acceptance program itself: it updates its copy of the journal in place, saving around every request. */
module AcceptanceRun {
  import opened Common
  import opened Acceptance

  class AcceptanceProgram {
    var cell: Option<Journal>
    var recorded: bool
    var trace: seq<Entry>
    var state: Journal

    constructor (w: World, c: Context)
      requires c.payer.Some?
      ensures Durable() == w
    {
      cell, recorded, trace := w.cell, w.recorded, w.trace;
      state := if w.cell.Some? then w.cell.value else Created(c, 0);
    }

    ghost function Durable(): World
      reads this
    { World(cell, recorded, trace) }

    ghost function Running(going: bool): Run
      reads this
    { Run(cell, trace, state, going) }

    /** Replaces the journal file by the current state. */
    method SaveState(io: Io) returns (going: bool)
      modifies this`cell
      ensures Running(going) == Save(old(Running(true)), state, io)
    {
      if state.completionPosts > MAX_COMPLETION_POSTS || io.NotDone? { return false; }
      cell := Some(state);
      going := io.Done?;
    }

    method Send(post: Post)
      modifies this`trace
      ensures trace == old(trace) + [Sent(post)]
    {
      trace := trace + [Sent(post)];
    }

    method Authenticate(payer: nat, mode: Mode, env: LoginEnv) returns (going: bool)
      modifies this`cell, this`trace, this`state
      ensures Running(going) == Login(old(Running(true)), payer, mode, env)
    {
      if state.wallet.Some? {
        if state.wallet.value.address != payer { return false; }
        if env.now < state.wallet.value.expiresAt { return true; }
      }
      if mode != Mode.Execute && mode != RecoverCompleted { return false; }
      Send(WalletChallenge);
      if !env.challenged { return false; }
      Send(WalletVerify);
      if env.wallet.None? || env.wallet.value.address != payer || env.wallet.value.expiresAt <= env.later
         || env.wallet.value.expiresAt > env.later + WALLET_SESSION_MAX_MS { return false; }
      state := state.(wallet := env.wallet);
      going := SaveState(env.save);
    }

    method Open(env: SessionEnv) returns (going: bool)
      modifies this`cell, this`trace, this`state
      ensures Running(going) == OpenStep(old(Running(true)), env)
    {
      if state.phase != New { return true; }
      if !env.quoted { return false; }
      state := state.(phase := SessionStarting);
      going := SaveState(env.mark);
      if !going { return; }
      Send(OpenSession);
      if env.reply.None? || env.reply.value.expiresAt <= env.now { return false; }
      state := state.(session := env.reply, request := Some(Request(env.reply.value.id, env.reply.value.wrapKey)),
                      phase := Session);
      going := SaveState(env.save);
    }

    method Challenge(env: ChallengeEnv) returns (going: bool)
      modifies this`cell, this`trace, this`state
      ensures Running(going) == ChallengeStep(old(Running(true)), env)
    {
      if state.phase != Session { return true; }
      if state.request.None? { return false; }
      state := state.(phase := ChallengeStarting);
      going := SaveState(env.mark);
      if !going { return; }
      Send(UnpaidInference(state.request.value, state.key));
      if env.reply.None? { return false; }
      state := state.(paymentId := env.reply, phase := Phase.Challenge);
      going := SaveState(env.save);
    }

    method Settle(plan: Plan, payer: nat, env: SettleEnv) returns (going: bool)
      modifies this`cell, this`trace, this`state
      ensures Running(going) == SettleStep(old(Running(true)), plan, payer, env)
    {
      if state.phase != Phase.Challenge { return true; }
      if state.paymentId.None? || !Passes(env.checks, plan, true) { return false; }
      var paymentId := state.paymentId.value;
      var authorization := Authorize(state, plan, payer, env.now);
      if authorization.None? { return false; }
      state := state.(authorization := authorization, phase := SettlementStarting);
      going := SaveState(env.mark);
      if !going { return; }
      Send(SettlePayment(paymentId, authorization.value));
      if env.reply.None? || env.reply.value.0 != paymentId { return false; }
      trace := trace + [Confirmed(paymentId, env.reply.value.1)];
      state := state.(settleTx := Some(env.reply.value.1), phase := Settled);
      going := SaveState(env.save);
    }

    method Complete(plan: Plan, payer: nat, env: CompleteEnv) returns (going: bool)
      modifies this`cell, this`trace, this`state
      ensures Running(going) == CompleteStep(old(Running(true)), plan, payer, env)
    {
      if state.phase != Settled { return true; }
      if !Passes(env.checks, plan, false) || !AuthorizationOk(state, plan, payer) || state.request.None? {
        return false;
      }
      state := state.(phase := CompletionStarting, completionPosts := state.completionPosts + 1);
      going := SaveState(env.mark);
      if !going { return; }
      Send(PaidInference(false, state.request.value, state.key, state.paymentId.value));
      if env.reply.None? { return false; }
      state := state.(result := env.reply, phase := ResponseReceived);
      going := SaveState(env.save);
    }

    method Execute(plan: Plan, payer: nat, env: Env) returns (going: bool)
      modifies this`cell, this`trace, this`state
      ensures Running(going) == ExecuteSteps(old(Running(true)), plan, payer, env)
    {
      if Ambiguous(state.phase) { return false; }
      going := Open(env.session);
      if !going { return; }
      if !RequestOk(state) || (state.authorization.Some? && !AuthorizationOk(state, plan, payer)) { return false; }
      if state.phase in {Session, Phase.Challenge, Settled} && state.session.value.expiresAt <= env.checkedAt {
        return false;
      }
      going := Challenge(env.challenge);
      if !going { return; }
      going := Settle(plan, payer, env.settle);
      if !going { return; }
      going := Complete(plan, payer, env.complete);
    }

    method Replay(plan: Plan, env: ReplayEnv) returns (going: bool)
      modifies this`cell, this`trace, this`state
      ensures Running(going) == ReplayStep(old(Running(true)), plan, env)
    {
      if state.paymentId.None? || state.request.None? { return false; }
      if env.evidence.payment.Some? { trace := trace + [Shown(state.paymentId.value, env.evidence.payment.value)]; }
      if !ProvenConsumed(env.evidence, state, plan) || state.session.value.expiresAt <= env.now { return false; }
      var payment := env.evidence.payment.value;
      state := state.(expected := payment.receiptHash, settleTx := payment.settleTx,
                      phase := CompletionStarting, completionPosts := state.completionPosts + 1);
      going := SaveState(env.mark);
      if !going { return; }
      Send(PaidInference(true, state.request.value, state.key, state.paymentId.value));
      if env.reply.None? || env.reply != state.expected { return false; }
      state := state.(result := env.reply, replayVerified := true, phase := ResponseReceived);
      going := SaveState(env.save);
    }

    method RecoverSettlement(plan: Plan, env: RecoverEnv) returns (going: bool)
      modifies this`cell, this`trace, this`state
      ensures Running(going) == RecoverStep(old(Running(true)), plan, env)
    {
      if state.paymentId.None? { return true; }
      if env.evidence.payment.None? { return true; }
      var payment := env.evidence.payment.value;
      trace := trace + [Shown(state.paymentId.value, payment)];
      if state.phase != SettlementStarting || payment.status != Paid || payment.settleTx.None? { return true; }
      if payment.amount != plan.price || payment.confidential { return false; }
      state := state.(settleTx := payment.settleTx, phase := Settled);
      going := SaveState(env.save);
    }

    method Finish(env: FinishEnv) returns (going: bool)
      modifies this`cell, this`trace, this`state
      ensures Running(going) == FinishStep(old(Running(true)), env)
    {
      if state.result.None? || state.settleTx.None? || !env.verified { return false; }
      state := state.(phase := Completed,
                      checkedAt := if state.checkedAt.None? then Some(env.now) else state.checkedAt);
      going := SaveState(env.save);
    }

    /** One invocation, from loading the journal file to exit. */
    method RunAcceptance(c: Context, mode: Mode, env: Env)
      modifies this
      ensures Durable() == Invoke(old(Durable()), c, mode, env)
    {
      if !Admitted(cell, c, mode, env) { return; }
      var going := true;
      if cell.None? {
        if mode != Mode.Execute { return; }
        state := Created(c, env.key);
        going := SaveState(env.create);
      } else {
        state := cell.value;
      }
      if !going { return; }
      var payer := c.payer.value;
      going := Authenticate(payer, mode, env.login);
      if !going { return; }
      if mode == Recover {
        going := RecoverSettlement(c.plan, env.recover);
        return;
      }
      if mode == Mode.Execute {
        going := Execute(c.plan, payer, env);
        if !going { return; }
      }
      if !RequestOk(state) || !AuthorizationOk(state, c.plan, payer) { return; }
      if mode == RecoverCompleted {
        going := Replay(c.plan, env.replay);
        if !going { return; }
      }
      going := Finish(env.finish);
    }

    /** The recovery program: the record is written once, before the journal goes back. */
    method RearmOriginal(plan: Plan, proof: Proof, now: Time, archive: bool, execute: bool, record: Io, save: Io)
      modifies this
      ensures Durable() == Rearm(old(Durable()), plan, proof, now, archive, execute, record, save)
    {
      if cell.None? || cell.value.plan != plan { return; }
      var rearmed := Rearmed(plan, cell.value, proof, now, archive);
      if rearmed.None? || !execute || recorded || record.NotDone? { return; }
      recorded := true;
      if record.DoneThenDied? { return; }
      state := rearmed.value;
      var going := SaveState(save);
    }
  }
}
