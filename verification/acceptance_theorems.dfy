/** The guarantees of the acceptance journal, over every history of invocations, modes, deaths and lost replies. */
module AcceptanceTheorems {
  import opened Common
  import opened Acceptance
  import opened AcceptanceSafety

  /** However often and in whatever mode the operator runs it, a journal opens one session, asks for one unpaid
      challenge, settles at most twice (once unless it was rearmed) and completes at most once on execution. */
  lemma {:induction false} RequestsBounded(xs: seq<Invocation>)
    ensures
      var w := Exec(Start, xs);
      && Count(w.trace, OpenKind) <= 1 && Count(w.trace, UnpaidKind) <= 1
      && Count(w.trace, SettleKind) <= (if w.recorded then 2 else 1)
      && Count(w.trace, ExecuteKind) <= 1
      && Count(w.trace, ExecuteKind) + Count(w.trace, ReplayKind) <= MAX_COMPLETION_POSTS
  {
    ExecKeeps(xs);
    var w := Exec(Start, xs);
    if w.cell.Some? {
      forall k ensures Count(w.trace, k) <= Allowance(w.cell.value, w.recorded, k) {}
    }
  }

  /** Two requests of one purchase: the same authorization, the same sealed prompt and key, the same payment. */
  predicate Alike(e: Entry, f: Entry) {
    match (e, f)
    case (Sent(SettlePayment(p, a)), Sent(SettlePayment(q, b))) => p == q && a == b
    case (Sent(UnpaidInference(r, k)), Sent(PaidInference(_, r1, k1, _))) => r == r1 && k == k1
    case (Sent(PaidInference(_, r, k, p)), Sent(PaidInference(_, r1, k1, p1))) => r == r1 && k == k1 && p == p1
    case (Sent(SettlePayment(p, _)), Sent(PaidInference(_, _, _, p1))) => p == p1
    case _ => true
  }

  lemma HeldAlike(j: Journal, e: Entry, f: Entry)
    requires Held(j, e) && Held(j, f)
    ensures Alike(e, f)
  {}

  /** Every settlement carries the identical saved authorization, and every inference the identical sealed request and
      idempotency key: a retry can never become a second purchase. */
  lemma {:induction false} OnePurchase(xs: seq<Invocation>, a: nat, b: nat)
    ensures var t := Exec(Start, xs).trace; a < |t| && b < |t| ==> Alike(t[a], t[b])
  {
    ExecKeeps(xs);
    var w := Exec(Start, xs);
    if a < |w.trace| && b < |w.trace| {
      assert Held(w.cell.value, w.trace[a]) && Held(w.cell.value, w.trace[b]);
      HeldAlike(w.cell.value, w.trace[a], w.trace[b]);
    }
  }

  /** An execution completes only a payment the gateway reported settled; any other completion request directly
      follows the gateway showing the payment consumed. */
  lemma {:induction false} CompletionsAreCovered(xs: seq<Invocation>, i: nat)
    ensures
      var t := Exec(Start, xs).trace;
      i < |t| && t[i].Sent? && t[i].post.PaidInference? ==>
        if t[i].post.replay then i > 0 && ConsumedBy(t[i - 1], t[i].post.paymentId)
        else SettledIn(t[..i], t[i].post.paymentId)
  {
    ExecKeeps(xs);
    var w := Exec(Start, xs);
    if i < |w.trace| { assert w.cell.Some? && Covered(w.trace[..i], w.trace[i]); }
  }

  // ----- what an invocation cannot do -----

  /** The trace grew without any request that spends or commits. */
  predicate Quiet(t: seq<Entry>, t1: seq<Entry>) {
    t <= t1 && forall i :: |t| <= i < |t1| ==> KindOf(t1[i]).None?
  }

  predicate Silent(t: seq<Entry>, t1: seq<Entry>) {
    t <= t1 && forall i :: |t| <= i < |t1| ==> !t1[i].Sent?
  }

  lemma LoginIsQuiet(r: Run, payer: nat, mode: Mode, env: LoginEnv)
    ensures
      var r1 := Login(r, payer, mode, env);
      && Quiet(r.trace, r1.trace) && r1.state.phase == r.state.phase
      && (r1.cell == r.cell || r1.cell == Some(r1.state))
      && (mode != Execute && mode != RecoverCompleted ==> r1 == r || r1 == Stop(r))
  {}

  /** A journal stopped in the middle of a request is never continued by executing again. */
  lemma {:induction false} AmbiguousStops(w: World, c: Context, env: Env)
    requires w.cell.Some? && Ambiguous(w.cell.value.phase)
    ensures
      var w1 := Invoke(w, c, Execute, env);
      Quiet(w.trace, w1.trace) && w1.cell.Some? && w1.cell.value.phase == w.cell.value.phase
        && w1.recorded == w.recorded
  {
    if Admitted(w.cell, c, Execute, env) {
      LoginIsQuiet(Run(w.cell, w.trace, w.cell.value, true), c.payer.value, Execute, env.login);
    }
  }

  /** An attempt to execute. */
  predicate Executes(x: Invocation) { x.Accept? && x.mode == Execute }

  /** However often it is executed again, whatever the environment: only another mode gets such a journal moving. */
  lemma {:induction false} AmbiguousStaysStopped(w: World, xs: seq<Invocation>)
    requires w.cell.Some? && Ambiguous(w.cell.value.phase) && forall x :: x in xs ==> Executes(x)
    ensures
      var v := Exec(w, xs);
      && Quiet(w.trace, v.trace) && v.cell.Some? && v.cell.value.phase == w.cell.value.phase && v.recorded == w.recorded
  {
    if xs != [] {
      var v, x := Exec(w, xs[..|xs| - 1]), xs[|xs| - 1];
      AmbiguousStaysStopped(w, xs[..|xs| - 1]);
      assert x in xs && Executes(x);
      AmbiguousStops(v, x.context, x.env);
      QuietAlong(w.trace, v.trace, Next(v, x).trace);
    }
  }

  lemma QuietAlong(t: seq<Entry>, u: seq<Entry>, v: seq<Entry>)
    requires Quiet(t, u) && Quiet(u, v)
    ensures Quiet(t, v)
  {
    forall i | |t| <= i < |v| ensures KindOf(v[i]).None? { if i < |u| { assert v[i] == u[i]; } }
  }

  /** The other modes send nothing at all; recovery adds at most what the gateway showed. */
  lemma {:induction false} ReadOnlyModes(w: World, c: Context, mode: Mode, env: Env)
    requires mode != Execute && mode != RecoverCompleted
    ensures
      var w1 := Invoke(w, c, mode, env);
      Silent(w.trace, w1.trace) && (mode == Preflight || mode == UnlockStale ==> w1 == w)
  {
    if Admitted(w.cell, c, mode, env) && w.cell.Some? {
      LoginIsQuiet(Run(w.cell, w.trace, w.cell.value, true), c.payer.value, mode, env.login);
    }
  }

  /** An invocation in a mode that may not send, or a recovery program run dry. */
  predicate ReadOnly(x: Invocation) {
    match x
    case Accept(_, mode, _) => mode != Execute && mode != RecoverCompleted
    case Reopen(_, _, _, _, execute, _, _) => !execute
  }

  /** However long an operator only looks, nothing is sent. */
  lemma {:induction false} LookingSendsNothing(w: World, xs: seq<Invocation>)
    requires forall x :: x in xs ==> ReadOnly(x)
    ensures Silent(w.trace, Exec(w, xs).trace)
  {
    if xs != [] {
      var v, x := Exec(w, xs[..|xs| - 1]), xs[|xs| - 1];
      LookingSendsNothing(w, xs[..|xs| - 1]);
      assert x in xs && ReadOnly(x);
      if x.Accept? { ReadOnlyModes(v, x.context, x.mode, x.env); }
      SilentAlong(w.trace, v.trace, Next(v, x).trace);
    }
  }

  lemma SilentAlong(t: seq<Entry>, u: seq<Entry>, v: seq<Entry>)
    requires Silent(t, u) && Silent(u, v)
    ensures Silent(t, v)
  {
    forall i | |t| <= i < |v| ensures !v[i].Sent? { if i < |u| { assert v[i] == u[i]; } }
  }

  lemma AbortedStep(w: World, x: Invocation)
    requires w.cell.Some? && w.cell.value.phase == AbortedUnspent
    ensures Next(w, x) == w
  {}

  /** Nothing follows a journal archived as aborted. */
  lemma {:induction false} AbortedIsFinal(w: World, xs: seq<Invocation>)
    requires w.cell.Some? && w.cell.value.phase == AbortedUnspent
    ensures Exec(w, xs) == w
  {
    if xs != [] {
      AbortedIsFinal(w, xs[..|xs| - 1]);
      AbortedStep(w, xs[|xs| - 1]);
    }
  }

  /** A journal is archived as unspent only while its authorization was sent at most once, nothing was completed, and
      the authorization has expired both on the operator's clock and in the reviewed block. */
  lemma {:induction false} ArchivedUnspent(xs: seq<Invocation>, plan: Plan, proof: Proof, now: Time, record: Io,
                                           save: Io)
    ensures
      var w := Exec(Start, xs);
      var w1 := Rearm(w, plan, proof, now, true, true, record, save);
      w1.cell != w.cell ==>
        && w1.cell == Some(w.cell.value.(phase := AbortedUnspent)) && w1.recorded && !w.recorded && w1.trace == w.trace
        && Count(w1.trace, SettleKind) <= 1 && Count(w1.trace, ExecuteKind) == 0 && Count(w1.trace, ReplayKind) == 0
        && w.cell.value.authorization.Some?
        && w.cell.value.authorization.value.validBefore <= Least(now / 1000, proof.blockTimestamp)
  {
    ExecKeeps(xs);
    var w := Exec(Start, xs);
    if w.cell.Some? {
      forall k ensures Count(w.trace, k) <= Allowance(w.cell.value, w.recorded, k) {}
    }
  }

  lemma RecordedStep(w: World, x: Invocation)
    requires w.recorded
    ensures Next(w, x).recorded && (x.Reopen? ==> Next(w, x) == w)
  {}

  /** The recovery program takes effect at most once in the life of a journal. */
  lemma {:induction false} RearmedOnce(w: World, xs: seq<Invocation>, x: Invocation)
    requires w.recorded && x.Reopen?
    ensures Exec(w, xs).recorded && Next(Exec(w, xs), x) == Exec(w, xs)
  {
    if xs != [] {
      RearmedOnce(w, xs[..|xs| - 1], x);
      RecordedStep(Exec(w, xs[..|xs| - 1]), xs[|xs| - 1]);
    }
    RecordedStep(Exec(w, xs), x);
  }

  // ----- an undisturbed run -----

  /** Every save succeeds and the gateway answers everything as it should. */
  predicate Smooth(env: Env, plan: Plan, payer: nat, keys: SessionKeys, p: nat, tx: Hash, receipt: Hash) {
    && plan.price <= env.checks.balance && env.checks.ok && env.create.Done?
    && env.login.challenged && env.login.save.Done?
    && env.login.wallet == Some(Wallet(payer, env.login.later + 60_000))
    && env.session.quoted && env.session.mark.Done? && env.session.save.Done? && env.session.reply == Some(keys)
    && env.session.now < keys.expiresAt && env.checkedAt < keys.expiresAt
    && env.challenge.mark.Done? && env.challenge.save.Done? && env.challenge.reply == Some(p)
    && env.settle.checks == env.checks && env.settle.mark.Done? && env.settle.save.Done?
    && env.settle.reply == Some((p, tx))
    && env.complete.checks == env.checks && env.complete.mark.Done? && env.complete.save.Done?
    && env.complete.reply == Some(receipt)
    && env.finish.verified && env.finish.save.Done?
  }

  lemma SmoothOpening(r: Run, plan: Plan, payer: nat, env: Env, keys: SessionKeys, p: nat, tx: Hash, receipt: Hash)
    requires Smooth(env, plan, payer, keys, p, tx, receipt)
    requires r.going && r.state.phase == New && r.state.wallet.None? && r.state.authorization.None?
             && r.state.completionPosts == 0
    ensures
      var r1 := OpenStep(Login(r, payer, Execute, env.login), env.session);
      var r2 := CheckStep(r1, plan, payer, env.checkedAt);
      && r2 == r1 && r2.going && r2.cell == Some(r2.state)
      && r2.state == r.state.(phase := Session, wallet := env.login.wallet, session := Some(keys),
                              request := Some(Request(keys.id, keys.wrapKey)))
      && r2.trace == r.trace + [Sent(WalletChallenge), Sent(WalletVerify), Sent(OpenSession)]
  {}

  lemma SmoothPaying(r: Run, plan: Plan, payer: nat, env: Env, keys: SessionKeys, p: nat, tx: Hash, receipt: Hash)
    requires Smooth(env, plan, payer, keys, p, tx, receipt)
    requires r.going && r.state.phase == Session && r.state.authorization.None? && r.state.completionPosts == 0
    requires r.state.session == Some(keys) && r.state.request == Some(Request(keys.id, keys.wrapKey))
    ensures
      var a := Sign(plan, payer, p, keys, env.settle.now);
      var r1 := SettleStep(ChallengeStep(r, env.challenge), plan, payer, env.settle);
      && r1.going && r1.cell == Some(r1.state)
      && r1.state == r.state.(phase := Settled, paymentId := Some(p), authorization := Some(a), settleTx := Some(tx))
      && r1.trace == r.trace + [Sent(UnpaidInference(r.state.request.value, r.state.key)), Sent(SettlePayment(p, a)),
                                Confirmed(p, tx)]
  {}

  lemma SmoothCompleting(r: Run, plan: Plan, payer: nat, env: Env, keys: SessionKeys, p: nat, tx: Hash, receipt: Hash)
    requires Smooth(env, plan, payer, keys, p, tx, receipt)
    requires r.going && r.state.phase == Settled && r.state.completionPosts == 0 && r.state.settleTx == Some(tx)
    requires r.state.session == Some(keys) && r.state.request == Some(Request(keys.id, keys.wrapKey))
    requires r.state.paymentId == Some(p) && AuthorizationOk(r.state, plan, payer)
    ensures
      var r1 := FinishStep(PaidStep(CompleteStep(r, plan, payer, env.complete), plan, payer), env.finish);
      && r1.going && r1.cell == Some(r1.state) && r1.state.phase == Completed && r1.state.result == Some(receipt)
      && r1.trace == r.trace + [Sent(PaidInference(false, r.state.request.value, r.state.key, p))]
  {}

  lemma SmoothDrive(r: Run, plan: Plan, payer: nat, env: Env, keys: SessionKeys, p: nat, tx: Hash, receipt: Hash)
    requires Smooth(env, plan, payer, keys, p, tx, receipt)
    requires r.going && r.state.phase == New && r.state.wallet.None? && r.state.authorization.None?
             && r.state.completionPosts == 0
    ensures
      var r1 := Drive(r, plan, payer, Execute, env);
      var request := Request(keys.id, keys.wrapKey);
      && r1.cell.Some? && r1.cell.value.phase == Completed && r1.cell.value.result == Some(receipt)
      && r1.trace == r.trace + [Sent(WalletChallenge), Sent(WalletVerify), Sent(OpenSession),
                                Sent(UnpaidInference(request, r.state.key)),
                                Sent(SettlePayment(p, Sign(plan, payer, p, keys, env.settle.now))), Confirmed(p, tx),
                                Sent(PaidInference(false, request, r.state.key, p))]
  {
    SmoothOpening(r, plan, payer, env, keys, p, tx, receipt);
    var r1 := OpenStep(Login(r, payer, Execute, env.login), env.session);
    SmoothPaying(r1, plan, payer, env, keys, p, tx, receipt);
    var r2 := SettleStep(ChallengeStep(r1, env.challenge), plan, payer, env.settle);
    SmoothCompleting(r2, plan, payer, env, keys, p, tx, receipt);
    assert !Ambiguous(r.state.phase) && !Ambiguous(Login(r, payer, Execute, env.login).state.phase);
  }

  /** The guards leave the undisturbed path open: one invocation then completes with exactly one request of each kind,
      in order. */
  lemma {:induction false} UndisturbedRunCompletes(c: Context, env: Env, keys: SessionKeys, p: nat, tx: Hash,
                                                   receipt: Hash)
    requires c.payer.Some? && Smooth(env, c.plan, c.payer.value, keys, p, tx, receipt)
    ensures
      var w := Invoke(Start, c, Execute, env);
      var request := Request(keys.id, keys.wrapKey);
      && w.cell.Some? && w.cell.value.phase == Completed && w.cell.value.result == Some(receipt)
      && w.trace == [Sent(WalletChallenge), Sent(WalletVerify), Sent(OpenSession),
                     Sent(UnpaidInference(request, env.key)),
                     Sent(SettlePayment(p, Sign(c.plan, c.payer.value, p, keys, env.settle.now))), Confirmed(p, tx),
                     Sent(PaidInference(false, request, env.key, p))]
  {
    var plan, payer := c.plan, c.payer.value;
    var j := Created(c, env.key);
    var r0 := Save(Run(None, [], j, true), j, env.create);
    SmoothDrive(r0, plan, payer, env, keys, p, tx, receipt);
    assert r0.trace == [];
  }
}
