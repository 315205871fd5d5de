/** What every history of acceptance invocations keeps, and what may be sent in it. */
module AcceptanceSafety {
  import opened Common
  import opened Acceptance

  // ----- counting what was sent -----

  datatype Kind = OpenKind | UnpaidKind | SettleKind | ExecuteKind | ReplayKind

  function KindOf(e: Entry): Option<Kind> {
    if !e.Sent? then None
    else match e.post
      case OpenSession => Some(OpenKind)
      case UnpaidInference(_, _) => Some(UnpaidKind)
      case SettlePayment(_, _) => Some(SettleKind)
      case PaidInference(replay, _, _, _) => Some(if replay then ReplayKind else ExecuteKind)
      case _ => None
  }

  function Count(trace: seq<Entry>, k: Kind): nat {
    if trace == [] then 0 else Count(trace[..|trace| - 1], k) + if KindOf(trace[|trace| - 1]) == Some(k) then 1 else 0
  }

  lemma CountAppend(trace: seq<Entry>, e: Entry, k: Kind)
    ensures Count(trace + [e], k) == Count(trace, k) + if KindOf(e) == Some(k) then 1 else 0
  {
    assert (trace + [e])[..|trace|] == trace;
  }

  // ----- the invariant -----

  function Rank(p: Phase): nat {
    match p
    case New => 0
    case SessionStarting => 1
    case Session => 2
    case ChallengeStarting => 3
    case Challenge => 4
    case SettlementStarting => 5
    case AbortedUnspent => 5
    case Settled => 6
    case CompletionStarting => 7
    case ResponseReceived => 8
    case Completed => 9
  }

  /** The phase from which a request of this kind may have been sent. */
  function Threshold(k: Kind): nat {
    match k
    case OpenKind => 1
    case UnpaidKind => 3
    case SettleKind => 5
    case ExecuteKind => 7
    case ReplayKind => 0
  }

  /** How many requests of a kind the journal admits to. */
  function Allowance(j: Journal, recorded: bool, k: Kind): nat {
    if k == ReplayKind then j.completionPosts
    else (if Threshold(k) <= Rank(j.phase) then 1 else 0) + (if k == SettleKind && recorded then 1 else 0)
  }

  ghost predicate CountsOk(j: Journal, recorded: bool, trace: seq<Entry>) {
    && (forall k :: Count(trace, k) <= Allowance(j, recorded, k))
    && Count(trace, ExecuteKind) + Count(trace, ReplayKind) <= j.completionPosts <= MAX_COMPLETION_POSTS
  }

  /** What was sent is what the journal still holds. */
  predicate Held(j: Journal, e: Entry) {
    match e
    case Sent(UnpaidInference(request, key)) => j.request == Some(request) && j.key == key
    case Sent(SettlePayment(paymentId, authorization)) =>
      j.paymentId == Some(paymentId) && j.authorization == Some(authorization)
    case Sent(PaidInference(_, request, key, paymentId)) =>
      j.request == Some(request) && j.key == key && j.paymentId == Some(paymentId)
    case _ => true
  }

  predicate AllHeld(j: Journal, trace: seq<Entry>) { forall i :: 0 <= i < |trace| ==> Held(j, trace[i]) }

  /** The gateway said that the payment is settled. */
  predicate SettledBy(e: Entry, paymentId: nat) {
    match e
    case Confirmed(p, _) => p == paymentId
    case Shown(p, view) => p == paymentId && view.status == Paid && view.settleTx.Some?
    case _ => false
  }

  predicate SettledIn(trace: seq<Entry>, paymentId: nat) {
    exists i :: 0 <= i < |trace| && SettledBy(trace[i], paymentId)
  }

  predicate ConsumedBy(e: Entry, paymentId: nat) {
    e.Shown? && e.paymentId == paymentId && e.view.status == Consumed && e.view.settleTx.Some?
      && e.view.receiptHash.Some?
  }

  /** A paid inference is sent on execution only after its payment was seen settled, and again only right after the
      payment was seen consumed. */
  predicate Covered(before: seq<Entry>, e: Entry) {
    match e
    case Sent(PaidInference(replay, _, _, paymentId)) =>
      if replay then before != [] && ConsumedBy(before[|before| - 1], paymentId) else SettledIn(before, paymentId)
    case _ => true
  }

  predicate AllCovered(trace: seq<Entry>) { forall i :: 0 <= i < |trace| ==> Covered(trace[..i], trace[i]) }

  /** Fields of the journal appear in order. */
  predicate Ordered(j: Journal, trace: seq<Entry>) {
    && (Rank(j.phase) <= 1 ==> j.request.None?)
    && (Rank(j.phase) <= 3 ==> j.paymentId.None?)
    && (j.phase == Settled ==> j.paymentId.Some? && SettledIn(trace, j.paymentId.value))
  }

  ghost predicate JournalOk(j: Journal, recorded: bool, trace: seq<Entry>) {
    CountsOk(j, recorded, trace) && AllHeld(j, trace) && AllCovered(trace) && Ordered(j, trace)
  }

  ghost predicate Inv(w: World) {
    if w.cell.None? then !w.recorded && w.trace == [] else JournalOk(w.cell.value, w.recorded, w.trace)
  }

  /** A run in progress: what is durable is consistent, and while it goes on the file holds its state. */
  ghost predicate RunOk(r: Run, recorded: bool) {
    && Inv(World(r.cell, recorded, r.trace))
    && (r.going ==> r.cell == Some(r.state))
  }

  // ----- how the journal evolves -----

  /** A later journal admits to no less and keeps what it holds. */
  predicate Evolves(j: Journal, j1: Journal) {
    && (forall k :: Threshold(k) <= Rank(j.phase) ==> Threshold(k) <= Rank(j1.phase))
    && j.key == j1.key && j.completionPosts <= j1.completionPosts
    && (j.request.Some? ==> j1.request == j.request)
    && (j.paymentId.Some? ==> j1.paymentId == j.paymentId)
    && (j.authorization.Some? ==> j1.authorization == j.authorization)
  }

  lemma LogKeeps(j: Journal, recorded: bool, trace: seq<Entry>, e: Entry)
    requires JournalOk(j, recorded, trace) && KindOf(e).None?
    ensures JournalOk(j, recorded, trace + [e])
  {
    CountsSame(j, recorded, trace, e);
    CoveredAppend(trace, e);
    SettledAppend(j, trace, e);
    HeldAppend(j, trace, e);
  }

  lemma CountsSame(j: Journal, recorded: bool, trace: seq<Entry>, e: Entry)
    requires CountsOk(j, recorded, trace) && KindOf(e).None?
    ensures CountsOk(j, recorded, trace + [e])
  {
    forall k ensures Count(trace + [e], k) == Count(trace, k) { CountAppend(trace, e, k); }
  }

  lemma HeldAppend(j: Journal, trace: seq<Entry>, e: Entry)
    requires AllHeld(j, trace) && Held(j, e)
    ensures AllHeld(j, trace + [e])
  {}

  lemma CoveredAppend(trace: seq<Entry>, e: Entry)
    requires AllCovered(trace) && Covered(trace, e)
    ensures AllCovered(trace + [e])
  {
    var t := trace + [e];
    forall i | 0 <= i < |t| ensures Covered(t[..i], t[i]) {
      assert t[..i] == trace[..i];
      if i == |trace| { assert trace[..i] == trace; }
    }
  }

  lemma SettledAppend(j: Journal, trace: seq<Entry>, e: Entry)
    requires Ordered(j, trace)
    ensures Ordered(j, trace + [e])
  {
    if j.phase == Settled {
      var i :| 0 <= i < |trace| && SettledBy(trace[i], j.paymentId.value);
      assert SettledBy((trace + [e])[i], j.paymentId.value);
    }
  }

  lemma SaveKeeps(j: Journal, j1: Journal, recorded: bool, trace: seq<Entry>)
    requires JournalOk(j, recorded, trace) && Evolves(j, j1) && Ordered(j1, trace)
             && j1.completionPosts <= MAX_COMPLETION_POSTS
    ensures JournalOk(j1, recorded, trace)
  {
    forall k ensures Count(trace, k) <= Allowance(j1, recorded, k) {
      assert Count(trace, k) <= Allowance(j, recorded, k);
    }
    forall i | 0 <= i < |trace| ensures Held(j1, trace[i]) { assert Held(j, trace[i]); }
  }

  /** Saving the marker of a request makes room for exactly that request. */
  lemma MarkThenSend(j: Journal, j1: Journal, recorded: bool, trace: seq<Entry>, post: Post, k: Kind)
    requires JournalOk(j, recorded, trace) && Evolves(j, j1) && Ordered(j1, trace)
             && j1.completionPosts <= MAX_COMPLETION_POSTS
    requires KindOf(Sent(post)) == Some(k) && Allowance(j, recorded, k) < Allowance(j1, recorded, k)
    requires k == ExecuteKind || k == ReplayKind ==> j.completionPosts < j1.completionPosts
    requires Held(j1, Sent(post)) && Covered(trace, Sent(post))
    ensures JournalOk(j1, recorded, trace + [Sent(post)])
  {
    SaveKeeps(j, j1, recorded, trace);
    CountsRoom(j, j1, recorded, trace, post, k);
    CoveredAppend(trace, Sent(post));
    SettledAppend(j1, trace, Sent(post));
    HeldAppend(j1, trace, Sent(post));
  }

  lemma CountsRoom(j: Journal, j1: Journal, recorded: bool, trace: seq<Entry>, post: Post, k: Kind)
    requires CountsOk(j, recorded, trace) && Evolves(j, j1) && j1.completionPosts <= MAX_COMPLETION_POSTS
    requires KindOf(Sent(post)) == Some(k) && Allowance(j, recorded, k) < Allowance(j1, recorded, k)
    requires k == ExecuteKind || k == ReplayKind ==> j.completionPosts < j1.completionPosts
    ensures CountsOk(j1, recorded, trace + [Sent(post)])
  {
    var e := Sent(post);
    forall x ensures Count(trace + [e], x) <= Allowance(j1, recorded, x) {
      CountAppend(trace, e, x);
      assert Count(trace, x) <= Allowance(j, recorded, x);
    }
    CountAppend(trace, e, ExecuteKind);
    CountAppend(trace, e, ReplayKind);
  }

  // ----- the steps keep the invariant -----

  lemma LogOk(r: Run, recorded: bool, e: Entry)
    requires RunOk(r, recorded) && r.going && KindOf(e).None?
    ensures RunOk(Log(r, e), recorded)
  {
    LogKeeps(r.state, recorded, r.trace, e);
  }

  lemma SaveOk(r: Run, recorded: bool, j: Journal, io: Io)
    requires RunOk(r, recorded) && r.going && Evolves(r.state, j)
    requires Ordered(j, r.trace)
    ensures RunOk(Save(r, j, io), recorded)
  {
    if j.completionPosts <= MAX_COMPLETION_POSTS { SaveKeeps(r.state, j, recorded, r.trace); }
  }

  /** The pattern of every guarded request: mark, save, send, and save again with the answer. */
  lemma SendOk(r: Run, recorded: bool, j1: Journal, io: Io, post: Post, k: Kind)
    requires RunOk(r, recorded) && r.going && Evolves(r.state, j1) && Ordered(j1, r.trace)
    requires KindOf(Sent(post)) == Some(k) && Allowance(r.state, recorded, k) < Allowance(j1, recorded, k)
    requires k == ExecuteKind || k == ReplayKind ==> r.state.completionPosts < j1.completionPosts
    requires Held(j1, Sent(post)) && Covered(r.trace, Sent(post))
    ensures RunOk(Save(r, j1, io), recorded)
    ensures Save(r, j1, io).going ==> RunOk(Log(Save(r, j1, io), Sent(post)), recorded)
  {
    SaveOk(r, recorded, j1, io);
    if Save(r, j1, io).going { MarkThenSend(r.state, j1, recorded, r.trace, post, k); }
  }

  lemma LoginOk(r: Run, recorded: bool, payer: nat, mode: Mode, env: LoginEnv)
    requires RunOk(r, recorded)
    ensures RunOk(Login(r, payer, mode, env), recorded)
  {
    if r.going {
      LogOk(r, recorded, Sent(WalletChallenge));
      var r1 := Log(r, Sent(WalletChallenge));
      LogOk(r1, recorded, Sent(WalletVerify));
      var r2 := Log(r1, Sent(WalletVerify));
      SaveOk(r2, recorded, r2.state.(wallet := env.wallet), env.save);
    }
  }

  /** The ways an opening step can end. */
  lemma OpenCases(r: Run, env: SessionEnv)
    requires r.going && r.state.phase == New
    ensures
      var done := OpenStep(r, env);
      var j := r.state.(phase := SessionStarting);
      var r1 := Save(r, j, env.mark);
      var r2 := Log(r1, Sent(OpenSession));
      || done == Stop(r)
      || (!r1.going && done == r1)
      || (r1.going && done == Stop(r2))
      || (r1.going && env.reply.Some? && done == Save(r2, j.(session := env.reply,
            request := Some(Request(env.reply.value.id, env.reply.value.wrapKey)), phase := Session), env.save))
  {}

  lemma OpenOk(r: Run, recorded: bool, env: SessionEnv)
    requires RunOk(r, recorded)
    ensures RunOk(OpenStep(r, env), recorded)
  {
    if r.going && r.state.phase == New {
      OpenCases(r, env);
      var j1 := r.state.(phase := SessionStarting);
      SendOk(r, recorded, j1, env.mark, OpenSession, OpenKind);
      var r2 := Log(Save(r, j1, env.mark), Sent(OpenSession));
      if r2.going && env.reply.Some? {
        SaveOk(r2, recorded,
               j1.(session := env.reply, request := Some(Request(env.reply.value.id, env.reply.value.wrapKey)),
                   phase := Session), env.save);
      }
    }
  }

  /** The ways an unpaid challenge can end. */
  lemma ChallengeCases(r: Run, env: ChallengeEnv)
    requires r.going && r.state.phase == Session && r.state.request.Some?
    ensures
      var done := ChallengeStep(r, env);
      var j := r.state.(phase := ChallengeStarting);
      var r1 := Save(r, j, env.mark);
      var r2 := Log(r1, Sent(UnpaidInference(r.state.request.value, r.state.key)));
      || (!r1.going && done == r1)
      || (r1.going && done == Stop(r2))
      || (r1.going && env.reply.Some? && done == Save(r2, j.(paymentId := env.reply, phase := Challenge), env.save))
  {}

  lemma ChallengeSendOk(r: Run, recorded: bool, env: ChallengeEnv)
    requires RunOk(r, recorded) && r.going && r.state.phase == Session && r.state.request.Some?
    ensures
      var j := r.state.(phase := ChallengeStarting);
      var r1 := Save(r, j, env.mark);
      var r2 := Log(r1, Sent(UnpaidInference(r.state.request.value, r.state.key)));
      && RunOk(r1, recorded)
      && (r1.going ==>
            RunOk(Stop(r2), recorded)
            && (env.reply.Some?
                ==> RunOk(Save(r2, j.(paymentId := env.reply, phase := Challenge), env.save), recorded)))
  {
    var j := r.state.(phase := ChallengeStarting);
    var post := UnpaidInference(r.state.request.value, r.state.key);
    SendOk(r, recorded, j, env.mark, post, UnpaidKind);
    var r2 := Log(Save(r, j, env.mark), Sent(post));
    if r2.going && env.reply.Some? { ChallengedOk(r2, recorded, env.reply, env.save); }
  }

  lemma ChallengedOk(r: Run, recorded: bool, paymentId: Option<nat>, io: Io)
    requires RunOk(r, recorded) && r.going && r.state.phase == ChallengeStarting
    ensures RunOk(Save(r, r.state.(paymentId := paymentId, phase := Challenge), io), recorded)
  {
    SaveOk(r, recorded, r.state.(paymentId := paymentId, phase := Challenge), io);
  }

  lemma ChallengeOk(r: Run, recorded: bool, env: ChallengeEnv)
    requires RunOk(r, recorded)
    ensures RunOk(ChallengeStep(r, env), recorded)
  {
    if r.going && r.state.phase == Session && r.state.request.Some? {
      ChallengeCases(r, env);
      ChallengeSendOk(r, recorded, env);
    }
  }

  lemma SettleSendOk(r: Run, recorded: bool, a: Authorization, env: SettleEnv)
    requires RunOk(r, recorded) && r.going && r.state.phase == Challenge && r.state.paymentId.Some?
    requires r.state.authorization.Some? ==> r.state.authorization == Some(a)
    ensures
      var p := r.state.paymentId.value;
      var j := r.state.(authorization := Some(a), phase := SettlementStarting);
      var r1 := Save(r, j, env.mark);
      && RunOk(r1, recorded)
      && (r1.going ==>
            var r2 := Log(r1, Sent(SettlePayment(p, a)));
            && RunOk(Stop(r2), recorded)
            && (env.reply.Some? ==>
                  RunOk(Save(Log(r2, Confirmed(p, env.reply.value.1)),
                             j.(settleTx := Some(env.reply.value.1), phase := Settled), env.save), recorded)))
  {
    var p := r.state.paymentId.value;
    var j := r.state.(authorization := Some(a), phase := SettlementStarting);
    SendOk(r, recorded, j, env.mark, SettlePayment(p, a), SettleKind);
    var r2 := Log(Save(r, j, env.mark), Sent(SettlePayment(p, a)));
    if r2.going && env.reply.Some? {
      SettledAfter(r2, recorded, p, Confirmed(p, env.reply.value.1),
                   j.(settleTx := Some(env.reply.value.1), phase := Settled), env.save);
    }
  }

  /** The ways a settling step can end. */
  lemma SettleCases(r: Run, plan: Plan, payer: nat, env: SettleEnv)
    requires r.going && r.state.phase == Challenge
    ensures
      var done := SettleStep(r, plan, payer, env);
      var a := Authorize(r.state, plan, payer, env.now);
      || done == Stop(r)
      || (r.state.paymentId.Some? && a.Some? && (r.state.authorization.Some? ==> r.state.authorization == a)
          && var p := r.state.paymentId.value;
          var j := r.state.(authorization := a, phase := SettlementStarting);
          var r1 := Save(r, j, env.mark);
          if !r1.going then done == r1
          else
            var r2 := Log(r1, Sent(SettlePayment(p, a.value)));
            || done == Stop(r2)
            || (env.reply.Some?
                && done == Save(Log(r2, Confirmed(p, env.reply.value.1)),
                                j.(settleTx := Some(env.reply.value.1), phase := Settled), env.save)))
  {}

  lemma SettleOk(r: Run, recorded: bool, plan: Plan, payer: nat, env: SettleEnv)
    requires RunOk(r, recorded)
    ensures RunOk(SettleStep(r, plan, payer, env), recorded)
  {
    if r.going && r.state.phase == Challenge {
      SettleCases(r, plan, payer, env);
      var a := Authorize(r.state, plan, payer, env.now);
      if r.state.paymentId.Some? && a.Some? && (r.state.authorization.Some? ==> r.state.authorization == a) {
        SettleSendOk(r, recorded, a.value, env);
      }
    }
  }

  lemma SettledAfter(r: Run, recorded: bool, p: nat, e: Entry, j: Journal, io: Io)
    requires RunOk(r, recorded) && r.going && SettledBy(e, p) && KindOf(e).None?
    requires Evolves(r.state, j) && j.phase == Settled && j.paymentId == Some(p)
    ensures RunOk(Save(Log(r, e), j, io), recorded)
  {
    LogOk(r, recorded, e);
    var t := r.trace + [e];
    assert SettledBy(t[|r.trace|], p);
    SaveOk(Log(r, e), recorded, j, io);
  }

  function Paying(s: Journal): Journal { s.(phase := CompletionStarting, completionPosts := s.completionPosts + 1) }

  /** Marking and sending a paid inference that its evidence covers. */
  lemma PaidSendOk(r: Run, recorded: bool, j1: Journal, io: Io, replay: bool)
    requires RunOk(r, recorded) && r.going && r.state.paymentId.Some? && r.state.request.Some?
    requires j1 == Paying(r.state).(expected := j1.expected, settleTx := j1.settleTx)
    requires Rank(r.state.phase) < 7 || replay
    requires Covered(r.trace, Sent(PaidInference(replay, r.state.request.value, r.state.key, r.state.paymentId.value)))
    ensures RunOk(Save(r, j1, io), recorded)
    ensures Save(r, j1, io).going ==>
      RunOk(Log(Save(r, j1, io),
                Sent(PaidInference(replay, r.state.request.value, r.state.key, r.state.paymentId.value))), recorded)
  {
    var post := PaidInference(replay, r.state.request.value, r.state.key, r.state.paymentId.value);
    SendOk(r, recorded, j1, io, post, if replay then ReplayKind else ExecuteKind);
  }

  lemma AnswerOk(r: Run, recorded: bool, result: Option<Hash>, replayed: bool, io: Io)
    requires RunOk(r, recorded) && r.going && r.state.phase == CompletionStarting
    ensures RunOk(Save(r, r.state.(result := result, replayVerified := replayed, phase := ResponseReceived), io),
                  recorded)
  {
    SaveOk(r, recorded, r.state.(result := result, replayVerified := replayed, phase := ResponseReceived), io);
  }

  lemma CompleteSendOk(r: Run, recorded: bool, env: CompleteEnv)
    requires RunOk(r, recorded) && r.going && r.state.phase == Settled && r.state.paymentId.Some?
             && r.state.request.Some?
    ensures
      var s := r.state;
      var r1 := Save(r, Paying(s), env.mark);
      && RunOk(r1, recorded)
      && (r1.going ==>
            var r2 := Log(r1, Sent(PaidInference(false, s.request.value, s.key, s.paymentId.value)));
            RunOk(Stop(r2), recorded)
              && RunOk(Save(r2, r2.state.(result := env.reply, phase := ResponseReceived), env.save), recorded))
  {
    var s := r.state;
    var post := PaidInference(false, s.request.value, s.key, s.paymentId.value);
    SettledCovers(r, recorded, post);
    PaidSendOk(r, recorded, Paying(s), env.mark, false);
    var r1 := Save(r, Paying(s), env.mark);
    if r1.going { AnswerOk(Log(r1, Sent(post)), recorded, env.reply, s.replayVerified, env.save); }
  }

  /** The ways a completing step can end. */
  lemma CompleteCases(r: Run, plan: Plan, payer: nat, env: CompleteEnv)
    requires r.going && r.state.phase == Settled
    ensures
      var s := r.state;
      var done := CompleteStep(r, plan, payer, env);
      || done == Stop(r)
      || (s.paymentId.Some? && s.request.Some?
          && var r1 := Save(r, Paying(s), env.mark);
          if !r1.going then done == r1
          else
            var r2 := Log(r1, Sent(PaidInference(false, s.request.value, s.key, s.paymentId.value)));
            done == Stop(r2) || done == Save(r2, r2.state.(result := env.reply, phase := ResponseReceived), env.save))
  {}

  lemma CompleteOk(r: Run, recorded: bool, plan: Plan, payer: nat, env: CompleteEnv)
    requires RunOk(r, recorded)
    ensures RunOk(CompleteStep(r, plan, payer, env), recorded)
  {
    if r.going && r.state.phase == Settled {
      CompleteCases(r, plan, payer, env);
      if r.state.paymentId.Some? && r.state.request.Some? { CompleteSendOk(r, recorded, env); }
    }
  }

  lemma SettledCovers(r: Run, recorded: bool, post: Post)
    requires RunOk(r, recorded) && r.going && r.state.phase == Settled
    requires post.PaidInference? && !post.replay && r.state.paymentId == Some(post.paymentId)
    ensures Covered(r.trace, Sent(post))
  {}

  lemma ReplayCases(r: Run, plan: Plan, env: ReplayEnv)
    requires r.going && r.state.paymentId.Some? && r.state.request.Some? && env.evidence.payment.Some?
    ensures
      var s := r.state;
      var done := ReplayStep(r, plan, env);
      var r0 := Log(r, Shown(s.paymentId.value, env.evidence.payment.value));
      || done == Stop(r0)
      || (ProvenConsumed(env.evidence, s, plan)
          && var j := Paying(s).(expected := env.evidence.payment.value.receiptHash,
                                 settleTx := env.evidence.payment.value.settleTx);
          var r1 := Save(r0, j, env.mark);
          if !r1.going then done == r1
          else
            var r2 := Log(r1, Sent(PaidInference(true, s.request.value, s.key, s.paymentId.value)));
            done == Stop(r2)
              || done == Save(r2, j.(result := env.reply, replayVerified := true, phase := ResponseReceived), env.save))
  {}

  lemma ReplayOk(r: Run, recorded: bool, plan: Plan, env: ReplayEnv)
    requires RunOk(r, recorded)
    ensures RunOk(ReplayStep(r, plan, env), recorded)
  {
    if r.going && r.state.paymentId.Some? && r.state.request.Some? && env.evidence.payment.Some? {
      var r0 := Log(r, Shown(r.state.paymentId.value, env.evidence.payment.value));
      LogOk(r, recorded, Shown(r.state.paymentId.value, env.evidence.payment.value));
      ReplayCases(r, plan, env);
      if ProvenConsumed(env.evidence, r.state, plan) { ReplaySendOk(r0, recorded, plan, env); }
    }
  }

  lemma ReplaySendOk(r0: Run, recorded: bool, plan: Plan, env: ReplayEnv)
    requires RunOk(r0, recorded) && r0.going && r0.state.paymentId.Some? && r0.state.request.Some?
             && ProvenConsumed(env.evidence, r0.state, plan)
    requires r0.trace != [] && r0.trace[|r0.trace| - 1] == Shown(r0.state.paymentId.value, env.evidence.payment.value)
    ensures
      var s := r0.state;
      var j := Paying(s).(expected := env.evidence.payment.value.receiptHash,
                          settleTx := env.evidence.payment.value.settleTx);
      var r1 := Save(r0, j, env.mark);
      && RunOk(r1, recorded)
      && (r1.going ==>
            var r2 := Log(r1, Sent(PaidInference(true, s.request.value, s.key, s.paymentId.value)));
            RunOk(Stop(r2), recorded)
              && RunOk(Save(r2, j.(result := env.reply, replayVerified := true, phase := ResponseReceived), env.save),
                       recorded))
  {
    var s := r0.state;
    var j := Paying(s).(expected := env.evidence.payment.value.receiptHash,
                        settleTx := env.evidence.payment.value.settleTx);
    PaidSendOk(r0, recorded, j, env.mark, true);
    var r1 := Save(r0, j, env.mark);
    if r1.going {
      AnswerOk(Log(r1, Sent(PaidInference(true, s.request.value, s.key, s.paymentId.value))), recorded, env.reply, true,
               env.save);
    }
  }

  lemma RecoverOk(r: Run, recorded: bool, plan: Plan, env: RecoverEnv)
    requires RunOk(r, recorded)
    ensures RunOk(RecoverStep(r, plan, env), recorded)
  {
    var s, e := r.state, env.evidence;
    if r.going && s.paymentId.Some? && e.payment.Some? {
      var shown := Shown(s.paymentId.value, e.payment.value);
      RecoverCases(r, plan, env);
      LogOk(r, recorded, shown);
      if s.phase == SettlementStarting && SettledBy(shown, s.paymentId.value) {
        SettledAfter(r, recorded, s.paymentId.value, shown, s.(settleTx := e.payment.value.settleTx, phase := Settled),
                     env.save);
      }
    }
  }

  lemma RecoverCases(r: Run, plan: Plan, env: RecoverEnv)
    requires r.going && r.state.paymentId.Some? && env.evidence.payment.Some?
    ensures
      var s := r.state;
      var done := RecoverStep(r, plan, env);
      var shown := Shown(s.paymentId.value, env.evidence.payment.value);
      || done == Log(r, shown) || done == Stop(Log(r, shown))
      || (s.phase == SettlementStarting && SettledBy(shown, s.paymentId.value)
          && done == Save(Log(r, shown), s.(settleTx := env.evidence.payment.value.settleTx, phase := Settled),
                          env.save))
  {}

  lemma FinishOk(r: Run, recorded: bool, env: FinishEnv)
    requires RunOk(r, recorded) && (r.going ==> RequestOk(r.state) && r.state.paymentId.Some?)
    ensures RunOk(FinishStep(r, env), recorded)
  {
    if r.going {
      var s := r.state;
      SaveOk(r, recorded, s.(phase := Completed, checkedAt := if s.checkedAt.None? then Some(env.now) else s.checkedAt),
             env.save);
    }
  }

  lemma ExecuteOk(r: Run, recorded: bool, plan: Plan, payer: nat, env: Env)
    requires RunOk(r, recorded)
    ensures RunOk(ExecuteSteps(r, plan, payer, env), recorded)
  {
    if !(r.going && Ambiguous(r.state.phase)) {
      OpenOk(r, recorded, env.session);
      var r1 := CheckStep(OpenStep(r, env.session), plan, payer, env.checkedAt);
      ChallengeOk(r1, recorded, env.challenge);
      var r2 := ChallengeStep(r1, env.challenge);
      SettleOk(r2, recorded, plan, payer, env.settle);
      CompleteOk(SettleStep(r2, plan, payer, env.settle), recorded, plan, payer, env.complete);
    }
  }

  lemma ReplayKeepsRequest(r: Run, plan: Plan, env: ReplayEnv)
    ensures var r1 := ReplayStep(r, plan, env);
            r1.state.session == r.state.session && r1.state.request == r.state.request
            && r1.state.paymentId == r.state.paymentId
  {}

  lemma DriveOk(r: Run, recorded: bool, plan: Plan, payer: nat, mode: Mode, env: Env)
    requires RunOk(r, recorded)
    ensures RunOk(Drive(r, plan, payer, mode, env), recorded)
  {
    LoginOk(r, recorded, payer, mode, env.login);
    var r1 := Login(r, payer, mode, env.login);
    if mode == Recover { RecoverOk(r1, recorded, plan, env.recover); return; }
    if mode == Execute { ExecuteOk(r1, recorded, plan, payer, env); }
    var r2 := PaidStep(if mode == Execute then ExecuteSteps(r1, plan, payer, env) else r1, plan, payer);
    if mode == RecoverCompleted {
      ReplayOk(r2, recorded, plan, env.replay);
      ReplayKeepsRequest(r2, plan, env.replay);
      if ReplayStep(r2, plan, env.replay).going { assert r2.going; }
      FinishOk(ReplayStep(r2, plan, env.replay), recorded, env.finish);
    } else {
      FinishOk(r2, recorded, env.finish);
    }
  }

  lemma CreateOk(w: World, c: Context, env: Env)
    requires Inv(w) && w.cell.None? && c.payer.Some?
    ensures var j := Created(c, env.key); RunOk(Save(Run(None, w.trace, j, true), j, env.create), false)
  {}

  lemma RearmOk(w: World, plan: Plan, proof: Proof, now: Time, archive: bool)
    requires Inv(w) && w.cell.Some? && !w.recorded
    ensures Inv(w.(recorded := true))
    ensures var j := Rearmed(plan, w.cell.value, proof, now, archive); j.Some? ==> Inv(World(j, true, w.trace))
  {
    var j := w.cell.value;
    forall k ensures Count(w.trace, k) <= Allowance(j, true, k) { assert Count(w.trace, k) <= Allowance(j, false, k); }
    var j1 := Rearmed(plan, j, proof, now, archive);
    if j1.Some? {
      forall k
        ensures Count(w.trace, k) <= Allowance(j1.value, true, k)
      {
        assert Count(w.trace, k) <= Allowance(j, false, k);
      }
      forall i | 0 <= i < |w.trace| ensures Held(j1.value, w.trace[i]) { assert Held(j, w.trace[i]); }
    }
  }

  lemma {:induction false} NextKeeps(w: World, x: Invocation)
    requires Inv(w)
    ensures Inv(Next(w, x))
  {
    match x
    case Accept(c, mode, env) =>
      if Admitted(w.cell, c, mode, env) && (w.cell.Some? || mode == Execute) {
        var created := Created(c, env.key);
        if w.cell.None? { CreateOk(w, c, env); }
        var r0 := if w.cell.Some? then Run(w.cell, w.trace, w.cell.value, true)
                  else Save(Run(None, w.trace, created, true), created, env.create);
        DriveOk(r0, w.recorded, c.plan, c.payer.value, mode, env);
      }
    case Reopen(plan, proof, now, archive, execute, record, save) =>
      if w.cell.Some? && !w.recorded { RearmOk(w, plan, proof, now, archive); }
  }

  lemma {:induction false} ExecKeeps(xs: seq<Invocation>)
    ensures Inv(Exec(Start, xs))
  {
    if xs != [] {
      ExecKeeps(xs[..|xs| - 1]);
      NextKeeps(Exec(Start, xs[..|xs| - 1]), xs[|xs| - 1]);
    }
  }
}
