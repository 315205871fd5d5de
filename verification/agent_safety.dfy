/** What every interleaving of the run protocol keeps. */
module AgentSafety {
  import opened Common
  import opened AgentStore
  import opened AgentRuntime

  // ----- the invariant -----

  function Rank(p: Phase): nat {
    match p
    case Ready => 0
    case Challenge => 1
    case AwaitingAuthorization => 2
    case PaymentReady => 3
    case SettlementDispatched => 4
    case Paid => 5
    case InferenceDispatched => 6
  }

  /** The run has got at least as far as `rank` within `step`. */
  predicate Past(row: Row, step: nat, rank: nat) {
    step < row.step || (step == row.step && rank <= Rank(row.sealed.phase))
  }

  /** The fields of the step in progress that its phase promises. */
  predicate PendingOk(row: Row) {
    var s := row.sealed;
    if s.phase == Phase.Ready then s.pending.None?
    else
      && s.pending.Some? && s.pending.value.key == row.step
      && var p := s.pending.value;
      if s.phase == Challenge then p.paymentId.None? && p.amount.None? && !p.paid
      else
        && p.paymentId.Some? && p.amount.Some?
        && if s.phase == Paid || s.phase == InferenceDispatched then p.settlementTx.Some? && p.paid
           else !p.paid && row.spent + p.amount.value <= row.limits.budget
  }

  predicate StatusOk(row: Row) {
    && (row.status == Running <==> row.leaseToken.Some?)
    && (!Terminal(row.status) ==> row.step < row.limits.steps)
    && (row.status == AwaitingPayment ==> row.sealed.phase == AwaitingAuthorization)
    && (row.sealed.phase == AwaitingAuthorization ==> row.status == AwaitingPayment || Terminal(row.status))
    && (row.status == Queued ==> !Uncertain(row.sealed.phase))
    && (row.status in {Queued, AwaitingPayment} ==> !row.cancelRequested)
  }

  /** The metadata of a run is consistent: the check made on opening it cannot fail, and no
      more has been spent or done than allowed. */
  predicate RowOk(row: Row) {
    && Open(row) == Some(row.sealed)
    && row.spent <= row.limits.budget && row.step <= row.limits.steps
    && PendingOk(row) && StatusOk(row)
  }

  predicate SameRun(a: Row, b: Row) {
    a.id == b.id && a.owner == b.owner && a.limits == b.limits && a.intent == b.intent && a.requestHash == b.requestHash
  }

  /** A write of this kind, carrying this state and patch, is one the protocol makes. */
  ghost predicate Legit(row: Row, kind: Kind, st: State, p: Patch) {
    var s := row.sealed;
    match kind
    case StepPrepared =>
      s.phase == Phase.Ready && p == NoPatch && st.pending.Some? &&
      st == s.(phase := Challenge,
               pending := Some(Pending(row.step, st.pending.value.expiresAt, None, None, None, false)))
    case PaymentRequired =>
      s.phase == Challenge && s.pending.Some? && st.pending.Some? && st.pending.value.paymentId.Some?
        && st.pending.value.amount.Some?
      && st.pending.value.amount.value + row.spent <= row.limits.budget
      && st == s.(phase := st.phase,
                  pending := Some(s.pending.value.(paymentId := st.pending.value.paymentId,
                                                   amount := st.pending.value.amount)))
      && ((st.phase == PaymentReady && p == NoPatch)
          || (st.phase == AwaitingAuthorization && p == Ending(AwaitingPayment)))
    case SettlementMarked => s.phase == PaymentReady && st == s.(phase := SettlementDispatched) && p == NoPatch
    case SettlementCompleted =>
      s.phase == SettlementDispatched && HasAmount(s) && st.pending.Some? && st.pending.value.settlementTx.Some?
      && st == Paying(s, st.pending.value.settlementTx.value)
      && p == Patch(None, false, None, Some(row.spent + s.pending.value.amount.value), false)
    case InferenceMarked => s.phase == Paid && st == s.(phase := InferenceDispatched) && p == NoPatch
    case InferenceCompleted => s.phase == InferenceDispatched && FinishesStep(row, st, p)
    case UnknownOutcome => st == s && p == Ending(OutcomeUnknown) && row.status == Running
    case CancelAsked =>
      st == s && !Terminal(row.status)
        && p == (if row.status == Running || row.status == OutcomeUnknown then NoPatch.(cancel := true)
                                                else Ending(Cancelled).(cancel := true))
    case SettlementReconciled =>
      s.phase == SettlementDispatched && HasAmount(s) && row.status == OutcomeUnknown && st.pending.Some?
        && st.pending.value.settlementTx.Some?
      && st == Paying(s, st.pending.value.settlementTx.value)
      && p == Patch(Some(if row.cancelRequested then Cancelled else Queued), false, None,
                    Some(row.spent + s.pending.value.amount.value), false)
    case PreparationResumed =>
      st == s && row.status == OutcomeUnknown && !Uncertain(s.phase)
      && p == Patch(Some(if row.cancelRequested then Cancelled else Queued), false, None, None, false)
    case PaymentAuthorized =>
      s.phase == AwaitingAuthorization && row.status == AwaitingPayment && st == s.(phase := PaymentReady)
      && p == Patch(Some(Queued), false, None, None, false)
    case Stopped => Ends(s, st, p)
    case SessionExpired => Ends(s, st, p)
    case BudgetExhausted => Ends(s, st, p)
    case StepFailed => Ends(s, st, p)
    case _ => false
  }

  predicate HasAmount(s: State) { s.pending.Some? && s.pending.value.amount.Some? }

  predicate Ends(s: State, st: State, p: Patch) {
    st == s && p.status.Some? && Terminal(p.status.value) && p == Ending(p.status.value)
  }

  predicate FinishesStep(row: Row, st: State, p: Patch) {
    var s := row.sealed;
    && s.pending.Some? && |st.history| == |s.history| + 1
    && var last := st.history[|s.history|];
    && s.pending.value.amount == Some(last.amount)
    && st == s.(history := s.history + [last], pending := None, phase := Phase.Ready, final := st.final)
    && p.status.Some? && p == Patch(p.status, true, Some(row.step + 1), None, false)
    && (Terminal(p.status.value) || (p.status.value == Queued && row.step + 1 < row.limits.steps))
  }

  predicate Holds(row: Row, token: Token) { row.leaseToken == Some(token) }

  /** While a runner holds the lease, what it has in memory is what it last saved. */
  ghost predicate HolderOk(w: World, r: Runner) {
    r.pc == Recovering || r.pc == Finished || InStep(w, r)
  }

  ghost predicate InStep(w: World, r: Runner) {
    var s := w.row.sealed;
    && SameRun(r.row, w.row) && r.row.step == w.row.step && r.row.spent == w.row.spent
    && match r.pc
       case Opening => r.state.None? && r.row.sealed == s
       case Saving(kind, patch, next) =>
         && r.state.Some? && Legit(w.row, kind, r.state.value, patch)
         && kind !in {CancelAsked, SettlementReconciled, PreparationResumed, PaymentAuthorized}
         && NextOk(kind, r.state.value, next)
         && (kind == SettlementCompleted
             ==> SettleSeen(w.row.step, r.state.value.pending.value.settlementTx.value) in w.outcomes)
         && (kind == InferenceCompleted
             ==> w.row.step < |r.state.value.history|
                 && InferSeen(w.row.step, r.state.value.history[w.row.step].receipt) in w.outcomes)
       case Challenging => r.state == Some(s) && s.phase == Challenge
       case ReadingIntent(_, _) => r.state == Some(s) && s.phase == Challenge
       case Settling => r.state == Some(s) && s.phase == SettlementDispatched
       case Inferring => r.state == Some(s) && s.phase == InferenceDispatched
       case Completing(receipt, _) =>
         r.state == Some(s) && s.phase == InferenceDispatched && InferSeen(w.row.step, receipt) in w.outcomes
       case _ => r.state == Some(s)
  }

  predicate NextOk(kind: Kind, st: State, next: Pc) {
    match kind
    case StepPrepared => next == CheckingSession
    case PaymentRequired => if st.phase == PaymentReady then next == Stopping(AfterChallenge) else next == Finished
    case SettlementMarked => next == Settling
    case InferenceMarked => next == Inferring
    case SettlementCompleted => next == Stopping(AfterSettlement)
    case _ => next == Finished
  }

  /** The places a suspended runner can continue from. */
  predicate Shape(pc: Pc) {
    match pc
    case Stopping(after) => after in {Preparing, AfterChallenge, AfterSettlement}
    case Saving(kind, _, next) =>
      || next in {CheckingSession, Stopping(AfterChallenge), Stopping(AfterSettlement), Finished}
      || (next == Settling && kind == SettlementMarked)
      || (next == Inferring && kind == InferenceMarked)
    case _ => true
  }

  ghost predicate RunnerOk(w: World, token: Token, r: Runner) {
    && token < w.nextToken
    && (Holds(w.row, token) ==> HolderOk(w, r))
    && (r.pc.Settling? ==> r.row.step in w.settleBy && w.settleBy[r.row.step] == token)
    && (r.pc.Inferring? ==> r.row.step in w.inferBy && w.inferBy[r.row.step] == token)
    && Shape(r.pc)
  }

  predicate AboutToSettle(r: Runner, step: nat) { r.pc.Settling? && r.row.step == step }

  predicate AboutToInfer(r: Runner, step: nat) { r.pc.Inferring? && r.row.step == step }

  predicate CallOk(w: World, call: Call) {
    match call
    case SettleCall(k, _) =>
      k in w.settleBy && w.settleBy[k] in w.runners && !AboutToSettle(w.runners[w.settleBy[k]], k)
    case InferCall(k, _) =>
      k in w.inferBy && w.inferBy[k] in w.runners && !AboutToInfer(w.runners[w.inferBy[k]], k)
  }

  /** Two calls compete for the same slot: the same effect for the same step. */
  predicate SameSlot(a: Call, b: Call) {
    (a.SettleCall? <==> b.SettleCall?) && a.step == b.step
  }

  ghost predicate CallsOk(w: World) {
    && (forall i :: 0 <= i < |w.calls| ==> CallOk(w, w.calls[i]))
    && (forall i, j :: 0 <= i < j < |w.calls| ==> !SameSlot(w.calls[i], w.calls[j]))
  }

  /** A dispatch marker is committed once per step and never undone. */
  ghost predicate MarkersOk(w: World) {
    && (forall k :: k in w.settleBy ==> k < w.row.limits.steps && Past(w.row, k, 4) && w.settleBy[k] in w.runners)
    && (forall k :: k in w.inferBy ==> k < w.row.limits.steps && Past(w.row, k, 6) && w.inferBy[k] in w.runners)
  }

  /** A row that was read earlier and still has the current version is the current row, up to its lease time. */
  predicate Outdated(r: Row, row: Row) {
    r.version <= row.version && SameRun(r, row) && (r.version == row.version ==> r == row.(leaseUntil := r.leaseUntil))
  }

  ghost predicate SeenOk(w: World) {
    && w.row in w.seen
    && forall r :: r in w.seen ==> Outdated(r, w.row)
  }

  /** The journal is a hash chain ending at the head the row records. */
  ghost predicate Chained(c: Config, id: nat, journal: seq<Action>, head: Hash) {
    if journal == [] then head == ZERO
    else
      var a := journal[|journal| - 1];
      && a.actionHash == head && a.actionHash == c.mac(a.material)
      && a.material.runId == id && a.material.sequence == |journal|
      && Chained(c, id, journal[..|journal| - 1], a.material.previous)
  }

  ghost predicate JournalOk(c: Config, w: World) {
    && Chained(c, w.row.id, w.journal, w.row.ledgerHead) && w.row.ledgerSequence == |w.journal|
    && (forall i :: 0 <= i < |w.journal| && w.journal[i].material.kind == CancelAsked ==> w.row.cancelRequested)
    && (forall i :: 0 <= i < |w.journal| && IsDispatch(w.journal[i].material.kind)
                    ==> w.journal[i].material.createdAt < w.row.limits.deadline)
    && (forall i, j :: 0 <= i < j < |w.journal| && w.journal[i].material.kind == CancelAsked
                       ==> !IsDispatch(w.journal[j].material.kind))
  }

  ghost predicate RunnersOk(w: World) {
    && (w.row.leaseToken.Some? ==> w.row.leaseToken.value in w.runners)
    && forall t :: t in w.runners ==> RunnerOk(w, t, w.runners[t])
  }

  ghost predicate Inv(c: Config, w: World) {
    RowOk(w.row) && SeenOk(w) && JournalOk(c, w) && RunnersOk(w) && MarkersOk(w) && CallsOk(w)
  }

  // ----- one write -----

  /** What any committed write does to the row. */
  ghost predicate Moves(c: Config, row: Row, next: Row, a: Action, now: Time) {
    && RowOk(next) && Advances(row, next) && Recorded(c, row, next, a, now)
  }

  ghost predicate Recorded(c: Config, row: Row, next: Row, a: Action, now: Time) {
    && SameRun(row, next) && next.version == row.version + 1
    && a.material == Material(row.id, row.ledgerSequence + 1, a.material.kind, row.ledgerHead, a.material.payload, now)
    && a.actionHash == c.mac(a.material) && next.ledgerHead == a.actionHash
    && next.ledgerSequence == row.ledgerSequence + 1
    && (row.cancelRequested ==> next.cancelRequested) && (a.material.kind == CancelAsked ==> next.cancelRequested)
    && (IsDispatch(a.material.kind)
        ==> !row.cancelRequested && now < row.limits.deadline && next.step == row.step && row.step < row.limits.steps
            && next.status == Running)
    && (a.material.kind == SettlementMarked
        ==> row.sealed.phase == PaymentReady && next.sealed.phase == SettlementDispatched)
    && (a.material.kind == InferenceMarked ==> row.sealed.phase == Paid && next.sealed.phase == InferenceDispatched)
  }

  predicate Advances(row: Row, next: Row) {
    row.step < next.step || (row.step == next.step && Rank(row.sealed.phase) <= Rank(next.sealed.phase))
  }

  ghost predicate Admitted(row: Row, fence: Fence, kind: Kind) {
    match fence
    case Held(token) => row.status == Running
    case Version(_, _) =>
      && kind in {CancelAsked, SettlementReconciled, PreparationResumed, PaymentAuthorized, InferenceCompleted}
      && (kind == InferenceCompleted ==> row.status == OutcomeUnknown)
  }

  lemma EndingOk(row: Row, fence: Fence, kind: Kind, st: State, p: Patch, a: Action)
    requires RowOk(row) && Admitted(row, fence, kind) && Legit(row, kind, st, p)
    requires kind in {Stopped, SessionExpired, BudgetExhausted, StepFailed, UnknownOutcome, CancelAsked,
                      PreparationResumed}
    ensures RowOk(Patched(row, Overridden(row, p), Some(st), a))
  {}

  lemma PreparingOk(row: Row, fence: Fence, kind: Kind, st: State, p: Patch, a: Action)
    requires RowOk(row) && Admitted(row, fence, kind) && Legit(row, kind, st, p)
    requires kind in {StepPrepared, PaymentRequired, PaymentAuthorized, SettlementMarked, InferenceMarked}
    ensures RowOk(Patched(row, Overridden(row, p), Some(st), a))
            && Advances(row, Patched(row, Overridden(row, p), Some(st), a))
  {}

  lemma PayingOk(row: Row, fence: Fence, kind: Kind, st: State, p: Patch, a: Action)
    requires RowOk(row) && Admitted(row, fence, kind) && Legit(row, kind, st, p)
    requires kind in {SettlementCompleted, SettlementReconciled}
    ensures RowOk(Patched(row, Overridden(row, p), Some(st), a))
            && Advances(row, Patched(row, Overridden(row, p), Some(st), a))
  {}

  lemma FinishingOk(row: Row, fence: Fence, kind: Kind, st: State, p: Patch, a: Action)
    requires RowOk(row) && Admitted(row, fence, kind) && Legit(row, kind, st, p) && kind == InferenceCompleted
    ensures RowOk(Patched(row, Overridden(row, p), Some(st), a))
  {
    TotalAppend(row.sealed.history, st.history[|row.sealed.history|]);
  }

  lemma DeniedOk(row: Row, a: Action)
    requires RowOk(row) && row.status == Running
    ensures var next := Patched(row, Ending(if row.cancelRequested then Cancelled else Exhausted), None, a);
      RowOk(next) && Advances(row, next)
  {}

  lemma AppliedOk(row: Row, fence: Fence, kind: Kind, st: State, p: Patch, a: Action)
    requires RowOk(row) && Admitted(row, fence, kind) && Legit(row, kind, st, p)
    ensures var next := Patched(row, Overridden(row, p), Some(st), a);
      RowOk(next) && Advances(row, next)
  {
    if kind in {Stopped, SessionExpired, BudgetExhausted, StepFailed, UnknownOutcome, CancelAsked, PreparationResumed} {
      EndingOk(row, fence, kind, st, p, a);
    } else if kind in {SettlementCompleted, SettlementReconciled} {
      PayingOk(row, fence, kind, st, p, a);
    } else if kind == InferenceCompleted {
      FinishingOk(row, fence, kind, st, p, a);
    } else {
      PreparingOk(row, fence, kind, st, p, a);
    }
  }

  /** A write was denied admission and stopped the run, or it was applied as asked. */
  ghost predicate AppliedOrStopped(row: Row, kind: Kind, st: State, p: Patch, next: Row, a: Action) {
    if a.material.kind == kind then next == Patched(row, Overridden(row, p), Some(st), a)
    else
      a.material.kind == Stopped && IsDispatch(kind)
      && next == Patched(row, Ending(if row.cancelRequested then Cancelled else Exhausted), None, a)
  }

  lemma WriteShape(c: Config, row: Row, fence: Fence, kind: Kind, st: State, p: Patch, now: Time, payload: nat)
    requires Legit(row, kind, st, p) && Admitted(row, fence, kind)
    requires IsDispatch(kind) ==> row.step < row.limits.steps
    ensures
      var w := Write(c, row, fence, kind, Some(st), p, now, payload);
      w.Wrote? ==> AppliedOrStopped(row, kind, st, p, w.row, w.action) && Recorded(c, row, w.row, w.action, now)
  {}

  lemma LegitMoves(c: Config, row: Row, fence: Fence, kind: Kind, st: State, p: Patch, now: Time, payload: nat)
    requires RowOk(row) && Legit(row, kind, st, p) && Admitted(row, fence, kind)
    ensures
      var w := Write(c, row, fence, kind, Some(st), p, now, payload);
      w.Wrote? ==> Moves(c, row, w.row, w.action, now) && AppliedOrStopped(row, kind, st, p, w.row, w.action)
  {
    WriteShape(c, row, fence, kind, st, p, now, payload);
    var w := Write(c, row, fence, kind, Some(st), p, now, payload);
    if w.Wrote? {
      if w.action.material.kind == kind {
        AppliedOk(row, fence, kind, st, p, w.action);
      } else {
        DeniedOk(row, w.action);
      }
    }
  }

  // ----- committing a write -----

  lemma SeenAfter(w: World, row: Row)
    requires SeenOk(w) && SameRun(w.row, row) && w.row.version < row.version
    ensures SeenOk(w.(row := row, seen := w.seen + {row}))
  {}

  lemma JournalAfter(c: Config, w: World, row: Row, a: Action)
    requires JournalOk(c, w) && Recorded(c, w.row, row, a, w.now)
    ensures JournalOk(c, Commit(w, row, a))
  {
    var j := w.journal + [a];
    assert j[..|j| - 1] == w.journal;
  }

  lemma MarkersAfter(c: Config, w: World, row: Row, a: Action)
    requires MarkersOk(w) && SameRun(w.row, row) && Advances(w.row, row)
    ensures MarkersOk(Commit(w, row, a))
  {}

  // ----- stability under the steps of others -----

  /** The lease ended, or its holder still sees the run it saw. */
  predicate LeaseKept(row: Row, next: Row) {
    next.leaseToken.None? || (next.leaseToken == row.leaseToken && next.sealed == row.sealed && next.step == row.step
      && next.spent == row.spent && next.status == row.status && SameRun(row, next))
  }

  lemma LegitStable(row: Row, next: Row, kind: Kind, st: State, p: Patch)
    requires Legit(row, kind, st, p) && next.sealed == row.sealed && next.step == row.step && next.spent == row.spent
    requires next.status == row.status && next.limits == row.limits
             && kind !in {CancelAsked, SettlementReconciled, PreparationResumed}
    ensures Legit(next, kind, st, p)
  {}

  lemma RunnerStable(w: World, w1: World, t: Token, r: Runner)
    requires RunnerOk(w, t, r) && LeaseKept(w.row, w1.row) && w.outcomes <= w1.outcomes && w.nextToken <= w1.nextToken
    requires forall k :: k in w.settleBy ==> k in w1.settleBy && w1.settleBy[k] == w.settleBy[k]
    requires forall k :: k in w.inferBy ==> k in w1.inferBy && w1.inferBy[k] == w.inferBy[k]
    ensures RunnerOk(w1, t, r)
  {
    if Holds(w1.row, t) && r.pc.Saving? {
      LegitStable(w.row, w1.row, r.pc.kind, r.state.value, r.pc.patch);
    }
  }

  lemma RunnersStable(w: World, w1: World)
    requires RunnersOk(w) && LeaseKept(w.row, w1.row) && w1.runners == w.runners && w.outcomes <= w1.outcomes
    requires w.nextToken <= w1.nextToken && w1.settleBy == w.settleBy && w1.inferBy == w.inferBy
    ensures RunnersOk(w1)
  {
    forall t | t in w1.runners ensures RunnerOk(w1, t, w1.runners[t]) { RunnerStable(w, w1, t, w.runners[t]); }
  }

  lemma CallsStable(w: World, w1: World)
    requires CallsOk(w) && w1.runners == w.runners && w1.calls == w.calls && w1.settleBy == w.settleBy
             && w1.inferBy == w.inferBy
    ensures CallsOk(w1)
  {
    forall i | 0 <= i < |w1.calls| ensures CallOk(w1, w1.calls[i]) { assert CallOk(w, w.calls[i]); }
  }

  // ----- requests -----

  lemma RequestLease(row: Row, kind: Kind, st: State, p: Patch, next: Row, a: Action)
    requires RowOk(row) && Legit(row, kind, st, p) && AppliedOrStopped(row, kind, st, p, next, a)
    requires kind in {CancelAsked, SettlementReconciled, PreparationResumed, PaymentAuthorized}
      || (kind == InferenceCompleted && row.status == OutcomeUnknown)
    ensures LeaseKept(row, next)
  {}

  /** A request can only commit on the row it read. */
  lemma RequestKeeps(c: Config, w: World, read: Row, kind: Kind, st: State, p: Patch, payload: nat)
    requires Inv(c, w) && read in w.seen
             && kind in {CancelAsked, SettlementReconciled, PreparationResumed, PaymentAuthorized, InferenceCompleted}
    requires read.version == w.row.version
             ==> Legit(w.row, kind, st, p) && Admitted(w.row, Version(Some(read.owner), read.version), kind)
    ensures Inv(c, Request(c, w, read, kind, st, p, payload))
  {
    var fence := Version(Some(read.owner), read.version);
    var written := Write(c, w.row, fence, kind, Some(st), p, w.now, payload);
    if written.Wrote? {
      LegitMoves(c, w.row, fence, kind, st, p, w.now, payload);
      RequestLease(w.row, kind, st, p, written.row, written.action);
      CommitKeepsRecords(c, w, written.row, written.action);
      RunnersStable(w, Commit(w, written.row, written.action));
    }
  }

  lemma CommitKeepsRecords(c: Config, w: World, row: Row, a: Action)
    requires Inv(c, w) && Moves(c, w.row, row, a, w.now)
    ensures var w1 := Commit(w, row, a);
      RowOk(w1.row) && SeenOk(w1) && JournalOk(c, w1) && MarkersOk(w1) && CallsOk(w1)
  {
    var w1 := Commit(w, row, a);
    SeenAfter(w, row);
    JournalAfter(c, w, row, a);
    MarkersAfter(c, w, row, a);
    CallsStable(w, w1);
  }

  lemma AskedKeeps(c: Config, w: World, read: Row, ask: Option<Ask>, payload: nat)
    requires Inv(c, w) && read in w.seen
    requires ask.Some? ==> ask.value.kind in {CancelAsked, SettlementReconciled, PreparationResumed, PaymentAuthorized,
                                              InferenceCompleted}
    requires ask.Some? && read.version == w.row.version ==>
      Legit(w.row, ask.value.kind, ask.value.state, ask.value.patch)
        && Admitted(w.row, Version(Some(read.owner), read.version), ask.value.kind)
    ensures Inv(c, Asked(c, w, read, ask, payload))
  {
    if ask.Some? { RequestKeeps(c, w, read, ask.value.kind, ask.value.state, ask.value.patch, payload); }
  }

  lemma CancelLegit(row: Row, read: Row)
    requires RowOk(row) && read == row.(leaseUntil := read.leaseUntil) && CancelAsk(read).Some?
    ensures
      var ask := CancelAsk(read).value;
      Legit(row, ask.kind, ask.state, ask.patch)
  {}

  lemma ResumeLegit(row: Row, read: Row, authorized: bool, settlement: Option<Proof>, inference: Option<Answer>)
    requires RowOk(row) && read == row.(leaseUntil := read.leaseUntil)
             && ResumeAsk(read, authorized, settlement, inference).Some?
    ensures
      var ask := ResumeAsk(read, authorized, settlement, inference).value;
      Legit(row, ask.kind, ask.state, ask.patch) && (ask.kind == InferenceCompleted ==> row.status == OutcomeUnknown)
  {}

  lemma ResumeKinds(read: Row, authorized: bool, settlement: Option<Proof>, inference: Option<Answer>)
    ensures
      var ask := ResumeAsk(read, authorized, settlement, inference);
      ask.Some? ==> ask.value.kind in {SettlementReconciled, PreparationResumed, PaymentAuthorized, InferenceCompleted}
  {}

  lemma CancelWriteKeeps(c: Config, w: World, read: Row, payload: nat)
    requires Inv(c, w) && read in w.seen
    ensures Inv(c, Asked(c, w, read, CancelAsk(read), payload))
  {
    assert Outdated(read, w.row);
    if read.version == w.row.version && CancelAsk(read).Some? { CancelLegit(w.row, read); }
    AskedKeeps(c, w, read, CancelAsk(read), payload);
  }

  lemma ResumeWriteKeeps(c: Config, w: World, read: Row, authorized: bool, settlement: Option<Proof>,
                         inference: Option<Answer>, payload: nat)
    requires Inv(c, w) && read in w.seen
    ensures Inv(c, Asked(c, w, read, ResumeAsk(read, authorized, settlement, inference), payload))
  {
    assert Outdated(read, w.row);
    ResumeKinds(read, authorized, settlement, inference);
    if read.version == w.row.version && ResumeAsk(read, authorized, settlement, inference).Some? {
      ResumeLegit(w.row, read, authorized, settlement, inference);
    }
    AskedKeeps(c, w, read, ResumeAsk(read, authorized, settlement, inference), payload);
  }

  lemma SweepKeeps(c: Config, w: World, version: nat, payload: nat)
    requires Inv(c, w)
    ensures Inv(c, DoSweep(c, w, version, payload))
  {
    var written := Sweep(c, w.row, version, w.now, payload);
    if written.Wrote? {
      CommitKeepsRecords(c, w, written.row, written.action);
      RunnersStable(w, Commit(w, written.row, written.action));
    }
  }

  // ----- runner steps -----

  /** A runner may move to any point it has earned, except straight to an effectful call. */
  lemma GotoKeeps(c: Config, w: World, token: Token, r: Runner)
    requires Inv(c, w) && token in w.runners && RunnerOk(w, token, r) && !r.pc.Settling? && !r.pc.Inferring?
    ensures Inv(c, Goto(w, token, r))
  {
    var w1 := Goto(w, token, r);
    forall t | t in w1.runners ensures RunnerOk(w1, t, w1.runners[t]) {
      if t != token { assert RunnerOk(w, t, w.runners[t]); }
    }
    forall i | 0 <= i < |w1.calls| ensures CallOk(w1, w1.calls[i]) { assert CallOk(w, w.calls[i]); }
  }

  lemma CallKeeps(c: Config, w: World, token: Token, call: Call, outcomes: set<Outcome>, r: Runner)
    requires Inv(c, w) && token in w.runners && w.outcomes <= outcomes
    requires call.SettleCall? ==> AboutToSettle(w.runners[token], call.step)
    requires call.InferCall? ==> AboutToInfer(w.runners[token], call.step)
    requires !r.pc.Settling? && !r.pc.Inferring?
    requires RunnerOk(w.(calls := w.calls + [call], outcomes := outcomes), token, r)
    ensures Inv(c, Goto(w.(calls := w.calls + [call], outcomes := outcomes), token, r))
  {
    var w0 := w.(calls := w.calls + [call], outcomes := outcomes);
    var w1 := Goto(w0, token, r);
    CallAppended(w, token, call, outcomes, r);
    assert RunnersOk(w1) by {
      forall t | t in w1.runners ensures RunnerOk(w1, t, w1.runners[t]) {
        if t == token { RunnerStable(w0, w1, t, r); } else { RunnerStable(w, w1, t, w.runners[t]); }
      }
    }
  }

  lemma CallAppended(w: World, token: Token, call: Call, outcomes: set<Outcome>, r: Runner)
    requires CallsOk(w) && token in w.runners && RunnerOk(w, token, w.runners[token])
    requires call.SettleCall? ==> AboutToSettle(w.runners[token], call.step)
    requires call.InferCall? ==> AboutToInfer(w.runners[token], call.step)
    requires !r.pc.Settling? && !r.pc.Inferring?
    ensures CallsOk(Goto(w.(calls := w.calls + [call], outcomes := outcomes), token, r))
  {
    var w1 := Goto(w.(calls := w.calls + [call], outcomes := outcomes), token, r);
    forall i | 0 <= i < |w.calls| ensures CallOk(w1, w1.calls[i]) && !SameSlot(w1.calls[i], call) {
      assert CallOk(w, w.calls[i]);
    }
  }

  /** The runner is suspended where `Progress` does no effectful call. */
  predicate Quiet(pc: Pc) {
    pc.Stopping? || pc.Preparing? || pc.CheckingSession? || pc.Challenging? || pc.ReadingIntent?
    || pc.AfterChallenge? || pc.AfterSettlement? || pc.Completing?
  }

  /** A quiet step only moves the runner that takes it, and never straight to a call. */
  predicate Moved(w: World, token: Token, w1: World) {
    && token in w1.runners && w1 == Goto(w, token, w1.runners[token])
    && Shape(w1.runners[token].pc) && !w1.runners[token].pc.Settling? && !w1.runners[token].pc.Inferring?
  }

  lemma StopMoves(w: World, token: Token, r: Runner, after: Pc)
    requires r.pc == Stopping(after) && Shape(r.pc)
    ensures Moved(w, token, AtStop(w, token, r, after))
  {}

  lemma PreparationMoves(w: World, token: Token, r: Runner, s: State, reply: Reply)
    ensures Moved(w, token, AtPreparation(w, token, r, s, reply))
  {}

  lemma SessionCheckMoves(w: World, token: Token, r: Runner, s: State)
    ensures Moved(w, token, AtSessionCheck(w, token, r, s))
  {}

  lemma ChallengeMoves(w: World, token: Token, r: Runner, reply: Reply)
    ensures Moved(w, token, AtChallenge(w, token, r, reply))
  {}

  lemma IntentMoves(c: Config, w: World, token: Token, r: Runner, s: State, paymentId: nat, amount: nat, reply: Reply)
    ensures Moved(w, token, AtIntent(c, w, token, r, s, paymentId, amount, reply))
  {}

  lemma SettlementMoves(w: World, token: Token, r: Runner, s: State)
    ensures Moved(w, token, BeforeSettlement(w, token, r, s))
  {}

  lemma InferenceMoves(w: World, token: Token, r: Runner, s: State)
    ensures Moved(w, token, BeforeInference(w, token, r, s))
  {}

  lemma CompletionMoves(w: World, token: Token, r: Runner, s: State, receipt: Hash, decision: Decision)
    ensures Moved(w, token, AtCompletion(w, token, r, s, receipt, decision))
  {}

  lemma QuietMoves(c: Config, w: World, token: Token, r: Runner, s: State, reply: Reply)
    requires Shape(r.pc) && Quiet(r.pc)
    ensures Moved(w, token, Progress(c, w, token, r, s, reply))
  {
    match r.pc
    case Stopping(after) => StopMoves(w, token, r, after);
    case Preparing => PreparationMoves(w, token, r, s, reply);
    case CheckingSession => SessionCheckMoves(w, token, r, s);
    case Challenging => ChallengeMoves(w, token, r, reply);
    case ReadingIntent(paymentId, amount) => IntentMoves(c, w, token, r, s, paymentId, amount, reply);
    case AfterChallenge => SettlementMoves(w, token, r, s);
    case AfterSettlement => InferenceMoves(w, token, r, s);
    case Completing(receipt, decision) => CompletionMoves(w, token, r, s, receipt, decision);
  }

  // ----- staying in step with the row -----

  /** What the holder knows of the row it last read. */
  predicate UpToDate(w: World, r: Runner) {
    SameRun(r.row, w.row) && r.row.step == w.row.step && r.row.spent == w.row.spent
  }

  /** A write that is legitimate, and after which the runner goes on as its kind says, keeps it in step. */
  lemma SavesInStep(w: World, r: Runner)
    requires r.pc.Saving? && r.state.Some? && UpToDate(w, r) && Legit(w.row, r.pc.kind, r.state.value, r.pc.patch)
    requires NextOk(r.pc.kind, r.state.value, r.pc.next)
    requires r.pc.kind in {StepPrepared, SessionExpired, BudgetExhausted, PaymentRequired, Stopped, SettlementMarked,
                           InferenceMarked}
    ensures HolderOk(w, r)
  {}

  lemma ThrownInStep(w: World, r: Runner, conflict: bool)
    ensures HolderOk(w, Thrown(r, conflict))
  {}

  lemma StopHolds(w: World, token: Token, r: Runner, after: Pc)
    requires HolderOk(w, r) && r.pc == Stopping(after) && Shape(r.pc)
    ensures HolderOk(w, AtStop(w, token, r, after).runners[token])
  {
    var next := AtStop(w, token, r, after).runners[token];
    if next.pc.Saving? { SavesInStep(w, next); }
  }

  lemma PreparationHolds(w: World, token: Token, r: Runner, s: State, reply: Reply)
    requires HolderOk(w, r) && r.pc.Preparing? && r.state == Some(s) && PendingOk(w.row)
    ensures HolderOk(w, AtPreparation(w, token, r, s, reply).runners[token])
  {
    var next := AtPreparation(w, token, r, s, reply).runners[token];
    if next.pc.Saving? { SavesInStep(w, next); }
  }

  lemma SessionCheckHolds(w: World, token: Token, r: Runner, s: State)
    requires HolderOk(w, r) && r.pc.CheckingSession? && r.state == Some(s)
    ensures HolderOk(w, AtSessionCheck(w, token, r, s).runners[token])
  {
    var next := AtSessionCheck(w, token, r, s).runners[token];
    if next.pc.Saving? { SavesInStep(w, next); }
  }

  lemma ChallengeHolds(w: World, token: Token, r: Runner, reply: Reply)
    requires HolderOk(w, r) && r.pc.Challenging?
    ensures HolderOk(w, AtChallenge(w, token, r, reply).runners[token])
  {}

  lemma IntentHolds(c: Config, w: World, token: Token, r: Runner, s: State, paymentId: nat, amount: nat, reply: Reply)
    requires HolderOk(w, r) && r.pc == ReadingIntent(paymentId, amount) && r.state == Some(s)
    ensures HolderOk(w, AtIntent(c, w, token, r, s, paymentId, amount, reply).runners[token])
  {
    if !(reply.Intent? && reply.open && reply.amount == amount) || s.pending.None? { ThrownInStep(w, r, false); }
    else if amount + r.row.spent > r.row.limits.budget { IntentTooDear(w, r, s); }
    else { IntentAsked(c.mock, w, r, s, paymentId, amount); }
  }

  lemma IntentTooDear(w: World, r: Runner, s: State)
    requires HolderOk(w, r) && r.pc.ReadingIntent? && r.state == Some(s)
    ensures HolderOk(w, r.(pc := Saving(BudgetExhausted, Ending(Exhausted), Finished)))
  {
    SavesInStep(w, r.(pc := Saving(BudgetExhausted, Ending(Exhausted), Finished)));
  }

  lemma IntentAsked(mock: bool, w: World, r: Runner, s: State, paymentId: nat, amount: nat)
    requires HolderOk(w, r) && r.pc == ReadingIntent(paymentId, amount) && r.state == Some(s) && s.pending.Some?
    requires amount + r.row.spent <= r.row.limits.budget
    ensures
      var pending := s.pending.value.(paymentId := Some(paymentId), amount := Some(amount));
      HolderOk(w, r.(
        state := Some(s.(phase := if mock then PaymentReady else AwaitingAuthorization, pending := Some(pending))),
        pc := if mock then Saving(PaymentRequired, NoPatch, Stopping(AfterChallenge))
              else Saving(PaymentRequired, Ending(AwaitingPayment), Finished)))
  {
    RequiredLegit(w.row, mock, paymentId, amount);
    var pending := s.pending.value.(paymentId := Some(paymentId), amount := Some(amount));
    var st := s.(phase := if mock then PaymentReady else AwaitingAuthorization, pending := Some(pending));
    SavesInStep(w, r.(state := Some(st), pc := if mock then Saving(PaymentRequired, NoPatch, Stopping(AfterChallenge))
                                               else Saving(PaymentRequired, Ending(AwaitingPayment), Finished)));
  }

  /** The state that asks for a payment within the budget. */
  lemma RequiredLegit(row: Row, mock: bool, paymentId: nat, amount: nat)
    requires row.sealed.phase == Challenge && row.sealed.pending.Some? && amount + row.spent <= row.limits.budget
    ensures
      var pending := row.sealed.pending.value.(paymentId := Some(paymentId), amount := Some(amount));
      var st := row.sealed.(phase := if mock then PaymentReady else AwaitingAuthorization, pending := Some(pending));
      Legit(row, PaymentRequired, st, if mock then NoPatch else Ending(AwaitingPayment))
  {}

  lemma SettlementHolds(w: World, token: Token, r: Runner, s: State)
    requires HolderOk(w, r) && r.pc.AfterChallenge? && r.state == Some(s)
    ensures HolderOk(w, BeforeSettlement(w, token, r, s).runners[token])
  {
    var next := BeforeSettlement(w, token, r, s).runners[token];
    if next.pc.Saving? { SavesInStep(w, next); }
  }

  lemma InferenceHolds(w: World, token: Token, r: Runner, s: State)
    requires HolderOk(w, r) && r.pc.AfterSettlement? && r.state == Some(s)
    ensures HolderOk(w, BeforeInference(w, token, r, s).runners[token])
  {
    var next := BeforeInference(w, token, r, s).runners[token];
    if next.pc.Saving? { SavesInStep(w, next); }
  }

  lemma CompletionHolds(w: World, token: Token, r: Runner, s: State, receipt: Hash, decision: Decision)
    requires HolderOk(w, r) && r.pc == Completing(receipt, decision) && r.state == Some(s)
             && |w.row.sealed.history| == w.row.step
    ensures HolderOk(w, AtCompletion(w, token, r, s, receipt, decision).runners[token])
  {
    var done := Completion(w.row, s, receipt, decision);
    if done.None? {
      ThrownInStep(w, r.(row := w.row), false);
    } else {
      assert FinishesStep(w.row, done.value.0, done.value.1);
    }
  }

  lemma QuietHolds(c: Config, w: World, token: Token, r: Runner, s: State, reply: Reply)
    requires RowOk(w.row) && HolderOk(w, r) && r.state == Some(s) && Shape(r.pc) && Quiet(r.pc)
    ensures
      var w1 := Progress(c, w, token, r, s, reply);
      token in w1.runners && HolderOk(w, w1.runners[token])
  {
    QuietMoves(c, w, token, r, s, reply);
    match r.pc
    case Stopping(after) => StopHolds(w, token, r, after);
    case Preparing => PreparationHolds(w, token, r, s, reply);
    case CheckingSession => SessionCheckHolds(w, token, r, s);
    case Challenging => ChallengeHolds(w, token, r, reply);
    case ReadingIntent(paymentId, amount) => IntentHolds(c, w, token, r, s, paymentId, amount, reply);
    case AfterChallenge => SettlementHolds(w, token, r, s);
    case AfterSettlement => InferenceHolds(w, token, r, s);
    case Completing(receipt, decision) => CompletionHolds(w, token, r, s, receipt, decision);
  }

  lemma QuietStep(c: Config, w: World, token: Token, reply: Reply)
    requires RowOk(w.row) && token in w.runners && RunnerOk(w, token, w.runners[token])
    requires w.runners[token].state.Some? && Quiet(w.runners[token].pc)
    ensures
      var w1 := Progress(c, w, token, w.runners[token], w.runners[token].state.value, reply);
      Moved(w, token, w1) && RunnerOk(w, token, w1.runners[token])
  {
    var r := w.runners[token];
    QuietMoves(c, w, token, r, r.state.value, reply);
    if Holds(w.row, token) { QuietHolds(c, w, token, r, r.state.value, reply); }
  }

  /** An effectful step makes at most its own call, and moves the runner on. */
  predicate Effected(w: World, token: Token, r: Runner, w1: World) {
    && token in w1.runners && Shape(w1.runners[token].pc)
    && !w1.runners[token].pc.Settling? && !w1.runners[token].pc.Inferring?
    && w1 == Goto(w.(calls := w1.calls, outcomes := w1.outcomes), token, w1.runners[token])
    && w.outcomes <= w1.outcomes
    && (w1.calls == w.calls ==> w1.outcomes == w.outcomes)
    && (w1.calls != w.calls ==> OneCall(w, r, w1))
  }

  predicate OneCall(w: World, r: Runner, w1: World) {
    && |w1.calls| == |w.calls| + 1 && w1.calls == w.calls + [w1.calls[|w.calls|]]
    && var call := w1.calls[|w.calls|];
    && (call.SettleCall? ==> AboutToSettle(r, call.step)) && (call.InferCall? ==> AboutToInfer(r, call.step))
  }

  lemma SettlementMade(w: World, token: Token, r: Runner, s: State, reply: Reply)
    requires r.pc.Settling?
    ensures Effected(w, token, r, AtSettlement(w, token, r, s, reply))
  {}

  lemma InferenceMade(w: World, token: Token, r: Runner, s: State, reply: Reply)
    requires r.pc.Inferring?
    ensures Effected(w, token, r, AtInference(w, token, r, s, reply))
  {}

  lemma EffectShape(c: Config, w: World, token: Token, reply: Reply)
    requires token in w.runners && w.runners[token].state.Some?
    requires w.runners[token].pc.Settling? || w.runners[token].pc.Inferring?
    ensures
      var r := w.runners[token];
      Effected(w, token, r, Progress(c, w, token, r, r.state.value, reply))
  {
    var r := w.runners[token];
    if r.pc.Settling? {
      SettlementMade(w, token, r, r.state.value, reply);
    } else {
      InferenceMade(w, token, r, r.state.value, reply);
    }
  }

  lemma SettlingStep(w: World, token: Token, r: Runner, s: State, reply: Reply)
    requires HolderOk(w, r) && r.state == Some(s) && r.pc.Settling?
    ensures
      var w1 := AtSettlement(w, token, r, s, reply);
      token in w1.runners && HolderOk(w.(calls := w1.calls, outcomes := w1.outcomes), w1.runners[token])
  {}

  lemma InferringStep(w: World, token: Token, r: Runner, s: State, reply: Reply)
    requires HolderOk(w, r) && r.state == Some(s) && r.pc.Inferring?
    ensures
      var w1 := AtInference(w, token, r, s, reply);
      token in w1.runners && HolderOk(w.(calls := w1.calls, outcomes := w1.outcomes), w1.runners[token])
  {}

  lemma EffectRunner(c: Config, w: World, token: Token, reply: Reply)
    requires token in w.runners && RunnerOk(w, token, w.runners[token]) && w.runners[token].state.Some?
    requires w.runners[token].pc.Settling? || w.runners[token].pc.Inferring?
    ensures
      var w1 := Progress(c, w, token, w.runners[token], w.runners[token].state.value, reply);
      token in w1.runners && RunnerOk(w.(calls := w1.calls, outcomes := w1.outcomes), token, w1.runners[token])
  {
    EffectShape(c, w, token, reply);
    if Holds(w.row, token) {
      var r := w.runners[token];
      if r.pc.Settling? { SettlingStep(w, token, r, r.state.value, reply); }
      else { InferringStep(w, token, r, r.state.value, reply); }
    }
  }

  lemma ProgressKeeps(c: Config, w: World, token: Token, reply: Reply)
    requires Inv(c, w) && token in w.runners && w.runners[token].state.Some?
    ensures Inv(c, Progress(c, w, token, w.runners[token], w.runners[token].state.value, reply))
  {
    var r := w.runners[token];
    var w1 := Progress(c, w, token, r, r.state.value, reply);
    if r.pc.Settling? || r.pc.Inferring? {
      EffectShape(c, w, token, reply);
      EffectRunner(c, w, token, reply);
      if w1.calls == w.calls {
        GotoKeeps(c, w, token, w1.runners[token]);
      } else {
        CallKeeps(c, w, token, w1.calls[|w.calls|], w1.outcomes, w1.runners[token]);
      }
    } else if Quiet(r.pc) {
      QuietStep(c, w, token, reply);
      GotoKeeps(c, w, token, w1.runners[token]);
    }
  }

  /** The world after a runner's write committed: the marker, if it was one, is now owned. */
  function Marked(w: World, row: Row, a: Action, token: Token): World {
    var w1 := Commit(w, row, a);
    if a.material.kind == SettlementMarked then w1.(settleBy := w1.settleBy[row.step := token])
    else if a.material.kind == InferenceMarked then w1.(inferBy := w1.inferBy[row.step := token]) else w1
  }

  /** Nobody committed the marker that is being committed now. */
  lemma MarkerIsNew(c: Config, w: World, row: Row, a: Action)
    requires MarkersOk(w) && Recorded(c, w.row, row, a, w.now)
    ensures a.material.kind == SettlementMarked ==> row.step !in w.settleBy
    ensures a.material.kind == InferenceMarked ==> row.step !in w.inferBy
  {}

  /** Where the writing runner stands afterwards. */
  lemma WriterAfter(c: Config, w: World, token: Token, row: Row, a: Action)
    requires RowOk(w.row) && token in w.runners && HolderOk(w, w.runners[token])
    requires w.runners[token].pc.Saving? && Shape(w.runners[token].pc)
    requires var r := w.runners[token];
      AppliedOrStopped(w.row, r.pc.kind, r.state.value, r.pc.patch, row, a) && Recorded(c, w.row, row, a, w.now)
    requires Holds(row, token)
    ensures
      var r := w.runners[token];
      HolderOk(Marked(w, row, a, token),
               r.(row := row, pc := if IsDispatch(r.pc.kind) && row.status != Running then Finished else r.pc.next))
  {}

  lemma WriterRunners(c: Config, w: World, token: Token, row: Row, a: Action, r1: Runner)
    requires RunnersOk(w) && token in w.runners && w.row.leaseToken == Some(token)
    requires row.leaseToken.None? || row.leaseToken == Some(token)
    requires a.material.kind == SettlementMarked ==> row.step !in w.settleBy
    requires a.material.kind == InferenceMarked ==> row.step !in w.inferBy
    requires Shape(r1.pc) && (Holds(row, token) ==> HolderOk(Marked(w, row, a, token), r1))
    requires r1.pc.Settling? ==> a.material.kind == SettlementMarked && r1.row == row
    requires r1.pc.Inferring? ==> a.material.kind == InferenceMarked && r1.row == row
    ensures RunnersOk(Goto(Marked(w, row, a, token), token, r1))
  {
    var w1 := Marked(w, row, a, token);
    var w2 := Goto(w1, token, r1);
    forall t | t in w2.runners ensures RunnerOk(w2, t, w2.runners[t]) {
      assert RunnerOk(w, t, w.runners[t]);
      if t == token {
        if Holds(row, token) { HolderStable(w1, w2, r1); }
      } else {
        BystanderOk(w, w2, t);
      }
    }
  }

  /** A runner that does not hold the lease keeps its entitlements. */
  lemma BystanderOk(w: World, w1: World, t: Token)
    requires t in w.runners && RunnerOk(w, t, w.runners[t]) && !Holds(w1.row, t) && w1.nextToken == w.nextToken
    requires forall k :: k in w.settleBy ==> k in w1.settleBy && w1.settleBy[k] == w.settleBy[k]
    requires forall k :: k in w.inferBy ==> k in w1.inferBy && w1.inferBy[k] == w.inferBy[k]
    ensures RunnerOk(w1, t, w.runners[t])
  {}

  lemma HolderStable(w: World, w1: World, r: Runner)
    requires HolderOk(w, r) && w1.row == w.row && w1.outcomes == w.outcomes
    ensures HolderOk(w1, r)
  {}

  lemma WriterCalls(c: Config, w: World, token: Token, row: Row, a: Action, r1: Runner)
    requires CallsOk(w) && token in w.runners
    requires a.material.kind == SettlementMarked ==> row.step !in w.settleBy
    requires a.material.kind == InferenceMarked ==> row.step !in w.inferBy
    requires r1.pc.Settling? ==> a.material.kind == SettlementMarked && r1.row == row
    requires r1.pc.Inferring? ==> a.material.kind == InferenceMarked && r1.row == row
    ensures CallsOk(Goto(Marked(w, row, a, token), token, r1))
  {
    var w2 := Goto(Marked(w, row, a, token), token, r1);
    forall i | 0 <= i < |w2.calls| ensures CallOk(w2, w2.calls[i]) { assert CallOk(w, w.calls[i]); }
  }

  lemma WriterMarkers(c: Config, w: World, token: Token, row: Row, a: Action, r1: Runner)
    requires MarkersOk(w) && token in w.runners && SameRun(w.row, row) && Advances(w.row, row)
             && Recorded(c, w.row, row, a, w.now)
    ensures MarkersOk(Goto(Marked(w, row, a, token), token, r1))
  {}

  lemma SaveCommitKeeps(c: Config, w: World, token: Token, row: Row, a: Action, r1: Runner)
    requires Inv(c, w) && token in w.runners && w.row.leaseToken == Some(token)
    requires Moves(c, w.row, row, a, w.now) && (row.leaseToken.None? || row.leaseToken == Some(token))
    requires Shape(r1.pc) && (Holds(row, token) ==> HolderOk(Marked(w, row, a, token), r1))
    requires r1.pc.Settling? ==> a.material.kind == SettlementMarked && r1.row == row
    requires r1.pc.Inferring? ==> a.material.kind == InferenceMarked && r1.row == row
    ensures Inv(c, Goto(Marked(w, row, a, token), token, r1))
  {
    SeenAfter(w, row);
    JournalAfter(c, w, row, a);
    MarkerIsNew(c, w, row, a);
    WriterMarkers(c, w, token, row, a, r1);
    WriterRunners(c, w, token, row, a, r1);
    WriterCalls(c, w, token, row, a, r1);
  }

  lemma LoseRun(c: Config, w: World, token: Token, pc: Pc)
    requires Inv(c, w) && token in w.runners && (pc == Finished || pc == Recovering)
    ensures Inv(c, Goto(w, token, w.runners[token].(pc := pc)))
  {
    assert RunnerOk(w, token, w.runners[token]);
    GotoKeeps(c, w, token, w.runners[token].(pc := pc));
  }

  /** A write that did not happen, or was refused, leaves the world as it was and ends or restarts the runner's
      handling. */
  lemma SaveStays(c: Config, w: World, token: Token, io: Io, payload: nat)
    requires token in w.runners && w.runners[token].pc.Saving?
    ensures
      var r := w.runners[token];
      (r.lostLease && r.pc.kind != StateUnavailable) || io.NotRun?
      || Write(c, w.row, Held(token), r.pc.kind, r.state, r.pc.patch, w.now, payload).Refused? ==>
        || Save(c, w, token, io, payload) == Goto(w, token, r.(pc := Finished))
        || Save(c, w, token, io, payload) == Goto(w, token, r.(pc := Recovering))
  {}

  lemma SaveKeeps(c: Config, w: World, token: Token, io: Io, payload: nat)
    requires Inv(c, w) && token in w.runners && w.runners[token].pc.Saving?
    ensures Inv(c, Save(c, w, token, io, payload))
  {
    var r := w.runners[token];
    if (r.lostLease && r.pc.kind != StateUnavailable) || io.NotRun?
       || Write(c, w.row, Held(token), r.pc.kind, r.state, r.pc.patch, w.now, payload).Refused? {
      SaveStays(c, w, token, io, payload);
      LoseRun(c, w, token, Finished);
      LoseRun(c, w, token, Recovering);
    } else {
      SaveWrote(c, w, token, io, payload);
    }
  }

  /** Where a runner stands once its write committed. */
  function Saved(r: Runner, io: Io, row: Row): Runner
    requires r.pc.Saving?
  {
    if io.Unanswered? then
      if r.pc.kind in {UnknownOutcome, StepFailed, StateUnavailable} then r.(pc := Finished) else Thrown(r, false)
    else r.(row := row, pc := if IsDispatch(r.pc.kind) && row.status != Running then Finished else r.pc.next)
  }

  lemma SaveIs(c: Config, w: World, token: Token, io: Io, payload: nat)
    requires token in w.runners && w.runners[token].pc.Saving? && !io.NotRun?
    requires !(w.runners[token].lostLease && w.runners[token].pc.kind != StateUnavailable)
    ensures
      var r := w.runners[token];
      var written := Write(c, w.row, Held(token), r.pc.kind, r.state, r.pc.patch, w.now, payload);
      written.Wrote?
      ==> Save(c, w, token, io, payload)
          == Goto(Marked(w, written.row, written.action, token), token, Saved(r, io, written.row))
  {}

  lemma HolderWrites(c: Config, w: World, token: Token)
    requires RunnersOk(w) && token in w.runners && w.runners[token].pc.Saving? && Holds(w.row, token)
             && w.row.status == Running
    ensures
      var r := w.runners[token];
      && HolderOk(w, r) && Shape(r.pc) && r.state.Some? && Legit(w.row, r.pc.kind, r.state.value, r.pc.patch)
      && Admitted(w.row, Held(token), r.pc.kind)
  {
    assert RunnerOk(w, token, w.runners[token]);
  }

  lemma StoppedOrKept(row: Row, token: Token, kind: Kind, st: State, p: Patch, next: Row, a: Action)
    requires Holds(row, token) && AppliedOrStopped(row, kind, st, p, next, a)
    ensures next.leaseToken.None? || next.leaseToken == Some(token)
  {}

  lemma SavedPlaces(c: Config, w: World, r: Runner, io: Io, row: Row, a: Action)
    requires r.pc.Saving? && Shape(r.pc) && r.state.Some?
             && AppliedOrStopped(w.row, r.pc.kind, r.state.value, r.pc.patch, row, a)
    requires Recorded(c, w.row, row, a, w.now) && (row.status == Running <==> row.leaseToken.Some?)
    ensures
      var r1 := Saved(r, io, row);
      && Shape(r1.pc)
      && (r1.pc.Settling? ==> a.material.kind == SettlementMarked && r1.row == row)
      && (r1.pc.Inferring? ==> a.material.kind == InferenceMarked && r1.row == row)
  {}

  lemma SaveWrote(c: Config, w: World, token: Token, io: Io, payload: nat)
    requires Inv(c, w) && token in w.runners && w.runners[token].pc.Saving? && !io.NotRun?
    requires !(w.runners[token].lostLease && w.runners[token].pc.kind != StateUnavailable)
    requires Write(c, w.row, Held(token), w.runners[token].pc.kind, w.runners[token].state, w.runners[token].pc.patch,
                   w.now, payload).Wrote?
    ensures Inv(c, Save(c, w, token, io, payload))
  {
    var r := w.runners[token];
    var written := Write(c, w.row, Held(token), r.pc.kind, r.state, r.pc.patch, w.now, payload);
    OnlyTheHolderWrites(c, w.row, token, r.pc.kind, r.state, r.pc.patch, w.now, payload);
    HolderWrites(c, w, token);
    LegitMoves(c, w.row, Held(token), r.pc.kind, r.state.value, r.pc.patch, w.now, payload);
    SaveIs(c, w, token, io, payload);
    WriterPlaced(c, w, token, io, written.row, written.action);
  }

  lemma WriterPlaced(c: Config, w: World, token: Token, io: Io, row: Row, a: Action)
    requires Inv(c, w) && token in w.runners && w.runners[token].pc.Saving? && Holds(w.row, token)
    requires HolderOk(w, w.runners[token]) && Shape(w.runners[token].pc) && w.runners[token].state.Some?
    requires Moves(c, w.row, row, a, w.now)
    requires var r := w.runners[token]; AppliedOrStopped(w.row, r.pc.kind, r.state.value, r.pc.patch, row, a)
    ensures Inv(c, Goto(Marked(w, row, a, token), token, Saved(w.runners[token], io, row)))
  {
    var r := w.runners[token];
    StoppedOrKept(w.row, token, r.pc.kind, r.state.value, r.pc.patch, row, a);
    SavedPlaces(c, w, r, io, row, a);
    if Holds(row, token) {
      WriterAfter(c, w, token, row, a);
      SavedHolder(Marked(w, row, a, token), r, io, row);
    }
    SaveCommitKeeps(c, w, token, row, a, Saved(r, io, row));
  }

  lemma SavedHolder(w: World, r: Runner, io: Io, row: Row)
    requires r.pc.Saving? && HolderOk(w, Saved(r, Acknowledged, row))
    ensures HolderOk(w, Saved(r, io, row))
  {}

  // ----- every step, every run -----

  lemma ClaimKeeps(c: Config, w: World)
    requires Inv(c, w)
    ensures Inv(c, Next(c, w, Claim))
  {
    if w.row.status == Queued {
      var w1 := Next(c, w, Claim);
      SeenAfter(w, w1.row);
      ClaimRunners(c, w);
      ClaimCalls(c, w);
    }
  }

  lemma ClaimCalls(c: Config, w: World)
    requires RunnersOk(w) && MarkersOk(w) && CallsOk(w) && w.row.status == Queued
    ensures MarkersOk(Next(c, w, Claim)) && CallsOk(Next(c, w, Claim))
  {
    var w1 := Next(c, w, Claim);
    forall i | 0 <= i < |w1.calls| ensures CallOk(w1, w1.calls[i]) { assert CallOk(w, w.calls[i]); }
    forall k | k in w1.settleBy ensures w1.settleBy[k] in w1.runners { assert w.settleBy[k] in w.runners; }
    forall k | k in w1.inferBy ensures w1.inferBy[k] in w1.runners { assert w.inferBy[k] in w.runners; }
  }

  lemma ClaimRunners(c: Config, w: World)
    requires RowOk(w.row) && RunnersOk(w) && w.row.status == Queued
    ensures RunnersOk(Next(c, w, Claim))
  {
    var w1 := Next(c, w, Claim);
    forall t | t in w1.runners ensures RunnerOk(w1, t, w1.runners[t]) {
      if t != w.nextToken {
        RunnerStable(w, w1.(row := w.row), t, w.runners[t]);
        BystanderOk2(w, w1, t);
      }
    }
  }

  lemma BystanderOk2(w: World, w1: World, t: Token)
    requires t in w.runners && RunnerOk(w, t, w.runners[t]) && !Holds(w1.row, t) && w1.nextToken >= w.nextToken
    requires w1.settleBy == w.settleBy && w1.inferBy == w.inferBy
    ensures RunnerOk(w1, t, w.runners[t])
  {}

  lemma BeatKeeps(c: Config, w: World, token: Token)
    requires Inv(c, w)
    ensures Inv(c, Next(c, w, Heartbeat(token)))
  {
    var beat := Beat(c, w.row, token, w.now);
    if beat.Some? {
      var w1 := Next(c, w, Heartbeat(token));
      RunnersStable(w, w1);
      CallsStable(w, w1);
      forall r | r in w1.seen ensures Outdated(r, w1.row) { if r in w.seen { assert Outdated(r, w.row); } }
    }
  }

  lemma StepKeeps(c: Config, w: World, token: Token, reply: Reply, io: Io, payload: nat)
    requires Inv(c, w) && token in w.runners
    ensures Inv(c, Step(c, w, token, reply, io, payload))
  {
    var r := w.runners[token];
    if r.pc.Saving? {
      SaveKeeps(c, w, token, io, payload);
    } else if r.pc.Opening? || r.pc.Recovering? {
      OpenKeeps(c, w, token, reply, io, payload);
    } else if !r.pc.Finished? && r.state.Some? {
      ProgressKeeps(c, w, token, reply);
    }
  }

  /** Opening the sealed state of an untampered row never fails, so no run is ever failed for it. */
  lemma OpenKeeps(c: Config, w: World, token: Token, reply: Reply, io: Io, payload: nat)
    requires Inv(c, w) && token in w.runners && (w.runners[token].pc.Opening? || w.runners[token].pc.Recovering?)
    ensures Inv(c, Step(c, w, token, reply, io, payload))
  {
    assert RunnerOk(w, token, w.runners[token]);
    OpenedOk(c, w, token, reply, io, payload);
    GotoKeeps(c, w, token, Step(c, w, token, reply, io, payload).runners[token]);
  }

  lemma OpenedOk(c: Config, w: World, token: Token, reply: Reply, io: Io, payload: nat)
    requires RowOk(w.row) && token in w.runners && RunnerOk(w, token, w.runners[token])
    requires w.runners[token].pc.Opening? || w.runners[token].pc.Recovering?
    ensures
      var w1 := Step(c, w, token, reply, io, payload);
      && token in w1.runners && w1 == Goto(w, token, w1.runners[token]) && RunnerOk(w, token, w1.runners[token])
      && !w1.runners[token].pc.Settling? && !w1.runners[token].pc.Inferring?
  {}

  /** Every step of every actor keeps the invariant. */
  lemma {:induction false} NextKeeps(c: Config, w: World, e: Event)
    requires Inv(c, w)
    ensures Inv(c, Next(c, w, e))
  {
    match e
    case Tick(elapsed) => TickKeeps(c, w, elapsed);
    case Claim => ClaimKeeps(c, w);
    case Heartbeat(token) => BeatKeeps(c, w, token);
    case LoseLease(token) => LoseKeeps(c, w, token);
    case Crash(token) => CrashKeeps(c, w, token);
    case SweepLease(version, payload) => SweepKeeps(c, w, version, payload);
    case Cancel(read, payload) => CancelKeeps(c, w, read, payload);
    case Resume(read, authorized, settlement, inference, payload) =>
      ResumeKeeps(c, w, read, authorized, settlement, inference, payload);
    case Run(token, reply, io, payload) => RunKeeps(c, w, token, reply, io, payload);
  }

  lemma CrashKeeps(c: Config, w: World, token: Token)
    requires Inv(c, w)
    ensures Inv(c, Next(c, w, Crash(token)))
  {
    if token in w.runners { LoseRun(c, w, token, Finished); }
  }

  lemma CancelKeeps(c: Config, w: World, read: Row, payload: nat)
    requires Inv(c, w)
    ensures Inv(c, Next(c, w, Cancel(read, payload)))
  {
    if read in w.seen { CancelWriteKeeps(c, w, read, payload); }
  }

  lemma ResumeKeeps(c: Config, w: World, read: Row, authorized: bool, settlement: Option<Proof>,
                    inference: Option<Answer>, payload: nat)
    requires Inv(c, w)
    ensures Inv(c, Next(c, w, Resume(read, authorized, settlement, inference, payload)))
  {
    if read in w.seen { ResumeWriteKeeps(c, w, read, authorized, settlement, inference, payload); }
  }

  lemma RunKeeps(c: Config, w: World, token: Token, reply: Reply, io: Io, payload: nat)
    requires Inv(c, w)
    ensures Inv(c, Next(c, w, Run(token, reply, io, payload)))
  {
    if token in w.runners { StepKeeps(c, w, token, reply, io, payload); }
  }

  lemma TickKeeps(c: Config, w: World, elapsed: nat)
    requires Inv(c, w)
    ensures Inv(c, Next(c, w, Tick(elapsed)))
  {
    RunnersStable(w, Next(c, w, Tick(elapsed)));
    CallsStable(w, Next(c, w, Tick(elapsed)));
  }

  lemma LoseKeeps(c: Config, w: World, token: Token)
    requires Inv(c, w)
    ensures Inv(c, Next(c, w, LoseLease(token)))
  {
    if token in w.runners {
      var w1 := Next(c, w, LoseLease(token));
      forall t | t in w1.runners ensures RunnerOk(w1, t, w1.runners[t]) { assert RunnerOk(w, t, w.runners[t]); }
      forall i | 0 <= i < |w1.calls| ensures CallOk(w1, w1.calls[i]) { assert CallOk(w, w.calls[i]); }
    }
  }

  lemma {:induction false} ExecKeeps(c: Config, w: World, es: seq<Event>)
    requires Inv(c, w)
    ensures Inv(c, Exec(c, w, es))
  {
    if es != [] {
      ExecKeeps(c, w, es[..|es| - 1]);
      NextKeeps(c, Exec(c, w, es[..|es| - 1]), es[|es| - 1]);
    }
  }

  lemma StartOk(c: Config, o: Origin)
    requires Creatable(o)
    ensures Inv(c, Start(c, o))
  {
    assert Start(c, o).journal[..0] == [];
  }

  /** The invariant holds after any run of events from creation. */
  lemma {:induction false} ReachableOk(c: Config, o: Origin, es: seq<Event>)
    requires Creatable(o)
    ensures Inv(c, Exec(c, Start(c, o), es))
  {
    StartOk(c, o);
    ExecKeeps(c, Start(c, o), es);
  }
}
