/** The guarantees of the agent runtime, for every sequence of events from creation. */
module AgentTheorems {
  import opened Common
  import opened AgentStore
  import opened AgentRuntime
  import opened AgentSafety

  // ----- at most one effect per step -----

  function CountSettles(calls: seq<Call>): nat {
    if calls == [] then 0 else CountSettles(calls[..|calls| - 1]) + if calls[|calls| - 1].SettleCall? then 1 else 0
  }

  function CountInfers(calls: seq<Call>): nat {
    if calls == [] then 0 else CountInfers(calls[..|calls| - 1]) + if calls[|calls| - 1].InferCall? then 1 else 0
  }

  /** The steps below `n` that a call of this kind was made for. */
  function StepsOf(calls: seq<Call>, settle: bool): set<nat> {
    set i | 0 <= i < |calls| && calls[i].SettleCall? == settle :: calls[i].step
  }

  lemma {:induction false} BelowBound(s: set<nat>, n: nat)
    requires forall k :: k in s ==> k < n
    ensures |s| <= n
  {
    if n == 0 {
      assert s == {};
    } else {
      BelowBound(s - {n - 1}, n - 1);
      if n - 1 in s { assert |s| == |s - {n - 1}| + 1; } else { assert s == s - {n - 1}; }
    }
  }

  lemma {:induction false} CountIsCardinality(calls: seq<Call>)
    requires forall i, j :: 0 <= i < j < |calls| ==> !SameSlot(calls[i], calls[j])
    ensures CountSettles(calls) == |StepsOf(calls, true)| && CountInfers(calls) == |StepsOf(calls, false)|
  {
    if calls != [] {
      var front, last := calls[..|calls| - 1], calls[|calls| - 1];
      CountIsCardinality(front);
      forall settle: bool
        ensures StepsOf(calls, settle) == StepsOf(front, settle)
                + (if last.SettleCall? == settle then {last.step} else {})
        ensures last.SettleCall? == settle ==> last.step !in StepsOf(front, settle)
      {
        StepsOfLast(calls, settle);
      }
      assert StepsOf(calls, true) == StepsOf(front, true) + (if last.SettleCall? == true then {last.step} else {});
      assert StepsOf(calls, false) == StepsOf(front, false) + (if last.SettleCall? == false then {last.step} else {});
    }
  }

  lemma StepsOfLast(calls: seq<Call>, settle: bool)
    requires calls != [] && forall i, j :: 0 <= i < j < |calls| ==> !SameSlot(calls[i], calls[j])
    ensures
      var front, last := calls[..|calls| - 1], calls[|calls| - 1];
      && StepsOf(calls, settle) == StepsOf(front, settle) + (if last.SettleCall? == settle then {last.step} else {})
      && (last.SettleCall? == settle ==> last.step !in StepsOf(front, settle))
  {
    var front, last := calls[..|calls| - 1], calls[|calls| - 1];
    forall k | k in StepsOf(front, settle) ensures k in StepsOf(calls, settle) {
      var i :| 0 <= i < |front| && front[i].SettleCall? == settle && front[i].step == k;
      assert calls[i] == front[i];
    }
    forall k | k in StepsOf(calls, settle)
      ensures k in StepsOf(front, settle) || (last.SettleCall? == settle && k == last.step)
    {
      var i :| 0 <= i < |calls| && calls[i].SettleCall? == settle && calls[i].step == k;
      if i < |front| { assert front[i] == calls[i]; }
    }
  }

  /** In every interleaving each step of a run is settled by at most one call and inferred by at
      most one paid call, so a run makes at most `steps` of each. */
  lemma {:induction false} EffectsAtMostOnce(c: Config, o: Origin, es: seq<Event>)
    requires Creatable(o)
    ensures
      var w := Exec(c, Start(c, o), es);
      && (forall i, j :: 0 <= i < j < |w.calls| ==> !SameSlot(w.calls[i], w.calls[j]))
      && (forall i :: 0 <= i < |w.calls| ==> w.calls[i].step < w.row.limits.steps)
      && CountSettles(w.calls) <= w.row.limits.steps && CountInfers(w.calls) <= w.row.limits.steps
  {
    ReachableOk(c, o, es);
    var w := Exec(c, Start(c, o), es);
    forall i | 0 <= i < |w.calls| ensures w.calls[i].step < w.row.limits.steps { assert CallOk(w, w.calls[i]); }
    CountIsCardinality(w.calls);
    BelowBound(StepsOf(w.calls, true), w.row.limits.steps);
    BelowBound(StepsOf(w.calls, false), w.row.limits.steps);
  }

  // ----- the ledger of what was spent -----

  /** What a run says it spent is what its finished steps and its paid step in progress cost;
      it never exceeds the budget or the step limit, and the check made on opening never rejects it. */
  lemma {:induction false} LedgerExact(c: Config, o: Origin, es: seq<Event>)
    requires Creatable(o)
    ensures
      var row := Exec(c, Start(c, o), es).row;
      && row.limits == o.limits && Open(row) == Some(row.sealed)
      && |row.sealed.history| == row.step <= row.limits.steps && row.spent <= row.limits.budget
      && row.spent == Total(row.sealed.history)
           + if row.sealed.pending.Some? && row.sealed.pending.value.paid then row.sealed.pending.value.amount.GetOr(0)
             else 0
  {
    ReachableOk(c, o, es);
    OriginKept(c, o, es);
  }

  lemma {:induction false} OriginKept(c: Config, o: Origin, es: seq<Event>)
    requires Creatable(o)
    ensures Exec(c, Start(c, o), es).row.limits == o.limits
  {
    if es != [] {
      OriginKept(c, o, es[..|es| - 1]);
      ReachableOk(c, o, es[..|es| - 1]);
      NextKeepsRun(c, Exec(c, Start(c, o), es[..|es| - 1]), es[|es| - 1]);
    }
  }

  // ----- how the row changes -----

  /** A step changes the row by a journaled write, by a claim, by a heartbeat, or not at all. */
  ghost predicate RowStep(c: Config, w: World, w1: World, e: Event) {
    || (w1.row == w.row && w1.journal == w.journal)
    || (w1.journal == w.journal && w1.row == w.row.(leaseUntil := w1.row.leaseUntil) && w.row.status == Running)
    || (w1.journal == w.journal && w.row.status == Queued && w1.row == Claimed(c, w.row, w.nextToken, w.now))
    || (|w1.journal| == |w.journal| + 1 && w1.journal[..|w.journal|] == w.journal
        && Moves(c, w.row, w1.row, w1.journal[|w.journal|], w.now)
        && !Terminal(w.row.status) && SealedStep(w, w1, e))
  }

  /** A dispatch marker in the sealed state is only replaced by an observed or looked-up outcome. */
  ghost predicate SealedStep(w: World, w1: World, e: Event) {
    var s, t := w.row.sealed, w1.row.sealed;
    && (s.phase == SettlementDispatched && t != s ==>
      && t.phase == Paid && w1.row.step == w.row.step && t.pending.Some? && t.pending.value.settlementTx.Some?
      && (SettleSeen(w.row.step, t.pending.value.settlementTx.value) in w.outcomes || SettlementProven(w.row, t, e)))
    && (s.phase == InferenceDispatched && t != s ==>
      && w1.row.step == w.row.step + 1 && |t.history| == w.row.step + 1 && t.history[..w.row.step] == s.history
      && (InferSeen(w.row.step, t.history[w.row.step].receipt) in w.outcomes || InferenceProven(w.row, t, e)))
  }

  predicate SettlementProven(row: Row, t: State, e: Event) {
    && e.Resume? && e.settlement.Some? && e.settlement.value.settled && t.pending.Some?
    && row.sealed.pending.Some? && row.sealed.pending.value.amount == Some(e.settlement.value.amount)
    && t.pending.value.settlementTx == Some(e.settlement.value.tx)
  }

  predicate InferenceProven(row: Row, t: State, e: Event) {
    e.Resume? && e.inference.Some? && row.step < |t.history| && t.history[row.step].receipt == e.inference.value.receipt
  }

  lemma SaveRowStep(c: Config, w: World, token: Token, reply: Reply, io: Io, payload: nat)
    requires RowOk(w.row) && RunnersOk(w) && token in w.runners && w.runners[token].pc.Saving?
    ensures RowStep(c, w, Save(c, w, token, io, payload), Run(token, reply, io, payload))
  {
    var r := w.runners[token];
    var written := Write(c, w.row, Held(token), r.pc.kind, r.state, r.pc.patch, w.now, payload);
    if (r.lostLease && r.pc.kind != StateUnavailable) || io.NotRun? || written.Refused? {
      SaveStays(c, w, token, io, payload);
    } else {
      SaveIs(c, w, token, io, payload);
      SaveWritten(c, w, token, payload);
      MarkedRow(w, written.row, written.action, token);
      var w1 := Goto(Marked(w, written.row, written.action, token), token, Saved(r, io, written.row));
      AppendedRowStep(c, w, w1, Run(token, reply, io, payload), written.row, written.action);
    }
  }

  lemma MarkedRow(w: World, row: Row, a: Action, token: Token)
    ensures Marked(w, row, a, token).row == row && Marked(w, row, a, token).journal == w.journal + [a]
  {}

  lemma SaveWritten(c: Config, w: World, token: Token, payload: nat)
    requires RowOk(w.row) && RunnersOk(w) && token in w.runners && w.runners[token].pc.Saving?
    ensures
      var r := w.runners[token];
      var written := Write(c, w.row, Held(token), r.pc.kind, r.state, r.pc.patch, w.now, payload);
      written.Wrote? ==>
        Moves(c, w.row, written.row, written.action, w.now) && !Terminal(w.row.status) && SealedBySave(w, written.row)
  {
    var r := w.runners[token];
    var written := Write(c, w.row, Held(token), r.pc.kind, r.state, r.pc.patch, w.now, payload);
    if written.Wrote? {
      OnlyTheHolderWrites(c, w.row, token, r.pc.kind, r.state, r.pc.patch, w.now, payload);
      HolderWrites(c, w, token);
      LegitMoves(c, w.row, Held(token), r.pc.kind, r.state.value, r.pc.patch, w.now, payload);
      SaveSealed(w, r, written.row, written.action);
    }
  }

  lemma AppendedRowStep(c: Config, w: World, w1: World, e: Event, row: Row, a: Action)
    requires w1.row == row && w1.journal == w.journal + [a] && Moves(c, w.row, row, a, w.now) && !Terminal(w.row.status)
    requires SealedBySave(w, row) || SealedStep(w, w1, e)
    ensures RowStep(c, w, w1, e)
  {
    assert (w.journal + [a])[..|w.journal|] == w.journal;
  }

  /** A marker that a save replaces is replaced by an outcome the runner saw. */
  predicate SealedBySave(w: World, row: Row) {
    var s, t := w.row.sealed, row.sealed;
    && (s.phase == SettlementDispatched && t != s ==>
      && t.phase == Paid && row.step == w.row.step && t.pending.Some? && t.pending.value.settlementTx.Some?
      && SettleSeen(w.row.step, t.pending.value.settlementTx.value) in w.outcomes)
    && (s.phase == InferenceDispatched && t != s ==>
      && row.step == w.row.step + 1 && |t.history| == w.row.step + 1 && t.history[..w.row.step] == s.history
      && InferSeen(w.row.step, t.history[w.row.step].receipt) in w.outcomes)
  }

  lemma SaveSealed(w: World, r: Runner, row: Row, a: Action)
    requires RowOk(w.row) && r.pc.Saving? && r.state.Some? && HolderOk(w, r)
    requires Legit(w.row, r.pc.kind, r.state.value, r.pc.patch)
    requires AppliedOrStopped(w.row, r.pc.kind, r.state.value, r.pc.patch, row, a)
    ensures SealedBySave(w, row)
  {}

  lemma RequestRowStep(c: Config, w: World, read: Row, ask: Ask, payload: nat, e: Event)
    requires RowOk(w.row) && SeenOk(w) && read in w.seen && (CancelAsk(read) == Some(ask) ||
      (e.Resume? && e.read == read && ResumeAsk(read, e.authorized, e.settlement, e.inference) == Some(ask)))
    ensures RowStep(c, w, Asked(c, w, read, Some(ask), payload), e)
  {
    assert Outdated(read, w.row);
    var fence := Version(Some(read.owner), read.version);
    var written := Write(c, w.row, fence, ask.kind, Some(ask.state), ask.patch, w.now, payload);
    if written.Wrote? {
      AskLegit(w.row, read, ask, e);
      LegitMoves(c, w.row, fence, ask.kind, ask.state, ask.patch, w.now, payload);
      RequestSealed(w.row, read, ask, written.row, written.action, e);
      AppendedRowStep(c, w, Commit(w, written.row, written.action), e, written.row, written.action);
    }
  }

  lemma AskLegit(row: Row, read: Row, ask: Ask, e: Event)
    requires RowOk(row) && read == row.(leaseUntil := read.leaseUntil)
    requires CancelAsk(read) == Some(ask)
             || (e.Resume? && ResumeAsk(read, e.authorized, e.settlement, e.inference) == Some(ask))
    ensures Legit(row, ask.kind, ask.state, ask.patch) && !IsDispatch(ask.kind)
  {
    if CancelAsk(read) == Some(ask) { CancelLegit(row, read); }
    else {
      ResumeLegit(row, read, e.authorized, e.settlement, e.inference);
      ResumeKinds(read, e.authorized, e.settlement, e.inference);
    }
  }

  lemma RequestSealed(row: Row, read: Row, ask: Ask, next: Row, a: Action, e: Event)
    requires RowOk(row) && read == row.(leaseUntil := read.leaseUntil)
    requires CancelAsk(read) == Some(ask)
             || (e.Resume? && ResumeAsk(read, e.authorized, e.settlement, e.inference) == Some(ask))
    requires AppliedOrStopped(row, ask.kind, ask.state, ask.patch, next, a)
    ensures !Terminal(row.status)
    ensures
      var s, t := row.sealed, next.sealed;
      && (s.phase == SettlementDispatched && t != s ==>
        && t.phase == Paid && next.step == row.step && t.pending.Some? && t.pending.value.settlementTx.Some?
        && SettlementProven(row, t, e))
      && (s.phase == InferenceDispatched && t != s ==>
        && next.step == row.step + 1 && |t.history| == row.step + 1 && t.history[..row.step] == s.history
        && InferenceProven(row, t, e))
  {}

  lemma NextRowStep(c: Config, w: World, e: Event)
    requires Inv(c, w)
    ensures RowStep(c, w, Next(c, w, e), e)
  {
    match e
    case Run(token, reply, io, payload) =>
      if token in w.runners && w.runners[token].pc.Saving? { SaveRowStep(c, w, token, reply, io, payload); }
      else {
        RunStays(c, w, token, reply, io, payload);
        NoRowStep(c, w, Next(c, w, e), e);
      }
    case Cancel(read, payload) =>
      if read in w.seen && CancelAsk(read).Some? { RequestRowStep(c, w, read, CancelAsk(read).value, payload, e); }
    case Resume(read, authorized, settlement, inference, payload) =>
      var ask := ResumeAsk(read, authorized, settlement, inference);
      if read in w.seen && ask.Some? { RequestRowStep(c, w, read, ask.value, payload, e); }
    case SweepLease(version, payload) => SweepRowStep(c, w, version, payload);
    case _ => UnjournaledStep(c, w, e);
  }

  lemma UnjournaledStep(c: Config, w: World, e: Event)
    requires !e.Run? && !e.Cancel? && !e.Resume? && !e.SweepLease?
    ensures RowStep(c, w, Next(c, w, e), e)
  {}

  lemma NoRowStep(c: Config, w: World, w1: World, e: Event)
    requires w1.row == w.row && w1.journal == w.journal
    ensures RowStep(c, w, w1, e)
  {}

  lemma RunStays(c: Config, w: World, token: Token, reply: Reply, io: Io, payload: nat)
    requires token in w.runners ==> !w.runners[token].pc.Saving?
    ensures var w1 := Next(c, w, Run(token, reply, io, payload)); w1.row == w.row && w1.journal == w.journal
  {
    if token in w.runners && w.runners[token].state.Some? {
      ProgressFrame(c, w, token, w.runners[token], w.runners[token].state.value, reply);
    }
  }

  lemma SweepRowStep(c: Config, w: World, version: nat, payload: nat)
    requires RowOk(w.row)
    ensures RowStep(c, w, DoSweep(c, w, version, payload), SweepLease(version, payload))
  {
    var written := Sweep(c, w.row, version, w.now, payload);
    if written.Wrote? { assert (w.journal + [written.action])[..|w.journal|] == w.journal; }
  }

  lemma NextKeepsRun(c: Config, w: World, e: Event)
    requires Inv(c, w)
    ensures SameRun(w.row, Next(c, w, e).row)
  {
    NextRowStep(c, w, e);
  }

  /** A persisted dispatch marker only leaves by a proof of outcome: the answer the dispatching runner
      saw, or the settled payment or stored response a reconciliation looked up. */
  lemma {:induction false} MarkerLeavesByProof(c: Config, o: Origin, es: seq<Event>, e: Event)
    requires Creatable(o)
    ensures var w := Exec(c, Start(c, o), es); SealedStep(w, Next(c, w, e), e)
  {
    ReachableOk(c, o, es);
    NextRowStep(c, Exec(c, Start(c, o), es), e);
  }

  // ----- endings -----

  lemma {:induction false} Absorbed(c: Config, w: World, more: seq<Event>)
    requires Inv(c, w) && Terminal(w.row.status)
    ensures Exec(c, w, more).row == w.row && Exec(c, w, more).journal == w.journal
  {
    if more != [] {
      Absorbed(c, w, more[..|more| - 1]);
      ExecKeeps(c, w, more[..|more| - 1]);
      NextRowStep(c, Exec(c, w, more[..|more| - 1]), more[|more| - 1]);
    }
  }

  /** A run that ended stays exactly as it ended, whatever happens afterwards. */
  lemma {:induction false} TerminalAbsorbs(c: Config, o: Origin, es: seq<Event>, more: seq<Event>)
    requires Creatable(o) && Terminal(Exec(c, Start(c, o), es).row.status)
    ensures
      var w := Exec(c, Start(c, o), es);
      Exec(c, w, more).row == w.row && Exec(c, w, more).journal == w.journal
  {
    ReachableOk(c, o, es);
    Absorbed(c, Exec(c, Start(c, o), es), more);
  }

  /** Once a cancel is committed no dispatch marker follows it, and none is committed at or after the deadline. */
  lemma {:induction false} NoDispatchAfterCancelOrDeadline(c: Config, o: Origin, es: seq<Event>)
    requires Creatable(o)
    ensures
      var w := Exec(c, Start(c, o), es);
      && (forall i, j :: 0 <= i < j < |w.journal| && w.journal[i].material.kind == CancelAsked
                         ==> !IsDispatch(w.journal[j].material.kind))
      && (forall i :: 0 <= i < |w.journal| && IsDispatch(w.journal[i].material.kind)
                      ==> w.journal[i].material.createdAt < o.limits.deadline)
  {
    ReachableOk(c, o, es);
    OriginKept(c, o, es);
  }

  // ----- the lease -----

  /** A run is running exactly while some token holds it. */
  lemma {:induction false} RunningIffLeased(c: Config, o: Origin, es: seq<Event>)
    requires Creatable(o)
    ensures var w := Exec(c, Start(c, o), es);
      w.row.status == Running <==> w.row.leaseToken.Some?
  {
    ReachableOk(c, o, es);
  }

  /** Between its saves a runner that holds the lease has in memory exactly the state that is persisted. */
  lemma {:induction false} HolderSeesPersistedState(c: Config, o: Origin, es: seq<Event>, token: Token)
    requires Creatable(o)
    ensures
      var w := Exec(c, Start(c, o), es);
      Holds(w.row, token) ==>
        && token in w.runners
        && var r := w.runners[token];
        && (!r.pc.Saving? && !r.pc.Opening? && !r.pc.Recovering? && !r.pc.Finished? ==> r.state == Some(w.row.sealed))
        && (r.pc.Saving? ==> r.state.Some? && Legit(w.row, r.pc.kind, r.state.value, r.pc.patch))
  {
    ReachableOk(c, o, es);
    var w := Exec(c, Start(c, o), es);
    if Holds(w.row, token) { assert RunnerOk(w, token, w.runners[token]); }
  }

  lemma {:induction false} NeverHoldsAgain(c: Config, w: World, token: Token, more: seq<Event>)
    requires Inv(c, w) && token < w.nextToken && !Holds(w.row, token)
    ensures var v := Exec(c, w, more); Inv(c, v) && token < v.nextToken && !Holds(v.row, token)
  {
    if more != [] {
      var v := Exec(c, w, more[..|more| - 1]);
      NeverHoldsAgain(c, w, token, more[..|more| - 1]);
      NextKeeps(c, v, more[|more| - 1]);
      NextHolder(c, v, token, more[|more| - 1]);
    }
  }

  /** No fenced update hands out a lease. */
  lemma WritesKeepOrClearLease(row: Row, fence: Fence, now: Time, m: Mutation)
    ensures var written := ChangeRow(row, fence, now, m);
      written.Wrote? ==> written.row.leaseToken == row.leaseToken || written.row.leaseToken.None?
  {}

  lemma AskHolder(c: Config, w: World, token: Token, read: Row, ask: Option<Ask>, payload: nat)
    requires token < w.nextToken && !Holds(w.row, token)
    ensures var v := Asked(c, w, read, ask, payload); token < v.nextToken && !Holds(v.row, token)
  {
    if ask.Some? {
      WritesKeepOrClearLease(w.row, Version(Some(read.owner), read.version), w.now,
        Mutate(c, w.row, ask.value.kind, Some(ask.value.state), ask.value.patch, w.now, payload));
    }
  }

  lemma SaveHolder(c: Config, w: World, token: Token, runner: Token, io: Io, payload: nat)
    requires token < w.nextToken && !Holds(w.row, token)
    requires runner in w.runners && w.runners[runner].pc.Saving?
    ensures var v := Save(c, w, runner, io, payload); token < v.nextToken && !Holds(v.row, token)
  {
    var r := w.runners[runner];
    WritesKeepOrClearLease(w.row, Held(runner), w.now,
                           Mutate(c, w.row, r.pc.kind, r.state, r.pc.patch, w.now, payload));
  }

  lemma ProgressHolder(c: Config, w: World, token: Token, runner: Token, r: Runner, s: State, reply: Reply)
    requires token < w.nextToken && !Holds(w.row, token)
    ensures var v := Progress(c, w, runner, r, s, reply); token < v.nextToken && !Holds(v.row, token)
  {
    if r.pc.Settling? { SettlingFrame(c, w, runner, r, s, reply); }
    else if r.pc.Inferring? { InferringFrame(c, w, runner, r, s, reply); }
    else { QuietFrame(c, w, runner, r, s, reply); }
  }

  lemma NextHolder(c: Config, w: World, token: Token, e: Event)
    requires token < w.nextToken && !Holds(w.row, token)
    ensures var v := Next(c, w, e); token < v.nextToken && !Holds(v.row, token)
  {
    match e
    case Cancel(read, payload) => AskHolder(c, w, token, read, CancelAsk(read), payload);
    case Resume(read, authorized, settlement, inference, payload) =>
      AskHolder(c, w, token, read, ResumeAsk(read, authorized, settlement, inference), payload);
    case SweepLease(version, payload) =>
      WritesKeepOrClearLease(w.row, Version(None, version), w.now, Expiry(c, w.row, w.now, payload));
    case Run(runner, reply, io, payload) =>
      if runner in w.runners {
        var r := w.runners[runner];
        if r.pc.Saving? { SaveHolder(c, w, token, runner, io, payload); }
        else if r.state.Some? { ProgressHolder(c, w, token, runner, r, r.state.value, reply); }
      }
    case _ =>
  }

  /** Between saves a runner touches neither the row nor the journal, and learns outcomes only from its own calls. */
  lemma ProgressFrame(c: Config, w: World, token: Token, r: Runner, s: State, reply: Reply)
    ensures
      var w1 := Progress(c, w, token, r, s, reply);
      && w1.row == w.row && w1.journal == w.journal && w.calls <= w1.calls && w.outcomes <= w1.outcomes
      && forall x :: x in w1.outcomes && x !in w.outcomes
                     ==> |w1.calls| == |w.calls| + 1 && Answers(x, w1.calls[|w.calls|])
  {
    if r.pc.Settling? { SettlingFrame(c, w, token, r, s, reply); }
    else if r.pc.Inferring? { InferringFrame(c, w, token, r, s, reply); }
    else { QuietFrame(c, w, token, r, s, reply); }
  }

  lemma QuietFrame(c: Config, w: World, token: Token, r: Runner, s: State, reply: Reply)
    requires !r.pc.Settling? && !r.pc.Inferring?
    ensures var w1 := Progress(c, w, token, r, s, reply); w1 == w.(runners := w1.runners)
  {
    if Quiet(r.pc) && !r.pc.Stopping? { QuietMoves(c, w, token, r, s, reply); }
  }

  lemma SettlingFrame(c: Config, w: World, token: Token, r: Runner, s: State, reply: Reply)
    requires r.pc.Settling?
    ensures
      var w1 := Progress(c, w, token, r, s, reply);
      && w1 == w.(runners := w1.runners, calls := w1.calls, outcomes := w1.outcomes)
      && ((w1.calls == w.calls && w1.outcomes == w.outcomes)
          || (|w1.calls| == |w.calls| + 1 && w1.calls == w.calls + [w1.calls[|w.calls|]]
              && w1.calls[|w.calls|].SettleCall? && w1.calls[|w.calls|].step == r.row.step
              && (w1.outcomes == w.outcomes
                  || (reply.Settled? && w1.outcomes == w.outcomes + {SettleSeen(r.row.step, reply.tx)}))))
  {}

  lemma InferringFrame(c: Config, w: World, token: Token, r: Runner, s: State, reply: Reply)
    requires r.pc.Inferring?
    ensures
      var w1 := Progress(c, w, token, r, s, reply);
      && w1 == w.(runners := w1.runners, calls := w1.calls, outcomes := w1.outcomes)
      && ((w1.calls == w.calls && w1.outcomes == w.outcomes)
          || (|w1.calls| == |w.calls| + 1 && w1.calls == w.calls + [w1.calls[|w.calls|]]
              && w1.calls[|w.calls|].InferCall? && w1.calls[|w.calls|].step == r.row.step
              && (w1.outcomes == w.outcomes
                  || (reply.Inferred? && w1.outcomes == w.outcomes + {InferSeen(r.row.step, reply.receipt)}))))
  {}

  predicate Answers(x: Outcome, call: Call) {
    match x
    case SettleSeen(k, _) => call.SettleCall? && call.step == k
    case InferSeen(k, _) => call.InferCall? && call.step == k
  }

  lemma SaveFrame(c: Config, w: World, token: Token, io: Io, payload: nat)
    requires token in w.runners && w.runners[token].pc.Saving?
    ensures var w1 := Save(c, w, token, io, payload);
      && w1.calls == w.calls && w1.outcomes == w.outcomes
      && (!Holds(w.row, token) ==> w1.row == w.row && w1.journal == w.journal)
  {
    var r := w.runners[token];
    OnlyTheHolderWrites(c, w.row, token, r.pc.kind, r.state, r.pc.patch, w.now, payload);
  }

  lemma StaleStep(c: Config, w: World, token: Token, reply: Reply, io: Io, payload: nat)
    requires !Holds(w.row, token)
    ensures var w1 := Next(c, w, Run(token, reply, io, payload));
      w1.row == w.row && w1.journal == w.journal
  {
    if token in w.runners {
      var r := w.runners[token];
      if r.pc.Saving? { SaveFrame(c, w, token, io, payload); }
      else if r.state.Some? { ProgressFrame(c, w, token, r, r.state.value, reply); }
    }
  }

  /** A runner that lost its lease can never publish: whatever it does later changes neither the row nor the journal. */
  lemma {:induction false} StaleRunnerNeverPublishes(c: Config, o: Origin, es: seq<Event>, token: Token,
                                                     more: seq<Event>, reply: Reply, io: Io, payload: nat)
    requires Creatable(o)
    requires token in Exec(c, Start(c, o), es).runners && !Holds(Exec(c, Start(c, o), es).row, token)
    ensures
      var v := Exec(c, Exec(c, Start(c, o), es), more);
      var v1 := Next(c, v, Run(token, reply, io, payload));
      v1.row == v.row && v1.journal == v.journal
  {
    ReachableOk(c, o, es);
    var w := Exec(c, Start(c, o), es);
    assert RunnerOk(w, token, w.runners[token]);
    NeverHoldsAgain(c, w, token, more);
    StaleStep(c, Exec(c, w, more), token, reply, io, payload);
  }

  // ----- outcomes come from calls -----

  ghost predicate Called(w: World, x: Outcome) {
    exists i :: 0 <= i < |w.calls| && Answers(x, w.calls[i])
  }

  lemma CallsGrow(c: Config, w: World, e: Event)
    ensures
      var w1 := Next(c, w, e);
      && w.calls <= w1.calls
      && forall x :: x in w1.outcomes && x !in w.outcomes
                     ==> |w1.calls| == |w.calls| + 1 && Answers(x, w1.calls[|w.calls|])
  {
    if e.Run? && e.token in w.runners {
      var r := w.runners[e.token];
      if r.pc.Saving? { SaveFrame(c, w, e.token, e.io, e.payload); }
      else if r.state.Some? { ProgressFrame(c, w, e.token, r, r.state.value, e.reply); }
    }
  }

  /** Every outcome a runner acts on answers a call that was made for that step. */
  lemma {:induction false} OutcomesAreAnswers(c: Config, o: Origin, es: seq<Event>, x: Outcome)
    requires x in Exec(c, Start(c, o), es).outcomes
    ensures Called(Exec(c, Start(c, o), es), x)
  {
    if es != [] {
      var w, e := Exec(c, Start(c, o), es[..|es| - 1]), es[|es| - 1];
      CallsGrow(c, w, e);
      var w1 := Next(c, w, e);
      if x in w.outcomes {
        OutcomesAreAnswers(c, o, es[..|es| - 1], x);
        var i :| 0 <= i < |w.calls| && Answers(x, w.calls[i]);
        assert Answers(x, w1.calls[i]);
      } else {
        assert Answers(x, w1.calls[|w.calls|]);
      }
    }
  }
}
