/** The host side of the run protocol as it is written: objects that read a row, build the next
    state in place, and hand it to the store.  Each method is the code between two points where
    other actors may run. */
module AgentHost {
  import opened Common
  import opened AgentStore
  import opened AgentRuntime

  /** Requests and sweeps against the store. */
  class RunHost {
    const store: AgentRunStore

    constructor (s: AgentRunStore)
      ensures store == s
    {
      store := s;
    }

    /** Commits a write fenced by the version that was read. */
    method WriteRead(read: Row, kind: Kind, state: State, patch: Patch, now: Time, payload: nat) returns (r: Written)
      requires store.Valid()
      modifies store
      ensures store.Valid()
      ensures read.id !in old(store.rows) ==> r == Refused(NotFound)
      ensures read.id in old(store.rows) ==>
        r == Write(store.config, old(store.rows)[read.id], Version(Some(read.owner), read.version), kind, Some(state),
                   patch, now, payload)
      ensures r.Refused? ==> store.rows == old(store.rows) && store.journals == old(store.journals)
      ensures r.Wrote? ==> store.rows == old(store.rows)[read.id := r.row]
      ensures r.Wrote? ==> store.journals == old(store.journals)[read.id := old(store.journals)[read.id] + [r.action]]
    {
      var c := store.config;
      r := store.Change(read.id, Version(Some(read.owner), read.version), now,
                        (row: Row) => Mutate(c, row, kind, Some(state), patch, now, payload));
    }

    /** Cancels a run: at once when nothing is in flight, otherwise by a request its runner will honour. */
    method Cancel(read: Row, now: Time, payload: nat) returns (r: Option<Written>)
      requires store.Valid() && read.id in store.rows && Open(read).Some?
      modifies store
      ensures store.Valid()
      ensures r.Some? == CancelAsk(read).Some?
      ensures r.None? ==> store.rows == old(store.rows) && store.journals == old(store.journals)
      ensures r.Some? ==>
        var ask := CancelAsk(read).value;
        && r.value == Write(store.config, old(store.rows)[read.id], Version(Some(read.owner), read.version), ask.kind,
                            Some(ask.state), ask.patch, now, payload)
        && store.rows == if r.value.Wrote? then old(store.rows)[read.id := r.value.row] else old(store.rows)
    {
      if Terminal(read.status) || read.cancelRequested { return None; }
      var patch := NoPatch.(cancel := true);
      if read.status != Running && read.status != OutcomeUnknown {
        patch := patch.(status := Some(Cancelled), clearLease := true);
      }
      var written := WriteRead(read, CancelAsked, read.sealed, patch, now, payload);
      r := Some(written);
    }

    /** Decides how to resume: by the proof of outcome the interrupted phase needs, or by an authorization. */
    method PrepareResume(read: Row, authorized: bool, settlement: Option<Proof>, inference: Option<Answer>)
        returns (ask: Option<Ask>)
      requires Open(read).Some?
      ensures ask == ResumeAsk(read, authorized, settlement, inference)
    {
      var state := read.sealed;
      var patch := NoPatch.(status := Some(if read.cancelRequested then Cancelled else Queued));
      if read.status == OutcomeUnknown {
        if state.phase == InferenceDispatched && state.pending.Some? {
          if inference.None? { return None; }
          var done := Completion(read, state, inference.value.receipt, inference.value.decision);
          if done.None? { return None; }
          return Some(Ask(InferenceCompleted, done.value.0, done.value.1));
        }
        if state.phase == SettlementDispatched && state.pending.Some? && state.pending.value.paymentId.Some? {
          if settlement.None? || !settlement.value.settled
            || Some(settlement.value.amount) != state.pending.value.amount {
            return None;
          }
          var pending := state.pending.value.(paid := true);
          pending := pending.(settlementTx := Some(settlement.value.tx));
          state := state.(pending := Some(pending));
          state := state.(phase := Paid);
          return Some(Ask(SettlementReconciled, state, patch.(spent := Some(read.spent + settlement.value.amount))));
        }
        return Some(Ask(PreparationResumed, state, patch));
      }
      if read.status != AwaitingPayment || state.phase != AwaitingAuthorization || state.pending.None? || !authorized {
        return None;
      }
      state := state.(phase := PaymentReady);
      ask := Some(Ask(PaymentAuthorized, state, NoPatch.(status := Some(Queued))));
    }

    method Resume(read: Row, authorized: bool, settlement: Option<Proof>, inference: Option<Answer>, now: Time,
                  payload: nat) returns (r: Option<Written>)
      requires store.Valid() && read.id in store.rows && Open(read).Some?
      modifies store
      ensures store.Valid()
      ensures r.Some? == ResumeAsk(read, authorized, settlement, inference).Some?
      ensures r.None? ==> store.rows == old(store.rows) && store.journals == old(store.journals)
      ensures r.Some? ==>
        var ask := ResumeAsk(read, authorized, settlement, inference).value;
        && r.value == Write(store.config, old(store.rows)[read.id], Version(Some(read.owner), read.version), ask.kind,
                            Some(ask.state), ask.patch, now, payload)
        && store.rows == if r.value.Wrote? then old(store.rows)[read.id := r.value.row] else old(store.rows)
    {
      var ask := PrepareResume(read, authorized, settlement, inference);
      if ask.None? { return None; }
      var written := WriteRead(read, ask.value.kind, ask.value.state, ask.value.patch, now, payload);
      r := Some(written);
    }

    /** One row found expired is marked only if it is still what was read, running, and expired under the lock. */
    method SweepOne(read: Row, now: Time, payload: nat)
      requires store.Valid()
      modifies store
      ensures store.Valid()
      ensures store.rows == if read.id in old(store.rows)
                            then old(store.rows)[read.id :=
                                AfterSweep(store.config, old(store.rows)[read.id], read.version, now, payload)]
                            else old(store.rows)
    {
      var c := store.config;
      var r := store.Change(read.id, Version(None, read.version), now, (row: Row) => Expiry(c, row, now, payload));
    }

    /** The lease sweep over rows found expired: each is marked only if it is still the row that was read,
        still running, and still expired under the lock. */
    method SweepExpired(expired: seq<Row>, now: Time, payload: nat)
      requires store.Valid()
      requires forall i, j :: 0 <= i < j < |expired| ==> expired[i].id != expired[j].id
      modifies store
      ensures store.Valid() && store.rows.Keys == old(store.rows).Keys
      ensures forall i :: 0 <= i < |expired| && expired[i].id in old(store.rows) ==>
        store.rows[expired[i].id] == AfterSweep(store.config, old(store.rows)[expired[i].id], expired[i].version, now,
                                                payload)
      ensures forall id :: id in store.rows && (forall i :: 0 <= i < |expired| ==> expired[i].id != id)
                           ==> store.rows[id] == old(store.rows)[id]
    {
      for k := 0 to |expired|
        invariant store.Valid()
        invariant store.rows == SweptRows(store.config, old(store.rows), expired[..k], now, payload)
      {
        assert expired[..k + 1][..k] == expired[..k];
        SweepOne(expired[k], now, payload);
      }
      assert expired[..|expired|] == expired;
      SweptEach(store.config, old(store.rows), expired, now, payload);
    }
  }

  function SweptRows(c: Config, rows: map<nat, Row>, expired: seq<Row>, now: Time, payload: nat): map<nat, Row> {
    if expired == [] then rows
    else
      var before, last := SweptRows(c, rows, expired[..|expired| - 1], now, payload), expired[|expired| - 1];
      if last.id in before then before[last.id := AfterSweep(c, before[last.id], last.version, now, payload)]
      else before
  }

  /** Rows found expired once each are swept once each, and no other row is. */
  lemma {:induction false} SweptEach(c: Config, rows: map<nat, Row>, expired: seq<Row>, now: Time, payload: nat)
    requires forall i, j :: 0 <= i < j < |expired| ==> expired[i].id != expired[j].id
    ensures
      var v := SweptRows(c, rows, expired, now, payload);
      && v.Keys == rows.Keys
      && (forall i :: 0 <= i < |expired| && expired[i].id in rows ==>
           v[expired[i].id] == AfterSweep(c, rows[expired[i].id], expired[i].version, now, payload))
      && (forall id :: id in v && (forall i :: 0 <= i < |expired| ==> expired[i].id != id) ==> v[id] == rows[id])
  {
    if expired != [] {
      var front := expired[..|expired| - 1];
      SweptEach(c, rows, front, now, payload);
      assert forall i :: 0 <= i < |front| ==> front[i].id == expired[i].id;
    }
  }

  /** One activation of the runner: the token it was given, the row and state it last saved. */
  class RunActivation {
    const store: AgentRunStore
    const token: Token
    var row: Row
    var state: State
    var lostLease: bool

    constructor (s: AgentRunStore, t: Token, r: Row)
      ensures store == s && token == t && row == r && state == r.sealed && !lostLease
    {
      store, token, row, state, lostLease := s, t, r, r.sealed, false;
    }

    /** Commits the state in memory under the lease; false means the run is no longer this runner's,
        or that a dispatch was denied admission. */
    method Save(kind: Kind, patch: Patch, now: Time, payload: nat) returns (saved: bool)
      requires store.Valid() && row.id in store.rows
      modifies this`row, store
      ensures store.Valid()
      ensures
        var written := Write(store.config, old(store.rows)[old(row.id)], Held(token), kind, Some(state), patch, now,
                             payload);
        if lostLease || written.Refused? then !saved && row == old(row) && store.rows == old(store.rows)
          && store.journals == old(store.journals)
        else
          && saved == (!IsDispatch(kind) || written.row.status == Running) && row == written.row
          && store.rows == old(store.rows)[old(row.id) := written.row]
          && store.journals == old(store.journals)[old(row.id) := old(store.journals)[old(row.id)] + [written.action]]
    {
      if lostLease { return false; }
      var c, s := store.config, state;
      var r := store.Change(row.id, Held(token), now, (current: Row) => Mutate(c, current, kind, Some(s), patch, now,
          payload));
      if r.Refused? { return false; }
      row := r.row;
      saved := !IsDispatch(kind) || row.status == Running;
    }

    /** Records a settled payment in the state in memory; the run's spending follows when it is saved. */
    method NotePayment(tx: nat) returns (patch: Patch)
      requires state.pending.Some? && state.pending.value.amount.Some?
      modifies this`state
      ensures state == Paying(old(state), tx)
      ensures patch == Patch(None, false, None, Some(row.spent + old(state).pending.value.amount.value), false)
    {
      var pending := state.pending.value.(paid := true);
      pending := pending.(settlementTx := Some(tx));
      state := state.(pending := Some(pending));
      state := state.(phase := Paid);
      patch := NoPatch.(spent := Some(row.spent + pending.amount.value));
    }

    /** Moves the finished step into the history and decides how the run goes on. */
    method NoteResult(receipt: Hash, decision: Decision) returns (patch: Option<Patch>)
      modifies this`state
      ensures patch.Some? == Completion(row, old(state), receipt, decision).Some?
      ensures patch.None? ==> state == old(state)
      ensures patch.Some? ==> (state, patch.value) == Completion(row, old(state), receipt, decision).value
    {
      if state.pending.None? { return None; }
      var p := state.pending.value;
      if p.paymentId.None? || p.settlementTx.None? || p.amount.None? { return None; }
      state := state.(history := state.history
                      + [Entry(receipt, p.paymentId.value, p.settlementTx.value, p.amount.value)]);
      state := state.(pending := None, phase := Phase.Ready);
      var status := Queued;
      if decision.Finish? { state := state.(final := true); }
      if row.cancelRequested { status := Cancelled; }
      else if decision.Malformed? { status := Failed; }
      else if decision.Finish? { status := Completed; }
      else if row.step + 1 >= row.limits.steps { status := Exhausted; }
      patch := Some(Patch(Some(status), true, Some(row.step + 1), None, false));
    }
  }
}
