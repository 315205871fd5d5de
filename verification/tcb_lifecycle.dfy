/** The versioned control plane of the software policy: initialize, propose, activate, each one
    transaction under the exclusive lifecycle lock.  Hashing a policy is modelled by the policy itself. */
module TcbLifecycle {
  import opened Common

  const MAXIMUM_VERSION: nat := 2_147_483_647

  datatype Policy = Policy(version: nat, image: string)
  datatype Status = Pending | Active | Retired
  datatype Binding = Legacy | OnChain | LocalFixture

  /** The request an activation key was first used for. */
  datatype Request = Request(version: nat, expected: nat)

  datatype Row = Row(version: nat, image: string, measurement: Policy, policyHash: Option<Policy>,
                     policyJson: Option<Policy>, status: Status, proposalKey: Option<string>,
                     activationKey: Option<string>, request: Option<Request>, binding: Option<Binding>, activated: bool)

  /** How an operation answered; only Inserted and Changed touch the table. */
  datatype Reply = Refused | Unchanged(row: nat) | Inserted(rows: seq<Row>, row: nat)
                 | Changed(rows: seq<Row>, row: nat)

  predicate VersionValid(v: nat) { 1 <= v <= MAXIMUM_VERSION }

  predicate KeyChar(c: char) {
    'A' <= c <= 'Z' || 'a' <= c <= 'z' || '0' <= c <= '9' || c == '.' || c == '_' || c == ':' || c == '-'
  }

  predicate KeyValid(key: string) { 1 <= |key| <= 128 && forall i :: 0 <= i < |key| ==> KeyChar(key[i]) }

  /** The policy a row stands for, if its columns agree. */
  function PolicyOf(r: Row): Option<Policy> {
    var policy := r.policyJson.GetOr(Policy(r.version, r.image));
    if r.version != policy.version || r.image != policy.image || r.measurement != policy
      || (r.policyHash.Some? && r.policyHash != Some(policy))
    then None else Some(policy)
  }

  /** The first row with a property. */
  function Find(rows: seq<Row>, f: Row -> bool): (i: Option<nat>)
    ensures i.Some? ==> i.value < |rows| && f(rows[i.value]) && forall j :: 0 <= j < i.value ==> !f(rows[j])
    ensures i.None? ==> forall j :: 0 <= j < |rows| ==> !f(rows[j])
  {
    if rows == [] then None
    else if f(rows[0]) then Some(0)
    else
      var rest := Find(rows[1..], f);
      assert forall j :: 1 <= j < |rows| ==> rows[j] == rows[1..][j - 1];
      if rest.None? then None else Some(rest.value + 1)
  }

  function ByVersion(rows: seq<Row>, v: nat): Option<nat> { Find(rows, (r: Row) => r.version == v) }

  function Latest(rows: seq<Row>): nat {
    if rows == [] then 0
    else
      var rest := Latest(rows[..|rows| - 1]);
      if rows[|rows| - 1].version > rest then rows[|rows| - 1].version else rest
  }

  /** The one active row; none, several, or an unbound one is an error. */
  function ActiveRow(rows: seq<Row>): Option<nat> {
    var first := Find(rows, (r: Row) => r.status == Active);
    if first.None? || Find(rows[first.value + 1..], (r: Row) => r.status == Active).Some?
      || rows[first.value].binding.None?
    then None else first
  }

  predicate Untouched(r: Row) { r.status == Pending && r.binding.None? && !r.activated && r.activationKey.None? }

  // ----- the three operations -----

  function Initialize(rows: seq<Row>, bootstrap: Policy): Reply {
    if !VersionValid(bootstrap.version) then Refused
    else
      var existing := ByVersion(rows, bootstrap.version);
      if existing.Some? && PolicyOf(rows[existing.value]) != Some(bootstrap) then Refused
      else if Find(rows, (r: Row) => r.status == Active).Some? then
        (if ActiveRow(rows).Some? then Unchanged(ActiveRow(rows).value) else Refused)
      else if Find(rows, (r: Row) => !Untouched(r)).Some? then Refused
      else if existing.Some? then
        Changed(rows[existing.value := rows[existing.value].(
                       policyHash := Some(bootstrap), policyJson := Some(bootstrap), status := Active,
                       binding := Some(Legacy), activated := true)], existing.value)
      else
        Inserted(rows + [Row(bootstrap.version, bootstrap.image, bootstrap, Some(bootstrap), Some(bootstrap), Active,
                             None, None, None, Some(Legacy), true)], |rows|)
  }

  function Propose(rows: seq<Row>, image: string, version: Option<nat>, key: string, imageValid: bool): Reply {
    var current := ActiveRow(rows);
    if current.None? || !imageValid || !KeyValid(key) then Refused
    else
      var repeated := Find(rows, (r: Row) => r.proposalKey == Some(key));
      if repeated.Some? then
        (if rows[repeated.value].image != image || (version.Some? && rows[repeated.value].version != version.value)
         then Refused
         else Unchanged(repeated.value))
      else
        var v := version.GetOr(Latest(rows) + 1);
        if !VersionValid(v) || ByVersion(rows, v).Some? || v <= rows[current.value].version then Refused
        else
          var policy := Policy(v, image);
          Inserted(rows + [Row(v, image, policy, Some(policy), Some(policy), Pending, Some(key), None, None, None,
                               false)], |rows|)
  }

  function Activate(rows: seq<Row>, version: nat, expected: nat, key: string, approval: Option<Binding>): Reply {
    if !VersionValid(version) || !VersionValid(expected) || !KeyValid(key) then Refused
    else
      var current := ActiveRow(rows);
      if current.None? then Refused
      else
        var target := ByVersion(rows, version);
        var repeated := Find(rows, (r: Row) => r.activationKey == Some(key));
        if repeated.Some?
          && (rows[repeated.value].version != version
              || rows[repeated.value].request != Some(Request(version, expected))) then Refused
        else if target.None? then Refused
        else if rows[target.value].status == Active && rows[target.value].activationKey == Some(key)
          then Unchanged(target.value)
        else if rows[current.value].version != expected then Refused
        else if rows[target.value].status != Pending || version <= rows[current.value].version then Refused
        else if PolicyOf(rows[target.value]).None? || approval.None? then Refused
        else
          var policy := PolicyOf(rows[target.value]).value;
          var retired := rows[current.value := rows[current.value].(status := Retired)];
          Changed(retired[target.value := retired[target.value].(
                            status := Active, policyHash := Some(policy), policyJson := Some(policy),
                            activationKey := Some(key), request := Some(Request(version, expected)),
                            binding := approval, activated := true)], target.value)
  }

  function After(rows: seq<Row>, r: Reply): seq<Row> {
    match r
    case Inserted(next, _) => next
    case Changed(next, _) => next
    case _ => rows
  }

  datatype Event = Init(bootstrap: Policy)
                 | Proposal(image: string, chosen: Option<nat>, key: string, imageValid: bool)
                 | Activation(version: nat, expected: nat, key: string, approval: Option<Binding>)

  function Answer(rows: seq<Row>, e: Event): Reply {
    match e
    case Init(bootstrap) => Initialize(rows, bootstrap)
    case Proposal(image, chosen, key, imageValid) => Propose(rows, image, chosen, key, imageValid)
    case Activation(version, expected, key, approval) => Activate(rows, version, expected, key, approval)
  }

  function Next(rows: seq<Row>, e: Event): seq<Row> { After(rows, Answer(rows, e)) }

  function Exec(rows: seq<Row>, es: seq<Event>): seq<Row> {
    if es == [] then rows else Next(Exec(rows, es[..|es| - 1]), es[|es| - 1])
  }

  /** The table behind the lifecycle; each method is one transaction under the exclusive lock. */
  class Lifecycle {
    var rows: seq<Row>

    constructor (seeded: seq<Row>)
      ensures rows == seeded
    {
      rows := seeded;
    }

    method DoInitialize(bootstrap: Policy) returns (ok: bool)
      modifies this
      ensures ok == !Initialize(old(rows), bootstrap).Refused?
      ensures rows == After(old(rows), Initialize(old(rows), bootstrap))
    {
      if !VersionValid(bootstrap.version) { return false; }
      var existing := ByVersion(rows, bootstrap.version);
      if existing.Some? && PolicyOf(rows[existing.value]) != Some(bootstrap) { return false; }
      if Find(rows, (r: Row) => r.status == Active).Some? { return ActiveRow(rows).Some?; }
      if Find(rows, (r: Row) => !Untouched(r)).Some? { return false; }
      if existing.Some? {
        var row := rows[existing.value].(policyHash := Some(bootstrap), policyJson := Some(bootstrap));
        rows := rows[existing.value := row.(status := Active, binding := Some(Legacy), activated := true)];
      } else {
        rows := rows + [Row(bootstrap.version, bootstrap.image, bootstrap, Some(bootstrap), Some(bootstrap), Active,
                            None, None, None, Some(Legacy), true)];
      }
      ok := true;
    }

    method DoPropose(image: string, version: Option<nat>, key: string, imageValid: bool) returns (row: Option<nat>)
      modifies this
      ensures var r := Propose(old(rows), image, version, key, imageValid);
        rows == After(old(rows), r) && row == (if r.Refused? then None else Some(r.row))
    {
      var current := ActiveRow(rows);
      if current.None? || !imageValid || !KeyValid(key) { return None; }
      var repeated := Find(rows, (r: Row) => r.proposalKey == Some(key));
      if repeated.Some? {
        if rows[repeated.value].image != image || (version.Some? && rows[repeated.value].version != version.value) {
          return None;
        }
        return repeated;
      }
      var v := version.GetOr(Latest(rows) + 1);
      if !VersionValid(v) || ByVersion(rows, v).Some? || v <= rows[current.value].version { return None; }
      var policy := Policy(v, image);
      row := Some(|rows|);
      rows := rows + [Row(v, image, policy, Some(policy), Some(policy), Pending, Some(key), None, None, None, false)];
    }

    method DoActivate(version: nat, expected: nat, key: string, approval: Option<Binding>)
        returns (row: Option<nat>, already: bool)
      modifies this
      ensures var r := Activate(old(rows), version, expected, key, approval);
        rows == After(old(rows), r) && row == (if r.Refused? then None else Some(r.row)) && already == r.Unchanged?
    {
      row, already := None, false;
      if !VersionValid(version) || !VersionValid(expected) || !KeyValid(key) { return; }
      var current := ActiveRow(rows);
      if current.None? { return; }
      var target := ByVersion(rows, version);
      var repeated := Find(rows, (r: Row) => r.activationKey == Some(key));
      if repeated.Some?
        && (rows[repeated.value].version != version
            || rows[repeated.value].request != Some(Request(version, expected))) {
        return;
      }
      if target.None? { return; }
      if rows[target.value].status == Active && rows[target.value].activationKey == Some(key) { return target, true; }
      if rows[current.value].version != expected || rows[target.value].status != Pending || version <= expected {
        return;
      }
      var policy := PolicyOf(rows[target.value]);
      if policy.None? || approval.None? { return; }
      rows := rows[current.value := rows[current.value].(status := Retired)];
      rows := rows[target.value := rows[target.value].(
                   status := Active, policyHash := policy, policyJson := policy, activationKey := Some(key),
                   request := Some(Request(version, expected)), binding := approval, activated := true)];
      row := target;
    }
  }

  // ----- the invariant -----

  /** Rows as a seed leaves them: nothing was ever active. */
  predicate Seeded(rows: seq<Row>) {
    && (forall i, j :: 0 <= i < j < |rows| ==> rows[i].version != rows[j].version)
    && (forall i, j :: 0 <= i < j < |rows| ==> !SameProposal(rows[i], rows[j]))
    && (forall i :: 0 <= i < |rows| ==> Untouched(rows[i]) && PolicyOf(rows[i]).Some?)
  }

  predicate SameActivation(a: Row, b: Row) { a.activationKey.Some? && a.activationKey == b.activationKey }

  predicate SameProposal(a: Row, b: Row) { a.proposalKey.Some? && a.proposalKey == b.proposalKey }

  /** Row `active` is the only active one, everything retired is older, and keys are used once. */
  predicate Governed(rows: seq<Row>, active: nat) {
    && active < |rows| && rows[active].status == Active && rows[active].binding.Some?
    && (forall i, j :: 0 <= i < j < |rows| ==> rows[i].version != rows[j].version)
    && (forall i, j :: 0 <= i < j < |rows| ==> !SameActivation(rows[i], rows[j]))
    && (forall i, j :: 0 <= i < j < |rows| ==> !SameProposal(rows[i], rows[j]))
    && (forall i :: 0 <= i < |rows|
                    ==> RowOk(rows[i], rows[active].version) && (rows[i].status == Active ==> i == active))
  }

  predicate RowOk(r: Row, activeVersion: nat) {
    && PolicyOf(r).Some?
    && (r.status == Retired ==> r.version < activeVersion)
    && (r.status == Pending ==> r.activationKey.None?)
  }

  lemma ActiveRowIs(rows: seq<Row>, active: nat)
    requires active < |rows| && rows[active].status == Active && rows[active].binding.Some?
    requires forall i :: 0 <= i < |rows| && rows[i].status == Active ==> i == active
    ensures ActiveRow(rows) == Some(active)
  {
    var first := Find(rows, (r: Row) => r.status == Active);
    assert rows[active].status == Active;
    assert first.value == active;
  }

  lemma InitializeStep(rows: seq<Row>, active: nat, bootstrap: Policy)
    requires Governed(rows, active)
    ensures After(rows, Initialize(rows, bootstrap)) == rows
  {
    ActiveRowIs(rows, active);
    assert rows[active].status == Active;
  }

  lemma ProposeStep(rows: seq<Row>, active: nat, image: string, version: Option<nat>, key: string, imageValid: bool)
    requires Governed(rows, active)
    ensures
      var next := After(rows, Propose(rows, image, version, key, imageValid));
      && rows <= next && Governed(next, active)
      && (next != rows
          ==> |next| == |rows| + 1 && next[|rows|].status == Pending && rows[active].version < next[|rows|].version)
  {
    ProposeShape(rows, active, image, version, key, imageValid);
    var next := After(rows, Propose(rows, image, version, key, imageValid));
    if next != rows {
      forall i, j | 0 <= i < j < |next|
        ensures !SameActivation(next[i], next[j]) && !SameProposal(next[i], next[j])
                && next[i].version != next[j].version
      {
        if j < |rows| { assert !SameActivation(rows[i], rows[j]) && !SameProposal(rows[i], rows[j]); }
      }
    }
  }

  /** A proposal adds one pending row with a new key and a new version, or nothing. */
  lemma ProposeShape(rows: seq<Row>, active: nat, image: string, version: Option<nat>, key: string, imageValid: bool)
    requires Governed(rows, active)
    ensures
      var next := After(rows, Propose(rows, image, version, key, imageValid));
      || next == rows
      || (|next| == |rows| + 1 && next[..|rows|] == rows
          && var added := next[|rows|];
          && added.status == Pending && added.activationKey.None? && PolicyOf(added).Some?
          && rows[active].version < added.version
          && forall i :: 0 <= i < |rows| ==> rows[i].version != added.version && !SameProposal(rows[i], added))
  {
    ActiveRowIs(rows, active);
  }

  /** The row that takes over, and what it takes over from. */
  predicate TakesOver(rows: seq<Row>, active: nat, next: seq<Row>, target: nat, asked: Request, key: string,
                      approval: Option<Binding>) {
    && active < |rows| && target < |rows| && target != active && rows[target].version == asked.version
    && rows[target].status == Pending
    && rows[active].version == asked.expected < asked.version && |next| == |rows|
    && next[active] == rows[active].(status := Retired)
    && next[target] == rows[target].(status := Active, policyHash := PolicyOf(rows[target]),
                                     policyJson := PolicyOf(rows[target]),
         activationKey := Some(key), request := Some(asked), binding := approval, activated := true)
    && approval.Some?
    && (forall i :: 0 <= i < |rows| && i != active && i != target ==> next[i] == rows[i])
    && (forall i :: 0 <= i < |rows| ==> rows[i].activationKey != Some(key))
  }

  lemma ActivateShape(rows: seq<Row>, active: nat, version: nat, expected: nat, key: string, approval: Option<Binding>)
    requires Governed(rows, active) && Activate(rows, version, expected, key, approval).Changed?
    ensures
      var Changed(next, target) := Activate(rows, version, expected, key, approval);
      TakesOver(rows, active, next, target, Request(version, expected), key, approval)
  {
    ActiveRowIs(rows, active);
  }

  lemma TakeOverKeeps(rows: seq<Row>, active: nat, next: seq<Row>, target: nat, asked: Request, key: string,
                      approval: Option<Binding>)
    requires Governed(rows, active) && TakesOver(rows, active, next, target, asked, key, approval)
    ensures Governed(next, target)
    ensures forall i :: 0 <= i < |rows| ==> PolicyOf(next[i]) == PolicyOf(rows[i]) && next[i].version == rows[i].version
  {
    assert RowOk(rows[target], rows[active].version);
    TakeOverDistinct(rows, active, next, target, asked, key, approval);
    forall i | 0 <= i < |next|
      ensures RowOk(next[i], next[target].version)
    {
      assert RowOk(rows[i], rows[active].version);
    }
  }

  lemma TakeOverDistinct(rows: seq<Row>, active: nat, next: seq<Row>, target: nat, asked: Request, key: string,
                         approval: Option<Binding>)
    requires Governed(rows, active) && TakesOver(rows, active, next, target, asked, key, approval)
    ensures forall i, j :: 0 <= i < j < |next| ==> !SameActivation(next[i], next[j]) && !SameProposal(next[i], next[j])
  {
    forall i, j | 0 <= i < j < |next| ensures !SameActivation(next[i], next[j]) && !SameProposal(next[i], next[j]) {
      assert !SameActivation(rows[i], rows[j]) && !SameProposal(rows[i], rows[j]);
    }
  }

  /** How one event moves a governed table: the active row stays, or a newer pending row takes over as asked. */
  predicate Handover(rows: seq<Row>, active: nat, e: Event, next: seq<Row>, nextActive: nat) {
    && Governed(rows, active) && Governed(next, nextActive) && |rows| <= |next|
    && (forall i :: 0 <= i < |rows| ==> PolicyOf(next[i]) == PolicyOf(rows[i]) && next[i].version == rows[i].version)
    && (nextActive == active
        || (e.Activation? && nextActive < |rows| && rows[nextActive].status == Pending
            && rows[active].version == e.expected < e.version == rows[nextActive].version
            && next[active].status == Retired))
  }

  lemma GovernedStep(rows: seq<Row>, active: nat, e: Event) returns (nextActive: nat)
    requires Governed(rows, active)
    ensures Handover(rows, active, e, Next(rows, e), nextActive)
    ensures nextActive != active <==> Answer(rows, e).Changed?
  {
    nextActive := active;
    match e
    case Init(_) => InitHandover(rows, active, e);
    case Proposal(_, _, _, _) => ProposalHandover(rows, active, e);
    case Activation(_, _, _, _) =>
      if Answer(rows, e).Changed? {
        nextActive := Answer(rows, e).row;
        ActivationHandover(rows, active, e);
      }
  }

  lemma InitHandover(rows: seq<Row>, active: nat, e: Event)
    requires Governed(rows, active) && e.Init?
    ensures Handover(rows, active, e, Next(rows, e), active) && !Answer(rows, e).Changed?
  {
    InitializeStep(rows, active, e.bootstrap);
    ActiveRowIs(rows, active);
  }

  lemma ProposalHandover(rows: seq<Row>, active: nat, e: Event)
    requires Governed(rows, active) && e.Proposal?
    ensures Handover(rows, active, e, Next(rows, e), active) && !Answer(rows, e).Changed?
  {
    ProposeStep(rows, active, e.image, e.chosen, e.key, e.imageValid);
  }

  lemma ActivationHandover(rows: seq<Row>, active: nat, e: Event)
    requires Governed(rows, active) && e.Activation? && Answer(rows, e).Changed?
    ensures Handover(rows, active, e, Next(rows, e), Answer(rows, e).row) && Answer(rows, e).row != active
  {
    ActivateShape(rows, active, e.version, e.expected, e.key, e.approval);
    TakeOverKeeps(rows, active, Next(rows, e), Answer(rows, e).row, Request(e.version, e.expected), e.key, e.approval);
  }

  // ----- every run -----

  /** Nothing was initialized yet, or exactly one policy is active. */
  ghost predicate Sound(rows: seq<Row>) { Seeded(rows) || InForce(rows) }

  /** Exactly one policy is active. */
  ghost predicate InForce(rows: seq<Row>) { exists active :: Governed(rows, active) }

  lemma CrownExisting(rows: seq<Row>, i: nat, row: Row)
    requires Seeded(rows) && i < |rows| && PolicyOf(row).Some? && row.status == Active && row.binding.Some?
    requires row.version == rows[i].version && row.activationKey.None? && row.proposalKey == rows[i].proposalKey
    ensures Governed(rows[i := row], i)
  {
    var next := rows[i := row];
    forall a, b | 0 <= a < b < |next|
      ensures !SameProposal(next[a], next[b])
    {
      assert !SameProposal(rows[a], rows[b]);
    }
  }

  lemma CrownNew(rows: seq<Row>, row: Row)
    requires Seeded(rows) && PolicyOf(row).Some? && row.status == Active && row.binding.Some?
    requires (forall i :: 0 <= i < |rows| ==> rows[i].version != row.version) && row.activationKey.None?
             && row.proposalKey.None?
    ensures Governed(rows + [row], |rows|)
  {}

  lemma FirstActive(rows: seq<Row>, bootstrap: Policy)
    requires Seeded(rows) && !Initialize(rows, bootstrap).Refused?
    ensures
      var r := Initialize(rows, bootstrap);
      (r.Changed? || r.Inserted?) && Governed(After(rows, r), r.row)
  {
    assert Find(rows, (r: Row) => r.status == Active).None?;
    var r := Initialize(rows, bootstrap);
    var existing := ByVersion(rows, bootstrap.version);
    if existing.Some? {
      CrownExisting(rows, existing.value, r.rows[existing.value]);
    } else {
      CrownNew(rows, r.rows[|rows|]);
    }
  }

  lemma NothingBeforeInit(rows: seq<Row>, e: Event)
    requires Seeded(rows) && !e.Init?
    ensures Next(rows, e) == rows
  {
    assert Find(rows, (r: Row) => r.status == Active).None?;
  }

  lemma SeededStep(rows: seq<Row>, e: Event)
    requires Seeded(rows)
    ensures Sound(Next(rows, e))
            && (e.Init? && !Answer(rows, e).Refused? ==> exists active :: Governed(Next(rows, e), active))
  {
    if !e.Init? { NothingBeforeInit(rows, e); }
    else if !Answer(rows, e).Refused? { FirstActive(rows, e.bootstrap); }
  }

  lemma {:induction false} ReachesSound(rows: seq<Row>, es: seq<Event>)
    requires Seeded(rows)
    ensures Sound(Exec(rows, es))
  {
    if es != [] {
      ReachesSound(rows, es[..|es| - 1]);
      var before, e := Exec(rows, es[..|es| - 1]), es[|es| - 1];
      if Seeded(before) {
        SeededStep(before, e);
      } else {
        var active :| Governed(before, active);
        var next := GovernedStep(before, active, e);
      }
    }
  }

  /** From a governed table on: one active row, its version never goes back, and no stored policy changes. */
  lemma {:induction false} GovernedForever(rows: seq<Row>, active: nat, es: seq<Event>) returns (later: nat)
    requires Governed(rows, active)
    ensures var v := Exec(rows, es);
      && Governed(v, later) && |rows| <= |v| && rows[active].version <= v[later].version
      && (later != active ==> rows[active].version < v[later].version)
      && forall i :: 0 <= i < |rows| ==> PolicyOf(v[i]) == PolicyOf(rows[i]) && v[i].version == rows[i].version
  {
    later := active;
    if es != [] {
      later := GovernedForever(rows, active, es[..|es| - 1]);
      later := GovernedStep(Exec(rows, es[..|es| - 1]), later, es[|es| - 1]);
    }
  }

  /** From any seeded table every sequence of operations leaves it merely seeded or with exactly one active policy, and
      once there is one, every further sequence keeps exactly one. */
  lemma {:induction false} AlwaysSound(rows: seq<Row>, es: seq<Event>, more: seq<Event>)
    requires Seeded(rows)
    ensures Sound(Exec(rows, es))
    ensures InForce(Exec(rows, es)) ==> InForce(Exec(Exec(rows, es), more))
  {
    ReachesSound(rows, es);
    if InForce(Exec(rows, es)) {
      var active :| Governed(Exec(rows, es), active);
      var later := GovernedForever(Exec(rows, es), active, more);
    }
  }

  /** A retired policy, and a pending one that a newer version overtook, never becomes active. */
  lemma {:induction false} OvertakenNeverActive(rows: seq<Row>, active: nat, i: nat, es: seq<Event>)
    requires Governed(rows, active) && i < |rows| && i != active
    requires rows[i].status == Retired || rows[i].version < rows[active].version
    ensures i < |Exec(rows, es)| && Exec(rows, es)[i].status != Active
  {
    var later := GovernedForever(rows, active, es);
    assert RowOk(rows[i], rows[active].version);
  }

  /** Activation keys are used by one row at most, in every table reached from a seed. */
  lemma {:induction false} ActivationKeysUnique(rows: seq<Row>, es: seq<Event>, i: nat, j: nat)
    requires Seeded(rows)
    ensures var v := Exec(rows, es);
      i < |v| && j < |v| && SameActivation(v[i], v[j]) ==> i == j
  {
    ReachesSound(rows, es);
    var v := Exec(rows, es);
    if i < |v| && j < |v| && i != j {
      if exists active :: Governed(v, active) {
        var active :| Governed(v, active);
        assert !SameActivation(v[if i < j then i else j], v[if i < j then j else i]);
      } else {
        assert Untouched(v[i]);
      }
    }
  }

  /** Of any activations racing on one expected version at most one changes the table: after the first that does,
      no later one does, whatever happened in between. */
  lemma {:induction false} RaceHasOneWinner(rows: seq<Row>, active: nat, winner: Event, between: seq<Event>,
                                            loser: Event)
    requires Governed(rows, active) && winner.Activation? && loser.Activation? && winner.expected == loser.expected
    requires Answer(rows, winner).Changed?
    ensures !Answer(Exec(Next(rows, winner), between), loser).Changed?
  {
    var first := GovernedStep(rows, active, winner);
    var later := GovernedForever(Next(rows, winner), first, between);
    var v := Exec(Next(rows, winner), between);
    ActiveRowIs(v, later);
  }

  /** Repeating a winning activation answers with the row it activated exactly while that row is active; afterwards
      it is refused.  Either way it changes nothing. */
  lemma {:induction false} RepeatReturnsWinner(rows: seq<Row>, active: nat, winner: Event, between: seq<Event>)
    requires Governed(rows, active) && winner.Activation? && Answer(rows, winner).Changed?
    ensures
      var target := Answer(rows, winner).row;
      var v := Exec(Next(rows, winner), between);
      && target < |v| && Next(v, winner) == v
      && Answer(v, winner) == if v[target].status == Active then Unchanged(target) else Refused
  {
    var first := GovernedStep(rows, active, winner);
    ActivateShape(rows, active, winner.version, winner.expected, winner.key, winner.approval);
    var target := Answer(rows, winner).row;
    TakeOverKeeps(rows, active, Next(rows, winner), target, Request(winner.version, winner.expected), winner.key,
                  winner.approval);
    var later := KeyStays(Next(rows, winner), target, target, between);
    RepeatAnswer(Exec(Next(rows, winner), between), later, target, winner);
  }

  lemma RepeatAnswer(v: seq<Row>, later: nat, target: nat, winner: Event)
    requires Governed(v, later) && winner.Activation? && target < |v| && v[target].version == winner.version
    requires v[target].activationKey == Some(winner.key)
             && v[target].request == Some(Request(winner.version, winner.expected))
    requires v[target].status != Pending && VersionValid(winner.version) && VersionValid(winner.expected)
             && KeyValid(winner.key)
    ensures Next(v, winner) == v && Answer(v, winner) == if v[target].status == Active then Unchanged(target)
            else Refused
  {
    ActiveRowIs(v, later);
    var found := ByVersion(v, winner.version);
    assert found == Some(target);
    var repeated := Find(v, (r: Row) => r.activationKey == Some(winner.key));
    if repeated.value != target { assert SameActivation(v[repeated.value], v[target]); }
  }

  /** The activation key and request of a row that was activated stay with it. */
  predicate KeptKey(r: Row, later: Row) {
    later.activationKey == r.activationKey && later.request == r.request && later.version == r.version
      && later.status != Pending
  }

  lemma KeyStaysOnce(rows: seq<Row>, active: nat, i: nat, e: Event)
    requires Governed(rows, active) && i < |rows| && rows[i].status != Pending
    ensures i < |Next(rows, e)| && KeptKey(rows[i], Next(rows, e)[i])
  {
    if e.Activation? && Answer(rows, e).Changed? {
      ActivateShape(rows, active, e.version, e.expected, e.key, e.approval);
    }
    if e.Proposal? { ProposeStep(rows, active, e.image, e.chosen, e.key, e.imageValid); }
    if e.Init? { InitializeStep(rows, active, e.bootstrap); }
  }

  lemma {:induction false} KeyStays(rows: seq<Row>, active: nat, i: nat, es: seq<Event>) returns (later: nat)
    requires Governed(rows, active) && i < |rows| && rows[i].status != Pending
    ensures var v := Exec(rows, es);
      Governed(v, later) && i < |v| && KeptKey(rows[i], v[i]) && rows[active].version <= v[later].version
  {
    later := active;
    if es != [] {
      later := KeyStays(rows, active, i, es[..|es| - 1]);
      var w, e := Exec(rows, es[..|es| - 1]), es[|es| - 1];
      KeyStaysOnce(w, later, i, e);
      later := GovernedStep(w, later, e);
    }
  }

  /** Once another activation has taken over, a repeat of the earlier winner is refused. */
  lemma {:induction false} OvertakenRepeatRefused(rows: seq<Row>, active: nat, winner: Event, between: seq<Event>,
                                                  overtaking: Event)
    requires Governed(rows, active) && winner.Activation? && Answer(rows, winner).Changed?
    requires overtaking.Activation? && Answer(Exec(Next(rows, winner), between), overtaking).Changed?
    ensures Answer(Next(Exec(Next(rows, winner), between), overtaking), winner) == Refused
  {
    var w := Next(rows, winner);
    var target := Answer(rows, winner).row;
    ActivateShape(rows, active, winner.version, winner.expected, winner.key, winner.approval);
    TakeOverKeeps(rows, active, w, target, Request(winner.version, winner.expected), winner.key, winner.approval);
    var before := KeyStays(w, target, target, between);
    var v := Exec(w, between);
    var now := GovernedStep(v, before, overtaking);
    RepeatReturnsWinner(rows, active, winner, between + [overtaking]);
    assert (between + [overtaking])[..|between|] == between;
  }

  function PolicyRow(version: nat, status: Status, proposed: Option<string>): Row {
    var policy := Policy(version, "image");
    Row(version, "image", policy, Some(policy), Some(policy), status, proposed, None, None,
        if status == Active then Some(Legacy) else None, status == Active)
  }

  const TwoPending: seq<Row> := [PolicyRow(1, Active, None), PolicyRow(2, Pending, Some("p")),
                                 PolicyRow(3, Pending, Some("q"))]

  /** Two activations in a row: the first succeeds, the second takes over, and repeating the first is refused. */
  lemma RepeatRefusedAfterTwoActivations()
    ensures
      var first := Activation(2, 1, "a", Some(OnChain));
      var second := Activation(3, 2, "b", Some(OnChain));
      && Answer(TwoPending, first).Changed? && Answer(Next(TwoPending, first), second).Changed?
      && Answer(Next(Next(TwoPending, first), second), first) == Refused
  {
    var first := Activation(2, 1, "a", Some(OnChain));
    var second := Activation(3, 2, "b", Some(OnChain));
    TwoPendingGoverned(TwoPending);
    BothActivate(TwoPending, first, second);
    OvertakenRepeatRefused(TwoPending, 0, first, [], second);
  }

  lemma TwoPendingGoverned(rows: seq<Row>)
    requires rows == TwoPending
    ensures Governed(rows, 0) && |rows| == 3 && rows[1].status == Pending && rows[2].status == Pending
    ensures rows[0].version == 1 && rows[1].version == 2 && rows[2].version == 3
    ensures forall i :: 0 <= i < |rows| ==> rows[i].activationKey.None?
  {}

  lemma BothActivate(rows: seq<Row>, first: Event, second: Event)
    requires Governed(rows, 0) && |rows| == 3 && rows[1].status == Pending && rows[2].status == Pending
    requires rows[0].version == 1 && rows[1].version == 2 && rows[2].version == 3
    requires forall i :: 0 <= i < |rows| ==> rows[i].activationKey.None?
    requires first == Activation(2, 1, "a", Some(OnChain)) && second == Activation(3, 2, "b", Some(OnChain))
    ensures Answer(rows, first).Changed? && Answer(Next(rows, first), second).Changed?
  {
    PendingActivates(rows, 0, 1, first);
    ActivateShape(rows, 0, 2, 1, "a", Some(OnChain));
    var w := Next(rows, first);
    TakeOverKeeps(rows, 0, w, 1, Request(2, 1), "a", Some(OnChain));
    PendingActivates(w, 1, 2, second);
  }

  /** A pending row newer than the active one activates under a fresh key and the active version. */
  lemma PendingActivates(rows: seq<Row>, active: nat, target: nat, e: Event)
    requires Governed(rows, active) && target < |rows| && rows[target].status == Pending && e.Activation?
             && e.approval.Some?
    requires e.version == rows[target].version && e.expected == rows[active].version < e.version
    requires VersionValid(e.version) && VersionValid(e.expected) && KeyValid(e.key)
    requires forall i :: 0 <= i < |rows| ==> rows[i].activationKey != Some(e.key)
    ensures Answer(rows, e).Changed? && Answer(rows, e).row == target
  {
    ActiveRowIs(rows, active);
    assert RowOk(rows[target], rows[active].version);
    var found := ByVersion(rows, e.version);
    assert found == Some(target);
  }
}
