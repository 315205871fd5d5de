/** The hash-chained journal of a run, as a reader checks it. */
module AgentJournal {
  import opened Common
  import opened AgentStore
  import opened AgentRuntime
  import opened AgentSafety
  import opened AgentTheorems

  /** The loop that reads a journal back against the row: it accepts exactly the chains that end
      at the recorded head and length. */
  method CheckJournal(c: Config, id: nat, actions: seq<Action>, head: Hash, sequence: nat) returns (valid: bool)
    ensures valid <==> Chained(c, id, actions, head) && |actions| == sequence
  {
    var previous := ZERO;
    var index := 0;
    while index < |actions|
      invariant 0 <= index <= |actions|
      invariant Chained(c, id, actions[..index], previous)
    {
      var a := actions[index];
      var m := a.material;
      var expected := c.mac(Material(id, m.sequence, m.kind, previous, m.payload, m.createdAt));
      if m.runId != id || m.sequence != index + 1 || m.previous != previous || a.actionHash != expected {
        BrokenLink(c, id, actions, index, previous, head);
        return false;
      }
      assert actions[..index + 1][..index] == actions[..index];
      previous := a.actionHash;
      index := index + 1;
    }
    assert actions[..index] == actions;
    if Chained(c, id, actions, head) { HeadIsUnique(c, id, actions, previous, head); }
    valid := previous == head && |actions| == sequence;
  }

  lemma HeadIsUnique(c: Config, id: nat, actions: seq<Action>, head: Hash, other: Hash)
    requires Chained(c, id, actions, head) && Chained(c, id, actions, other)
    ensures head == other
  {}

  /** The link into a position of a chain is determined by what comes before it. */
  lemma {:induction false} LinkInto(c: Config, id: nat, actions: seq<Action>, index: nat, head: Hash)
    requires Chained(c, id, actions, head) && index < |actions|
    ensures
      var a := actions[index];
      && a.actionHash == c.mac(a.material) && a.material.runId == id && a.material.sequence == index + 1
      && Chained(c, id, actions[..index], a.material.previous)
  {
    if index < |actions| - 1 {
      var front := actions[..|actions| - 1];
      LinkInto(c, id, front, index, actions[|actions| - 1].material.previous);
      assert front[..index] == actions[..index];
    }
  }

  lemma BrokenLink(c: Config, id: nat, actions: seq<Action>, index: nat, previous: Hash, head: Hash)
    requires index < |actions| && Chained(c, id, actions[..index], previous)
    requires
      var a := actions[index];
      a.material.runId != id || a.material.sequence != index + 1 || a.material.previous != previous
        || a.actionHash != c.mac(a.material.(previous := previous, runId := id))
    ensures !Chained(c, id, actions, head)
  {
    if Chained(c, id, actions, head) {
      LinkInto(c, id, actions, index, head);
      HeadIsUnique(c, id, actions[..index], previous, actions[index].material.previous);
      assert false;
    }
  }

  /** With an injective MAC that never gives the zero head, one head admits one journal: every
      hashed field of every action is determined by it. */
  lemma {:induction false} HeadDeterminesJournal(c: Config, id: nat, one: seq<Action>, other: seq<Action>, head: Hash)
    requires forall m, n :: c.mac(m) == c.mac(n) ==> m == n
    requires forall m :: c.mac(m) != ZERO
    requires Chained(c, id, one, head) && Chained(c, id, other, head)
    ensures one == other
  {
    if one == [] || other == [] {
      assert one == [] && other == [];
    } else {
      var a, b := one[|one| - 1], other[|other| - 1];
      assert a.material == b.material;
      HeadDeterminesJournal(c, id, one[..|one| - 1], other[..|other| - 1], a.material.previous);
      assert one == one[..|one| - 1] + [a];
      assert other == other[..|other| - 1] + [b];
    }
  }

  lemma {:induction false} VersionsGrow(c: Config, w: World, es: seq<Event>)
    requires Inv(c, w)
    ensures
      var v := Exec(c, w, es);
      && w.row.version <= v.row.version
      && (w.row.version == v.row.version ==> v.journal == w.journal && v.row == w.row.(leaseUntil := v.row.leaseUntil))
  {
    if es != [] {
      VersionsGrow(c, w, es[..|es| - 1]);
      ExecKeeps(c, w, es[..|es| - 1]);
      NextRowStep(c, Exec(c, w, es[..|es| - 1]), es[|es| - 1]);
    }
  }

  /** A reader takes the row, then the actions, then the row again while other actors run in between.
      When the two versions agree, the check of the actions against the first row succeeds. */
  lemma {:induction false} SnapshotAccepted(c: Config, o: Origin, before: seq<Event>, between: seq<Event>,
                                            after: seq<Event>)
    requires Creatable(o)
    ensures
      var first := Exec(c, Start(c, o), before);
      var second := Exec(c, first, between);
      var third := Exec(c, second, after);
      third.row.version == first.row.version ==>
        && Chained(c, first.row.id, second.journal, first.row.ledgerHead)
        && |second.journal| == first.row.ledgerSequence
        && Open(first.row) == Some(first.row.sealed)
  {
    ReachableOk(c, o, before);
    var first := Exec(c, Start(c, o), before);
    ExecKeeps(c, first, between);
    var second := Exec(c, first, between);
    VersionsGrow(c, first, between);
    VersionsGrow(c, second, after);
  }
}
