/** When a live verdict survives its replay, and what its expiry promises. */
module VerifierRoundTrip {
  import opened Common
  import opened Verifier

  // ----- the clock -----

  predicate InTurn(from: real, t: ModelTimes, to: real) { from <= t.started <= t.inspected <= t.finished <= to }

  /** Every model was verified between the gateway and the end. */
  predicate Clocked(t: Times) {
    t.gateway <= t.done && forall i :: 0 <= i < |t.models| ==> InTurn(t.gateway, t.models[i], t.done)
  }

  // ----- one model -----

  /** The conditions under which the NVIDIA part of one verdict can be rebuilt from its recorded second alone. */
  predicate Replayable(p: Policy, c: Candidate, t: ModelTimes) {
    if p.mode.Local? then MinInt(t.finished.Floor + p.maxSession, p.validUntil.Floor) <= t.inspected.Floor + TOKEN_AGE
    else forall x <- t.tokens :: t.finished.Floor - x.iat <= TOKEN_AGE
  }

  lemma EarliestIsLeast(tokens: seq<Token>, bound: int)
    requires tokens != []
    ensures bound < EarliestExp(tokens) <==> forall x <- tokens :: bound < x.exp
  {
    if |tokens| > 1 {
      EarliestIsLeast(tokens[1..], bound);
      assert forall x :: x in tokens <==> x == tokens[0] || x in tokens[1..];
    } else {
      assert forall x :: x in tokens <==> x == tokens[0];
    }
  }

  /** Tokens that were fresh when inspected are still acceptable at a later second before their expiry exactly when
      none of them has become too old. */
  lemma TokensLater(tokens: seq<Token>, now: int, later: int)
    requires tokens != [] && (forall x <- tokens :: TokenOk(x, now)) && now <= later < EarliestExp(tokens)
    ensures (forall x <- tokens :: TokenOk(x, later)) <==> forall x <- tokens :: later - x.iat <= TOKEN_AGE
  {
    EarliestIsLeast(tokens, later);
  }

  lemma ModelShape(p: Policy, model: nat, c: Candidate, t: ModelTimes)
    requires VerifyModel(p, model, c, t).Ok?
    ensures
      var v := VerifyModel(p, model, c, t).value;
      var m := t.finished.Floor;
      var nvidia := NvidiaExpiry(LiveBundle(p, c, t), t.inspected.Floor);
      && nvidia.Ok? && c.model == model && PolicyOk(p, m as real) && c.facts.profile in p.profiles
      && v.verifiedAt == m as real && v.evidence == LiveBundle(p, c, t)
      && v.expiresAt == MinInt(MinInt(m + p.maxSession, p.validUntil.Floor), nvidia.value) as real
      && v.verifiedAt < v.expiresAt <= v.verifiedAt + 300.0
  {}

  /** The NVIDIA expiry found again at the recorded second. */
  lemma ExpiryAgain(p: Policy, c: Candidate, t: ModelTimes)
    requires VerifyModel(p, c.model, c, t).Ok? && t.inspected <= t.finished
    ensures
      var m := t.finished.Floor;
      var bundle := LiveBundle(p, c, t);
      var live, again := NvidiaExpiry(bundle, t.inspected.Floor), NvidiaExpiry(bundle, m);
      var limit := MinInt(m + p.maxSession, p.validUntil.Floor);
      Replayable(p, c, t) <==> again.Ok? && MinInt(limit, again.value) == MinInt(limit, live.value)
  {
    ModelShape(p, c.model, c, t);
    if p.mode.Nras? { TokensLater(t.tokens, t.inspected.Floor, t.finished.Floor); }
  }

  /** One recorded model verdict is rebuilt equal exactly when it is replayable and its second is at most 30 days
      old. */
  lemma ModelReplays(p: Policy, c: Candidate, t: ModelTimes, gateway: real, done: real, now: real)
    requires VerifyModel(p, c.model, c, t).Ok? && InTurn(gateway, t, done) && done <= now
    requires done < VerifyModel(p, c.model, c, t).value.expiresAt
    ensures
      var v := VerifyModel(p, c.model, c, t).value;
      var r := ReplayModel(p, c.model, c, v, gateway.Floor, done.Floor, now);
      && (r.Ok? <==> Replayable(p, c, t) && now - ARCHIVE_SECONDS <= v.verifiedAt)
      && (r.Ok? ==> r.value == v)
  {
    ModelShape(p, c.model, c, t);
    ExpiryAgain(p, c, t);
    var v := VerifyModel(p, c.model, c, t).value;
    assert v.verifiedAt.Floor == t.finished.Floor;
  }

  // ----- all models -----

  lemma {:induction false} ModelsShape(p: Policy, model: nat, cs: seq<Candidate>, ts: seq<ModelTimes>, i: nat)
    requires |cs| == |ts| && VerifyModels(p, model, cs, ts).Ok? && i < |cs|
    ensures
      var vs := VerifyModels(p, model, cs, ts).value;
      |vs| == |cs| && VerifyModel(p, model, cs[i], ts[i]) == Ok(vs[i]) && cs[i].model == model
    decreases |cs|
  {
    ModelShape(p, model, cs[|cs| - 1], ts[|cs| - 1]);
    if |cs| > 1 { ModelsShape(p, model, cs[..|cs| - 1], ts[..|cs| - 1], if i < |cs| - 1 then i else 0); }
    if i == |cs| - 1 && i == 0 { assert cs[..0] == []; }
  }

  predicate Accepts(p: Policy, model: nat, c: Candidate, v: ModelVerdict, gateway: int, done: int, now: real) {
    ReplayModel(p, model, c, v, gateway, done, now).Ok?
  }

  lemma ReplaySnoc(p: Policy, model: nat, cs: seq<Candidate>, vs: seq<ModelVerdict>, gateway: int, done: int, now: real)
    requires |cs| == |vs| && cs != []
    ensures
      var n := |cs| - 1;
      ReplayModels(p, model, cs, vs, gateway, done, now).Ok? <==>
        ReplayModels(p, model, cs[..n], vs[..n], gateway, done, now).Ok?
          && Accepts(p, model, cs[n], vs[n], gateway, done, now)
  {}

  /** The replayed models are accepted exactly when each of them is. */
  lemma {:induction false} ReplayAll(p: Policy, model: nat, cs: seq<Candidate>, vs: seq<ModelVerdict>, gateway: int,
                                     done: int, now: real, good: set<nat>)
    requires |cs| == |vs| && forall i: nat ::
             i < |cs| ==> (i in good <==> Accepts(p, model, cs[i], vs[i], gateway, done, now))
    ensures ReplayModels(p, model, cs, vs, gateway, done, now).Ok? <==> forall i: nat :: i < |cs| ==> i in good
    decreases |cs|
  {
    if cs != [] {
      var n := |cs| - 1;
      ReplaySnoc(p, model, cs, vs, gateway, done, now);
      forall i: nat | i < n ensures i in good <==> Accepts(p, model, cs[..n][i], vs[..n][i], gateway, done, now) {}
      ReplayAll(p, model, cs[..n], vs[..n], gateway, done, now, good);
    }
  }

  predicate AllReplayable(d: Document, p: Policy, t: Times)
    requires |t.models| == |d.candidates|
  {
    forall i :: 0 <= i < |d.candidates| ==> Replayable(p, d.candidates[i], t.models[i])
  }

  lemma IsoGrows(a: real, b: real)
    requires a <= b
    ensures Iso(a) <= Iso(b) && a.Floor <= b.Floor
  {}

  lemma ModelsReplay(d: Document, p: Policy, t: Times, now: real)
    requires |t.models| == |d.candidates| && VerifyModels(p, d.model, d.candidates, t.models).Ok? && t.done <= now
    requires Clocked(t) && now - ARCHIVE_SECONDS <= Iso(t.gateway)
    requires forall v <- VerifyModels(p, d.model, d.candidates, t.models).value :: t.done < v.expiresAt
    ensures |VerifyModels(p, d.model, d.candidates, t.models).value| == |d.candidates|
    ensures
      var vs := VerifyModels(p, d.model, d.candidates, t.models).value;
      var r := ReplayModels(p, d.model, d.candidates, vs, t.gateway.Floor, t.done.Floor, now);
      (r.Ok? <==> AllReplayable(d, p, t)) && (r.Ok? ==> r.value == vs)
  {
    var vs := VerifyModels(p, d.model, d.candidates, t.models).value;
    if d.candidates != [] { ModelsShape(p, d.model, d.candidates, t.models, 0); }
    var good := set i: nat | i < |d.candidates| && Replayable(p, d.candidates[i], t.models[i]);
    forall i: nat | i < |d.candidates|
      ensures i in good <==> Accepts(p, d.model, d.candidates[i], vs[i], t.gateway.Floor, t.done.Floor, now)
    {
      ModelsShape(p, d.model, d.candidates, t.models, i);
      assert vs[i] in vs;
      OneReplays(d, p, t, now, i, vs[i]);
    }
    ReplayAll(p, d.model, d.candidates, vs, t.gateway.Floor, t.done.Floor, now, good);
  }

  lemma OneReplays(d: Document, p: Policy, t: Times, now: real, i: nat, v: ModelVerdict)
    requires i < |t.models| == |d.candidates| && VerifyModel(p, d.model, d.candidates[i], t.models[i]) == Ok(v)
             && d.candidates[i].model == d.model
    requires Clocked(t) && t.done <= now && now - ARCHIVE_SECONDS <= Iso(t.gateway) && t.done < v.expiresAt
    ensures Accepts(p, d.model, d.candidates[i], v, t.gateway.Floor, t.done.Floor, now)
            <==> Replayable(p, d.candidates[i], t.models[i])
  {
    assert InTurn(t.gateway, t.models[i], t.done);
    ModelReplays(p, d.candidates[i], t.models[i], t.gateway, t.done, now);
    ModelShape(p, d.model, d.candidates[i], t.models[i]);
    IsoGrows(t.gateway, t.models[i].finished);
  }

  // ----- the gateway -----

  lemma FloorAdd(x: real, k: int)
    ensures (x + k as real).Floor == x.Floor + k
  {}

  /** The truncated gateway verdict is rebuilt equal from its recorded second, provided the policy was already valid at
      that second. */
  lemma GatewayReplays(nonce: nat, p: Policy, f: GatewayFacts, g: real)
    requires GatewayVerdictOf(nonce, p, f, g).Ok?
    ensures
      var v := GatewayVerdictOf(nonce, p, f, g).value;
      var r := GatewayVerdictOf(nonce, p, f, Iso(g));
      && v.verifiedAt == Iso(g) && v.expiresAt <= v.verifiedAt + 300.0
      && (r.Ok? <==> p.validFrom <= Iso(g)) && (r.Ok? ==> r.value == v)
  {
    FloorAdd(g, p.maxSession);
    assert Iso(g).Floor == g.Floor;
    FloorAdd(Iso(g), p.maxSession);
  }

  // ----- the round trip -----

  /** What replaying a live verdict needs beyond the reproduced facts. */
  predicate Survives(d: Document, p: Policy, t: Times, now: real, later: real)
    requires |t.models| == |d.candidates|
  {
    && p.validFrom <= Iso(t.gateway) && now - ARCHIVE_SECONDS <= Iso(t.gateway) && later < p.validUntil
    && AllReplayable(d, p, t)
  }

  lemma LiveShape(d: Document, p: Policy, t: Times)
    requires |t.models| == |d.candidates| && VerifyCloudSpec(d, p, t).Ok?
    ensures
      var v := VerifyCloudSpec(d, p, t).value;
      && GatewayVerdictOf(d.nonce, p, d.gateway, t.gateway) == Ok(v.gateway)
      && VerifyModels(p, d.model, d.candidates, t.models) == Ok(v.models)
      && v == Combine(d, p, v.gateway, v.models, t.done)
      && t.done < Earliest(v.gateway.expiresAt, v.models) && Distinct(Signers(v.models))
      && 1 <= |d.candidates| <= MAX_CANDIDATES
  {}

  lemma {:induction false} EarliestWhole(first: real, vs: seq<ModelVerdict>)
    requires Iso(first) == first && forall v <- vs :: Iso(v.expiresAt) == v.expiresAt
    ensures Iso(Earliest(first, vs)) == Earliest(first, vs)
  {
    if vs != [] { EarliestWhole(first, vs[..|vs| - 1]); }
  }

  lemma ModelsWhole(d: Document, p: Policy, t: Times)
    requires |t.models| == |d.candidates| && VerifyModels(p, d.model, d.candidates, t.models).Ok?
    ensures
      var vs := VerifyModels(p, d.model, d.candidates, t.models).value;
      |vs| == |d.candidates| && forall i :: 0 <= i < |vs| ==>
        Iso(vs[i].expiresAt) == vs[i].expiresAt && vs[i].verifiedAt == Iso(t.models[i].finished)
          && vs[i].expiresAt <= vs[i].verifiedAt + 300.0
  {
    var vs := VerifyModels(p, d.model, d.candidates, t.models).value;
    if d.candidates != [] { ModelsShape(p, d.model, d.candidates, t.models, 0); }
    forall i | 0 <= i < |d.candidates|
      ensures Iso(vs[i].expiresAt) == vs[i].expiresAt && vs[i].verifiedAt == Iso(t.models[i].finished)
              && vs[i].expiresAt <= vs[i].verifiedAt + 300.0
    {
      ModelsShape(p, d.model, d.candidates, t.models, i);
      ModelShape(p, d.model, d.candidates[i], t.models[i]);
    }
  }

  /** The expiry of a live verdict lies after its end, at most 300 seconds after its recorded second, and no later than
      the gateway's or any model's expiry, or the policy's end; and it is one of those. */
  lemma {:induction false} ExpiryIsTightest(d: Document, p: Policy, t: Times)
    requires |t.models| == |d.candidates| && Clocked(t)
    ensures VerifyCloudSpec(d, p, t).Ok? ==>
      var v := VerifyCloudSpec(d, p, t).value;
      && v.expiresAt == Earliest(v.gateway.expiresAt, v.models)
      && v.expiresAt <= v.gateway.expiresAt && (forall m <- v.models :: v.expiresAt <= m.expiresAt)
      && t.done < v.expiresAt <= v.verifiedAt + 300.0 && v.expiresAt <= p.validUntil
      && v.verifiedAt == Iso(t.done)
  {
    if VerifyCloudSpec(d, p, t).Ok? {
      LiveShape(d, p, t);
      var v := VerifyCloudSpec(d, p, t).value;
      GatewayReplays(d.nonce, p, d.gateway, t.gateway);
      ModelsWhole(d, p, t);
      EarliestWhole(v.gateway.expiresAt, v.models);
      IsoGrows(t.gateway, t.done);
    }
  }

  /** A verdict returned by the live verification is accepted by the archive and rebuilt equal, at any later time,
      exactly when it survives: the policy was valid at the gateway's truncated second, the gateway's second is at most
      30 days old, the policy has not ended, and no model's NVIDIA evidence depends on having been inspected earlier
      than the second that was recorded. */
  lemma {:induction false} RoundTrip(d: Document, p: Policy, t: Times, now: real, later: real)
    requires |t.models| == |d.candidates| && Clocked(t) && t.done <= now <= later
    ensures
      var live := VerifyCloudSpec(d, p, t);
      live.Ok? ==>
        var r := ReplaySpec(d, p, live.value, now, later);
        (r.Ok? <==> Survives(d, p, t, now, later)) && (r.Ok? ==> r.value == live.value)
  {
    if VerifyCloudSpec(d, p, t).Ok? {
      var v := VerifyCloudSpec(d, p, t).value;
      GatewaySecond(d, p, t);
      if now - ARCHIVE_SECONDS <= Iso(t.gateway) { RecentRoundTrip(d, p, t, v, now, later); }
      else { TooOld(d, p, v, now, later); }
    }
  }

  lemma GatewaySecond(d: Document, p: Policy, t: Times)
    requires |t.models| == |d.candidates| && VerifyCloudSpec(d, p, t).Ok?
    ensures VerifyCloudSpec(d, p, t).value.gateway.verifiedAt == Iso(t.gateway)
  {}

  lemma TooOld(d: Document, p: Policy, v: CloudVerdict, now: real, later: real)
    requires now - ARCHIVE_SECONDS > v.gateway.verifiedAt
    ensures ReplaySpec(d, p, v, now, later).Err?
  {}

  lemma RecentRoundTrip(d: Document, p: Policy, t: Times, v: CloudVerdict, now: real, later: real)
    requires |t.models| == |d.candidates| && Clocked(t) && t.done <= now <= later && VerifyCloudSpec(d, p, t) == Ok(v)
    requires now - ARCHIVE_SECONDS <= Iso(t.gateway)
    ensures
      var r := ReplaySpec(d, p, v, now, later);
      (r.Ok? <==> p.validFrom <= Iso(t.gateway) && AllReplayable(d, p, t) && later < p.validUntil)
        && (r.Ok? ==> r.value == v)
  {
    LiveShape(d, p, t);
    ExpiryIsTightest(d, p, t);
    GatewayReplays(d.nonce, p, d.gateway, t.gateway);
    ModelsReplay(d, p, t, now);
    ArchiveTimesOk(d, p, t, v, now);
    ReplayFromTimes(d, p, t, v, now, later);
  }

  lemma ArchiveTimesOk(d: Document, p: Policy, t: Times, v: CloudVerdict, now: real)
    requires t.gateway <= t.done <= now && now - ARCHIVE_SECONDS <= Iso(t.gateway)
    requires v.verifiedAt == Iso(t.done) && t.done < v.expiresAt <= v.verifiedAt + 300.0
    requires v.gateway.verifiedAt == Iso(t.gateway) && t.done < v.gateway.expiresAt <= v.gateway.verifiedAt + 300.0
    ensures ArchiveTime(v.verifiedAt, v.expiresAt, now) == Ok(t.done.Floor)
    ensures ArchiveTime(v.gateway.verifiedAt, v.gateway.expiresAt, now) == Ok(t.gateway.Floor)
    ensures t.gateway.Floor <= t.done.Floor && t.done.Floor as real < v.gateway.expiresAt
  {
    IsoGrows(t.gateway, t.done);
    assert Iso(t.done).Floor == t.done.Floor && Iso(t.gateway).Floor == t.gateway.Floor;
  }

  /** With its times and its gateway accepted, a verdict is rebuilt from its models. */
  lemma ReplayFromGateway(d: Document, p: Policy, v: CloudVerdict, gateway: int, done: int, now: real, later: real)
    requires PolicyOk(p, now) && 1 <= |d.candidates| <= MAX_CANDIDATES && |v.models| == |d.candidates|
             && Distinct(Signers(v.models))
    requires ArchiveTime(v.verifiedAt, v.expiresAt, now) == Ok(done)
             && ArchiveTime(v.gateway.verifiedAt, v.gateway.expiresAt, now) == Ok(gateway)
    requires gateway <= done && done as real < v.gateway.expiresAt
    requires GatewayVerdictOf(d.nonce, p, d.gateway, gateway as real) == Ok(v.gateway)
    requires done as real < Earliest(v.gateway.expiresAt, v.models)
             && Combine(d, p, v.gateway, v.models, done as real) == v
    ensures
      var r := ReplaySpec(d, p, v, now, later);
      (r.Ok? <==> ReplayModels(p, d.model, d.candidates, v.models, gateway, done, now).Ok? && PolicyOk(p, later))
        && (r.Ok? ==> r.value == v)
  {}

  /** With its times accepted, a live verdict is rebuilt from the gateway and the models. */
  lemma ReplayFromTimes(d: Document, p: Policy, t: Times, v: CloudVerdict, now: real, later: real)
    requires |t.models| == |d.candidates| && VerifyCloudSpec(d, p, t) == Ok(v) && t.gateway <= t.done <= now <= later
             && |v.models| == |d.candidates|
    requires ArchiveTime(v.verifiedAt, v.expiresAt, now) == Ok(t.done.Floor)
    requires ArchiveTime(v.gateway.verifiedAt, v.gateway.expiresAt, now) == Ok(t.gateway.Floor)
    requires t.gateway.Floor <= t.done.Floor && t.done.Floor as real < v.gateway.expiresAt
    requires var g := GatewayVerdictOf(d.nonce, p, d.gateway, Iso(t.gateway));
             (g.Ok? <==> p.validFrom <= Iso(t.gateway)) && (g.Ok? ==> g.value == v.gateway)
    ensures
      var r := ReplaySpec(d, p, v, now, later);
      var vs := ReplayModels(p, d.model, d.candidates, v.models, t.gateway.Floor, t.done.Floor, now);
      (r.Ok? <==> p.validFrom <= Iso(t.gateway) && vs.Ok? && later < p.validUntil) && (r.Ok? ==> r.value == v)
  {
    LiveShape(d, p, t);
    PolicyThen(d, p, t);
    if p.validFrom <= Iso(t.gateway) && PolicyOk(p, now) {
      assert Combine(d, p, v.gateway, v.models, t.done.Floor as real) == v;
      ReplayFromGateway(d, p, v, t.gateway.Floor, t.done.Floor, now, later);
    }
  }

  lemma PolicyThen(d: Document, p: Policy, t: Times)
    requires |t.models| == |d.candidates| && VerifyCloudSpec(d, p, t).Ok?
    ensures PolicyOk(p, t.gateway)
  {}

  /** With whole-second policy bounds, and models inspected and judged within the same second, every live verdict
      survives 30 days or the policy, whichever ends first. */
  lemma {:induction false} PromptVerdictsSurvive(d: Document, p: Policy, t: Times, now: real, later: real)
    requires |t.models| == |d.candidates| && Clocked(t) && t.done <= now <= later
    requires Iso(p.validFrom) == p.validFrom
    requires forall i :: 0 <= i < |t.models| ==> t.models[i].finished.Floor == t.models[i].inspected.Floor
    requires now - ARCHIVE_SECONDS <= Iso(t.gateway) && later < p.validUntil
    ensures var live := VerifyCloudSpec(d, p, t); live.Ok? ==> ReplaySpec(d, p, live.value, now, later) == live
  {
    if VerifyCloudSpec(d, p, t).Ok? {
      RoundTrip(d, p, t, now, later);
      PromptSurvives(d, p, t);
    }
  }

  lemma PromptSurvives(d: Document, p: Policy, t: Times)
    requires |t.models| == |d.candidates| && VerifyCloudSpec(d, p, t).Ok? && Iso(p.validFrom) == p.validFrom
    requires forall i :: 0 <= i < |t.models| ==> t.models[i].finished.Floor == t.models[i].inspected.Floor
    ensures p.validFrom <= Iso(t.gateway) && AllReplayable(d, p, t)
  {
    LiveShape(d, p, t);
    IsoGrows(p.validFrom, t.gateway);
    forall i | 0 <= i < |d.candidates| ensures Replayable(p, d.candidates[i], t.models[i]) {
      ModelsShape(p, d.model, d.candidates, t.models, i);
      PromptIsReplayable(p, d.candidates[i], t.models[i]);
    }
  }

  lemma PromptIsReplayable(p: Policy, c: Candidate, t: ModelTimes)
    requires VerifyModel(p, c.model, c, t).Ok? && t.finished.Floor == t.inspected.Floor
    ensures Replayable(p, c, t)
  {
    ModelShape(p, c.model, c, t);
  }

  /** An archive accepts nothing but the verdict it rebuilds. */
  lemma ReplayIsFaithful(d: Document, p: Policy, archived: CloudVerdict, now: real, later: real)
    requires ReplaySpec(d, p, archived, now, later).Ok?
    ensures
      && ReplaySpec(d, p, archived, now, later).value == archived
      && archived.verifiedAt < archived.expiresAt <= archived.verifiedAt + 300.0 && archived.verifiedAt <= now
      && archived.expiresAt <= archived.gateway.expiresAt && forall m <- archived.models ::
         archived.expiresAt <= m.expiresAt
  {}

  lemma ModelDetermined(p: Policy, model: nat, c: Candidate, a: ModelVerdict, b: ModelVerdict, ga: int, gb: int,
                        da: int, db: int, na: real, nb: real)
    requires ReplayModel(p, model, c, a, ga, da, na).Ok? && ReplayModel(p, model, c, b, gb, db, nb).Ok?
    requires a.verifiedAt == b.verifiedAt && a.evidence == b.evidence
    ensures a == b
  {}

  lemma {:induction false} ModelsDetermined(p: Policy, model: nat, cs: seq<Candidate>, a: seq<ModelVerdict>,
                                            b: seq<ModelVerdict>, ga: int, gb: int, da: int, db: int, na: real,
                                            nb: real)
    requires |a| == |b| == |cs|
    requires ReplayModels(p, model, cs, a, ga, da, na).Ok? && ReplayModels(p, model, cs, b, gb, db, nb).Ok?
    requires forall i :: 0 <= i < |cs| ==> a[i].verifiedAt == b[i].verifiedAt && a[i].evidence == b[i].evidence
    ensures a == b
    decreases |cs|
  {
    if cs != [] {
      var n := |cs| - 1;
      ReplaySnoc(p, model, cs, a, ga, da, na);
      ReplaySnoc(p, model, cs, b, gb, db, nb);
      ModelsDetermined(p, model, cs[..n], a[..n], b[..n], ga, gb, da, db, na, nb);
      ModelDetermined(p, model, cs[n], a[n], b[n], ga, gb, da, db, na, nb);
      assert a == a[..n] + [a[n]] && b == b[..n] + [b[n]];
    }
  }

  /** What the archive accepts leaves no room for alteration: under one document and policy, two accepted verdicts with
      the same recorded times and the same NVIDIA evidence are equal in every field. */
  lemma {:induction false} ArchiveDetermined(d: Document, p: Policy, a: CloudVerdict, b: CloudVerdict, na: real,
                                             la: real, nb: real, lb: real)
    requires ReplaySpec(d, p, a, na, la).Ok? && ReplaySpec(d, p, b, nb, lb).Ok?
    requires a.verifiedAt == b.verifiedAt && a.gateway.verifiedAt == b.gateway.verifiedAt
    requires forall i :: 0 <= i < |a.models| && i < |b.models| ==>
      a.models[i].verifiedAt == b.models[i].verifiedAt && a.models[i].evidence == b.models[i].evidence
    ensures a == b
  {
    AcceptedParts(d, p, a, na, la);
    AcceptedParts(d, p, b, nb, lb);
    ModelsDetermined(p, d.model, d.candidates, a.models, b.models, a.gateway.verifiedAt.Floor,
                     b.gateway.verifiedAt.Floor, a.verifiedAt.Floor, b.verifiedAt.Floor, na, nb);
  }

  /** An accepted verdict is its gateway's and its models' verdicts, each rebuilt, and their combination. */
  lemma AcceptedParts(d: Document, p: Policy, v: CloudVerdict, now: real, later: real)
    requires ReplaySpec(d, p, v, now, later).Ok?
    ensures |v.models| == |d.candidates|
    ensures ReplayModels(p, d.model, d.candidates, v.models, v.gateway.verifiedAt.Floor, v.verifiedAt.Floor, now).Ok?
    ensures GatewayVerdictOf(d.nonce, p, d.gateway, v.gateway.verifiedAt.Floor as real) == Ok(v.gateway)
    ensures v == Combine(d, p, v.gateway, v.models, v.verifiedAt.Floor as real)
  {
    ReplayIsFaithful(d, p, v, now, later);
  }

  // ----- verdicts that do not survive -----

  const WORKLOAD := Profile(0, 0, 0, 0, 0, 1, 0)
  const GATEWAY := GatewayProfile(0, 0)

  function Sample(mode: Mode, validFrom: real): (Document, Policy) {
    (Document(0, 0, 0, GatewayFacts(1, 0, 0, GATEWAY), [Candidate(0, 0, ModelFacts(2, 0, WORKLOAD, 0))]),
     Policy(0, mode, validFrom, 1_000_000.0, 300, {WORKLOAD}, {GATEWAY}))
  }

  /** A local appraisal that ends one second after its inspection is refused on replay. */
  lemma LateLocalVerdictRefused()
    ensures
      var (d, p) := Sample(Local, 0.0);
      var t := Times(1000.0, [ModelTimes(1000.0, 1000.0, 1001.0, [])], 1001.0);
      var v := VerifyCloudSpec(d, p, t);
      v.Ok? && v.value.models[0].expiresAt == 1300.0 && ReplaySpec(d, p, v.value, 1002.0, 1002.0).Err?
  {
    var (d, p) := Sample(Local, 0.0);
    var t := Times(1000.0, [ModelTimes(1000.0, 1000.0, 1001.0, [])], 1001.0);
    SampleVerified(d, p, t);
    ModelShape(p, 0, d.candidates[0], t.models[0]);
    RoundTrip(d, p, t, 1002.0, 1002.0);
    assert !Replayable(p, d.candidates[0], t.models[0]);
  }

  /** A token at the end of its age when inspected is too old at the second the verdict records. */
  lemma AgedTokenRefused()
    ensures
      var (d, p) := Sample(Nras, 0.0);
      var t := Times(1000.0, [ModelTimes(1000.0, 1000.0, 1001.0, [Token(700, 700, 2000)])], 1001.0);
      var v := VerifyCloudSpec(d, p, t);
      v.Ok? && ReplaySpec(d, p, v.value, 1002.0, 1002.0).Err?
  {
    var (d, p) := Sample(Nras, 0.0);
    var t := Times(1000.0, [ModelTimes(1000.0, 1000.0, 1001.0, [Token(700, 700, 2000)])], 1001.0);
    SampleVerified(d, p, t);
    RoundTrip(d, p, t, 1002.0, 1002.0);
    assert Token(700, 700, 2000) in t.models[0].tokens;
    assert !Replayable(p, d.candidates[0], t.models[0]);
  }

  /** A policy that began within the gateway's second was not yet valid at the second the verdict records. */
  lemma FractionalStartRefused()
    ensures
      var (d, p) := Sample(Local, 1000.25);
      var t := Times(1000.5, [ModelTimes(1001.0, 1001.0, 1001.0, [])], 1001.0);
      var v := VerifyCloudSpec(d, p, t);
      v.Ok? && ReplaySpec(d, p, v.value, 1002.0, 1002.0).Err?
  {
    var (d, p) := Sample(Local, 1000.25);
    var t := Times(1000.5, [ModelTimes(1001.0, 1001.0, 1001.0, [])], 1001.0);
    SampleVerified(d, p, t);
    assert Iso(t.gateway) == 1000.0;
    RoundTrip(d, p, t, 1002.0, 1002.0);
  }

  lemma SampleVerified(d: Document, p: Policy, t: Times)
    requires |d.candidates| == |t.models| == 1 && d.model == d.candidates[0].model
    requires GatewayVerdictOf(d.nonce, p, d.gateway, t.gateway).Ok?
             && VerifyModel(p, d.model, d.candidates[0], t.models[0]).Ok?
    requires t.done < GatewayVerdictOf(d.nonce, p, d.gateway, t.gateway).value.expiresAt
    requires t.done < VerifyModel(p, d.model, d.candidates[0], t.models[0]).value.expiresAt
    ensures
      var m := VerifyModel(p, d.model, d.candidates[0], t.models[0]).value;
      VerifyCloudSpec(d, p, t).Ok? && VerifyCloudSpec(d, p, t).value.models == [m]
  {
    assert VerifyModels(p, d.model, d.candidates[..0], t.models[..0]) == Ok([]);
  }
}
