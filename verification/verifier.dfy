/** Live cloud verdicts and their replay from an archive: the verdict and time layer.  Epoch seconds are reals;
    a recorded time is the whole second it was written as. */
module Verifier {
  import opened Common

  datatype Error = PolicyInvalid | PolicyExpired | GatewayMismatch | NvidiaTimeInvalid | Timeout | WorkloadNotApproved
                 | VerificationExpired | EvidenceInvalid | EvidenceDuplicate | ArchiveInvalid | ArchiveTimeInvalid
                 | ArchiveMismatch

  /** Signed NVIDIA tokens checked remotely, or raw evidence appraised by the reviewed local verifier. */
  datatype Mode = Nras | Local

  datatype Profile = Profile(model: nat, measurements: nat, compose: nat, actions: nat, image: nat, gpuCount: nat,
                             gpuModels: nat)
  datatype GatewayProfile = GatewayProfile(compose: nat, measurements: nat)
  datatype Policy = Policy(version: nat, mode: Mode, validFrom: real, validUntil: real, maxSession: int,
                           profiles: set<Profile>, gatewayProfiles: set<GatewayProfile>)

  datatype Token = Token(iat: int, nbf: int, exp: int)

  /** The NVIDIA evidence a verdict keeps: signed tokens, or the raw payload that is appraised anew. */
  datatype Bundle = Signed(tokens: seq<Token>) | Raw(payload: nat)

  /** Facts the hardware evidence proves, and proves again on replay. */
  datatype GatewayFacts = GatewayFacts(signer: nat, spki: nat, quote: nat, profile: GatewayProfile)
  datatype ModelFacts = ModelFacts(signer: nat, spki: nat, profile: Profile, payload: nat)

  datatype Candidate = Candidate(model: nat, input: nat, facts: ModelFacts)
  datatype Document = Document(nonce: nat, spki: nat, model: nat, gateway: GatewayFacts, candidates: seq<Candidate>)

  /** References are collision-free digests of what they bind. */
  datatype GatewayRef = GatewayRef(quote: nat, nonce: nat, spki: nat, version: nat)
  datatype ModelRef = ModelRef(input: nat, policy: Policy, evidence: Bundle)

  datatype GatewayVerdict = GatewayVerdict(signer: nat, spki: nat, reference: GatewayRef, verifiedAt: real,
                                           expiresAt: real, version: nat)
  datatype ModelVerdict = ModelVerdict(signer: nat, spki: nat, reference: ModelRef, verifiedAt: real, expiresAt: real,
                                       version: nat, profile: Profile, evidence: Bundle)
  datatype CloudVerdict = CloudVerdict(signers: seq<nat>, gatewaySigner: nat, spki: nat, model: nat,
                                       references: (GatewayRef, seq<ModelRef>), verifiedAt: real, expiresAt: real,
                                       version: nat, gateway: GatewayVerdict, models: seq<ModelVerdict>)

  const TOKEN_AGE := 300
  const TOKEN_SKEW := 5
  const ARCHIVE_SECONDS := 2_592_000.0
  const MAX_CANDIDATES := 32

  // ----- times -----

  /** A time as it is written down: the fraction of its second is dropped. */
  function Iso(t: real): real { t.Floor as real }

  function MinReal(a: real, b: real): real { if a <= b then a else b }

  function MinInt(a: int, b: int): int { if a <= b then a else b }

  predicate PolicyOk(p: Policy, now: real) { p.validFrom <= now < p.validUntil && 1 <= p.maxSession <= 300 }

  predicate TokenOk(t: Token, now: int) {
    && t.iat <= now + TOKEN_SKEW && now - t.iat <= TOKEN_AGE
    && t.nbf <= now + TOKEN_SKEW && now < t.exp && t.iat <= t.exp
  }

  function EarliestExp(tokens: seq<Token>): int
    requires tokens != []
  {
    if |tokens| == 1 then tokens[0].exp else MinInt(tokens[0].exp, EarliestExp(tokens[1..]))
  }

  /** How long the NVIDIA evidence lasts when inspected at `now`. */
  function NvidiaExpiry(b: Bundle, now: int): Result<int, Error> {
    match b
    case Raw(_) => Ok(now + TOKEN_AGE)
    case Signed(tokens) =>
      if tokens != [] && forall t <- tokens :: TokenOk(t, now) then Ok(EarliestExp(tokens)) else Err(NvidiaTimeInvalid)
  }

  // ----- single verdicts -----

  function GatewayVerdictOf(nonce: nat, p: Policy, f: GatewayFacts, now: real): Result<GatewayVerdict, Error> {
    if !PolicyOk(p, now) then Err(PolicyExpired)
    else if f.profile !in p.gatewayProfiles then Err(GatewayMismatch)
    else Ok(GatewayVerdict(f.signer, f.spki, GatewayRef(f.quote, nonce, f.spki, p.version),
                           Iso(now), Iso(MinReal(p.validUntil, now + p.maxSession as real)), p.version))
  }

  function ModelVerdictOf(input: nat, p: Policy, f: ModelFacts, bundle: Bundle, nvidiaExpiry: int, now: int)
      : Result<ModelVerdict, Error> {
    if !PolicyOk(p, now as real) then Err(PolicyExpired)
    else if f.profile !in p.profiles then Err(WorkloadNotApproved)
    else
      var expiry := MinInt(MinInt(now + p.maxSession, p.validUntil.Floor), nvidiaExpiry);
      if expiry <= now then Err(VerificationExpired)
      else Ok(ModelVerdict(f.signer, f.spki, ModelRef(input, p, bundle), now as real, expiry as real, p.version,
                           f.profile, bundle))
  }

  // ----- live verification -----

  /** When a candidate's verification began, its NVIDIA evidence was inspected, and its verdict was given, and the
      tokens the remote service answered with. */
  datatype ModelTimes = ModelTimes(started: real, inspected: real, finished: real, tokens: seq<Token>)
  datatype Times = Times(gateway: real, models: seq<ModelTimes>, done: real)

  function LiveBundle(p: Policy, c: Candidate, t: ModelTimes): Bundle {
    if p.mode.Local? then Raw(c.facts.payload) else Signed(t.tokens)
  }

  function VerifyModel(p: Policy, model: nat, c: Candidate, t: ModelTimes): Result<ModelVerdict, Error> {
    if c.model != model then Err(EvidenceInvalid)
    else if !PolicyOk(p, t.started) then Err(PolicyExpired)
    else
      var bundle := LiveBundle(p, c, t);
      var nvidia := NvidiaExpiry(bundle, t.inspected.Floor);
      if nvidia.Err? then Err(nvidia.error)
      else if t.finished.Floor as real - t.started > (if p.mode.Local? then 180.0 else 120.0) then Err(Timeout)
      else ModelVerdictOf(c.input, p, c.facts, bundle, nvidia.value, t.finished.Floor)
  }

  function VerifyModels(p: Policy, model: nat, cs: seq<Candidate>, ts: seq<ModelTimes>)
      : Result<seq<ModelVerdict>, Error>
    requires |cs| == |ts|
  {
    if cs == [] then Ok([])
    else
      var front := VerifyModels(p, model, cs[..|cs| - 1], ts[..|ts| - 1]);
      if front.Err? then front
      else
        var last := VerifyModel(p, model, cs[|cs| - 1], ts[|ts| - 1]);
        if last.Err? then Err(last.error) else Ok(front.value + [last.value])
  }

  function Earliest(first: real, vs: seq<ModelVerdict>): (r: real)
    ensures r <= first && forall v :: v in vs ==> r <= v.expiresAt
    ensures r == first || exists v :: v in vs && r == v.expiresAt
  {
    if vs == [] then first
    else
      var front := Earliest(first, vs[..|vs| - 1]);
      assert forall v :: v in vs ==> v in vs[..|vs| - 1] || v == vs[|vs| - 1];
      MinReal(front, vs[|vs| - 1].expiresAt)
  }

  function Signers(vs: seq<ModelVerdict>): seq<nat> { seq(|vs|, i requires 0 <= i < |vs| => vs[i].signer) }

  function References(vs: seq<ModelVerdict>): seq<ModelRef> { seq(|vs|, i requires 0 <= i < |vs| => vs[i].reference) }

  predicate Distinct(s: seq<nat>) { forall i, j :: 0 <= i < j < |s| ==> s[i] != s[j] }

  function Combine(d: Document, p: Policy, g: GatewayVerdict, vs: seq<ModelVerdict>, now: real): CloudVerdict {
    CloudVerdict(Signers(vs), g.signer, d.spki, d.model, (g.reference, References(vs)),
                 Iso(now), Iso(Earliest(g.expiresAt, vs)), p.version, g, vs)
  }

  function VerifyCloudSpec(d: Document, p: Policy, t: Times): Result<CloudVerdict, Error>
    requires |t.models| == |d.candidates|
  {
    if !(1 <= |d.candidates| <= MAX_CANDIDATES) then Err(EvidenceInvalid)
    else
      var g := GatewayVerdictOf(d.nonce, p, d.gateway, t.gateway);
      if g.Err? then Err(g.error)
      else
        var vs := VerifyModels(p, d.model, d.candidates, t.models);
        if vs.Err? then Err(vs.error)
        else if !Distinct(Signers(vs.value)) then Err(EvidenceDuplicate)
        else if Earliest(g.value.expiresAt, vs.value) <= t.done then Err(VerificationExpired)
        else Ok(Combine(d, p, g.value, vs.value, t.done))
  }

  /** Verifies the gateway and then every advertised model, stopping at the first that fails. */
  method VerifyCloud(d: Document, p: Policy, t: Times) returns (r: Result<CloudVerdict, Error>)
    requires |t.models| == |d.candidates|
    ensures r == VerifyCloudSpec(d, p, t)
  {
    if !(1 <= |d.candidates| <= MAX_CANDIDATES) { return Err(EvidenceInvalid); }
    var gateway := GatewayVerdictOf(d.nonce, p, d.gateway, t.gateway);
    if gateway.Err? { return Err(gateway.error); }
    var verified: seq<ModelVerdict> := [];
    var i := 0;
    while i < |d.candidates|
      invariant 0 <= i <= |d.candidates|
      invariant VerifyModels(p, d.model, d.candidates[..i], t.models[..i]) == Ok(verified)
    {
      var verdict := VerifyModel(p, d.model, d.candidates[i], t.models[i]);
      assert d.candidates[..i + 1][..i] == d.candidates[..i] && t.models[..i + 1][..i] == t.models[..i];
      if verdict.Err? {
        StopsThere(p, d.model, d.candidates, t.models, i + 1, verdict.error);
        return Err(verdict.error);
      }
      verified, i := verified + [verdict.value], i + 1;
    }
    assert d.candidates[..i] == d.candidates && t.models[..i] == t.models;
    if !Distinct(Signers(verified)) { return Err(EvidenceDuplicate); }
    if Earliest(gateway.value.expiresAt, verified) <= t.done { return Err(VerificationExpired); }
    return Ok(Combine(d, p, gateway.value, verified, t.done));
  }

  lemma {:induction false} StopsThere(p: Policy, model: nat, cs: seq<Candidate>, ts: seq<ModelTimes>, n: nat, e: Error)
    requires |cs| == |ts| && n <= |cs| && VerifyModels(p, model, cs[..n], ts[..n]) == Err(e)
    ensures VerifyModels(p, model, cs, ts) == Err(e)
    decreases |cs|
  {
    if n == |cs| {
      assert cs[..n] == cs && ts[..n] == ts;
    } else {
      var fc, ft := cs[..|cs| - 1], ts[..|ts| - 1];
      assert fc[..n] == cs[..n] && ft[..n] == ts[..n];
      StopsThere(p, model, fc, ft, n, e);
    }
  }

  // ----- replay -----

  /** The whole second a verdict was recorded at, if it is recent and was never valid for long. */
  function ArchiveTime(verifiedAt: real, expiresAt: real, now: real): Result<int, Error> {
    if verifiedAt == Iso(verifiedAt) && now - ARCHIVE_SECONDS <= verifiedAt <= now
      && verifiedAt < expiresAt <= verifiedAt + 300.0
    then Ok(verifiedAt.Floor) else Err(ArchiveTimeInvalid)
  }

  function ReplayModel(p: Policy, model: nat, c: Candidate, archived: ModelVerdict, gatewayTime: int, recorded: int,
                       now: real)
    : (r: Result<ModelVerdict, Error>)
    ensures r.Ok? ==> r.value == archived
  {
    if c.model != model then Err(EvidenceInvalid)
    else
      var time := ArchiveTime(archived.verifiedAt, archived.expiresAt, now);
      if time.Err? then Err(time.error)
      else if !(gatewayTime <= time.value <= recorded && recorded as real < archived.expiresAt)
        then Err(ArchiveTimeInvalid)
      else
        var bundle := archived.evidence;
        var nvidia := NvidiaExpiry(bundle, time.value);
        if (if p.mode.Local? then bundle != Raw(c.facts.payload) else bundle.Raw?) then Err(ArchiveInvalid)
        else if nvidia.Err? then Err(nvidia.error)
        else
          var rebuilt := ModelVerdictOf(c.input, p, c.facts, bundle, nvidia.value, time.value);
          if rebuilt.Ok? && rebuilt.value != archived then Err(ArchiveMismatch) else rebuilt
  }

  function ReplayModels(p: Policy, model: nat, cs: seq<Candidate>, archived: seq<ModelVerdict>, gatewayTime: int,
                        recorded: int, now: real)
    : (r: Result<seq<ModelVerdict>, Error>)
    requires |cs| == |archived|
    ensures r.Ok? ==> r.value == archived
  {
    if cs == [] then Ok([])
    else
      var front := ReplayModels(p, model, cs[..|cs| - 1], archived[..|cs| - 1], gatewayTime, recorded, now);
      if front.Err? then front
      else
        var last := ReplayModel(p, model, cs[|cs| - 1], archived[|cs| - 1], gatewayTime, recorded, now);
        assert archived == archived[..|cs| - 1] + [archived[|cs| - 1]];
        if last.Err? then Err(last.error) else Ok(front.value + [last.value])
  }

  /** The recorded seconds of the gateway verdict and of the whole, once archive, candidates and times fit together. */
  function ArchiveTimes(d: Document, archived: CloudVerdict, now: real): (r: Result<(int, int), Error>)
    ensures r.Ok? ==> |archived.models| == |d.candidates|
  {
    var recorded := ArchiveTime(archived.verifiedAt, archived.expiresAt, now);
    var gateway := ArchiveTime(archived.gateway.verifiedAt, archived.gateway.expiresAt, now);
    if recorded.Err? then Err(recorded.error)
    else if !(1 <= |d.candidates| <= MAX_CANDIDATES) then Err(EvidenceInvalid)
    else if |archived.models| != |d.candidates| then Err(ArchiveInvalid)
    else if gateway.Err? then Err(gateway.error)
    else if !(gateway.value <= recorded.value && recorded.value as real < archived.gateway.expiresAt)
      then Err(ArchiveTimeInvalid)
    else Ok((gateway.value, recorded.value))
  }

  /** What the rebuilt verdicts must satisfy together. */
  function Rejoin(d: Document, p: Policy, archived: CloudVerdict, g: GatewayVerdict, vs: seq<ModelVerdict>,
                  recorded: int, later: real)
    : Result<CloudVerdict, Error> {
    if !Distinct(Signers(vs)) then Err(EvidenceDuplicate)
    else if Earliest(g.expiresAt, vs) <= recorded as real then Err(ArchiveTimeInvalid)
    else
      var rebuilt := Combine(d, p, g, vs, recorded as real);
      if rebuilt != archived then Err(ArchiveMismatch)
      else if !PolicyOk(p, later) then Err(PolicyExpired)
      else Ok(rebuilt)
  }

  /** Replay between the instants `now` and `later`. */
  function ReplaySpec(d: Document, p: Policy, archived: CloudVerdict, now: real, later: real)
      : Result<CloudVerdict, Error> {
    if !PolicyOk(p, now) then Err(PolicyExpired)
    else
      var times := ArchiveTimes(d, archived, now);
      if times.Err? then Err(times.error)
      else
        var (gatewayTime, recorded) := times.value;
        var g := GatewayVerdictOf(d.nonce, p, d.gateway, gatewayTime as real);
        if g.Err? then Err(g.error)
        else if g.value != archived.gateway then Err(ArchiveMismatch)
        else
          var vs := ReplayModels(p, d.model, d.candidates, archived.models, gatewayTime, recorded, now);
          if vs.Err? then Err(vs.error) else Rejoin(d, p, archived, g.value, vs.value, recorded, later)
  }

  /** Rebuilds the model verdicts one after the other, stopping at the first that differs. */
  method ReplayCandidates(p: Policy, model: nat, cs: seq<Candidate>, archived: seq<ModelVerdict>, gatewayTime: int,
                          recorded: int, now: real)
    returns (r: Result<seq<ModelVerdict>, Error>)
    requires |cs| == |archived|
    ensures r == ReplayModels(p, model, cs, archived, gatewayTime, recorded, now)
  {
    var verified: seq<ModelVerdict> := [];
    var i := 0;
    while i < |cs|
      invariant 0 <= i <= |cs|
      invariant ReplayModels(p, model, cs[..i], archived[..i], gatewayTime, recorded, now) == Ok(verified)
    {
      var verdict := ReplayModel(p, model, cs[i], archived[i], gatewayTime, recorded, now);
      assert cs[..i + 1][..i] == cs[..i] && archived[..i + 1][..i] == archived[..i];
      if verdict.Err? {
        ReplayStopsThere(p, model, cs, archived, gatewayTime, recorded, now, i + 1, verdict.error);
        return Err(verdict.error);
      }
      verified, i := verified + [verdict.value], i + 1;
    }
    assert cs[..i] == cs && archived[..i] == archived;
    return Ok(verified);
  }

  method VerifyCloudArchive(d: Document, p: Policy, archived: CloudVerdict, now: real, later: real)
      returns (r: Result<CloudVerdict, Error>)
    ensures r == ReplaySpec(d, p, archived, now, later)
  {
    if !PolicyOk(p, now) { return Err(PolicyExpired); }
    var times := ArchiveTimes(d, archived, now);
    if times.Err? { return Err(times.error); }
    var (gatewayTime, recorded) := times.value;
    var gateway := GatewayVerdictOf(d.nonce, p, d.gateway, gatewayTime as real);
    if gateway.Err? { return Err(gateway.error); }
    if gateway.value != archived.gateway { return Err(ArchiveMismatch); }
    var verified := ReplayCandidates(p, d.model, d.candidates, archived.models, gatewayTime, recorded, now);
    if verified.Err? { return Err(verified.error); }
    r := Rejoin(d, p, archived, gateway.value, verified.value, recorded, later);
  }

  lemma {:induction false} ReplayStopsThere(p: Policy, model: nat, cs: seq<Candidate>, vs: seq<ModelVerdict>,
                                            gatewayTime: int, recorded: int, now: real, n: nat, e: Error)
    requires |cs| == |vs| && n <= |cs| && ReplayModels(p, model, cs[..n], vs[..n], gatewayTime, recorded, now) == Err(e)
    ensures ReplayModels(p, model, cs, vs, gatewayTime, recorded, now) == Err(e)
    decreases |cs|
  {
    if n == |cs| {
      assert cs[..n] == cs && vs[..n] == vs;
    } else {
      var fc, fv := cs[..|cs| - 1], vs[..|vs| - 1];
      assert fc[..n] == cs[..n] && fv[..n] == vs[..n];
      ReplayStopsThere(p, model, fc, fv, gatewayTime, recorded, now, n, e);
    }
  }
}
