/**
 Minting and verifying execution permits: `mint_permit` and `verify_permit` of
 proofrail/permit.py and `verify_database_migration_permit` of
 proofrail/migration.py.
 */
module Permits {
  import opened Hashing
  import opened TrustState

  /** Keys, and what the program relies on to read and write timestamps and to
      parse hexadecimal numbers (`int(value, 16)`). */
  datatype Env = Env(
    suite: Suite,
    verifierKey: Key,
    checkpointKey: Key,
    parseTime: string -> Option<int>,
    formatTime: int -> string,
    hexInt: string -> bool)
  {
    /** A timestamp that was written can be read back. */
    ghost predicate ClockValid() {
      forall t :: formatTime(t) != "" && parseTime(formatTime(t)) == Some(t)
    }
  }

  /** The codes of `PermitError` (and `NotComparable` for a `TypeError`). */
  datatype PermitCode =
    | InvalidSignature
    | InvalidPermitKind
    | InvalidPermitState
    | IssuerRoleForbidden
    | Missing(field: Field)
    | InvalidTimestamp
    | PermitExpired
    | Changed(field: Field)
    | CheckpointEpochTooOld
    | NotComparable
    | TrustCheckpointMissing
    | TrustCheckpointInvalid
    | PermitReplayed
    | InvalidNonce
    | InvalidPermitId
    | UnsupportedMergeMethod
    | InvalidPullNumber
    | InvalidRepository
    | InvalidField(field: Field)

  function FirstOf(a: Option<PermitCode>, b: Option<PermitCode>): Option<PermitCode> {
    if a.Some? then a else b
  }

  function Unless(holds: bool, code: PermitCode): Option<PermitCode> {
    if holds then None else Some(code)
  }

  // ----- verification

  datatype Expected = Expected(identity: string, evidence: string, policy: string, state: string, approval: string)

  /** `_trust_values`: what verification compares a permit's trust terms with. */
  datatype TrustValues = TrustValues(epoch: Json, counter: Json, replay: string, checkpoint: Json, observation: Json)

  /** One entry of `comparisons`. */
  datatype Comparison = Comparison(field: Field, expected: Json)

  function FirstChange(fields: Record, comparisons: seq<Comparison>): Option<PermitCode> {
    if comparisons == [] then None
    else if Get(fields, comparisons[0].field) != comparisons[0].expected then Some(Changed(comparisons[0].field))
    else FirstChange(fields, comparisons[1..])
  }

  lemma {:induction false} NoChangeMeansAllMatch(fields: Record, comparisons: seq<Comparison>)
    ensures FirstChange(fields, comparisons) == None
      <==> forall i :: 0 <= i < |comparisons| ==> Get(fields, comparisons[i].field) == comparisons[i].expected
  {
    if comparisons != [] {
      NoChangeMeansAllMatch(fields, comparisons[1..]);
      assert forall i :: 1 <= i < |comparisons| ==> comparisons[i] == comparisons[1..][i - 1];
      assert forall i :: 0 <= i < |comparisons| - 1 ==> comparisons[1..][i] == comparisons[i + 1];
    }
  }

  function VerifyHead(env: Env, permit: Record, kind: Constant, now: int): Option<PermitCode> {
    if !VerifySignature(env.suite, permit, env.verifierKey) then Some(InvalidSignature)
    else if Get(permit, Kind) != Fixed(kind) then Some(InvalidPermitKind)
    else if Get(permit, State) != Fixed(PermittedState) then Some(InvalidPermitState)
    else if !Get(permit, Issuer).Obj? || Get(Get(permit, Issuer).fields, Role) !in {Fixed(Verifier), Fixed(Governor)} then
      Some(IssuerRoleForbidden)
    else if !Get(permit, ExpiresAt).Str? || Get(permit, ExpiresAt).s == "" then Some(Missing(ExpiresAt))
    else match env.parseTime(Get(permit, ExpiresAt).s)
      case None => Some(InvalidTimestamp)
      case Some(expiry) => Unless(now < expiry, PermitExpired)
  }

  function RootComparisons(expected: Expected): seq<Comparison> {
    [ Comparison(Identity, Str(expected.identity)),
      Comparison(Evidence, Str(expected.evidence)),
      Comparison(Policy, Str(expected.policy)),
      Comparison(State, Str(expected.state))]
  }

  predicate Matches(fields: Record, c: Comparison) {
    Get(fields, c.field) == c.expected
  }

  lemma FourMatch(fields: Record, c: seq<Comparison>)
    requires |c| == 4
    ensures FirstChange(fields, c) == None <==>
      Matches(fields, c[0]) && Matches(fields, c[1]) && Matches(fields, c[2]) && Matches(fields, c[3])
  {
    NoChangeMeansAllMatch(fields, c);
  }

  lemma FiveMatch(fields: Record, c: seq<Comparison>)
    requires |c| == 5
    ensures FirstChange(fields, c) == None <==>
      Matches(fields, c[0]) && Matches(fields, c[1]) && Matches(fields, c[2]) && Matches(fields, c[3]) && Matches(fields, c[4])
  {
    NoChangeMeansAllMatch(fields, c);
  }

  predicate RootsAre(roots: Record, expected: Expected) {
    && Get(roots, Identity) == Str(expected.identity)
    && Get(roots, Evidence) == Str(expected.evidence)
    && Get(roots, Policy) == Str(expected.policy)
    && Get(roots, State) == Str(expected.state)
  }

  lemma RootsMatch(roots: Record, expected: Expected)
    ensures FirstChange(roots, RootComparisons(expected)) == None <==> RootsAre(roots, expected)
  {
    FourMatch(roots, RootComparisons(expected));
  }

  function VerifyScope(permit: Record, expected: Expected, effect: seq<Comparison>): Option<PermitCode> {
    if !Get(permit, Roots).Obj? then Some(Missing(Roots))
    else
      var roots := FirstChange(Get(permit, Roots).fields, RootComparisons(expected));
      if roots.Some? then roots
      else if Get(permit, ApprovalDigest) != Str(expected.approval) then Some(Changed(ApprovalDigest))
      else if !Get(permit, Effect).Obj? then Some(Missing(Effect))
      else FirstChange(Get(permit, Effect).fields, effect)
  }

  function TrustChange(trust: Record, field: Field, observed: Json): Option<PermitCode> {
    Unless(observed != Null && Get(trust, field) == observed, Changed(field))
  }

  function VerifyTrust(permit: Record, values: Option<TrustValues>): Option<PermitCode> {
    var terms := Get(permit, Trust);
    if terms == Null then None
    else if !terms.Obj? then Some(Missing(Trust))
    else if values.None? || values.value.epoch == Null || values.value.counter == Null then Some(TrustCheckpointMissing)
    else
      var v, trust := values.value, terms.fields;
      var minimum := if MinimumCheckpointEpoch in trust then trust[MinimumCheckpointEpoch] else Int(-1);
      if !v.epoch.Int? || !minimum.Int? then Some(NotComparable)
      else if v.epoch.i < minimum.i then Some(CheckpointEpochTooOld)
      else if v.counter != Get(trust, MonotonicCounter) then Some(Changed(MonotonicCounter))
      else FirstOf(TrustChange(trust, ReplayRoot, Str(v.replay)),
           FirstOf(TrustChange(trust, CheckpointRoot, v.checkpoint),
                   TrustChange(trust, ObservationRootField, v.observation)))
  }

  /** What a verification is asked about: the kind of permit and its effect. */
  datatype Subject = Subject(kind: Constant, effect: seq<Comparison>)

  /** The merge effect `verify_permit` compares, in its order. */
  function MergeSubject(repository: Json, pullNumber: Json, headSha: Json, mergeMethod: Json): Subject {
    Subject(PermitKind, [
      Comparison(Repository, repository),
      Comparison(PullNumber, pullNumber),
      Comparison(ExpectedHeadSha, headSha),
      Comparison(MergeMethod, mergeMethod),
      Comparison(ActionType, Fixed(GithubMerge))])
  }

  predicate EffectIs(effect: Record, repository: Json, pullNumber: Json, headSha: Json, mergeMethod: Json) {
    && Get(effect, Repository) == repository
    && Get(effect, PullNumber) == pullNumber
    && Get(effect, ExpectedHeadSha) == headSha
    && Get(effect, MergeMethod) == mergeMethod
    && Get(effect, ActionType) == Fixed(GithubMerge)
  }

  lemma MergeMatches(effect: Record, repository: Json, pullNumber: Json, headSha: Json, mergeMethod: Json)
    ensures FirstChange(effect, MergeSubject(repository, pullNumber, headSha, mergeMethod).effect) == None
      <==> EffectIs(effect, repository, pullNumber, headSha, mergeMethod)
  {
    FiveMatch(effect, MergeSubject(repository, pullNumber, headSha, mergeMethod).effect);
  }

  /** The migration effect `verify_database_migration_permit` compares. */
  function MigrationSubject(databaseId: Json, instance: Json, schemaRoot: Json, resultRoot: Json, digest: Json, version: Json): Subject {
    Subject(MigrationPermitKind, [
      Comparison(ActionType, Fixed(DatabaseMigration)),
      Comparison(DatabaseId, databaseId),
      Comparison(DatabaseInstance, instance),
      Comparison(ExpectedSchemaRoot, schemaRoot),
      Comparison(ExpectedResultSchemaRoot, resultRoot),
      Comparison(MigrationDigest, digest),
      Comparison(TargetVersion, version)])
  }

  /** `verify_permit` and its migration counterpart: the code they raise, if any. */
  function Verify(env: Env, permit: Record, subject: Subject, expected: Expected, now: int,
                  values: Option<TrustValues>): Option<PermitCode> {
    FirstOf(VerifyHead(env, permit, subject.kind, now),
    FirstOf(VerifyScope(permit, expected, subject.effect),
            VerifyTrust(permit, values)))
  }

  // ----- what verification accepts

  predicate IssuedByVerifierOrGovernor(permit: Record) {
    && Get(permit, Issuer).Obj?
    && (Get(Get(permit, Issuer).fields, Role) == Fixed(Verifier) || Get(Get(permit, Issuer).fields, Role) == Fixed(Governor))
  }

  /** The expiry is a timestamp later than now. */
  predicate Unexpired(env: Env, permit: Record, now: int) {
    && Get(permit, ExpiresAt).Str? && Get(permit, ExpiresAt).s != ""
    && var expiry := env.parseTime(Get(permit, ExpiresAt).s);
    && expiry.Some? && expiry.value > now
  }

  /** A permit in force for this subject, whatever its trust terms. */
  predicate InForce(env: Env, permit: Record, subject: Subject, expected: Expected, now: int) {
    && Genuine(env.suite, permit, env.verifierKey)
    && Get(permit, Kind) == Fixed(subject.kind)
    && Get(permit, State) == Fixed(PermittedState)
    && IssuedByVerifierOrGovernor(permit)
    && Unexpired(env, permit, now)
    && Get(permit, Roots).Obj? && RootsAre(Get(permit, Roots).fields, expected)
    && Get(permit, ApprovalDigest) == Str(expected.approval)
    && Get(permit, Effect).Obj?
    && forall i :: 0 <= i < |subject.effect| ==> Get(Get(permit, Effect).fields, subject.effect[i].field) == subject.effect[i].expected
  }

  lemma HeadMeaning(env: Env, permit: Record, kind: Constant, now: int)
    ensures VerifyHead(env, permit, kind, now) == None <==>
      && Genuine(env.suite, permit, env.verifierKey)
      && Get(permit, Kind) == Fixed(kind)
      && Get(permit, State) == Fixed(PermittedState)
      && IssuedByVerifierOrGovernor(permit)
      && Unexpired(env, permit, now)
  {
  }

  lemma ScopeMeaning(permit: Record, expected: Expected, effect: seq<Comparison>)
    ensures VerifyScope(permit, expected, effect) == None <==>
      && Get(permit, Roots).Obj? && RootsAre(Get(permit, Roots).fields, expected)
      && Get(permit, ApprovalDigest) == Str(expected.approval)
      && Get(permit, Effect).Obj?
      && forall i :: 0 <= i < |effect| ==> Get(Get(permit, Effect).fields, effect[i].field) == effect[i].expected
  {
    hide RootComparisons, RootsAre, FirstChange;
    if Get(permit, Roots).Obj? { RootsMatch(Get(permit, Roots).fields, expected); }
    if Get(permit, Effect).Obj? { NoChangeMeansAllMatch(Get(permit, Effect).fields, effect); }
  }

  /** Verification accepts exactly the permits that carry the verifier's signature
      over their own content, are in force for these roots, this approval and this
      effect, and whose trust terms, if any, fit the values. */
  lemma VerifyAcceptsExactly(env: Env, permit: Record, subject: Subject, expected: Expected, now: int, values: Option<TrustValues>)
    ensures Verify(env, permit, subject, expected, now, values) == None <==>
      && InForce(env, permit, subject, expected, now)
      && (Get(permit, Trust) == Null
          || (Get(permit, Trust).Obj? && values.Some? && TrustFits(Get(permit, Trust).fields, values.value)))
  {
    hide VerifyHead, VerifyScope, VerifyTrust, TrustFits, Genuine, IssuedByVerifierOrGovernor, Unexpired, RootsAre;
    HeadMeaning(env, permit, subject.kind, now);
    ScopeMeaning(permit, expected, subject.effect);
    VerifyTrustMeaning(permit, values);
  }

  // what is wrong with a permit that is refused

  predicate HeadRefused(env: Env, permit: Record, kind: Constant, now: int, code: PermitCode) {
    var expiry := Get(permit, ExpiresAt);
    match code
    case InvalidSignature => !Genuine(env.suite, permit, env.verifierKey)
    case InvalidPermitKind => Get(permit, Kind) != Fixed(kind)
    case InvalidPermitState => Get(permit, State) != Fixed(PermittedState)
    case IssuerRoleForbidden => !IssuedByVerifierOrGovernor(permit)
    case Missing(field) => field == ExpiresAt && TextOf(expiry) == ""
    case InvalidTimestamp => expiry.Str? && env.parseTime(expiry.s).None?
    case PermitExpired => expiry.Str? && env.parseTime(expiry.s).Some? && env.parseTime(expiry.s).value <= now
    case _ => false
  }

  predicate Differs(fields: Record, comparisons: seq<Comparison>, field: Field) {
    exists i :: 0 <= i < |comparisons| && comparisons[i].field == field && Get(fields, field) != comparisons[i].expected
  }

  predicate ScopeRefused(permit: Record, expected: Expected, effect: seq<Comparison>, code: PermitCode) {
    match code
    case Missing(field) => field in {Roots, Effect} && !Get(permit, field).Obj?
    case Changed(field) =>
      || (field == ApprovalDigest && Get(permit, field) != Str(expected.approval))
      || Differs(FieldsOf(Get(permit, Roots)), RootComparisons(expected), field)
      || Differs(FieldsOf(Get(permit, Effect)), effect, field)
    case _ => false
  }

  predicate TrustRefused(permit: Record, values: Option<TrustValues>, code: PermitCode) {
    var trust, minimum := FieldsOf(Get(permit, Trust)), Get(FieldsOf(Get(permit, Trust)), MinimumCheckpointEpoch);
    match code
    case Missing(field) => field == Trust && Get(permit, Trust) != Null && !Get(permit, Trust).Obj?
    case TrustCheckpointMissing => Get(permit, Trust) != Null && (values.None? || values.value.epoch == Null || values.value.counter == Null)
    case NotComparable => values.Some? && (!values.value.epoch.Int? || (MinimumCheckpointEpoch in trust && !minimum.Int?))
    case CheckpointEpochTooOld =>
      values.Some? && values.value.epoch.Int? && values.value.epoch.i < (if minimum.Int? then minimum.i else -1)
    case Changed(field) =>
      values.Some? && ValueChanged(trust, values.value, field)
    case _ => false
  }

  predicate ValueChanged(trust: Record, v: TrustValues, field: Field) {
    match field
    case MonotonicCounter => Get(trust, field) != v.counter
    case ReplayRoot => Get(trust, field) != Str(v.replay)
    case CheckpointRoot => v.checkpoint == Null || Get(trust, field) != v.checkpoint
    case ObservationRootField => v.observation == Null || Get(trust, field) != v.observation
    case _ => false
  }

  lemma {:induction false} ChangeIsReal(fields: Record, comparisons: seq<Comparison>)
    requires FirstChange(fields, comparisons).Some?
    ensures FirstChange(fields, comparisons).value.Changed?
    ensures Differs(fields, comparisons, FirstChange(fields, comparisons).value.field)
  {
    if Get(fields, comparisons[0].field) == comparisons[0].expected {
      ChangeIsReal(fields, comparisons[1..]);
      var field := FirstChange(fields, comparisons[1..]).value.field;
      var i :| 0 <= i < |comparisons| - 1 && comparisons[1..][i].field == field && Get(fields, field) != comparisons[1..][i].expected;
      assert comparisons[i + 1] == comparisons[1..][i];
    }
  }

  lemma ScopeRefusalIsReal(permit: Record, expected: Expected, effect: seq<Comparison>)
    requires VerifyScope(permit, expected, effect).Some?
    ensures ScopeRefused(permit, expected, effect, VerifyScope(permit, expected, effect).value)
  {
    hide RootComparisons, Differs, FirstChange;
    if Get(permit, Roots).Obj? && FirstChange(Get(permit, Roots).fields, RootComparisons(expected)).Some? {
      ChangeIsReal(Get(permit, Roots).fields, RootComparisons(expected));
    } else if Get(permit, Effect).Obj? && FirstChange(Get(permit, Effect).fields, effect).Some? {
      ChangeIsReal(Get(permit, Effect).fields, effect);
    }
  }

  lemma HeadRefusalIsReal(env: Env, permit: Record, kind: Constant, now: int)
    requires VerifyHead(env, permit, kind, now).Some?
    ensures HeadRefused(env, permit, kind, now, VerifyHead(env, permit, kind, now).value)
  {
  }

  lemma TrustRefusalIsReal(permit: Record, values: Option<TrustValues>)
    requires VerifyTrust(permit, values).Some?
    ensures TrustRefused(permit, values, VerifyTrust(permit, values).value)
  {
  }

  /** Every refusal names something that is wrong with the permit. */
  lemma RefusalsAreReal(env: Env, permit: Record, subject: Subject, expected: Expected, now: int, values: Option<TrustValues>)
    requires Verify(env, permit, subject, expected, now, values).Some?
    ensures
      var code := Verify(env, permit, subject, expected, now, values).value;
      HeadRefused(env, permit, subject.kind, now, code) || ScopeRefused(permit, expected, subject.effect, code)
      || TrustRefused(permit, values, code)
  {
    hide VerifyHead, VerifyScope, VerifyTrust, HeadRefused, ScopeRefused, TrustRefused;
    if VerifyHead(env, permit, subject.kind, now).Some? {
      HeadRefusalIsReal(env, permit, subject.kind, now);
    } else if VerifyScope(permit, expected, subject.effect).Some? {
      ScopeRefusalIsReal(permit, expected, subject.effect);
    } else {
      TrustRefusalIsReal(permit, values);
    }
  }

  /** The trust terms of a permit fit these values. */
  predicate TrustFits(trust: Record, v: TrustValues) {
    && v.epoch.Int?
    && (MinimumCheckpointEpoch in trust ==> trust[MinimumCheckpointEpoch].Int? && trust[MinimumCheckpointEpoch].i <= v.epoch.i)
    && (MinimumCheckpointEpoch !in trust ==> -1 <= v.epoch.i)
    && v.counter != Null && v.counter == Get(trust, MonotonicCounter)
    && Get(trust, ReplayRoot) == Str(v.replay)
    && v.checkpoint != Null && Get(trust, CheckpointRoot) == v.checkpoint
    && v.observation != Null && Get(trust, ObservationRootField) == v.observation
  }

  /** The trust terms a permit is given from a checkpoint. */
  function TrustTerms(checkpoint: Record): Record {
    map[
      ReplayRoot := RootField(checkpoint, ReplayRoot),
      CheckpointRoot := Get(checkpoint, RecordHash),
      ObservationRootField := RootField(checkpoint, Observation),
      MinimumCheckpointEpoch := Get(checkpoint, Epoch),
      MonotonicCounter := Get(checkpoint, MonotonicCounter)]
  }

  /** What verification reads from a checkpoint that fits the registry. */
  function ValuesOf(checkpoint: Record, replay: string): TrustValues {
    TrustValues(Get(checkpoint, Epoch), Get(checkpoint, MonotonicCounter), replay, Get(checkpoint, RecordHash), RootField(checkpoint, Observation))
  }

  /** Trust terms taken from a checkpoint fit that checkpoint. */
  lemma TrustTermsFit(s: Suite, checkpoint: Record, replay: string, epoch: int, counter: int, key: Key)
    requires CheckpointIs(s, checkpoint, replay, epoch, counter, key) && RootField(checkpoint, Observation) != Null
    ensures TrustFits(TrustTerms(checkpoint), ValuesOf(checkpoint, replay))
  {
    hide TrustRootOf;
  }

  lemma VerifyTrustMeaning(permit: Record, values: Option<TrustValues>)
    ensures VerifyTrust(permit, values) == None <==>
      Get(permit, Trust) == Null
      || (Get(permit, Trust).Obj? && values.Some? && TrustFits(Get(permit, Trust).fields, values.value))
  {
  }

  // ----- minting

  /** `expires_at`: a timestamp to parse, or an instant. */
  datatype Expiry = Text(text: string) | Instant(instant: int)

  function ExpiryOf(env: Env, e: Expiry): Option<int> {
    match e
    case Text(text) => env.parseTime(text)
    case Instant(instant) => Some(instant)
  }

  /** What the caller passes; `freshId` is the identifier drawn when none is given. */
  datatype Terms = Terms(
    expected: Expected,
    repository: string,
    pullNumber: int,
    headSha: string,
    mergeMethod: string,
    nonce: string,
    expiry: Expiry,
    issuerId: string,
    issuerRole: Json,
    constraints: Record,
    trust: Option<Record>,
    permitId: Option<string>,
    freshId: string)

  predicate IsDigest(env: Env, text: string) {
    |text| == 64 && env.hexInt(text)
  }

  predicate JsonDigest(env: Env, j: Json) {
    j.Str? && IsDigest(env, j.s)
  }

  predicate GitObjectId(text: string) {
    (|text| == 40 || |text| == 64) && forall i :: 0 <= i < |text| ==> '0' <= text[i] <= '9' || 'a' <= text[i] <= 'f'
  }

  function Slashes(text: string): nat {
    if text == "" then 0 else (if text[0] == '/' then 1 else 0) + Slashes(text[1..])
  }

  predicate NatField(trust: Record, field: Field) {
    Get(trust, field).Int? && Get(trust, field).i >= 0
  }

  function TrustTermsProblem(env: Env, trust: Record): Option<PermitCode> {
    FirstOf(Unless(JsonDigest(env, Get(trust, ReplayRoot)), InvalidField(ReplayRoot)),
    FirstOf(Unless(JsonDigest(env, Get(trust, CheckpointRoot)), InvalidField(CheckpointRoot)),
    FirstOf(Unless(JsonDigest(env, Get(trust, ObservationRootField)), InvalidField(ObservationRootField)),
    FirstOf(Unless(NatField(trust, MinimumCheckpointEpoch), InvalidField(MinimumCheckpointEpoch)),
            Unless(NatField(trust, MonotonicCounter), InvalidField(MonotonicCounter))))))
  }

  /** The checks of `mint_permit`, in order. */
  function MintProblem(env: Env, t: Terms, now: int): Option<PermitCode> {
    var expiry := ExpiryOf(env, t.expiry);
    if expiry.None? then Some(InvalidTimestamp)
    else
      FirstOf(Unless(t.issuerRole in {Fixed(Verifier), Fixed(Governor)}, IssuerRoleForbidden),
      FirstOf(Unless(now < expiry.value, PermitExpired),
      FirstOf(Unless(|t.nonce| >= 16, InvalidNonce),
      FirstOf(Unless(t.permitId.None? || !Blank(t.permitId.value), InvalidPermitId),
      FirstOf(Unless(t.mergeMethod in {"merge", "squash", "rebase"}, UnsupportedMergeMethod),
      FirstOf(Unless(t.pullNumber > 0, InvalidPullNumber),
      FirstOf(Unless(Slashes(t.repository) == 1, InvalidRepository),
      FirstOf(Unless(IsDigest(env, t.expected.identity), InvalidField(Identity)),
      FirstOf(Unless(IsDigest(env, t.expected.evidence), InvalidField(Evidence)),
      FirstOf(Unless(IsDigest(env, t.expected.policy), InvalidField(Policy)),
      FirstOf(Unless(IsDigest(env, t.expected.state), InvalidField(State)),
      FirstOf(Unless(IsDigest(env, t.expected.approval), InvalidField(ApprovalDigest)),
      FirstOf(Unless(GitObjectId(t.headSha), InvalidField(ExpectedHeadSha)),
              if t.trust.Some? then TrustTermsProblem(env, t.trust.value) else None)))))))))))))
  }

  function RootsRecordOf(e: Expected): Record {
    map[Identity := Str(e.identity), Evidence := Str(e.evidence), Policy := Str(e.policy), State := Str(e.state)]
  }

  function EffectRecord(t: Terms): Record {
    map[
      ActionType := Fixed(GithubMerge),
      Repository := Str(t.repository),
      PullNumber := Int(t.pullNumber),
      ExpectedHeadSha := Str(t.headSha),
      MergeMethod := Str(t.mergeMethod)]
  }

  /** Both timestamps are normalised when they are written. */
  function PermitBody(env: Env, t: Terms, issuedAt: int, expiry: int): Record {
    var body: Record := map[
      Kind := Fixed(PermitKind),
      PermitId := Str(if t.permitId.Some? then t.permitId.value else t.freshId),
      State := Fixed(PermittedState),
      IssuedAt := Str(env.formatTime(issuedAt)),
      ExpiresAt := Str(env.formatTime(expiry)),
      Nonce := Str(t.nonce),
      Issuer := Obj(map[PrincipalId := Str(t.issuerId), Role := t.issuerRole]),
      Roots := Obj(RootsRecordOf(t.expected)),
      ApprovalDigest := Str(t.expected.approval),
      Effect := Obj(EffectRecord(t)),
      Constraints := Obj(t.constraints)];
    if t.trust.Some? then body[Trust := Obj(t.trust.value)] else body
  }

  /** `mint_permit` */
  function MintPermit(env: Env, t: Terms, now: int, keyId: string): (r: Result<Record, PermitCode>)
    ensures r.Ok? ==> ExpiryOf(env, t.expiry).Some?
  {
    var problem := MintProblem(env, t, now);
    if problem.Some? then Err(problem.value)
    else Ok(SignRecord(env.suite, PermitBody(env, t, now, ExpiryOf(env, t.expiry).value), env.verifierKey, keyId))
  }

  // ----- when minting succeeds

  ghost predicate HexDigest(env: Env, j: Json) {
    exists text :: j == Str(text) && |text| == 64 && env.hexInt(text)
  }

  /** An owner and a name, separated by the only slash. */
  predicate OwnerAndName(repository: string) {
    exists i :: 0 <= i < |repository| && OnlySlashAt(repository, i)
  }

  predicate OnlySlashAt(text: string, i: nat) {
    i < |text| && text[i] == '/' && '/' !in text[..i] && '/' !in text[i + 1..]
  }

  /** Something is left after `strip`. */
  predicate HasText(text: string) {
    exists c :: c in text && !IsBlank(c)
  }

  lemma NotBlank(text: string)
    ensures HasText(text) <==> !Blank(text)
  {
    if !Blank(text) {
      var i :| 0 <= i < |text| && !IsBlank(text[i]);
      assert text[i] in text;
    }
  }

  /** A full object id in lower-case hexadecimal digits: SHA-1 or SHA-256. */
  predicate FullObjectId(text: string) {
    |text| in {40, 64} && forall c :: c in text ==> '0' <= c <= '9' || 'a' <= c <= 'f'
  }

  ghost predicate RootsAreDigests(env: Env, e: Expected) {
    && HexDigest(env, Str(e.identity)) && HexDigest(env, Str(e.evidence)) && HexDigest(env, Str(e.policy)) && HexDigest(env, Str(e.state))
    && HexDigest(env, Str(e.approval))
  }

  ghost predicate TrustIsComplete(env: Env, trust: Record) {
    && HexDigest(env, Get(trust, ReplayRoot))
    && HexDigest(env, Get(trust, CheckpointRoot))
    && HexDigest(env, Get(trust, ObservationRootField))
    && (exists n: nat :: Get(trust, MinimumCheckpointEpoch) == Int(n))
    && (exists n: nat :: Get(trust, MonotonicCounter) == Int(n))
  }

  predicate ExpiresLater(env: Env, e: Expiry, now: int) {
    match e
    case Text(text) => env.parseTime(text).Some? && env.parseTime(text).value > now
    case Instant(instant) => instant > now
  }

  ghost predicate Mintable(env: Env, t: Terms, now: int) {
    && (t.issuerRole == Fixed(Verifier) || t.issuerRole == Fixed(Governor))
    && ExpiresLater(env, t.expiry, now)
    && |t.nonce| >= 16
    && (t.permitId.Some? ==> HasText(t.permitId.value))
    && (t.mergeMethod == "merge" || t.mergeMethod == "squash" || t.mergeMethod == "rebase")
    && t.pullNumber >= 1
    && OwnerAndName(t.repository)
    && RootsAreDigests(env, t.expected)
    && FullObjectId(t.headSha)
    && (t.trust.Some? ==> TrustIsComplete(env, t.trust.value))
  }

  lemma {:induction false} NoSlash(text: string)
    ensures Slashes(text) == 0 <==> '/' !in text
  {
    if text != "" {
      NoSlash(text[1..]);
      assert text == [text[0]] + text[1..];
    }
  }

  lemma LaterSlash(text: string, i: nat)
    requires text != ""
    ensures OnlySlashAt(text, i + 1) <==> text[0] != '/' && OnlySlashAt(text[1..], i)
  {
    if i + 1 < |text| {
      assert text[..i + 1] == [text[0]] + text[1..][..i];
      assert text[i + 2..] == text[1..][i + 1..];
    }
  }

  lemma {:induction false} OneSlash(text: string)
    ensures Slashes(text) == 1 <==> OwnerAndName(text)
  {
    if text != "" {
      hide OnlySlashAt;
      OneSlash(text[1..]);
      NoSlash(text[1..]);
      FirstSlash(text);
      if OwnerAndName(text[1..]) {
        var i :| 0 <= i < |text[1..]| && OnlySlashAt(text[1..], i);
        LaterSlash(text, i);
      }
      if OwnerAndName(text) {
        var i :| 0 <= i < |text| && OnlySlashAt(text, i);
        if i > 0 { LaterSlash(text, i - 1); }
      }
    }
  }

  lemma FirstSlash(text: string)
    requires text != ""
    ensures OnlySlashAt(text, 0) <==> text[0] == '/' && '/' !in text[1..]
  {
    assert text[..0] == "";
  }

  lemma HeadMeans(text: string)
    ensures GitObjectId(text) <==> FullObjectId(text)
  {
    assert forall i :: 0 <= i < |text| ==> text[i] in text;
  }

  lemma DigestMeaning(env: Env, text: string)
    ensures IsDigest(env, text) <==> HexDigest(env, Str(text))
  {
  }

  lemma TrustProblemMeaning(env: Env, trust: Record)
    ensures TrustTermsProblem(env, trust) == None <==> TrustIsComplete(env, trust)
  {
    var epoch, counter := Get(trust, MinimumCheckpointEpoch), Get(trust, MonotonicCounter);
    if epoch.Int? && epoch.i >= 0 { var n: nat := epoch.i; }
    if counter.Int? && counter.i >= 0 { var n: nat := counter.i; }
  }

  /** `mint_permit` succeeds exactly for terms that pass every check. */
  lemma MintsExactly(env: Env, t: Terms, now: int, keyId: string)
    ensures MintPermit(env, t, now, keyId).Ok? <==> Mintable(env, t, now)
  {
    hide IsDigest, HexDigest, GitObjectId, FullObjectId, Slashes, OwnerAndName, Blank, HasText, TrustTermsProblem, TrustIsComplete, SignRecord, PermitBody;
    OneSlash(t.repository);
    if t.permitId.Some? { NotBlank(t.permitId.value); }
    HeadMeans(t.headSha);
    DigestMeaning(env, t.expected.identity);
    DigestMeaning(env, t.expected.evidence);
    DigestMeaning(env, t.expected.policy);
    DigestMeaning(env, t.expected.state);
    DigestMeaning(env, t.expected.approval);
    if t.trust.Some? { TrustProblemMeaning(env, t.trust.value); }
  }

  predicate HasHead(env: Env, permit: Record, t: Terms, issuedAt: int, expiry: int) {
    && Get(permit, Kind) == Fixed(PermitKind)
    && Get(permit, State) == Fixed(PermittedState)
    && Get(permit, PermitId) == Str(if t.permitId.Some? then t.permitId.value else t.freshId)
    && Get(permit, IssuedAt) == Str(env.formatTime(issuedAt))
    && Get(permit, ExpiresAt) == Str(env.formatTime(expiry))
    && Get(permit, Nonce) == Str(t.nonce)
    && Get(permit, Issuer) == Obj(map[PrincipalId := Str(t.issuerId), Role := t.issuerRole])
  }

  predicate HasScope(permit: Record, t: Terms) {
    && Get(permit, Roots) == Obj(RootsRecordOf(t.expected))
    && Get(permit, ApprovalDigest) == Str(t.expected.approval)
    && Get(permit, Effect) == Obj(EffectRecord(t))
    && Get(permit, Constraints) == Obj(t.constraints)
    && Get(permit, Trust) == (if t.trust.Some? then Obj(t.trust.value) else Null)
  }

  predicate HasTerms(env: Env, permit: Record, t: Terms, issuedAt: int, expiry: int) {
    HasHead(env, permit, t, issuedAt, expiry) && HasScope(permit, t)
  }

  lemma PermitBodyHasTerms(env: Env, t: Terms, issuedAt: int, expiry: int)
    ensures HasTerms(env, PermitBody(env, t, issuedAt, expiry), t, issuedAt, expiry)
  {
    hide HasHead, HasScope, PermitBody;
    PermitBodyHasHead(env, t, issuedAt, expiry);
    PermitBodyHasScope(env, t, issuedAt, expiry);
  }

  lemma PermitBodyHasHead(env: Env, t: Terms, issuedAt: int, expiry: int)
    ensures HasHead(env, PermitBody(env, t, issuedAt, expiry), t, issuedAt, expiry)
  {
    hide RootsRecordOf, EffectRecord;
  }

  lemma PermitBodyHasScope(env: Env, t: Terms, issuedAt: int, expiry: int)
    ensures HasScope(PermitBody(env, t, issuedAt, expiry), t)
  {
    hide RootsRecordOf, EffectRecord;
  }

  lemma KeepsTerms(env: Env, a: Record, b: Record, t: Terms, issuedAt: int, expiry: int)
    requires HasTerms(env, b, t, issuedAt, expiry)
    requires forall f :: f != RecordHash && f != Signature ==> Get(a, f) == Get(b, f)
    ensures HasTerms(env, a, t, issuedAt, expiry)
  {
    hide Get, RootsRecordOf, EffectRecord;
  }

  /** The signature and the fields of a minted permit. */
  lemma MintedPermitHasTerms(env: Env, t: Terms, now: int, keyId: string, permit: Record)
    requires env.suite.Valid() && MintPermit(env, t, now, keyId) == Ok(permit)
    ensures VerifySignature(env.suite, permit, env.verifierKey)
    ensures HasTerms(env, permit, t, now, ExpiryOf(env, t.expiry).value)
  {
    hide HasTerms, PermitBody, SignRecord, VerifySignature;
    var expiry := ExpiryOf(env, t.expiry).value;
    var body := PermitBody(env, t, now, expiry);
    PermitBodyHasTerms(env, t, now, expiry);
    SignThenVerify(env.suite, body, env.verifierKey, keyId);
    SignedKeeps(env.suite, body, env.verifierKey, keyId);
    KeepsTerms(env, permit, body, t, now, expiry);
  }

  predicate ScopeIs(t: Terms, expected: Expected, repository: Json, pullNumber: Json, headSha: Json, mergeMethod: Json) {
    && expected == t.expected
    && repository == Str(t.repository)
    && pullNumber == Int(t.pullNumber)
    && headSha == Str(t.headSha)
    && mergeMethod == Str(t.mergeMethod)
  }

  lemma MintedScope(permit: Record, t: Terms, expected: Expected,
                    repository: Json, pullNumber: Json, headSha: Json, mergeMethod: Json)
    requires Get(permit, Roots) == Obj(RootsRecordOf(t.expected)) && Get(permit, Effect) == Obj(EffectRecord(t))
    requires Get(permit, ApprovalDigest) == Str(t.expected.approval)
    ensures VerifyScope(permit, expected, MergeSubject(repository, pullNumber, headSha, mergeMethod).effect) == None
      <==> ScopeIs(t, expected, repository, pullNumber, headSha, mergeMethod)
  {
    RootsMatch(RootsRecordOf(t.expected), expected);
    MergeMatches(EffectRecord(t), repository, pullNumber, headSha, mergeMethod);
  }

  lemma MintChecksPassed(env: Env, t: Terms, now: int)
    requires MintProblem(env, t, now) == None
    ensures ExpiryOf(env, t.expiry).Some? && t.issuerRole in {Fixed(Verifier), Fixed(Governor)}
    ensures t.trust.Some? ==> Get(t.trust.value, MonotonicCounter).Int?
  {
  }

  lemma MintedHead(env: Env, permit: Record, kind: Constant, role: Json, issuerId: string, expiry: int, now: int)
    requires env.ClockValid() && role in {Fixed(Verifier), Fixed(Governor)}
    requires VerifySignature(env.suite, permit, env.verifierKey)
    requires Get(permit, Kind) == Fixed(kind) && Get(permit, State) == Fixed(PermittedState)
    requires Get(permit, Issuer) == Obj(map[PrincipalId := Str(issuerId), Role := role])
    requires Get(permit, ExpiresAt) == Str(env.formatTime(expiry))
    ensures VerifyHead(env, permit, kind, now) == None <==> now < expiry
  {
  }

  /** A minted permit verifies before it expires for exactly the roots,
      approval and merge effect it was minted for, and, when it carries trust
      terms, for exactly the checkpoint values those terms fit. */
  lemma MintedPermitFitsOnlyItsTerms(env: Env, t: Terms, mintedAt: int, keyId: string, expected: Expected,
                                     repository: Json, pullNumber: Json, headSha: Json, mergeMethod: Json,
                                     now: int, values: Option<TrustValues>)
    requires env.suite.Valid() && env.ClockValid() && MintPermit(env, t, mintedAt, keyId).Ok?
    ensures
      var permit := MintPermit(env, t, mintedAt, keyId).value;
      var subject := MergeSubject(repository, pullNumber, headSha, mergeMethod);
      Verify(env, permit, subject, expected, now, values) == None <==>
        && now < ExpiryOf(env, t.expiry).value
        && ScopeIs(t, expected, repository, pullNumber, headSha, mergeMethod)
        && (t.trust.Some? ==> values.Some? && TrustFits(t.trust.value, values.value))
  {
    hide HasTerms, VerifyHead, VerifyScope, VerifyTrust, TrustFits, ScopeIs;
    var permit := MintPermit(env, t, mintedAt, keyId).value;
    MintedPermitVerdict(env, t, mintedAt, keyId, permit, expected, repository, pullNumber, headSha, mergeMethod, now, values);
  }

  lemma MintedPermitVerdict(env: Env, t: Terms, mintedAt: int, keyId: string, permit: Record, expected: Expected,
                            repository: Json, pullNumber: Json, headSha: Json, mergeMethod: Json,
                            now: int, values: Option<TrustValues>)
    requires env.suite.Valid() && env.ClockValid() && MintPermit(env, t, mintedAt, keyId) == Ok(permit)
    ensures VerifyHead(env, permit, PermitKind, now) == None <==> now < ExpiryOf(env, t.expiry).value
    ensures VerifyScope(permit, expected, MergeSubject(repository, pullNumber, headSha, mergeMethod).effect) == None
      <==> ScopeIs(t, expected, repository, pullNumber, headSha, mergeMethod)
    ensures VerifyTrust(permit, values) == None
      <==> (t.trust.Some? ==> values.Some? && TrustFits(t.trust.value, values.value))
  {
    hide SignRecord, VerifySignature, VerifyHead, VerifyScope, VerifyTrust, TrustFits, ScopeIs, MergeSubject;
    MintedPermitHasTerms(env, t, mintedAt, keyId, permit);
    MintChecksPassed(env, t, mintedAt);
    MintedHead(env, permit, PermitKind, t.issuerRole, t.issuerId, ExpiryOf(env, t.expiry).value, now);
    MintedScope(permit, t, expected, repository, pullNumber, headSha, mergeMethod);
    VerifyTrustMeaning(permit, values);
  }

  // ----- minting a migration permit

  datatype MigrationTerms = MigrationTerms(
    expected: Expected,
    databaseId: string,
    instance: string,
    schemaRoot: string,
    resultRoot: string,
    sql: string,
    targetVersion: int,
    nonce: string,
    expiry: Expiry,
    issuerId: string,
    issuerRole: Json,
    constraints: Record,
    trust: Option<Record>,
    permitId: Option<string>,
    freshId: string)

  /** `migration_digest`, of a text that is not blank. */
  function SqlDigest(s: Suite, sql: string): string {
    HashRecord(s, map[Kind := Fixed(MigrationSourceKind), Sql := Str(sql)])
  }

  /** The checks of `mint_database_migration_permit`, in order. */
  function MigrationProblem(env: Env, t: MigrationTerms, now: int): Option<PermitCode> {
    var expiry := ExpiryOf(env, t.expiry);
    if expiry.None? then Some(InvalidTimestamp)
    else
      FirstOf(Unless(t.issuerRole in {Fixed(Verifier), Fixed(Governor)}, IssuerRoleForbidden),
      FirstOf(Unless(now < expiry.value, PermitExpired),
      FirstOf(Unless(!Blank(t.databaseId), InvalidField(DatabaseId)),
      FirstOf(Unless(t.targetVersion > 0, InvalidField(TargetVersion)),
      FirstOf(Unless(|t.nonce| >= 16, InvalidNonce),
      FirstOf(Unless(IsDigest(env, t.expected.identity), InvalidField(Identity)),
      FirstOf(Unless(IsDigest(env, t.expected.evidence), InvalidField(Evidence)),
      FirstOf(Unless(IsDigest(env, t.expected.policy), InvalidField(Policy)),
      FirstOf(Unless(IsDigest(env, t.expected.state), InvalidField(State)),
      FirstOf(Unless(IsDigest(env, t.expected.approval), InvalidField(ApprovalDigest)),
      FirstOf(Unless(IsDigest(env, t.instance), InvalidField(DatabaseInstance)),
      FirstOf(Unless(IsDigest(env, t.schemaRoot), InvalidField(ExpectedSchemaRoot)),
      FirstOf(Unless(IsDigest(env, t.resultRoot), InvalidField(ExpectedResultSchemaRoot)),
      FirstOf(Unless(!Blank(t.sql), Missing(Sql)),
              if t.trust.Some? then TrustTermsProblem(env, t.trust.value) else None))))))))))))))
  }

  function MigrationEffect(s: Suite, t: MigrationTerms): Record {
    map[
      ActionType := Fixed(DatabaseMigration),
      DatabaseId := Str(t.databaseId),
      DatabaseInstance := Str(t.instance),
      ExpectedSchemaRoot := Str(t.schemaRoot),
      ExpectedResultSchemaRoot := Str(t.resultRoot),
      MigrationDigest := Str(SqlDigest(s, t.sql)),
      TargetVersion := Int(t.targetVersion)]
  }

  /** `permit_id or str(uuid4())` */
  function MigrationPermitId(t: MigrationTerms): string {
    if t.permitId.Some? && t.permitId.value != "" then t.permitId.value else t.freshId
  }

  function MigrationBody(env: Env, t: MigrationTerms, issuedAt: int, expiry: int): Record {
    var body: Record := map[
      Kind := Fixed(MigrationPermitKind),
      PermitId := Str(MigrationPermitId(t)),
      State := Fixed(PermittedState),
      IssuedAt := Str(env.formatTime(issuedAt)),
      ExpiresAt := Str(env.formatTime(expiry)),
      Nonce := Str(t.nonce),
      Issuer := Obj(map[PrincipalId := Str(t.issuerId), Role := t.issuerRole]),
      Roots := Obj(RootsRecordOf(t.expected)),
      ApprovalDigest := Str(t.expected.approval),
      Effect := Obj(MigrationEffect(env.suite, t)),
      Constraints := Obj(t.constraints)];
    if t.trust.Some? then body[Trust := Obj(t.trust.value)] else body
  }

  /** `mint_database_migration_permit` */
  function MintMigration(env: Env, t: MigrationTerms, now: int, keyId: string): (r: Result<Record, PermitCode>)
    ensures r.Ok? ==> ExpiryOf(env, t.expiry).Some?
  {
    var problem := MigrationProblem(env, t, now);
    if problem.Some? then Err(problem.value)
    else Ok(SignRecord(env.suite, MigrationBody(env, t, now, ExpiryOf(env, t.expiry).value), env.verifierKey, keyId))
  }

  ghost predicate MigrationMintable(env: Env, t: MigrationTerms, now: int) {
    && (t.issuerRole == Fixed(Verifier) || t.issuerRole == Fixed(Governor))
    && ExpiresLater(env, t.expiry, now)
    && HasText(t.databaseId)
    && t.targetVersion >= 1
    && |t.nonce| >= 16
    && RootsAreDigests(env, t.expected)
    && HexDigest(env, Str(t.instance)) && HexDigest(env, Str(t.schemaRoot)) && HexDigest(env, Str(t.resultRoot))
    && HasText(t.sql)
    && (t.trust.Some? ==> TrustIsComplete(env, t.trust.value))
  }

  /** `mint_database_migration_permit` succeeds exactly for terms that pass every
      check. */
  lemma MintsMigrationsExactly(env: Env, t: MigrationTerms, now: int, keyId: string)
    ensures MintMigration(env, t, now, keyId).Ok? <==> MigrationMintable(env, t, now)
  {
    hide IsDigest, HexDigest, Blank, HasText, TrustTermsProblem, TrustIsComplete, SignRecord, MigrationBody;
    NotBlank(t.databaseId);
    NotBlank(t.sql);
    DigestMeaning(env, t.expected.identity);
    DigestMeaning(env, t.expected.evidence);
    DigestMeaning(env, t.expected.policy);
    DigestMeaning(env, t.expected.state);
    DigestMeaning(env, t.expected.approval);
    DigestMeaning(env, t.instance);
    DigestMeaning(env, t.schemaRoot);
    DigestMeaning(env, t.resultRoot);
    if t.trust.Some? { TrustProblemMeaning(env, t.trust.value); }
  }

  predicate MigrationHead(env: Env, permit: Record, t: MigrationTerms, expiry: int) {
    && Get(permit, Kind) == Fixed(MigrationPermitKind)
    && Get(permit, State) == Fixed(PermittedState)
    && Get(permit, ExpiresAt) == Str(env.formatTime(expiry))
    && Get(permit, Nonce) == Str(t.nonce)
    && Get(permit, Issuer) == Obj(map[PrincipalId := Str(t.issuerId), Role := t.issuerRole])
  }

  predicate MigrationScope(env: Env, permit: Record, t: MigrationTerms) {
    && Get(permit, Roots) == Obj(RootsRecordOf(t.expected))
    && Get(permit, ApprovalDigest) == Str(t.expected.approval)
    && Get(permit, Effect) == Obj(MigrationEffect(env.suite, t))
    && Get(permit, Trust) == (if t.trust.Some? then Obj(t.trust.value) else Null)
  }

  lemma MigrationBodyHead(env: Env, t: MigrationTerms, issuedAt: int, expiry: int)
    ensures MigrationHead(env, MigrationBody(env, t, issuedAt, expiry), t, expiry)
  {
    hide RootsRecordOf, MigrationEffect, MigrationPermitId;
  }

  lemma MigrationBodyScope(env: Env, t: MigrationTerms, issuedAt: int, expiry: int)
    ensures MigrationScope(env, MigrationBody(env, t, issuedAt, expiry), t)
  {
    hide RootsRecordOf, MigrationEffect, MigrationPermitId;
  }

  lemma KeepsMigrationTerms(env: Env, a: Record, b: Record, t: MigrationTerms, expiry: int)
    requires MigrationHead(env, b, t, expiry) && MigrationScope(env, b, t)
    requires forall f :: f != RecordHash && f != Signature ==> Get(a, f) == Get(b, f)
    ensures MigrationHead(env, a, t, expiry) && MigrationScope(env, a, t)
  {
    hide Get, RootsRecordOf, MigrationEffect;
  }

  /** The signature and the fields of a minted migration permit. */
  lemma MintedMigrationHasTerms(env: Env, t: MigrationTerms, now: int, keyId: string, permit: Record)
    requires env.suite.Valid() && MintMigration(env, t, now, keyId) == Ok(permit)
    ensures VerifySignature(env.suite, permit, env.verifierKey)
    ensures MigrationHead(env, permit, t, ExpiryOf(env, t.expiry).value) && MigrationScope(env, permit, t)
    ensures Content(permit) == Content(MigrationBody(env, t, now, ExpiryOf(env, t.expiry).value))
  {
    hide MigrationHead, MigrationScope, MigrationBody, SignRecord, VerifySignature;
    var expiry := ExpiryOf(env, t.expiry).value;
    var body := MigrationBody(env, t, now, expiry);
    MigrationBodyHead(env, t, now, expiry);
    MigrationBodyScope(env, t, now, expiry);
    SignThenVerify(env.suite, body, env.verifierKey, keyId);
    SignedKeeps(env.suite, body, env.verifierKey, keyId);
    KeepsMigrationTerms(env, permit, body, t, expiry);
  }

  lemma MigrationChecksPassed(env: Env, t: MigrationTerms, now: int)
    requires MigrationProblem(env, t, now) == None
    ensures t.issuerRole in {Fixed(Verifier), Fixed(Governor)} && |t.nonce| >= 16
  {
  }

  predicate MigrationEffectIs(effect: Record, databaseId: Json, instance: Json, schemaRoot: Json, resultRoot: Json, digest: Json,
                              version: Json) {
    && Get(effect, ActionType) == Fixed(DatabaseMigration)
    && Get(effect, DatabaseId) == databaseId
    && Get(effect, DatabaseInstance) == instance
    && Get(effect, ExpectedSchemaRoot) == schemaRoot
    && Get(effect, ExpectedResultSchemaRoot) == resultRoot
    && Get(effect, MigrationDigest) == digest
    && Get(effect, TargetVersion) == version
  }

  lemma MigrationMatches(effect: Record, databaseId: Json, instance: Json, schemaRoot: Json, resultRoot: Json, digest: Json, version: Json)
    ensures FirstChange(effect, MigrationSubject(databaseId, instance, schemaRoot, resultRoot, digest, version).effect) == None
      <==> MigrationEffectIs(effect, databaseId, instance, schemaRoot, resultRoot, digest, version)
  {
    hide Get;
    var c := MigrationSubject(databaseId, instance, schemaRoot, resultRoot, digest, version).effect;
    NoChangeMeansAllMatch(effect, c);
    assert |c| == 7;
    assert (forall i :: 0 <= i < |c| ==> Get(effect, c[i].field) == c[i].expected) ==>
      Matches(effect, c[0]) && Matches(effect, c[1]) && Matches(effect, c[2]) && Matches(effect, c[3]) && Matches(effect, c[4])
      && Matches(effect, c[5]) && Matches(effect, c[6]);
  }

  predicate MigrationIs(s: Suite, t: MigrationTerms, databaseId: Json, instance: Json, schemaRoot: Json, resultRoot: Json, digest: Json,
                        version: Json) {
    && databaseId == Str(t.databaseId)
    && instance == Str(t.instance)
    && schemaRoot == Str(t.schemaRoot)
    && resultRoot == Str(t.resultRoot)
    && digest == Str(SqlDigest(s, t.sql))
    && version == Int(t.targetVersion)
  }

  lemma MintedMigrationEffect(s: Suite, t: MigrationTerms, databaseId: Json, instance: Json, schemaRoot: Json, resultRoot: Json, digest: Json,
                              version: Json)
    ensures MigrationEffectIs(MigrationEffect(s, t), databaseId, instance, schemaRoot, resultRoot, digest, version)
      <==> MigrationIs(s, t, databaseId, instance, schemaRoot, resultRoot, digest, version)
  {
    hide SqlDigest;
  }

  /** A minted migration permit verifies before it expires for exactly the roots,
      approval, database, schemas, SQL digest and version it was minted for, and,
      when it carries trust terms, for exactly the checkpoint values they fit. */
  lemma MintedMigrationFitsOnlyItsTerms(env: Env, t: MigrationTerms, mintedAt: int, keyId: string, permit: Record, expected: Expected,
                                        databaseId: Json, instance: Json, schemaRoot: Json, resultRoot: Json, digest: Json, version: Json,
                                        now: int, values: Option<TrustValues>)
    requires env.suite.Valid() && env.ClockValid() && MintMigration(env, t, mintedAt, keyId) == Ok(permit)
    ensures
      var subject := MigrationSubject(databaseId, instance, schemaRoot, resultRoot, digest, version);
      Verify(env, permit, subject, expected, now, values) == None <==>
        && now < ExpiryOf(env, t.expiry).value
        && expected == t.expected
        && MigrationIs(env.suite, t, databaseId, instance, schemaRoot, resultRoot, digest, version)
        && (t.trust.Some? ==> values.Some? && TrustFits(t.trust.value, values.value))
  {
    hide SignRecord, VerifySignature, VerifyHead, VerifyTrust, TrustFits, MigrationEffect, MigrationSubject, MigrationProblem, MigrationIs,
      MigrationEffectIs, FirstChange, RootComparisons;
    MintedMigrationHasTerms(env, t, mintedAt, keyId, permit);
    MigrationChecksPassed(env, t, mintedAt);
    MintedHead(env, permit, MigrationPermitKind, t.issuerRole, t.issuerId, ExpiryOf(env, t.expiry).value, now);
    RootsMatch(RootsRecordOf(t.expected), expected);
    MigrationMatches(MigrationEffect(env.suite, t), databaseId, instance, schemaRoot, resultRoot, digest, version);
    MintedMigrationEffect(env.suite, t, databaseId, instance, schemaRoot, resultRoot, digest, version);
    MigrationKind(databaseId, instance, schemaRoot, resultRoot, digest, version);
    VerifyTrustMeaning(permit, values);
  }

  lemma MigrationKind(databaseId: Json, instance: Json, schemaRoot: Json, resultRoot: Json, digest: Json, version: Json)
    ensures MigrationSubject(databaseId, instance, schemaRoot, resultRoot, digest, version).kind == MigrationPermitKind
  {
  }
}
