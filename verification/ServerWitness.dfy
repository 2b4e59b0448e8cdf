/**
 A run of the server from a fresh start: an intent is evaluated, a permit minted
 and executed, a first reconciliation fails for want of observers, and a second
 one of the same execution is confirmed.
 */
module ServerWitness {
  import opened Hashing
  import opened Sorting
  import opened Quorum
  import opened QuorumOrder
  import opened TrustState
  import opened Permits
  import opened Rbac
  import opened Identity
  import opened Server
  import opened ServerSafety
  import Spending

  // ----- outcomes are not sticky, in any state

  lemma NothingSaidNothingMet(s: Suite, p: Panel, v: Verdict)
    requires IsVerdict(s, p, [], v) && p.threshold >= 1
    ensures !v.met
  {
    hide Leads, CarriesStatement;
    var h :| ReportsGroup(s, p, [], v, h);
    GroupSize(s, p, [], v, h);
    assert Counted(s, p, []) == {};
  }

  lemma ReconcileAdds(c: Config, w: State, e: Event)
    requires w.vault.checkpoints != [] && e.Reconcile? && e.thread !in w.threads && e.id !in w.store.reconciliations
    requires 1 <= c.threshold <= |c.observers| && May(w.authority.roles, Ref(e.id.tenant, e.principal), OutcomeReconcile)
    requires Ref(e.id.tenant, e.executionId) in w.store.executions
    requires
      var x := w.store.executions[Ref(e.id.tenant, e.executionId)];
      && x.permit in w.store.permits && Observable(w.store.permits[x.permit])
      && IsVerdict(c.env.suite, ObserverPanel(c, w.store.permits[x.permit]), e.attestations, e.verdict)
    ensures
      var x := w.store.executions[Ref(e.id.tenant, e.executionId)];
      var confirmed := Confirms(e.verdict, x.receipt, w.store.permits[x.permit]);
      var record := Reconciliation(Ref(e.id.tenant, e.executionId), e.attestations, e.verdict, confirmed);
      var after := Apply(c, w, e);
      && after.store == w.store.(reconciliations := w.store.reconciliations[e.id := record])
      && after.threads.Keys == w.threads.Keys + {e.thread} && after.authority == w.authority
  {
    hide IsVerdict, Confirms, Observable, ObserverPanel, May;
  }

  /** In any state, for any stored execution: a reconciliation that finds no
      observers is recorded as failed, and does not keep a later one with
      confirming attestations from being recorded as RECONCILED. */
  lemma FailedThenConfirmed(c: Config, w: State, reconciler: string, executionId: string, first: Ref, second: Ref, t: nat, u: nat,
                            attestations: seq<Record>, verdict: Verdict) returns (none: Verdict)
    requires w.vault.checkpoints != [] && 1 <= c.threshold <= |c.observers|
    requires May(w.authority.roles, Ref(first.tenant, reconciler), OutcomeReconcile)
    requires first != second && first.tenant == second.tenant && Ref(first.tenant, executionId) in w.store.executions
    requires first !in w.store.reconciliations && second !in w.store.reconciliations
    requires t != u && t !in w.threads && u !in w.threads
    requires
      var x := w.store.executions[Ref(first.tenant, executionId)];
      && x.permit in w.store.permits && Observable(w.store.permits[x.permit])
      && IsVerdict(c.env.suite, ObserverPanel(c, w.store.permits[x.permit]), attestations, verdict)
      && Confirms(verdict, x.receipt, w.store.permits[x.permit])
    ensures
      var failed := Apply(c, w, Reconcile(t, first, reconciler, executionId, [], none));
      var after := Apply(c, failed, Reconcile(u, second, reconciler, executionId, attestations, verdict));
      && first in after.store.reconciliations && second in after.store.reconciliations
      && after.store.reconciliations[first].execution == after.store.reconciliations[second].execution == Ref(first.tenant, executionId)
      && !after.store.reconciliations[first].confirmed && after.store.reconciliations[second].confirmed
      && after.vault.checkpoints != []
  {
    hide Apply, IsVerdict, Observable, ObserverPanel, May;
    var x := w.store.executions[Ref(first.tenant, executionId)];
    var permit := w.store.permits[x.permit];
    PanelThreshold(c, permit);
    none := VerdictExists(c.env.suite, ObserverPanel(c, permit), []);
    NothingSaidNothingMet(c.env.suite, ObserverPanel(c, permit), none);
    var e := Reconcile(t, first, reconciler, executionId, [], none);
    ReconcileAdds(c, w, e);
    ReconcileAdds(c, Apply(c, w, e), Reconcile(u, second, reconciler, executionId, attestations, verdict));
  }

  lemma PanelThreshold(c: Config, permit: Record)
    ensures ObserverPanel(c, permit).threshold == c.threshold && ObserverPanel(c, permit).signers == c.observers
  {
  }

  // ----- the scene

  datatype Scene = Scene(
    tenant: string, proposer: string, verifier: string, executor: string, reconciler: string, policyName: string, policyDigest: string,
    intentId: string, effect: MergeEffect, evidenceId: string, evidenceHash: string,
    evaluationId: string, stateRoot: string, approval: string,
    permitId: string, nonce: string, now: int, seconds: int,
    executionId: string, commit: string,
    observer: string, observerRole: string, keyId: string)

  predicate FourPrincipals(x: Scene) {
    && x.proposer != x.verifier && x.proposer != x.executor && x.proposer != x.reconciler
    && x.verifier != x.executor && x.verifier != x.reconciler && x.executor != x.reconciler
  }

  /** Four principals, each with one role, and an active policy. */
  function SceneAuthority(x: Scene): Authority {
    Authority(
      map[
        Ref(x.tenant, x.proposer) := Fixed(Proposer),
        Ref(x.tenant, x.verifier) := Fixed(Verifier),
        Ref(x.tenant, x.executor) := Fixed(Executor),
        Ref(x.tenant, x.reconciler) := Fixed(Reconciler)],
      map[Ref(x.tenant, x.policyName) := x.policyDigest])
  }

  lemma ScenePermissions(x: Scene)
    requires FourPrincipals(x)
    ensures
      var roles := SceneAuthority(x).roles;
      && May(roles, Ref(x.tenant, x.proposer), IntentCreate) && May(roles, Ref(x.tenant, x.proposer), EvidenceCreate)
      && May(roles, Ref(x.tenant, x.verifier), EvaluationCreate) && May(roles, Ref(x.tenant, x.verifier), PolicyRead)
      && May(roles, Ref(x.tenant, x.verifier), PermitMint) && roles[Ref(x.tenant, x.verifier)] == Fixed(Verifier)
      && May(roles, Ref(x.tenant, x.executor), ActionExecute) && May(roles, Ref(x.tenant, x.executor), PolicyRead)
      && May(roles, Ref(x.tenant, x.reconciler), OutcomeReconcile)
  {
    hide Grants, SceneAuthority, FourPrincipals;
    SceneRoles(x);
    WhoMay(Fixed(Proposer), IntentCreate);
    WhoMay(Fixed(Proposer), EvidenceCreate);
    WhoMay(Fixed(Verifier), EvaluationCreate);
    WhoMay(Fixed(Verifier), PolicyRead);
    WhoMay(Fixed(Verifier), PermitMint);
    WhoMay(Fixed(Executor), ActionExecute);
    WhoMay(Fixed(Executor), PolicyRead);
    WhoMay(Fixed(Reconciler), OutcomeReconcile);
  }

  lemma SceneRoles(x: Scene)
    requires FourPrincipals(x)
    ensures
      var roles := SceneAuthority(x).roles;
      && Ref(x.tenant, x.proposer) in roles && roles[Ref(x.tenant, x.proposer)] == Fixed(Proposer)
      && Ref(x.tenant, x.verifier) in roles && roles[Ref(x.tenant, x.verifier)] == Fixed(Verifier)
      && Ref(x.tenant, x.executor) in roles && roles[Ref(x.tenant, x.executor)] == Fixed(Executor)
      && Ref(x.tenant, x.reconciler) in roles && roles[Ref(x.tenant, x.reconciler)] == Fixed(Reconciler)
  {
  }

  function SceneEvidence(c: Config, x: Scene): string {
    EvidenceRoot(c.env.suite, [x.evidenceHash])
  }

  function SceneEvaluation(c: Config, x: Scene): Evaluation {
    Evaluation(
      Ref(x.tenant, x.intentId),
      [x.evidenceId],
      true,
      Expected(IdentityRoot(c.env.suite, x.tenant, SceneAuthority(x).roles), SceneEvidence(c, x), x.policyDigest, x.stateRoot, x.approval),
      x.policyName)
  }

  function SceneCheckpoint(c: Config): Record {
    Last(FirstVault(c, map[])).checkpoint
  }

  function SceneArguments(x: Scene): MintArguments {
    MintArguments(x.nonce, x.seconds, x.now)
  }

  function SceneTerms(c: Config, x: Scene): Terms {
    MintTerms(SceneEvaluation(c, x), x.effect, Ref(x.tenant, x.permitId), x.evaluationId, x.verifier, Fixed(Verifier), SceneArguments(x),
              SceneCheckpoint(c))
  }

  function SceneReceipt(x: Scene): AdapterReceipt {
    AdapterReceipt(Str(x.commit), true, true)
  }

  /** The requests are well formed and the configuration fits them. */
  ghost predicate Playable(c: Config, x: Scene) {
    && c.env.suite.Valid() && c.env.ClockValid()
    && (forall input :: c.env.hexInt(HexSha(c.env.suite, input)))
    && IsDigest(c.env, x.policyDigest) && IsDigest(c.env, x.stateRoot) && IsDigest(c.env, x.approval)
    && FourPrincipals(x)
    && |x.nonce| >= 16 && 1 <= x.seconds <= 3600
    && x.effect.mergeMethod in {"merge", "squash", "rebase"} && x.effect.pullNumber > 0
    && Slashes(x.effect.repository) == 1 && GitObjectId(x.effect.headSha)
    && x.observer in c.observers && c.observers[x.observer].role == x.observerRole && c.show(Str(x.observer)) == x.observer
    && c.threshold == 1
  }

  // ----- first act: intent, evidence, evaluation

  predicate Evaluated(c: Config, x: Scene, w: State) {
    && w.threads == map[] && w.holder == None && w.vault == FirstVault(c, map[]) && w.authority == SceneAuthority(x)
    && w.store.permits == map[] && w.store.executions == map[] && w.store.reconciliations == map[]
    && Ref(x.tenant, x.intentId) in w.store.intents && w.store.intents[Ref(x.tenant, x.intentId)].effect == x.effect
    && Ref(x.tenant, x.evaluationId) in w.store.evaluations
    && w.store.evaluations[Ref(x.tenant, x.evaluationId)] == SceneEvaluation(c, x)
  }

  function FreshStart(c: Config, x: Scene): State {
    Server.State.State(SceneAuthority(x), Store(map[], map[], map[], map[], map[], map[]), FirstVault(c, map[]), None, map[], [])
  }

  function Opening(x: Scene): seq<Event> {
    [] + [CreateIntent(Ref(x.tenant, x.intentId), x.proposer, x.effect)]
    + [CreateEvidence(Ref(x.tenant, x.evidenceId), x.proposer, x.intentId, x.evidenceHash)]
    + [SceneEvaluate(x)]
  }

  function SceneEvaluate(x: Scene): Event {
    Evaluate(Ref(x.tenant, x.evaluationId), x.verifier, x.intentId, [x.evidenceId], x.policyName, x.stateRoot, x.approval)
  }

  lemma RunMore(c: Config, w: State, events: seq<Event>, e: Event)
    requires w.vault.checkpoints != []
    ensures Run(c, w, events + [e]) == Apply(c, Run(c, w, events), e)
  {
    hide Apply;
    assert (events + [e])[..|events|] == events;
  }

  lemma RunNone(c: Config, w: State)
    requires w.vault.checkpoints != []
    ensures Run(c, w, []) == w
  {
  }

  predicate OfStore(e: Event) {
    e.GrantRole? || e.ActivatePolicy? || e.CreateIntent? || e.CreateEvidence? || e.Evaluate? || e.Mint?
  }

  lemma StoreEvent(c: Config, w: State, e: Event)
    requires w.vault.checkpoints != [] && OfStore(e)
    ensures Apply(c, w, e) == ApplyStore(c, w, e)
  {
    hide ApplyStore;
  }

  lemma ScenePolicy(x: Scene)
    ensures
      var active := SceneAuthority(x).active;
      Ref(x.tenant, x.policyName) in active && active[Ref(x.tenant, x.policyName)] == x.policyDigest
  {
  }

  lemma EvaluatesTo(c: Config, x: Scene, w: State)
    requires Playable(c, x) && w.authority == SceneAuthority(x)
    requires Ref(x.tenant, x.intentId) in w.store.intents
    requires Ref(x.tenant, x.evidenceId) in w.store.evidence
    requires w.store.evidence[Ref(x.tenant, x.evidenceId)] == EvidenceItem(x.intentId, x.evidenceHash)
    ensures
      EvaluationOf(c, w, SceneEvaluate(x)) == Some(SceneEvaluation(c, x))
  {
    hide IsDigest, EvidenceRoot, May, SceneAuthority;
    ScenePermissions(x);
    ScenePolicy(x);
    assert EvidenceHashes(w.store, x.tenant, [x.evidenceId]) == [x.evidenceHash];
  }

  lemma SceneEffectValid(c: Config, x: Scene)
    requires Playable(c, x)
    ensures EffectValid(x.effect)
  {
    hide Slashes;
    assert !IsBlank(x.effect.headSha[0]);
  }

  lemma OpeningEvaluates(c: Config, x: Scene)
    requires Playable(c, x)
    ensures Evaluated(c, x, Run(c, FreshStart(c, x), Opening(x)))
  {
    hide Run, Apply, EvaluationOf, Minted, FirstVault, SceneEvaluation, SceneAuthority, May, EffectValid;
    assert FirstVault(c, map[]).checkpoints != [] by { FirstVaultNotEmpty(c); }
    SceneEffectValid(c, x);
    ScenePermissions(x);
    var w0 := FreshStart(c, x);
    var intent := CreateIntent(Ref(x.tenant, x.intentId), x.proposer, x.effect);
    var evidence := CreateEvidence(Ref(x.tenant, x.evidenceId), x.proposer, x.intentId, x.evidenceHash);
    var e1 := [] + [intent];
    var e2 := e1 + [evidence];
    RunNone(c, w0);
    RunMore(c, w0, [], intent);
    StoreEvent(c, w0, intent);
    RunMore(c, w0, e1, evidence);
    StoreEvent(c, Run(c, w0, e1), evidence);
    RunMore(c, w0, e2, SceneEvaluate(x));
    StoreEvent(c, Run(c, w0, e2), SceneEvaluate(x));
    EvaluatesTo(c, x, Run(c, w0, e2));
  }

  lemma FirstVaultNotEmpty(c: Config)
    ensures FirstVault(c, map[]).checkpoints != [] && FirstVault(c, map[]).registry == map[]
    ensures |FirstVault(c, map[]).checkpoints| == 1 && Last(FirstVault(c, map[])).registry == map[]
  {
  }

  // ----- second act: the permit

  lemma SceneCheckpointIs(c: Config)
    requires c.env.suite.Valid()
    ensures
      var checkpoint := SceneCheckpoint(c);
      && CheckpointIs(c.env.suite, checkpoint, RegistryRoot(c.env.suite, map[]), 1, 0, c.env.checkpointKey)
      && RootField(checkpoint, Observation) == EmptyRoot(c.env.suite) && RootField(checkpoint, Observation) != Null
      && Get(checkpoint, RecordHash) == Str(HashRecord(c.env.suite, checkpoint))
  {
    hide RegistryRoot, TrustRootOf, TrustCheckpoint, HashRecord;
    var roots := CheckpointRoots(RegistryRoot(c.env.suite, map[]), EmptyRoot(c.env.suite), EmptyRoot(c.env.suite));
    CreatedCheckpointIs(c.env.suite, roots, 1, 0, Null, c.env.checkpointKey, c.checkpointKeyId);
    CheckpointFields(c.env.suite, roots, 1, 0, Null, c.env.checkpointKey, c.checkpointKeyId);
  }

  lemma SceneTrustIsFine(c: Config)
    requires c.env.suite.Valid() && forall input :: c.env.hexInt(HexSha(c.env.suite, input))
    ensures TrustTermsProblem(c.env, TrustTerms(SceneCheckpoint(c))) == None
  {
    hide SceneCheckpoint, TrustRootOf, VerifySignature;
    var s, checkpoint := c.env.suite, SceneCheckpoint(c);
    SceneCheckpointIs(c);
    NoDigestIsGenesis(s, RegistryInput(s, map[]));
    NoDigestIsGenesis(s, RecordInput(s, map[Kind := Fixed(EmptyRootKind)]));
    NoDigestIsGenesis(s, RecordInput(s, checkpoint));
  }

  lemma SceneMints(c: Config, x: Scene)
    requires Playable(c, x)
    ensures MintPermit(c.env, SceneTerms(c, x), x.now, c.verifierKeyId).Ok?
  {
    hide SceneCheckpoint, SceneAuthority, TrustTerms, TrustTermsProblem, IsDigest, GitObjectId, Slashes, Blank, SignRecord, PermitBody;
    SceneTrustIsFine(c);
    SceneEvidenceIsDigest(c, x);
    SceneIdentityIsDigest(c, x);
  }

  lemma SceneIdentityIsDigest(c: Config, x: Scene)
    requires Playable(c, x)
    ensures IsDigest(c.env, IdentityRoot(c.env.suite, x.tenant, SceneAuthority(x).roles))
  {
    NoDigestIsGenesis(c.env.suite, IdentityInput(c.env.suite, x.tenant, SceneAuthority(x).roles));
  }

  lemma SceneEvidenceIsDigest(c: Config, x: Scene)
    requires Playable(c, x)
    ensures IsDigest(c.env, SceneEvidence(c, x))
  {
    NoDigestIsGenesis(c.env.suite, RecordInput(c.env.suite, map[Field.Other("evidence_hashes") := TextList(Sort([x.evidenceHash]))]));
  }

  function ScenePermit(c: Config, x: Scene): Record {
    var minted := MintPermit(c.env, SceneTerms(c, x), x.now, c.verifierKeyId);
    if minted.Ok? then minted.value else map[]
  }

  predicate HasPermit(c: Config, x: Scene, w: State) {
    && w.threads == map[] && w.holder == None && w.vault == FirstVault(c, map[]) && w.authority == SceneAuthority(x)
    && w.store.executions == map[] && w.store.reconciliations == map[]
    && Ref(x.tenant, x.permitId) in w.store.permits && w.store.permits[Ref(x.tenant, x.permitId)] == ScenePermit(c, x)
    && Ref(x.tenant, x.evaluationId) in w.store.evaluations
    && w.store.evaluations[Ref(x.tenant, x.evaluationId)] == SceneEvaluation(c, x)
  }

  lemma MintStep(c: Config, x: Scene, w: State)
    requires Playable(c, x) && Evaluated(c, x, w)
    ensures w.vault.checkpoints != []
    ensures HasPermit(c, x, Apply(c, w, Mint(Ref(x.tenant, x.permitId), x.verifier, x.evaluationId, SceneArguments(x))))
  {
    hide Apply, SceneEvaluation, FirstVault, MintTerms, MintPermit, SceneAuthority;
    assert w.vault.checkpoints != [] by { FirstVaultNotEmpty(c); }
    var e := Mint(Ref(x.tenant, x.permitId), x.verifier, x.evaluationId, SceneArguments(x));
    StoreEvent(c, w, e);
    SceneMints(c, x);
    MintsTo(c, x, w);
  }

  lemma MintsTo(c: Config, x: Scene, w: State)
    requires Playable(c, x) && Evaluated(c, x, w) && w.vault.checkpoints != []
    requires MintPermit(c.env, SceneTerms(c, x), x.now, c.verifierKeyId).Ok?
    ensures Minted(c, w, Mint(Ref(x.tenant, x.permitId), x.verifier, x.evaluationId, SceneArguments(x))) == Some(ScenePermit(c, x))
  {
    hide FirstVault, MintTerms, MintPermit, SceneAuthority, May;
    ScenePermissions(x);
    assert SceneEvaluation(c, x).intent == Ref(x.tenant, x.intentId) && SceneEvaluation(c, x).permitted;
  }

  // ----- third act: the execution

  function SceneRequest(c: Config, x: Scene): Request {
    Request(x.tenant, x.executor, Ref(x.tenant, x.permitId), ScenePermit(c, x), SceneEvaluation(c, x))
  }

  function SceneTask(c: Config, x: Scene): Spending.Task {
    Spending.MergeTask(ScenePermit(c, x), SceneEvaluation(c, x).expected, Some(SceneCheckpoint(c)), x.executor, x.now, c.env.formatTime(x.now))
  }

  lemma ScenePermitNamed(c: Config, x: Scene)
    ensures SceneTerms(c, x).nonce == x.nonce && SceneTerms(c, x).trust.Some?
    ensures ExpiryOf(c.env, SceneTerms(c, x).expiry) == Some(x.now + x.seconds * SECOND)
  {
    hide SceneCheckpoint, SceneEvaluation, TrustTerms;
  }

  lemma HeadNonce(env: Env, permit: Record, t: Terms, issuedAt: int, expiry: int)
    requires HasTerms(env, permit, t, issuedAt, expiry)
    ensures TextOf(Get(permit, Nonce)) == t.nonce && (t.trust.Some? ==> Spending.TrustBound(permit))
  {
    hide RootsRecordOf, EffectRecord;
  }

  lemma ScenePermitHas(c: Config, x: Scene)
    requires Playable(c, x)
    ensures
      var t, permit := SceneTerms(c, x), ScenePermit(c, x);
      && MintPermit(c.env, t, x.now, c.verifierKeyId) == Ok(permit)
      && HasTerms(c.env, permit, t, x.now, x.now + x.seconds * SECOND)
      && TextOf(Get(permit, RecordHash)) == HashRecord(c.env.suite, permit) != ""
      && TextOf(Get(permit, Nonce)) == x.nonce && Spending.TrustBound(permit)
  {
    ScenePermitNamed(c, x);
    hide HasTerms, MintPermit, SceneTerms, VerifySignature;
    SceneMints(c, x);
    MintedPermitHasTerms(c.env, SceneTerms(c, x), x.now, c.verifierKeyId, ScenePermit(c, x));
    HeadNonce(c.env, ScenePermit(c, x), SceneTerms(c, x), x.now, x.now + x.seconds * SECOND);
    SignedHashIs(c.env.suite, ScenePermit(c, x), c.env.verifierKey);
  }

  lemma SignedHashIs(s: Suite, r: Record, key: Key)
    requires s.Valid() && VerifySignature(s, r, key)
    ensures TextOf(Get(r, RecordHash)) == HashRecord(s, r) != ""
  {
    NoDigestIsGenesis(s, RecordInput(s, r));
  }

  lemma SceneBegins(c: Config, x: Scene, w: State)
    requires Playable(c, x) && HasPermit(c, x, w)
    ensures BeginRequest(w, x.tenant, x.executor, x.permitId) == Some(SceneRequest(c, x))
  {
    hide SceneEvaluation, SceneAuthority, FirstVault, ScenePermit, SceneCheckpoint, TrustTerms, RootsRecordOf, EffectRecord, May;
    ScenePermissions(x);
    ScenePermitHas(c, x);
  }

  lemma SceneAdmits(c: Config, x: Scene)
    requires Playable(c, x)
    ensures Vets(SceneAuthority(x), SceneRequest(c, x))
    ensures AdmitTask(c, SceneAuthority(x), SceneCheckpoint(c), SceneRequest(c, x), x.now, c.env.formatTime(x.now)) == Some(SceneTask(c, x))
  {
    hide ScenePermit, SceneCheckpoint, SceneAuthority, May;
    ScenePermissions(x);
    ScenePolicy(x);
  }

  lemma SceneCheckpointFits(c: Config)
    requires c.env.suite.Valid()
    ensures TrustCheckpointValid(c.env.suite, SceneCheckpoint(c), map[], c.env.checkpointKey)
  {
    hide SceneCheckpoint, RegistryRoot, TrustRootOf, VerifySignature, EmptyRoot;
    SceneCheckpointIs(c);
  }

  lemma SceneReads(c: Config, x: Scene)
    requires Playable(c, x)
    ensures
      Spending.ReadTrust(c.env, map[], SceneTask(c, x))
      == Ok(Some(ValuesOf(SceneCheckpoint(c), RegistryRoot(c.env.suite, map[]))))
    ensures Spending.Spend(c.env, map[], SceneTask(c, x)).Ok?
  {
    hide SceneCheckpoint, ScenePermit, SceneEvaluation, RegistryRoot, TrustCheckpointValid, HashRecord, HasTerms, ValuesOf,
      Spending.TrustBound, MintPermit, SceneTerms;
    SceneCheckpointFits(c);
    ScenePermitHas(c, x);
  }

  lemma SceneVerifies(c: Config, x: Scene)
    requires Playable(c, x)
    ensures
      Spending.VerifyTask(c.env, SceneTask(c, x), Some(ValuesOf(SceneCheckpoint(c), RegistryRoot(c.env.suite, map[])))) == None
  {
    hide SceneCheckpoint, ScenePermit, SceneEvaluation, RegistryRoot, CheckpointIs, TrustTerms, HashRecord, HasTerms, ValuesOf,
      Verify, TrustFits, MintPermit, MergeSubject, Spending.SubjectOf;
    var t, values := SceneTerms(c, x), Some(ValuesOf(SceneCheckpoint(c), RegistryRoot(c.env.suite, map[])));
    SceneCheckpointIs(c);
    ScenePermitHas(c, x);
    TrustTermsFit(c.env.suite, SceneCheckpoint(c), RegistryRoot(c.env.suite, map[]), 1, 0, c.env.checkpointKey);
    MintedPermitFitsOnlyItsTerms(c.env, t, x.now, c.verifierKeyId, t.expected, Str(t.repository), Int(t.pullNumber), Str(t.headSha),
                                 Str(t.mergeMethod), x.now, values);
    SceneSubject(c, x);
  }

  lemma SceneSubject(c: Config, x: Scene)
    requires Playable(c, x)
    ensures
      var t := SceneTerms(c, x);
      Spending.SubjectOf(SceneTask(c, x)) == MergeSubject(Str(t.repository), Int(t.pullNumber), Str(t.headSha), Str(t.mergeMethod))
  {
    hide SceneCheckpoint, ScenePermit, SceneEvaluation, TrustTerms, HashRecord, RootsRecordOf, MergeSubject, MintPermit;
    ScenePermitHas(c, x);
  }

  // the steps of thread 0, alone

  lemma ThreadEvent(c: Config, w: State, e: Event)
    requires w.vault.checkpoints != [] && OnThread(e) && e.thread == 0 && 0 in w.threads
    ensures Apply(c, w, e) == ApplyThread(c, w, e, 0, w.threads[0])
  {
    hide ApplyThread;
  }

  lemma VetStep(c: Config, w: State, r: Request)
    requires w.vault.checkpoints != [] && 0 in w.threads && w.threads[0] == Locked(r) && Vets(w.authority, r)
    ensures Apply(c, w, Vet(0)) == WithThread(w, 0, Vetted(r, w.authority.active))
  {
    hide Vets;
    ThreadEvent(c, w, Vet(0));
  }

  lemma SpendStep(c: Config, w: State, r: Request, seen: Authority, task: Spending.Task)
    requires w.vault.checkpoints != [] && 0 in w.threads && w.threads[0] == Server.Verified(r, seen, task)
    requires Spending.Spend(c.env, w.vault.registry, task).Ok?
    ensures
      var after := Apply(c, w, Transact(0));
      && after.threads == w.threads[0 := Server.Claimed(r, seen, task)] && after.store == w.store && after.authority == w.authority
      && after.vault == w.vault.(registry := Spending.Spend(c.env, w.vault.registry, task).value)
  {
    hide Spending.Spend;
    ThreadEvent(c, w, Transact(0));
  }

  lemma WriteStep(c: Config, w: State, r: Request, seen: Authority, task: Spending.Task, receipt: AdapterReceipt)
    requires w.vault.checkpoints != [] && 0 in w.threads && w.threads[0] == Called(r, seen, task, receipt) && task.checkpoint.Some?
    ensures
      Apply(c, w, WriteCheckpoint(0))
      == Release(w, 0, Written(r, seen, task, receipt)).(vault := Advance(c, w.vault, task.checkpoint.value, None))
  {
    hide Advance;
    ThreadEvent(c, w, WriteCheckpoint(0));
  }

  /** Thread 0 is in this state, and nothing else has changed but the vault. */
  predicate InAct(c: Config, x: Scene, store: Store, w: State, thread: Thread, vault: Vault) {
    w.threads == map[0 := thread] && w.vault == vault && w.store == store && w.authority == SceneAuthority(x)
  }

  lemma ActBegins(c: Config, x: Scene, w: State)
    requires Playable(c, x) && HasPermit(c, x, w) && w.vault.checkpoints != []
    ensures
      var after := Apply(c, w, BeginExecute(0, x.tenant, x.executor, x.permitId));
      InAct(c, x, w.store, after, Waiting(SceneRequest(c, x)), w.vault) && after.holder == None
  {
    hide BeginRequest, SceneAuthority, FirstVault, SceneEvaluation, ScenePermit, SceneRequest, Playable;
    SceneBegins(c, x, w);
  }

  lemma ActAcquires(c: Config, x: Scene, store: Store, w: State, vault: Vault)
    requires w.vault.checkpoints != [] && InAct(c, x, store, w, Waiting(SceneRequest(c, x)), vault) && w.holder == None
    ensures InAct(c, x, store, Apply(c, w, Acquire(0)), Locked(SceneRequest(c, x)), vault)
  {
    hide SceneRequest, SceneAuthority;
    ThreadEvent(c, w, Acquire(0));
  }

  lemma ActVets(c: Config, x: Scene, store: Store, w: State, vault: Vault)
    requires Playable(c, x) && w.vault.checkpoints != [] && InAct(c, x, store, w, Locked(SceneRequest(c, x)), vault)
    ensures InAct(c, x, store, Apply(c, w, Vet(0)), Vetted(SceneRequest(c, x), SceneAuthority(x).active), vault)
  {
    hide SceneRequest, SceneAuthority, SceneTask, SceneCheckpoint, AdmitTask, Vets, Playable, Apply;
    SceneAdmits(c, x);
    VetStep(c, w, SceneRequest(c, x));
  }

  lemma ActAdmits(c: Config, x: Scene, store: Store, w: State, vault: Vault)
    requires Playable(c, x) && w.vault.checkpoints != [] && vault == FirstVault(c, map[])
    requires InAct(c, x, store, w, Vetted(SceneRequest(c, x), SceneAuthority(x).active), vault)
    ensures
      InAct(c, x, store, Apply(c, w, Admit(0, x.now, c.env.formatTime(x.now))), Admitted(SceneRequest(c, x), SceneAuthority(x), SceneTask(c, x)),
            vault)
  {
    hide SceneRequest, SceneAuthority, SceneTask, AdmitTask, FirstVault, Playable;
    ThreadEvent(c, w, Admit(0, x.now, c.env.formatTime(x.now)));
    SceneAdmits(c, x);
  }

  lemma ActReads(c: Config, x: Scene, store: Store, w: State, vault: Vault)
    requires Playable(c, x) && w.vault.checkpoints != [] && vault.registry == map[]
    requires InAct(c, x, store, w, Admitted(SceneRequest(c, x), SceneAuthority(x), SceneTask(c, x)), vault)
    ensures
      InAct(c, x, store, Apply(c, w, ReadState(0)),
            Server.Checked(SceneRequest(c, x), SceneAuthority(x), SceneTask(c, x),
                           Some(ValuesOf(SceneCheckpoint(c), RegistryRoot(c.env.suite, map[])))), vault)
  {
    hide SceneRequest, SceneAuthority, SceneTask, ValuesOf, RegistryRoot, SceneCheckpoint, Spending.ReadTrust, Playable;
    ThreadEvent(c, w, ReadState(0));
    SceneReads(c, x);
  }

  lemma ActChecks(c: Config, x: Scene, store: Store, w: State, vault: Vault)
    requires Playable(c, x) && w.vault.checkpoints != []
    requires
      InAct(c, x, store, w,
            Server.Checked(SceneRequest(c, x), SceneAuthority(x), SceneTask(c, x),
                           Some(ValuesOf(SceneCheckpoint(c), RegistryRoot(c.env.suite, map[])))), vault)
    ensures InAct(c, x, store, Apply(c, w, CheckPermit(0)), Server.Verified(SceneRequest(c, x), SceneAuthority(x), SceneTask(c, x)), vault)
  {
    hide SceneRequest, SceneAuthority, SceneTask, ValuesOf, RegistryRoot, SceneCheckpoint, Spending.VerifyTask, Playable;
    ThreadEvent(c, w, CheckPermit(0));
    SceneVerifies(c, x);
  }

  function SpentVault(c: Config, x: Scene, vault: Vault): Vault {
    var spent := Spending.Spend(c.env, map[], SceneTask(c, x));
    if spent.Ok? then vault.(registry := spent.value) else vault
  }

  lemma ActSpends(c: Config, x: Scene, store: Store, w: State, vault: Vault)
    requires Playable(c, x) && w.vault.checkpoints != [] && vault.registry == map[]
    requires InAct(c, x, store, w, Server.Verified(SceneRequest(c, x), SceneAuthority(x), SceneTask(c, x)), vault)
    ensures
      InAct(c, x, store, Apply(c, w, Transact(0)), Server.Claimed(SceneRequest(c, x), SceneAuthority(x), SceneTask(c, x)),
            SpentVault(c, x, vault))
  {
    hide SceneRequest, SceneAuthority, SceneTask, SceneCheckpoint, ValuesOf, RegistryRoot, Spending.ReadTrust, Spending.Spend, Playable,
      Apply;
    SceneReads(c, x);
    SpendStep(c, w, SceneRequest(c, x), SceneAuthority(x), SceneTask(c, x));
  }

  lemma ActCalls(c: Config, x: Scene, store: Store, w: State, vault: Vault)
    requires w.vault.checkpoints != []
    requires InAct(c, x, store, w, Server.Claimed(SceneRequest(c, x), SceneAuthority(x), SceneTask(c, x)), vault)
    ensures
      InAct(c, x, store, Apply(c, w, CallProvider(0, Some(SceneReceipt(x)))),
            Called(SceneRequest(c, x), SceneAuthority(x), SceneTask(c, x), SceneReceipt(x)), vault)
  {
    hide SceneRequest, SceneAuthority, SceneTask, SceneReceipt;
    ThreadEvent(c, w, CallProvider(0, Some(SceneReceipt(x))));
  }

  lemma TaskCheckpoint(c: Config, x: Scene)
    ensures SceneTask(c, x).checkpoint == Some(SceneCheckpoint(c))
  {
    hide SceneCheckpoint, ScenePermit, SceneEvaluation;
  }

  lemma ActWrites(c: Config, x: Scene, store: Store, w: State, vault: Vault)
    requires w.vault.checkpoints != []
    requires InAct(c, x, store, w, Called(SceneRequest(c, x), SceneAuthority(x), SceneTask(c, x), SceneReceipt(x)), vault)
    ensures
      InAct(c, x, store, Apply(c, w, WriteCheckpoint(0)), Written(SceneRequest(c, x), SceneAuthority(x), SceneTask(c, x), SceneReceipt(x)),
            Advance(c, vault, SceneCheckpoint(c), None))
  {
    hide SceneRequest, SceneAuthority, SceneTask, SceneReceipt, Advance, SceneCheckpoint, Apply;
    TaskCheckpoint(c, x);
    WriteStep(c, w, SceneRequest(c, x), SceneAuthority(x), SceneTask(c, x), SceneReceipt(x));
  }

  function SceneExecution(c: Config, x: Scene): Execution {
    Execution(Ref(x.tenant, x.permitId), TextOf(Get(ScenePermit(c, x), RecordHash)), x.executor, SceneReceipt(x), 0, SceneAuthority(x))
  }

  lemma ActRecords(c: Config, x: Scene, store: Store, w: State, vault: Vault)
    requires w.vault.checkpoints != [] && store.executions == map[]
    requires InAct(c, x, store, w, Written(SceneRequest(c, x), SceneAuthority(x), SceneTask(c, x), SceneReceipt(x)), vault)
    ensures
      InAct(c, x, store.(executions := map[Ref(x.tenant, x.executionId) := SceneExecution(c, x)]),
            Apply(c, w, RecordExecution(0, x.executionId)), Over, vault)
  {
    hide SceneAuthority, SceneTask, SceneReceipt, ScenePermit, SceneEvaluation;
    ThreadEvent(c, w, RecordExecution(0, x.executionId));
  }

  /** From the stored permit to the recorded execution. */
  lemma SceneExecutes(c: Config, x: Scene, w: State, events: seq<Event>) returns (more: seq<Event>)
    requires Playable(c, x) && w.vault.checkpoints != [] && HasPermit(c, x, Run(c, w, events))
    ensures
      var before, end := Run(c, w, events), Run(c, w, more);
      InAct(c, x, before.store.(executions := map[Ref(x.tenant, x.executionId) := SceneExecution(c, x)]), end, Over, end.vault)
  {
    var claimed := SceneClaims(c, x, w, events);
    more := SceneFinishes(c, x, w, claimed, Run(c, w, events).store);
  }

  lemma SceneClaims(c: Config, x: Scene, w: State, events: seq<Event>) returns (more: seq<Event>)
    requires Playable(c, x) && w.vault.checkpoints != [] && HasPermit(c, x, Run(c, w, events))
    ensures
      var before, end := Run(c, w, events), Run(c, w, more);
      InAct(c, x, before.store, end, Server.Claimed(SceneRequest(c, x), SceneAuthority(x), SceneTask(c, x)), end.vault)
  {
    hide Run, Apply, FirstVault, Playable, SceneRequest, SceneAuthority, SceneTask, SceneCheckpoint, ScenePermit, SceneEvaluation,
      ValuesOf, RegistryRoot, SpentVault;
    FirstVaultNotEmpty(c);
    var store, vault := Run(c, w, events).store, Run(c, w, events).vault;
    RunMore(c, w, events, BeginExecute(0, x.tenant, x.executor, x.permitId));
    ActBegins(c, x, Run(c, w, events));
    more := events + [BeginExecute(0, x.tenant, x.executor, x.permitId)];
    RunMore(c, w, more, Acquire(0));
    ActAcquires(c, x, store, Run(c, w, more), vault);
    more := more + [Acquire(0)];
    RunMore(c, w, more, Vet(0));
    ActVets(c, x, store, Run(c, w, more), vault);
    more := more + [Vet(0)];
    RunMore(c, w, more, Admit(0, x.now, c.env.formatTime(x.now)));
    ActAdmits(c, x, store, Run(c, w, more), vault);
    more := more + [Admit(0, x.now, c.env.formatTime(x.now))];
    RunMore(c, w, more, ReadState(0));
    ActReads(c, x, store, Run(c, w, more), vault);
    more := more + [ReadState(0)];
    RunMore(c, w, more, CheckPermit(0));
    ActChecks(c, x, store, Run(c, w, more), vault);
    more := more + [CheckPermit(0)];
    RunMore(c, w, more, Transact(0));
    ActSpends(c, x, store, Run(c, w, more), vault);
    more := more + [Transact(0)];
  }

  lemma SceneFinishes(c: Config, x: Scene, w: State, events: seq<Event>, store: Store) returns (more: seq<Event>)
    requires w.vault.checkpoints != [] && store.executions == map[]
    requires
      InAct(c, x, store, Run(c, w, events), Server.Claimed(SceneRequest(c, x), SceneAuthority(x), SceneTask(c, x)), Run(c, w, events).vault)
    ensures
      var end := Run(c, w, more);
      InAct(c, x, store.(executions := map[Ref(x.tenant, x.executionId) := SceneExecution(c, x)]), end, Over, end.vault)
  {
    hide Run, Apply, SceneRequest, SceneAuthority, SceneTask, SceneCheckpoint, SceneReceipt, SceneExecution, Advance;
    var vault := Run(c, w, events).vault;
    RunMore(c, w, events, CallProvider(0, Some(SceneReceipt(x))));
    ActCalls(c, x, store, Run(c, w, events), vault);
    more := events + [CallProvider(0, Some(SceneReceipt(x)))];
    RunMore(c, w, more, WriteCheckpoint(0));
    ActWrites(c, x, store, Run(c, w, more), vault);
    more := more + [WriteCheckpoint(0)];
    RunMore(c, w, more, RecordExecution(0, x.executionId));
    ActRecords(c, x, store, Run(c, w, more), Advance(c, vault, SceneCheckpoint(c), None));
    more := more + [RecordExecution(0, x.executionId)];
  }

  // ----- last act: two reconciliations

  function SceneStatement(x: Scene): Record {
    map[Merged := Bool(true), HeadSha := Str(x.effect.headSha), MergeCommitSha := Str(x.commit)]
  }

  function SceneAttestation(c: Config, x: Scene): Record
    requires x.observer in c.observers
  {
    var p := ObserverPanel(c, ScenePermit(c, x));
    SignAttestation(c.env.suite, p.kind, p.subject, SceneStatement(x), x.observer, x.observerRole, c.observers[x.observer].key, x.keyId)
  }

  lemma {:induction false} OneSlashSplits(text: string)
    requires Slashes(text) > 0
    ensures SplitSlash(text).Some?
  {
    if text[0] != '/' { OneSlashSplits(text[1..]); }
  }

  lemma ScenePermitEffect(c: Config, x: Scene)
    requires Playable(c, x)
    ensures
      var effect := EffectOf(ScenePermit(c, x));
      Get(effect, Repository) == Str(x.effect.repository) && Get(effect, ExpectedHeadSha) == Str(x.effect.headSha)
    ensures Observable(ScenePermit(c, x))
  {
    hide SceneCheckpoint, ScenePermit, SceneEvaluation, TrustTerms, HashRecord, RootsRecordOf, MintPermit, Slashes, SplitSlash;
    ScenePermitHas(c, x);
    OneSlashSplits(x.effect.repository);
  }

  lemma SceneQuorum(c: Config, x: Scene) returns (v: Verdict)
    requires Playable(c, x)
    ensures IsVerdict(c.env.suite, ObserverPanel(c, ScenePermit(c, x)), [SceneAttestation(c, x)], v)
    ensures v.met && v.statement == Some(SceneStatement(x))
  {
    hide IsVerdict, Counts, ScenePermit, SceneStatement, SceneAuthority, IsDigest, Slashes, GitObjectId;
    var s, p, a := c.env.suite, ObserverPanel(c, ScenePermit(c, x)), SceneAttestation(c, x);
    v := VerdictExists(s, p, [a]);
    SignedAttestationCounts(s, p, p.kind, p.subject, SceneStatement(x), x.observer, x.observerRole, x.keyId);
    OneAttestationSuffices(s, p, a, v);
  }

  /** One counted attestation is a quorum of one. */
  lemma OneAttestationSuffices(s: Suite, p: Panel, a: Record, v: Verdict)
    requires Counts(s, p, a) && p.threshold == 1 && IsVerdict(s, p, [a], v)
    ensures v.met && v.statement == Some(StatementOf(a))
  {
    hide Counts, Leads, Chosen, HashOf, StatementOf, SignerOf;
    assert Counted(s, p, [a]) == {a};
    var said := Said(s, p, [a]);
    assert said == {(SignerOf(p, a), HashOf(a))};
    assert (SignerOf(p, a), HashOf(a)).0 in Speakers(said);
    assert Voters(said, HashOf(a)) == {SignerOf(p, a)};
    assert forall h :: h != HashOf(a) ==> Voters(said, h) == {};
    assert |Voters(said, HashOf(a))| == 1;
  }

  lemma SceneConfirms(c: Config, x: Scene, v: Verdict)
    requires Playable(c, x) && v.met && v.statement == Some(SceneStatement(x))
    ensures Confirms(v, SceneReceipt(x), ScenePermit(c, x))
  {
    hide ScenePermit, Playable;
    ScenePermitEffect(c, x);
  }

  /** A whole run from a fresh server, in which one execution is reconciled twice:
      first as failed and then, from an observer's attestation, as RECONCILED. */
  lemma OutcomesAreNotSticky(c: Config, x: Scene, first: string, second: string) returns (events: seq<Event>)
    requires Playable(c, x) && first != second
    ensures FirstVault(c, map[]).checkpoints != [] && Initial(c, FreshStart(c, x))
    ensures
      var store := Run(c, FreshStart(c, x), events).store;
      var failed, confirmed := Ref(x.tenant, first), Ref(x.tenant, second);
      && failed in store.reconciliations && confirmed in store.reconciliations
      && store.reconciliations[failed].execution == store.reconciliations[confirmed].execution == Ref(x.tenant, x.executionId)
      && !store.reconciliations[failed].confirmed && store.reconciliations[confirmed].confirmed
  {
    hide Run, Apply, FirstVault, SceneAuthority, ScenePermit, SceneEvaluation, SceneReceipt, IsVerdict, Confirms, Observable, ObserverPanel,
      SceneAttestation, ChainHolds, May;
    FirstVaultNotEmpty(c);
    ScenePermissions(x);
    FreshServerIsInitial(c, map[], SceneAuthority(x));
    var w0 := FreshStart(c, x);
    OpeningEvaluates(c, x);
    var mint := Mint(Ref(x.tenant, x.permitId), x.verifier, x.evaluationId, SceneArguments(x));
    MintStep(c, x, Run(c, w0, Opening(x)));
    RunMore(c, w0, Opening(x), mint);
    var done := SceneExecutes(c, x, w0, Opening(x) + [mint]);
    var v := SceneQuorum(c, x);
    SceneConfirms(c, x, v);
    ScenePermitEffect(c, x);
    var none := FailedThenConfirmed(c, Run(c, w0, done), x.reconciler, x.executionId, Ref(x.tenant, first), Ref(x.tenant, second), 1, 2,
                                    [SceneAttestation(c, x)], v);
    var e, f := Reconcile(1, Ref(x.tenant, first), x.reconciler, x.executionId, [], none),
                Reconcile(2, Ref(x.tenant, second), x.reconciler, x.executionId, [SceneAttestation(c, x)], v);
    RunMore(c, w0, done, e);
    RunMore(c, w0, done + [e], f);
    events := done + [e] + [f];
  }
}
