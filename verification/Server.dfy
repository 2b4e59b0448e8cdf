/**
 The locked sections of proofrail/server.py: `_evaluate`, `_mint_permit`,
 `_execute_github_merge` and `_reconcile_github_merge` of `PilotControlPlane`,
 as threads that interleave over the store, the replay registry and the trust
 checkpoint.

 A thread may raise at any step (which releases the trust lock) and the process
 may restart at any time (which ends every thread).  Other users of the
 registry file may claim permits at any time.
 */
module Server {
  import opened Hashing
  import opened Sorting
  import opened Quorum
  import opened TrustState
  import opened Permits
  import opened Rbac
  import opened Identity
  import Spending

  /** Configuration, and the parts of the library the server relies on. */
  datatype Config = Config(
    env: Env,
    checkpointKeyId: string,
    verifierKeyId: string,
    observers: map<string, Trusted>,
    threshold: int,
    show: Json -> string)

  // ----- stored objects; every table is insert-only

  datatype MergeEffect = MergeEffect(repository: string, pullNumber: int, headSha: string, mergeMethod: string)

  datatype Intent = Intent(effect: MergeEffect)

  datatype EvidenceItem = EvidenceItem(intentId: string, recordHash: string)

  /** An evaluation, with the evidence it cites; the ids are not part of the stored record. */
  datatype Evaluation = Evaluation(intent: Ref, evidenceIds: seq<string>, permitted: bool, expected: Expected, policyName: string)

  /** Who may do what: the principals' roles and the active policies. */
  datatype Authority = Authority(roles: map<Ref, Json>, active: map<Ref, string>)

  /** The receipt fields the server reads. */
  datatype AdapterReceipt = AdapterReceipt(operationId: Json, confirmed: bool, succeeded: bool)

  /** An execution, with the thread that ran it and the authority state that thread
      read under the lock; neither is part of the stored record. */
  datatype Execution = Execution(permit: Ref, permitHash: string, executedBy: string, receipt: AdapterReceipt, thread: nat, seen: Authority)

  datatype Reconciliation = Reconciliation(execution: Ref, attestations: seq<Record>, verdict: Verdict, confirmed: bool)

  datatype Store = Store(
    intents: map<Ref, Intent>,
    evidence: map<Ref, EvidenceItem>,
    evaluations: map<Ref, Evaluation>,
    permits: map<Ref, Record>,
    executions: map<Ref, Execution>,
    reconciliations: map<Ref, Reconciliation>)

  // ----- the replay registry and the trust checkpoints

  /** A stored checkpoint, with the registry it was computed from. */
  datatype Stored = Stored(checkpoint: Record, registry: Registry)

  /** The registry file, and every checkpoint the checkpoint file has held. */
  datatype Vault = Vault(registry: Registry, checkpoints: seq<Stored>)

  function Last(v: Vault): Stored
    requires v.checkpoints != []
  {
    v.checkpoints[|v.checkpoints| - 1]
  }

  function IntOf(j: Json): int {
    if j.Int? then j.i else 0
  }

  /** `next_trust_checkpoint` */
  function NextCheckpoint(c: Config, checkpoint: Record, registry: Registry, observation: Option<string>): Record {
    TrustCheckpoint(
      c.env.suite,
      CheckpointRoots(
        RegistryRoot(c.env.suite, registry),
        RootField(checkpoint, LedgerCheckpoint),
        if observation.Some? then Str(observation.value) else RootField(checkpoint, Observation)),
      IntOf(Get(checkpoint, Epoch)) + 1,
      IntOf(Get(checkpoint, MonotonicCounter)) + 1,
      Get(checkpoint, RecordHash),
      c.env.checkpointKey,
      c.checkpointKeyId)
  }

  /** `write_trust_checkpoint` of the next checkpoint: one atomic replacement. */
  function Advance(c: Config, v: Vault, from: Record, observation: Option<string>): Vault {
    v.(checkpoints := v.checkpoints + [Stored(NextCheckpoint(c, from, v.registry, observation), v.registry)])
  }

  /** The k-th checkpoint: epoch 1 + k, counter k, the replay root of its registry. */
  predicate IsCheckpoint(c: Config, k: nat, s: Stored) {
    CheckpointIs(c.env.suite, s.checkpoint, RegistryRoot(c.env.suite, s.registry), 1 + k, k, c.env.checkpointKey)
  }

  /** The stored checkpoints form one linear chain over a growing registry. */
  ghost predicate ChainHolds(c: Config, v: Vault) {
    && |v.checkpoints| > 0
    && (forall k :: 0 <= k < |v.checkpoints| ==> IsCheckpoint(c, k, v.checkpoints[k]))
    && Get(v.checkpoints[0].checkpoint, PreviousCheckpointHash) == Null
    && (forall k :: 0 < k < |v.checkpoints| ==>
        Get(v.checkpoints[k].checkpoint, PreviousCheckpointHash) == Get(v.checkpoints[k - 1].checkpoint, RecordHash)
        && Spending.Extends(v.checkpoints[k - 1].registry, v.checkpoints[k].registry))
    && Spending.Extends(Last(v).registry, v.registry)
    && NoncesUnique(v.registry)
  }

  lemma NextIsCheckpoint(c: Config, k: nat, s: Stored, registry: Registry, observation: Option<string>)
    requires c.env.suite.Valid() && IsCheckpoint(c, k, s)
    ensures
      var next := NextCheckpoint(c, s.checkpoint, registry, observation);
      IsCheckpoint(c, k + 1, Stored(next, registry))
      && Get(next, PreviousCheckpointHash) == Get(s.checkpoint, RecordHash)
  {
    hide RegistryRoot, TrustRootOf, VerifySignature, RootField, TrustCheckpoint;
    var roots := CheckpointRoots(
      RegistryRoot(c.env.suite, registry),
      RootField(s.checkpoint, LedgerCheckpoint),
      if observation.Some? then Str(observation.value) else RootField(s.checkpoint, Observation));
    CreatedCheckpointIs(c.env.suite, roots, k + 2, k + 1, Get(s.checkpoint, RecordHash), c.env.checkpointKey, c.checkpointKeyId);
  }

  lemma OneMoreLink(c: Config, v: Vault, next: Record)
    requires ChainHolds(c, v) && IsCheckpoint(c, |v.checkpoints|, Stored(next, v.registry))
    requires Get(next, PreviousCheckpointHash) == Get(Last(v).checkpoint, RecordHash)
    ensures ChainHolds(c, v.(checkpoints := v.checkpoints + [Stored(next, v.registry)]))
  {
    hide IsCheckpoint;
    hide NoncesUnique;
    var longer := v.checkpoints + [Stored(next, v.registry)];
    assert forall k :: 0 <= k < |v.checkpoints| ==> longer[k] == v.checkpoints[k];
  }

  lemma AdvanceKeepsChain(c: Config, v: Vault, observation: Option<string>)
    requires c.env.suite.Valid() && ChainHolds(c, v)
    ensures ChainHolds(c, Advance(c, v, Last(v).checkpoint, observation))
  {
    assert IsCheckpoint(c, |v.checkpoints| - 1, v.checkpoints[|v.checkpoints| - 1]);
    NextIsCheckpoint(c, |v.checkpoints| - 1, Last(v), v.registry, observation);
    OneMoreLink(c, v, NextCheckpoint(c, Last(v).checkpoint, v.registry, observation));
  }

  lemma SpendKeepsChain(c: Config, v: Vault, t: Spending.Task)
    requires ChainHolds(c, v) && Spending.Spend(c.env, v.registry, t).Ok?
    ensures ChainHolds(c, v.(registry := Spending.Spend(c.env, v.registry, t).value))
  {
    Spending.SpendAddsOneClaim(c.env, v.registry, t);
  }

  // ----- threads

  datatype Request = Request(tenant: string, principal: string, permitRef: Ref, permit: Record, evaluation: Evaluation)

  datatype Thread =
    | Waiting(r: Request)
    | Locked(r: Request)
    | Vetted(r: Request, active: map<Ref, string>)
    | Admitted(r: Request, seen: Authority, task: Spending.Task)
    | Checked(r: Request, seen: Authority, task: Spending.Task, values: Option<TrustValues>)
    | Verified(r: Request, seen: Authority, task: Spending.Task)
    | Claimed(r: Request, seen: Authority, task: Spending.Task)
    | Called(r: Request, seen: Authority, task: Spending.Task, receipt: AdapterReceipt)
    | Written(r: Request, seen: Authority, task: Spending.Task, receipt: AdapterReceipt)
    | ReconcileWaiting(record: Ref, observationRoot: string)
    | ReconcileLocked(record: Ref, observationRoot: string)
    | Over

  predicate InSection(t: Thread) {
    t.Locked? || t.Vetted? || t.Admitted? || t.Checked? || t.Verified? || t.Claimed? || t.Called? || t.ReconcileLocked?
  }

  predicate Spent(t: Thread) {
    t.Claimed? || t.Called?
  }

  /** One committed spend of the server, with the checkpoint in force. */
  datatype ServerCommit = ServerCommit(permit: Record, checkpoint: nat)

  datatype State = State(
    authority: Authority,
    store: Store,
    vault: Vault,
    holder: Option<nat>,
    threads: map<nat, Thread>,
    commits: seq<ServerCommit>)

  /** `seconds` is `expiry_seconds`. */
  datatype MintArguments = MintArguments(nonce: string, seconds: int, now: int)

  datatype Event =
    | GrantRole(who: Ref, role: Json)
    | ActivatePolicy(policy: Ref, digest: string)
    | CreateIntent(id: Ref, principal: string, effect: MergeEffect)
    | CreateEvidence(id: Ref, principal: string, intentId: string, recordHash: string)
    | Evaluate(id: Ref, principal: string, intentId: string, evidenceIds: seq<string>, policyName: string, stateRoot: string, approval: string)
    | Mint(id: Ref, principal: string, evaluationId: string, arguments: MintArguments)
    | ForeignSpend(task: Spending.Task)
    | BeginExecute(thread: nat, tenant: string, principal: string, permitId: string)
    | Acquire(thread: nat)
    | Vet(thread: nat)
    | Admit(thread: nat, now: int, at: string)
    | ReadState(thread: nat)
    | CheckPermit(thread: nat)
    | Transact(thread: nat)
    | CallProvider(thread: nat, reply: Option<AdapterReceipt>)
    | WriteCheckpoint(thread: nat)
    | RecordExecution(thread: nat, executionId: string)
    | Reconcile(thread: nat, id: Ref, principal: string, executionId: string, attestations: seq<Record>, verdict: Verdict)
    | AdvanceCheckpoint(thread: nat)
    | Raise(thread: nat)
    | Restart

  // ----- intents, evaluation and minting

  /** `_validate_github_effect` */
  predicate EffectValid(e: MergeEffect) {
    Slashes(e.repository) == 1 && e.pullNumber > 0 && !Blank(e.headSha) && e.mergeMethod in {"merge", "squash", "rebase"}
  }

  /** `constraints["evaluation_id"]` */
  function PermitEvaluation(permit: Record): string {
    if Get(permit, Constraints).Obj? then TextOf(Get(Get(permit, Constraints).fields, Field.EvaluationId)) else ""
  }

  function EvidenceHashes(store: Store, tenant: string, ids: seq<string>): seq<string>
    requires forall i :: 0 <= i < |ids| ==> Ref(tenant, ids[i]) in store.evidence
  {
    seq(|ids|, i requires 0 <= i < |ids| => store.evidence[Ref(tenant, ids[i])].recordHash)
  }

  /** `hash_record({"evidence_hashes": sorted(...)})` */
  function EvidenceRoot(s: Suite, hashes: seq<string>): string {
    HashRecord(s, map[Field.Other("evidence_hashes") := TextList(Sort(hashes))])
  }

  function EvaluationOf(c: Config, w: State, e: Event): Option<Evaluation>
    requires e.Evaluate?
  {
    var tenant, intent := e.id.tenant, Ref(e.id.tenant, e.intentId);
    var who := Ref(tenant, e.principal);
    if !May(w.authority.roles, who, EvaluationCreate) || !May(w.authority.roles, who, PolicyRead)
      || intent !in w.store.intents || e.evidenceIds == [] || Ref(tenant, e.policyName) !in w.authority.active
      || !IsDigest(c.env, e.stateRoot) || !IsDigest(c.env, e.approval)
      || exists i :: 0 <= i < |e.evidenceIds| && Ref(tenant, e.evidenceIds[i]) !in w.store.evidence then
      None
    else
      var fits := forall i :: 0 <= i < |e.evidenceIds| ==> w.store.evidence[Ref(tenant, e.evidenceIds[i])].intentId == e.intentId;
      Some(Evaluation(intent, e.evidenceIds, fits, Expected(
        IdentityRoot(c.env.suite, tenant, w.authority.roles),
        EvidenceRoot(c.env.suite, EvidenceHashes(w.store, tenant, e.evidenceIds)),
        w.authority.active[Ref(tenant, e.policyName)],
        e.stateRoot,
        e.approval), e.policyName))
  }

  function MintTerms(e: Evaluation, effect: MergeEffect, id: Ref, evaluationId: string, issuerId: string, issuerRole: Json,
                     a: MintArguments, checkpoint: Record): Terms {
    Terms(e.expected, effect.repository, effect.pullNumber, effect.headSha, effect.mergeMethod, a.nonce,
          Instant(a.now + a.seconds * SECOND), issuerId, issuerRole, map[Field.EvaluationId := Str(evaluationId)],
          Some(TrustTerms(checkpoint)), None, id.id)
  }

  /** The issuer of a permit is the principal that asks for it, with its role. */
  function Minted(c: Config, w: State, e: Event): Option<Record>
    requires e.Mint? && w.vault.checkpoints != []
  {
    var evaluation, issuer := Ref(e.id.tenant, e.evaluationId), Ref(e.id.tenant, e.principal);
    if !May(w.authority.roles, issuer, PermitMint)
      || evaluation !in w.store.evaluations || !w.store.evaluations[evaluation].permitted
      || w.store.evaluations[evaluation].intent !in w.store.intents
      || !(1 <= e.arguments.seconds <= 3600) then None
    else
      var ev := w.store.evaluations[evaluation];
      var terms := MintTerms(ev, w.store.intents[ev.intent].effect, e.id, e.evaluationId, e.principal, w.authority.roles[issuer],
                             e.arguments, Last(w.vault).checkpoint);
      match MintPermit(c.env, terms, e.arguments.now, c.verifierKeyId)
      case Ok(permit) => Some(permit)
      case Err(_) => None
  }

  // ----- reconciliation

  function StatementField(v: Verdict, field: Field): Json {
    if v.statement.Some? then Get(v.statement.value, field) else Null
  }

  /** `text.split("/", 1)` into two parts; None without a slash. */
  function SplitSlash(text: string): Option<(string, string)> {
    if text == "" then None
    else if text[0] == '/' then Some(("", text[1..]))
    else
      var rest := SplitSlash(text[1..]);
      if rest.None? then None else Some(([text[0]] + rest.value.0, rest.value.1))
  }

  lemma {:induction false} SplitJoins(text: string)
    requires SplitSlash(text).Some?
    ensures text == SplitSlash(text).value.0 + "/" + SplitSlash(text).value.1
  {
    if text[0] == '/' {
      assert text == "" + "/" + text[1..];
    } else {
      SplitJoins(text[1..]);
      assert text == [text[0]] + text[1..];
    }
  }

  function EffectOf(permit: Record): Record {
    FieldsOf(Get(permit, Field.Effect))
  }

  /** Can the effect be observed: does its repository have an owner and a name? */
  predicate Observable(permit: Record) {
    SplitSlash(TextOf(Get(EffectOf(permit), Repository))).Some?
  }

  /** The `execution` an observation is asked about. */
  function ExecutionDetails(effect: Record): Record {
    var parts := SplitSlash(TextOf(Get(effect, Repository)));
    var owner, repo := if parts.Some? then parts.value.0 else "", if parts.Some? then parts.value.1 else "";
    map[
      Owner := Str(owner),
      Repo := Str(repo),
      PullNumber := Get(effect, PullNumber),
      ExpectedHeadSha := Get(effect, ExpectedHeadSha),
      MergeMethod := Get(effect, MergeMethod)]
  }

  function SubjectRecord(effect: Record): Record {
    map[
      Kind := Fixed(ObservationSubjectKind),
      ActionType := Fixed(GithubMerge),
      Field.Other("execution") := Obj(ExecutionDetails(effect))]
  }

  /** `observation_subject` */
  function ObservationSubject(c: Config, effect: Record): string {
    HashRecord(c.env.suite, SubjectRecord(effect))
  }

  /** The subject that observers sign determines the whole merge effect. */
  lemma SubjectFixesEffect(c: Config, p: Record, q: Record)
    requires Observable(p) && Observable(q) && c.env.suite.Valid()
    requires CollisionFree(c.env.suite, {RecordInput(c.env.suite, SubjectRecord(EffectOf(p))), RecordInput(c.env.suite, SubjectRecord(EffectOf(q)))})
    ensures ObservationSubject(c, EffectOf(p)) == ObservationSubject(c, EffectOf(q)) <==>
      && TextOf(Get(EffectOf(p), Repository)) == TextOf(Get(EffectOf(q), Repository))
      && Get(EffectOf(p), PullNumber) == Get(EffectOf(q), PullNumber)
      && Get(EffectOf(p), ExpectedHeadSha) == Get(EffectOf(q), ExpectedHeadSha)
      && Get(EffectOf(p), MergeMethod) == Get(EffectOf(q), MergeMethod)
  {
    var x, y := SubjectRecord(EffectOf(p)), SubjectRecord(EffectOf(q));
    if ObservationSubject(c, EffectOf(p)) == ObservationSubject(c, EffectOf(q)) {
      SameDigestSameInput(c.env.suite, {RecordInput(c.env.suite, x), RecordInput(c.env.suite, y)}, RecordInput(c.env.suite, x), RecordInput(c.env.suite, y));
      SubjectContent(EffectOf(p));
      SubjectContent(EffectOf(q));
      DetailsFixEffect(EffectOf(p), EffectOf(q));
    }
  }

  lemma SubjectContent(effect: Record)
    ensures Content(SubjectRecord(effect)) == SubjectRecord(effect)
    ensures Get(SubjectRecord(effect), Field.Other("execution")) == Obj(ExecutionDetails(effect))
  {
    hide ExecutionDetails;
  }

  lemma DetailsFixEffect(a: Record, b: Record)
    requires ExecutionDetails(a) == ExecutionDetails(b)
    requires SplitSlash(TextOf(Get(a, Repository))).Some? && SplitSlash(TextOf(Get(b, Repository))).Some?
    ensures TextOf(Get(a, Repository)) == TextOf(Get(b, Repository)) && Get(a, PullNumber) == Get(b, PullNumber)
    ensures Get(a, ExpectedHeadSha) == Get(b, ExpectedHeadSha) && Get(a, MergeMethod) == Get(b, MergeMethod)
  {
    var x, y := ExecutionDetails(a), ExecutionDetails(b);
    assert x[Owner] == y[Owner] && x[Repo] == y[Repo] && x[PullNumber] == y[PullNumber];
    assert x[ExpectedHeadSha] == y[ExpectedHeadSha] && x[MergeMethod] == y[MergeMethod];
    SplitJoins(TextOf(Get(a, Repository)));
    SplitJoins(TextOf(Get(b, Repository)));
  }

  /** The panel `QuorumObservationAdapter.observe` asks about a permit's effect. */
  function ObserverPanel(c: Config, permit: Record): Panel {
    Panel(c.observers, c.threshold, Fixed(ObservationKind), Str(ObservationSubject(c, EffectOf(permit))), c.show)
  }

  /** The test for `RECONCILED`: the quorum saw the merge, at the approved
      head, with the merge commit the executor claimed and confirmed. */
  predicate Confirms(v: Verdict, receipt: AdapterReceipt, permit: Record) {
    && v.met
    && StatementField(v, Merged) == Bool(true)
    && StatementField(v, HeadSha) == Get(EffectOf(permit), ExpectedHeadSha)
    && receipt.confirmed
    && StatementField(v, MergeCommitSha).Str?
    && StatementField(v, MergeCommitSha) == receipt.operationId
  }

  // ----- what an event does; one that is not enabled, or raises, does nothing
  //       beyond ending its thread

  function WithThread(w: State, t: nat, thread: Thread): State {
    w.(threads := w.threads[t := thread])
  }

  /** Leaving the `with self._trust_lock` block. */
  function Release(w: State, t: nat, thread: Thread): State {
    w.(threads := w.threads[t := thread], holder := if w.holder == Some(t) then None else w.holder)
  }

  function ApplyStore(c: Config, w: State, e: Event): State
    requires w.vault.checkpoints != []
  {
    match e
    case GrantRole(p, role) => if !IsRole(role) then w else w.(authority := w.authority.(roles := w.authority.roles[p := role]))
    case ActivatePolicy(p, digest) => w.(authority := w.authority.(active := w.authority.active[p := digest]))
    case CreateIntent(id, principal, effect) =>
      if id in w.store.intents || !May(w.authority.roles, Ref(id.tenant, principal), IntentCreate) || !EffectValid(effect) then w
      else w.(store := w.store.(intents := w.store.intents[id := Intent(effect)]))
    case CreateEvidence(id, principal, intentId, hash) =>
      if id in w.store.evidence || !May(w.authority.roles, Ref(id.tenant, principal), EvidenceCreate)
        || Ref(id.tenant, intentId) !in w.store.intents then w
      else w.(store := w.store.(evidence := w.store.evidence[id := EvidenceItem(intentId, hash)]))
    case Evaluate(id, _, _, _, _, _, _) =>
      var evaluation := EvaluationOf(c, w, e);
      if id in w.store.evaluations || evaluation.None? then w
      else w.(store := w.store.(evaluations := w.store.evaluations[id := evaluation.value]))
    case Mint(id, _, _, _) =>
      var permit := Minted(c, w, e);
      if id in w.store.permits || permit.None? then w
      else w.(store := w.store.(permits := w.store.permits[id := permit.value]))
    case _ => w
  }

  function BeginRequest(w: State, tenant: string, principal: string, permitId: string): Option<Request> {
    var permitRef := Ref(tenant, permitId);
    if !May(w.authority.roles, Ref(tenant, principal), ActionExecute) || permitRef !in w.store.permits then None
    else
      var permit := w.store.permits[permitRef];
      var evaluation := Ref(tenant, PermitEvaluation(permit));
      if evaluation !in w.store.evaluations then None
      else Some(Request(tenant, principal, permitRef, permit, w.store.evaluations[evaluation]))
  }

  /** The first reads after lock admission: `authorize` and `get_active_policy`. */
  predicate Vets(authority: Authority, r: Request) {
    var principal := Ref(r.tenant, r.principal);
    && May(authority.roles, principal, ActionExecute) && May(authority.roles, principal, PolicyRead)
    && Ref(r.tenant, r.evaluation.policyName) in authority.active
  }

  /** The arguments of `execute_github_merge`: `seen` holds the roles and the
      active policies as they were read. */
  function AdmitTask(c: Config, seen: Authority, checkpoint: Record, r: Request, now: int, at: string): Option<Spending.Task> {
    var policy := Ref(r.tenant, r.evaluation.policyName);
    if policy !in seen.active then None
    else
      var expected := Expected(
        IdentityRoot(c.env.suite, r.tenant, seen.roles),
        r.evaluation.expected.evidence,
        seen.active[policy],
        r.evaluation.expected.state,
        r.evaluation.expected.approval);
      Some(Spending.MergeTask(r.permit, expected, Some(checkpoint), r.principal, now, at))
  }

  function ApplyThread(c: Config, w: State, e: Event, t: nat, thread: Thread): (after: State)
    requires w.vault.checkpoints != []
    ensures after.vault.checkpoints != []
  {
    match (e, thread)
    case (Acquire(_), Waiting(r)) =>
      if w.holder.Some? then w else WithThread(w, t, Locked(r)).(holder := Some(t))
    case (Vet(_), Locked(r)) =>
      if !Vets(w.authority, r) then Release(w, t, Over) else WithThread(w, t, Vetted(r, w.authority.active))
    case (Admit(_, now, at), Vetted(r, active)) =>
      var seen := Authority(w.authority.roles, active);
      var task := AdmitTask(c, seen, Last(w.vault).checkpoint, r, now, at);
      if task.None? then Release(w, t, Over) else WithThread(w, t, Admitted(r, seen, task.value))
    case (ReadState(_), Admitted(r, seen, task)) =>
      var values := Spending.ReadTrust(c.env, w.vault.registry, task);
      if values.Err? then Release(w, t, Over) else WithThread(w, t, Checked(r, seen, task, values.value))
    case (CheckPermit(_), Checked(r, seen, task, values)) =>
      if Spending.VerifyTask(c.env, task, values).Some? then Release(w, t, Over)
      else WithThread(w, t, Verified(r, seen, task))
    case (Transact(_), Verified(r, seen, task)) =>
      var after := Spending.Spend(c.env, w.vault.registry, task);
      if after.Err? then Release(w, t, Over)
      else WithThread(w, t, Claimed(r, seen, task)).(
        vault := w.vault.(registry := after.value),
        commits := w.commits + [ServerCommit(task.permit, |w.vault.checkpoints| - 1)])
    case (CallProvider(_, reply), Claimed(r, seen, task)) =>
      if reply.None? then Release(w, t, Over) else WithThread(w, t, Called(r, seen, task, reply.value))
    case (WriteCheckpoint(_), Called(r, seen, task, receipt)) =>
      if task.checkpoint.None? then w
      else Release(w, t, Written(r, seen, task, receipt)).(vault := Advance(c, w.vault, task.checkpoint.value, None))
    case (RecordExecution(_, id), Written(r, seen, task, receipt)) =>
      var ref := Ref(r.tenant, id);
      if ref in w.store.executions then WithThread(w, t, Over)
      else WithThread(w, t, Over).(store := w.store.(executions :=
        w.store.executions[ref := Execution(r.permitRef, TextOf(Get(r.permit, RecordHash)), r.principal, receipt, t, seen)]))
    case (Acquire(_), ReconcileWaiting(id, root)) =>
      if w.holder.Some? then w else WithThread(w, t, ReconcileLocked(id, root)).(holder := Some(t))
    case (AdvanceCheckpoint(_), ReconcileLocked(_, root)) =>
      Release(w, t, Over).(vault := Advance(c, w.vault, Last(w.vault).checkpoint, Some(root)))
    case (Raise(_), _) => Release(w, t, Over)
    case _ => w
  }

  ghost function ApplyReconcile(c: Config, w: State, e: Event): State
    requires e.Reconcile?
  {
    var execution := Ref(e.id.tenant, e.executionId);
    if e.thread in w.threads || e.id in w.store.reconciliations
      || !May(w.authority.roles, Ref(e.id.tenant, e.principal), OutcomeReconcile) || execution !in w.store.executions then w
    else
      var x := w.store.executions[execution];
      if x.permit !in w.store.permits || !Observable(w.store.permits[x.permit]) || !(1 <= c.threshold <= |c.observers|)
        || !IsVerdict(c.env.suite, ObserverPanel(c, w.store.permits[x.permit]), e.attestations, e.verdict) then w
      else
        var confirmed := Confirms(e.verdict, x.receipt, w.store.permits[x.permit]);
        var record := Reconciliation(execution, e.attestations, e.verdict, confirmed);
        WithThread(w, e.thread, if e.verdict.met then ReconcileWaiting(e.id, e.verdict.observationRoot) else Over).(
          store := w.store.(reconciliations := w.store.reconciliations[e.id := record]))
  }

  predicate OnThread(e: Event) {
    e.Acquire? || e.Vet? || e.Admit? || e.ReadState? || e.CheckPermit? || e.Transact? || e.CallProvider? || e.WriteCheckpoint?
    || e.RecordExecution? || e.AdvanceCheckpoint? || e.Raise?
  }

  ghost function Apply(c: Config, w: State, e: Event): (after: State)
    requires w.vault.checkpoints != []
    ensures after.vault.checkpoints != []
  {
    if e.Reconcile? then ApplyReconcile(c, w, e)
    else if e.ForeignSpend? then
      var after := Spending.Spend(c.env, w.vault.registry, e.task);
      if after.Ok? then w.(vault := w.vault.(registry := after.value)) else w
    else if e.Restart? then
      w.(threads := map t | t in w.threads :: Over, holder := None)
    else if e.BeginExecute? then
      var r := BeginRequest(w, e.tenant, e.principal, e.permitId);
      if e.thread in w.threads || r.None? then w else WithThread(w, e.thread, Waiting(r.value))
    else if OnThread(e) then
      if e.thread in w.threads then ApplyThread(c, w, e, e.thread, w.threads[e.thread]) else w
    else
      ApplyStore(c, w, e)
  }

  ghost function Run(c: Config, w: State, events: seq<Event>): (after: State)
    requires w.vault.checkpoints != []
    ensures after.vault.checkpoints != []
  {
    if events == [] then w else Apply(c, Run(c, w, events[..|events| - 1]), events[|events| - 1])
  }
}
