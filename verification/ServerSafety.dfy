/**
 What every run of the server's threads keeps: one linear chain of trust
 checkpoints, dead permits, a stall after a failed provider call, and the trace
 from a reconciled outcome back to its approval.
 */
module ServerSafety {
  import opened Hashing
  import opened Sorting
  import opened Quorum
  import opened TrustState
  import opened Permits
  import opened Rbac
  import opened Identity
  import opened Server
  import Spending

  // ----- facts about one object

  predicate TrustBound(permit: Record) {
    Spending.TrustBound(permit)
  }

  function TrustCounter(permit: Record): Json {
    Get(FieldsOf(Get(permit, Trust)), MonotonicCounter)
  }

  function EffectFields(e: MergeEffect): Record {
    map[
      ActionType := Fixed(GithubMerge),
      Repository := Str(e.repository),
      PullNumber := Int(e.pullNumber),
      ExpectedHeadSha := Str(e.headSha),
      MergeMethod := Str(e.mergeMethod)]
  }

  function EvaluationRef(permitRef: Ref, permit: Record): Ref {
    Ref(permitRef.tenant, PermitEvaluation(permit))
  }

  /** The root is the hash of these record hashes, sorted. */
  ghost predicate EvidenceRootIs(s: Suite, root: string, hashes: seq<string>) {
    exists sorted: seq<string> ::
      && Sorted(sorted) && multiset(sorted) == multiset(hashes)
      && root == HashRecord(s, map[Field.Other("evidence_hashes") := TextList(sorted)])
  }

  /** Every cited evidence item is stored; the evaluation permits exactly when all of
      them belong to its intent, and its evidence root is over their record hashes. */
  ghost predicate EvaluationHolds(c: Config, store: Store, id: Ref, e: Evaluation) {
    && e.intent in store.intents && e.intent.tenant == id.tenant && e.evidenceIds != []
    && (forall i :: 0 <= i < |e.evidenceIds| ==> Ref(id.tenant, e.evidenceIds[i]) in store.evidence)
    && (e.permitted <==>
          forall i :: 0 <= i < |e.evidenceIds| ==> store.evidence[Ref(id.tenant, e.evidenceIds[i])].intentId == e.intent.id)
    && EvidenceRootIs(c.env.suite, e.expected.evidence, EvidenceHashes(store, id.tenant, e.evidenceIds))
  }

  /** The permit was minted from a permitting evaluation of a stored intent, for that
      intent's effect and that evaluation's roots and approval, by a verifier, and is
      bound to a checkpoint. */
  predicate PermitHolds(c: Config, store: Store, permitRef: Ref, permit: Record) {
    && var evaluation := EvaluationRef(permitRef, permit);
    && evaluation in store.evaluations
    && var ev := store.evaluations[evaluation];
    && ev.permitted && ev.intent in store.intents
    && Get(permit, Field.Effect) == Obj(EffectFields(store.intents[ev.intent].effect))
    && Get(permit, Roots).Obj? && RootsAre(Get(permit, Roots).fields, ev.expected)
    && Get(permit, ApprovalDigest) == Str(ev.expected.approval)
    && Get(permit, Issuer).Obj? && Get(Get(permit, Issuer).fields, Role) == Fixed(Verifier)
    && TrustBound(permit)
    && Genuine(c.env.suite, permit, c.env.verifierKey)
  }

  /** The identity and policy roots of a permit equal those the executing
      thread read after it was admitted to the lock. */
  predicate RootsWereSeen(c: Config, tenant: string, policyName: string, permit: Record, seen: Authority) {
    && Get(permit, Roots).Obj?
    && Get(Get(permit, Roots).fields, Identity) == Str(IdentityRoot(c.env.suite, tenant, seen.roles))
    && Ref(tenant, policyName) in seen.active
    && Get(Get(permit, Roots).fields, Policy) == Str(seen.active[Ref(tenant, policyName)])
  }

  predicate ExecutionHolds(c: Config, store: Store, registry: Registry, x: Execution) {
    && x.permit in store.permits
    && var permit := store.permits[x.permit];
    && x.permitHash == TextOf(Get(permit, RecordHash))
    && x.permitHash in registry && registry[x.permitHash].executorId == x.executedBy
    && EvaluationRef(x.permit, permit) in store.evaluations
    && RootsWereSeen(c, x.permit.tenant, store.evaluations[EvaluationRef(x.permit, permit)].policyName, permit, x.seen)
  }

  ghost predicate ReconciliationHolds(c: Config, store: Store, r: Reconciliation) {
    && r.execution in store.executions
    && var x := store.executions[r.execution];
    && x.permit in store.permits
    && IsVerdict(c.env.suite, ObserverPanel(c, store.permits[x.permit]), r.attestations, r.verdict)
    && (r.confirmed <==> Confirms(r.verdict, x.receipt, store.permits[x.permit]))
  }

  ghost predicate StoreHolds(c: Config, store: Store, registry: Registry) {
    && (forall e :: e in store.evaluations ==> EvaluationHolds(c, store, e, store.evaluations[e]))
    && (forall p :: p in store.permits ==> PermitHolds(c, store, p, store.permits[p]))
    && (forall x :: x in store.executions ==> ExecutionHolds(c, store, registry, store.executions[x]))
    && (forall r :: r in store.reconciliations ==> ReconciliationHolds(c, store, store.reconciliations[r]))
  }

  // ----- facts about one thread

  predicate RequestHolds(store: Store, r: Request) {
    && r.permitRef.tenant == r.tenant
    && r.permitRef in store.permits && store.permits[r.permitRef] == r.permit
    && EvaluationRef(r.permitRef, r.permit) in store.evaluations
    && store.evaluations[EvaluationRef(r.permitRef, r.permit)] == r.evaluation
    && TrustBound(r.permit)
  }

  /** The task executes the requested permit against the state read at admission. */
  predicate TaskHolds(c: Config, r: Request, seen: Authority, task: Spending.Task) {
    && task.MergeTask? && task.permit == r.permit && task.checkpoint.Some? && task.executorId == r.principal
    && Ref(r.tenant, r.evaluation.policyName) in seen.active
    && task.expected == Expected(
         IdentityRoot(c.env.suite, r.tenant, seen.roles),
         r.evaluation.expected.evidence,
         seen.active[Ref(r.tenant, r.evaluation.policyName)],
         r.evaluation.expected.state,
         r.evaluation.expected.approval)
  }

  predicate OnLast(vault: Vault, task: Spending.Task)
    requires vault.checkpoints != []
  {
    task.checkpoint == Some(Last(vault).checkpoint)
  }

  predicate ValuesFit(task: Spending.Task, values: Option<TrustValues>) {
    task.checkpoint.Some? && values.Some? ==> values.value.counter == Get(task.checkpoint.value, MonotonicCounter)
  }

  predicate PassedChecks(c: Config, task: Spending.Task) {
    && task.checkpoint.Some?
    && Get(task.permit, Roots).Obj? && RootsAre(Get(task.permit, Roots).fields, task.expected)
    && TrustCounter(task.permit) == Get(task.checkpoint.value, MonotonicCounter)
  }

  /** The registry holds the claim of the task's executor. */
  predicate ClaimedBy(vault: Vault, task: Spending.Task) {
    Spending.HashOf(task) in vault.registry && vault.registry[Spending.HashOf(task)].executorId == task.executorId
  }

  predicate ClaimIsNew(vault: Vault, task: Spending.Task)
    requires vault.checkpoints != []
  {
    ClaimedBy(vault, task) && Spending.HashOf(task) !in Last(vault).registry
  }

  predicate ThreadHolds(c: Config, store: Store, vault: Vault, thread: Thread)
    requires vault.checkpoints != []
  {
    match thread
    case Waiting(r) => RequestHolds(store, r)
    case Locked(r) => RequestHolds(store, r)
    case Vetted(r, _) => RequestHolds(store, r)
    case Admitted(r, seen, task) => RequestHolds(store, r) && TaskHolds(c, r, seen, task) && OnLast(vault, task)
    case Checked(r, seen, task, values) =>
      RequestHolds(store, r) && TaskHolds(c, r, seen, task) && OnLast(vault, task) && ValuesFit(task, values)
    case Verified(r, seen, task) =>
      RequestHolds(store, r) && TaskHolds(c, r, seen, task) && OnLast(vault, task) && PassedChecks(c, task)
    case Claimed(r, seen, task) =>
      RequestHolds(store, r) && TaskHolds(c, r, seen, task) && OnLast(vault, task) && PassedChecks(c, task) && ClaimIsNew(vault, task)
    case Called(r, seen, task, _) =>
      RequestHolds(store, r) && TaskHolds(c, r, seen, task) && OnLast(vault, task) && PassedChecks(c, task) && ClaimIsNew(vault, task)
    case Written(r, seen, task, _) =>
      RequestHolds(store, r) && TaskHolds(c, r, seen, task) && PassedChecks(c, task) && ClaimedBy(vault, task)
    case ReconcileWaiting(id, root) => BackedByQuorum(store, id, root)
    case ReconcileLocked(id, root) => BackedByQuorum(store, id, root)
    case Over => true
  }

  /** The reconciliation that wants to refresh the checkpoint had its quorum. */
  predicate BackedByQuorum(store: Store, id: Ref, root: string) {
    id in store.reconciliations && store.reconciliations[id].verdict.met && store.reconciliations[id].verdict.observationRoot == root
  }

  predicate ThreadsHold(c: Config, store: Store, vault: Vault, threads: map<nat, Thread>)
    requires vault.checkpoints != []
  {
    forall t :: t in threads ==> ThreadHolds(c, store, vault, threads[t])
  }

  /** The lock is held by exactly the thread inside the locked section. */
  predicate LockHolds(holder: Option<nat>, threads: map<nat, Thread>) {
    && (forall t :: t in threads && InSection(threads[t]) ==> holder == Some(t))
    && (holder.Some? ==> holder.value in threads && InSection(threads[holder.value]))
  }

  /** Each spend was of a permit bound to the checkpoint then in force. */
  predicate CommitsHold(commits: seq<ServerCommit>, checkpoints: nat) {
    forall i :: 0 <= i < |commits| ==>
      && commits[i].checkpoint < checkpoints
      && TrustBound(commits[i].permit)
      && TrustCounter(commits[i].permit) == Int(commits[i].checkpoint)
  }

  ghost predicate Inv(c: Config, w: State) {
    && ChainHolds(c, w.vault)
    && LockHolds(w.holder, w.threads)
    && StoreHolds(c, w.store, w.vault.registry)
    && ThreadsHold(c, w.store, w.vault, w.threads)
    && CommitsHold(w.commits, |w.vault.checkpoints|)
  }

  // ----- tables only grow

  predicate StoreGrows(a: Store, b: Store) {
    && (forall k :: k in a.intents ==> k in b.intents && b.intents[k] == a.intents[k])
    && (forall k :: k in a.evidence ==> k in b.evidence && b.evidence[k] == a.evidence[k])
    && (forall k :: k in a.evaluations ==> k in b.evaluations && b.evaluations[k] == a.evaluations[k])
    && (forall k :: k in a.permits ==> k in b.permits && b.permits[k] == a.permits[k])
    && (forall k :: k in a.executions ==> k in b.executions && b.executions[k] == a.executions[k])
    && (forall k :: k in a.reconciliations ==> k in b.reconciliations && b.reconciliations[k] == a.reconciliations[k])
  }

  predicate VaultGrows(a: Vault, b: Vault) {
    a.checkpoints == b.checkpoints && Spending.Extends(a.registry, b.registry)
  }

  lemma ThreadKeeps(c: Config, a: Store, b: Store, u: Vault, v: Vault, thread: Thread)
    requires u.checkpoints != [] && StoreGrows(a, b) && VaultGrows(u, v)
    requires ThreadHolds(c, a, u, thread)
    ensures ThreadHolds(c, b, v, thread)
  {
    hide RequestHolds, TaskHolds, PassedChecks, ValuesFit, StoreGrows;
    if thread.ReconcileWaiting? || thread.ReconcileLocked? {
      QuorumKeeps(a, b, thread.record, thread.observationRoot);
    } else if !thread.Over? {
      RequestKeeps(a, b, thread.r);
    }
  }

  lemma RequestKeeps(a: Store, b: Store, r: Request)
    requires StoreGrows(a, b)
    ensures RequestHolds(a, r) ==> RequestHolds(b, r)
  {
    hide TrustBound, EvaluationRef;
  }

  lemma QuorumKeeps(a: Store, b: Store, id: Ref, root: string)
    requires StoreGrows(a, b)
    ensures BackedByQuorum(a, id, root) ==> BackedByQuorum(b, id, root)
  {
  }

  /** Outside the locked section nothing depends on the last checkpoint. */
  lemma OutsiderKeeps(c: Config, store: Store, u: Vault, v: Vault, thread: Thread)
    requires u.checkpoints != [] && v.checkpoints != [] && Spending.Extends(u.registry, v.registry)
    requires ThreadHolds(c, store, u, thread) && !InSection(thread)
    ensures ThreadHolds(c, store, v, thread)
  {
    hide TaskHolds, PassedChecks, RequestHolds;
  }

  lemma ThreadsKeep(c: Config, a: Store, b: Store, u: Vault, v: Vault, threads: map<nat, Thread>)
    requires u.checkpoints != [] && StoreGrows(a, b) && VaultGrows(u, v)
    requires ThreadsHold(c, a, u, threads)
    ensures ThreadsHold(c, b, v, threads)
  {
    hide ThreadHolds, StoreGrows, Spending.Extends;
    forall t | t in threads ensures ThreadHolds(c, b, v, threads[t]) {
      ThreadKeeps(c, a, b, u, v, threads[t]);
    }
  }

  lemma EvaluationKeeps(c: Config, a: Store, b: Store, id: Ref, e: Evaluation)
    requires StoreGrows(a, b) && EvaluationHolds(c, a, id, e)
    ensures EvaluationHolds(c, b, id, e)
  {
    hide EvidenceRootIs;
    assert EvidenceHashes(b, id.tenant, e.evidenceIds) == EvidenceHashes(a, id.tenant, e.evidenceIds);
  }

  lemma PermitKeeps(c: Config, a: Store, b: Store, permitRef: Ref, permit: Record)
    requires StoreGrows(a, b) && PermitHolds(c, a, permitRef, permit)
    ensures PermitHolds(c, b, permitRef, permit)
  {
    hide EffectFields, Genuine, EvaluationRef, TrustBound, RootsAre;
  }

  lemma ExecutionKeeps(c: Config, a: Store, b: Store, r: Registry, s: Registry, x: Execution)
    requires StoreGrows(a, b) && Spending.Extends(r, s) && ExecutionHolds(c, a, r, x)
    ensures ExecutionHolds(c, b, s, x)
  {
    hide RootsWereSeen, EvaluationRef;
  }

  lemma ReconciliationKeeps(c: Config, a: Store, b: Store, r: Reconciliation)
    requires StoreGrows(a, b) && ReconciliationHolds(c, a, r)
    ensures ReconciliationHolds(c, b, r)
  {
    hide IsVerdict, Confirms, ObserverPanel;
  }

  lemma RegistryKeepsStore(c: Config, store: Store, r: Registry, s: Registry)
    requires Spending.Extends(r, s) && StoreHolds(c, store, r)
    ensures StoreHolds(c, store, s)
  {
    hide EvaluationHolds, PermitHolds, ExecutionHolds, ReconciliationHolds, Spending.Extends;
    forall x | x in store.executions ensures ExecutionHolds(c, store, s, store.executions[x]) {
      ExecutionKeeps(c, store, store, r, s, store.executions[x]);
    }
  }

  /** A store that adds at most one row of each kind keeps what holds of all. */
  lemma RowsKeep(c: Config, a: Store, b: Store, r: Registry)
    requires StoreGrows(a, b) && StoreHolds(c, a, r)
    ensures forall e :: e in a.evaluations ==> EvaluationHolds(c, b, e, a.evaluations[e])
    ensures forall p :: p in a.permits ==> PermitHolds(c, b, p, a.permits[p])
    ensures forall x :: x in a.executions ==> ExecutionHolds(c, b, r, a.executions[x])
    ensures forall k :: k in a.reconciliations ==> ReconciliationHolds(c, b, a.reconciliations[k])
  {
    hide EvaluationHolds, PermitHolds, ExecutionHolds, ReconciliationHolds, StoreGrows;
    forall e | e in a.evaluations ensures EvaluationHolds(c, b, e, a.evaluations[e]) {
      EvaluationKeeps(c, a, b, e, a.evaluations[e]);
    }
    forall p | p in a.permits ensures PermitHolds(c, b, p, a.permits[p]) {
      PermitKeeps(c, a, b, p, a.permits[p]);
    }
    forall x | x in a.executions ensures ExecutionHolds(c, b, r, a.executions[x]) {
      hide Spending.Extends;
      assert Spending.Extends(r, r) by { ExtendsSelf(r); }
      ExecutionKeeps(c, a, b, r, r, a.executions[x]);
    }
    forall k | k in a.reconciliations ensures ReconciliationHolds(c, b, a.reconciliations[k]) {
      ReconciliationKeeps(c, a, b, a.reconciliations[k]);
    }
  }

  lemma ExtendsSelf(r: Registry)
    ensures Spending.Extends(r, r)
  {
  }

  // ----- one thread moves

  lemma LockStays(holder: Option<nat>, threads: map<nat, Thread>, t: nat, thread: Thread)
    requires LockHolds(holder, threads)
    requires InSection(thread) <==> t in threads && InSection(threads[t])
    ensures LockHolds(holder, threads[t := thread])
  {
    hide InSection;
  }

  lemma LockReleased(holder: Option<nat>, threads: map<nat, Thread>, t: nat, thread: Thread)
    requires LockHolds(holder, threads) && !InSection(thread)
    ensures LockHolds(if holder == Some(t) then None else holder, threads[t := thread])
  {
    hide InSection;
  }

  lemma LockTaken(threads: map<nat, Thread>, t: nat, thread: Thread)
    requires LockHolds(None, threads) && InSection(thread)
    ensures LockHolds(Some(t), threads[t := thread])
  {
    hide InSection;
  }

  lemma OneMoves(c: Config, store: Store, vault: Vault, threads: map<nat, Thread>, t: nat, thread: Thread)
    requires vault.checkpoints != []
    requires ThreadsHold(c, store, vault, threads) && ThreadHolds(c, store, vault, thread)
    ensures ThreadsHold(c, store, vault, threads[t := thread])
  {
    hide ThreadHolds;
  }

  lemma MoveKeepsInv(c: Config, w: State, t: nat, thread: Thread)
    requires Inv(c, w) && ThreadHolds(c, w.store, w.vault, thread)
    requires InSection(thread) <==> t in w.threads && InSection(w.threads[t])
    ensures Inv(c, WithThread(w, t, thread))
  {
    hide ChainHolds, LockHolds, StoreHolds, ThreadsHold, ThreadHolds, CommitsHold, InSection;
    assert w.vault.checkpoints != [] by { ChainNotEmpty(c, w.vault); }
    LockStays(w.holder, w.threads, t, thread);
    OneMoves(c, w.store, w.vault, w.threads, t, thread);
  }

  lemma ChainNotEmpty(c: Config, v: Vault)
    requires ChainHolds(c, v)
    ensures v.checkpoints != []
  {
  }

  lemma ReleaseKeepsInv(c: Config, w: State, t: nat, thread: Thread)
    requires Inv(c, w) && ThreadHolds(c, w.store, w.vault, thread) && !InSection(thread)
    ensures Inv(c, Release(w, t, thread))
  {
    hide ChainHolds, LockHolds, StoreHolds, ThreadsHold, ThreadHolds, CommitsHold, InSection;
    assert w.vault.checkpoints != [] by { ChainNotEmpty(c, w.vault); }
    LockReleased(w.holder, w.threads, t, thread);
    OneMoves(c, w.store, w.vault, w.threads, t, thread);
  }

  lemma AcquireKeepsInv(c: Config, w: State, t: nat, thread: Thread)
    requires Inv(c, w) && w.holder.None? && ThreadHolds(c, w.store, w.vault, thread) && InSection(thread)
    ensures Inv(c, WithThread(w, t, thread).(holder := Some(t)))
  {
    hide ChainHolds, LockHolds, StoreHolds, ThreadsHold, ThreadHolds, CommitsHold, InSection;
    assert w.vault.checkpoints != [] by { ChainNotEmpty(c, w.vault); }
    LockTaken(w.threads, t, thread);
    OneMoves(c, w.store, w.vault, w.threads, t, thread);
  }

  lemma OverKeepsInv(c: Config, w: State, t: nat)
    requires Inv(c, w)
    ensures Inv(c, Release(w, t, Over))
  {
    hide Inv, Release;
    ChainNotEmptyIn(c, w);
    ReleaseKeepsInv(c, w, t, Over);
  }

  lemma ChainNotEmptyIn(c: Config, w: State)
    requires Inv(c, w)
    ensures w.vault.checkpoints != []
  {
  }

  // ----- the registry grows

  lemma RegistryGrowthKeepsInv(c: Config, w: State, task: Spending.Task)
    requires Inv(c, w) && Spending.Spend(c.env, w.vault.registry, task).Ok?
    ensures Inv(c, w.(vault := w.vault.(registry := Spending.Spend(c.env, w.vault.registry, task).value)))
  {
    hide ChainHolds, LockHolds, StoreHolds, ThreadsHold, CommitsHold, Spending.Spend;
    var after := w.vault.(registry := Spending.Spend(c.env, w.vault.registry, task).value);
    ChainNotEmpty(c, w.vault);
    NoncesOf(c, w.vault);
    Spending.SpendAddsOneClaim(c.env, w.vault.registry, task);
    SpendKeepsChain(c, w.vault, task);
    RegistryKeepsStore(c, w.store, w.vault.registry, after.registry);
    StoreGrowsSelf(w.store);
    ThreadsKeep(c, w.store, w.store, w.vault, after, w.threads);
  }

  lemma NoncesOf(c: Config, v: Vault)
    requires ChainHolds(c, v)
    ensures NoncesUnique(v.registry)
  {
  }

  lemma StoreGrowsSelf(a: Store)
    ensures StoreGrows(a, a)
  {
  }

  // ----- a spend under the lock

  lemma ReadTrustFits(env: Env, registry: Registry, task: Spending.Task)
    requires Spending.ReadTrust(env, registry, task).Ok?
    ensures ValuesFit(task, Spending.ReadTrust(env, registry, task).value)
  {
  }

  lemma ChecksPassed(c: Config, task: Spending.Task, values: Option<TrustValues>)
    requires task.MergeTask? && task.checkpoint.Some? && ValuesFit(task, values) && TrustBound(task.permit)
    requires Spending.VerifyTask(c.env, task, values) == None
    ensures PassedChecks(c, task)
  {
    hide VerifyHead, FirstChange, VerifyTrust, TrustFits, RootsAre;
    assert Get(task.permit, Roots).Obj?;
    RootsMatch(Get(task.permit, Roots).fields, task.expected);
    VerifyTrustMeaning(task.permit, values);
    assert TrustFits(Get(task.permit, Trust).fields, values.value);
    FittingCounter(Get(task.permit, Trust).fields, values.value);
  }

  lemma FittingCounter(trust: Record, v: TrustValues)
    requires TrustFits(trust, v)
    ensures v.counter == Get(trust, MonotonicCounter)
  {
  }

  lemma LastCounter(c: Config, v: Vault)
    requires ChainHolds(c, v)
    ensures Get(Last(v).checkpoint, MonotonicCounter) == Int(|v.checkpoints| - 1)
    ensures Spending.Extends(Last(v).registry, v.registry)
  {
    assert IsCheckpoint(c, |v.checkpoints| - 1, v.checkpoints[|v.checkpoints| - 1]);
  }

  lemma TransactKeepsInv(c: Config, w: State, t: nat)
    requires Inv(c, w) && t in w.threads && w.threads[t].Verified?
    ensures Inv(c, ApplyThread(c, w, Transact(t), t, w.threads[t]))
  {
    hide Inv, ThreadHolds, Spending.Spend, InSection;
    ThreadOf(c, w, t);
    var r, seen, task := w.threads[t].r, w.threads[t].seen, w.threads[t].task;
    var outcome := Spending.Spend(c.env, w.vault.registry, task);
    if outcome.Err? {
      OverKeepsInv(c, w, t);
    } else {
      ClaimedKeepsInv(c, w, t, r, seen, task);
    }
  }

  lemma ClaimedKeepsInv(c: Config, w: State, t: nat, r: Request, seen: Authority, task: Spending.Task)
    requires Inv(c, w) && t in w.threads && w.threads[t] == Verified(r, seen, task)
    requires Spending.Spend(c.env, w.vault.registry, task).Ok?
    ensures Inv(c, WithThread(w, t, Claimed(r, seen, task)).(
      vault := w.vault.(registry := Spending.Spend(c.env, w.vault.registry, task).value),
      commits := w.commits + [ServerCommit(task.permit, |w.vault.checkpoints| - 1)]))
  {
    hide ChainHolds, LockHolds, StoreHolds, ThreadsHold, Spending.Spend, TrustBound, TrustCounter, RootsAre;
    var spent := w.(vault := w.vault.(registry := Spending.Spend(c.env, w.vault.registry, task).value));
    ChainNotEmpty(c, w.vault);
    RegistryGrowthKeepsInv(c, w, task);
    LastCounter(c, w.vault);
    ThreadOf(c, spent, t);
    FreshClaim(c, w.vault, task);
    MoveKeepsInv(c, spent, t, Claimed(r, seen, task));
  }

  lemma ThreadOf(c: Config, w: State, t: nat)
    requires Inv(c, w) && t in w.threads
    ensures w.vault.checkpoints != [] && ThreadHolds(c, w.store, w.vault, w.threads[t])
  {
    hide StoreHolds, LockHolds, CommitsHold, ThreadHolds;
  }

  lemma FreshClaim(c: Config, v: Vault, task: Spending.Task)
    requires v.checkpoints != [] && Spending.Extends(Last(v).registry, v.registry)
    requires Spending.Spend(c.env, v.registry, task).Ok?
    ensures ClaimIsNew(v.(registry := Spending.Spend(c.env, v.registry, task).value), task)
  {
  }

  // ----- the other steps of a thread

  lemma AdmittedHolds(c: Config, vault: Vault, seen: Authority, r: Request, now: int, at: string)
    requires vault.checkpoints != [] && AdmitTask(c, seen, Last(vault).checkpoint, r, now, at).Some?
    ensures
      var task := AdmitTask(c, seen, Last(vault).checkpoint, r, now, at).value;
      TaskHolds(c, r, seen, task) && OnLast(vault, task)
  {
  }

  lemma VetKeepsInv(c: Config, w: State, t: nat)
    requires Inv(c, w) && t in w.threads && w.threads[t].Locked?
    ensures Inv(c, ApplyThread(c, w, Vet(t), t, w.threads[t]))
  {
    hide Inv, Vets, RequestHolds;
    ThreadOf(c, w, t);
    if Vets(w.authority, w.threads[t].r) {
      MoveKeepsInv(c, w, t, Vetted(w.threads[t].r, w.authority.active));
    } else {
      OverKeepsInv(c, w, t);
    }
  }

  lemma AdmitKeepsInv(c: Config, w: State, t: nat, now: int, at: string)
    requires Inv(c, w) && t in w.threads && w.threads[t].Vetted?
    ensures Inv(c, ApplyThread(c, w, Admit(t, now, at), t, w.threads[t]))
  {
    hide Inv, AdmitTask, TaskHolds, RequestHolds;
    ThreadOf(c, w, t);
    var r, seen := w.threads[t].r, Authority(w.authority.roles, w.threads[t].active);
    var task := AdmitTask(c, seen, Last(w.vault).checkpoint, r, now, at);
    if task.None? {
      OverKeepsInv(c, w, t);
    } else {
      AdmittedHolds(c, w.vault, seen, r, now, at);
      MoveKeepsInv(c, w, t, Admitted(r, seen, task.value));
    }
  }

  lemma ReadKeepsInv(c: Config, w: State, t: nat)
    requires Inv(c, w) && t in w.threads && w.threads[t].Admitted?
    ensures Inv(c, ApplyThread(c, w, ReadState(t), t, w.threads[t]))
  {
    hide Inv, Spending.ReadTrust, TaskHolds, RequestHolds, ValuesFit;
    ThreadOf(c, w, t);
    var r, seen, task := w.threads[t].r, w.threads[t].seen, w.threads[t].task;
    var values := Spending.ReadTrust(c.env, w.vault.registry, task);
    if values.Err? {
      OverKeepsInv(c, w, t);
    } else {
      ReadTrustFits(c.env, w.vault.registry, task);
      MoveKeepsInv(c, w, t, Checked(r, seen, task, values.value));
    }
  }

  lemma CheckKeepsInv(c: Config, w: State, t: nat)
    requires Inv(c, w) && t in w.threads && w.threads[t].Checked?
    ensures Inv(c, ApplyThread(c, w, CheckPermit(t), t, w.threads[t]))
  {
    hide Inv, Spending.VerifyTask, ValuesFit, PassedChecks;
    ThreadOf(c, w, t);
    var r, seen, task, values := w.threads[t].r, w.threads[t].seen, w.threads[t].task, w.threads[t].values;
    if Spending.VerifyTask(c.env, task, values).Some? {
      OverKeepsInv(c, w, t);
    } else {
      ChecksPassed(c, task, values);
      MoveKeepsInv(c, w, t, Verified(r, seen, task));
    }
  }

  lemma CallKeepsInv(c: Config, w: State, t: nat, reply: Option<AdapterReceipt>)
    requires Inv(c, w) && t in w.threads && w.threads[t].Claimed?
    ensures Inv(c, ApplyThread(c, w, CallProvider(t, reply), t, w.threads[t]))
  {
    hide Inv, TaskHolds, RequestHolds, PassedChecks, ClaimIsNew;
    ThreadOf(c, w, t);
    if reply.None? {
      OverKeepsInv(c, w, t);
    } else {
      MoveKeepsInv(c, w, t, Called(w.threads[t].r, w.threads[t].seen, w.threads[t].task, reply.value));
    }
  }

  /** The holder of the lock replaces the checkpoint and leaves the section. */
  lemma AdvanceKeepsInv(c: Config, w: State, t: nat, thread: Thread, observation: Option<string>)
    requires c.env.suite.Valid() && Inv(c, w) && t in w.threads && InSection(w.threads[t]) && !InSection(thread)
    requires ThreadHolds(c, w.store, Advance(c, w.vault, Last(w.vault).checkpoint, observation), thread)
    ensures Inv(c, Release(w, t, thread).(vault := Advance(c, w.vault, Last(w.vault).checkpoint, observation)))
  {
    hide ChainHolds, LockHolds, StoreHolds, ThreadsHold, ThreadHolds, InSection, NextCheckpoint;
    ChainNotEmpty(c, w.vault);
    var after := Advance(c, w.vault, Last(w.vault).checkpoint, observation);
    AdvanceKeepsChain(c, w.vault, observation);
    LockReleased(w.holder, w.threads, t, thread);
    AdvanceKeepsThreads(c, w, t, thread, after);
  }

  lemma AdvanceKeepsThreads(c: Config, w: State, t: nat, thread: Thread, after: Vault)
    requires w.vault.checkpoints != [] && after.checkpoints != [] && after.registry == w.vault.registry
    requires LockHolds(w.holder, w.threads) && ThreadsHold(c, w.store, w.vault, w.threads)
    requires t in w.threads && InSection(w.threads[t]) && ThreadHolds(c, w.store, after, thread)
    ensures ThreadsHold(c, w.store, after, w.threads[t := thread])
  {
    hide ThreadHolds, InSection;
    forall u | u in w.threads && u != t ensures ThreadHolds(c, w.store, after, w.threads[u]) {
      OutsiderKeeps(c, w.store, w.vault, after, w.threads[u]);
    }
  }

  lemma WriteKeepsInv(c: Config, w: State, t: nat)
    requires c.env.suite.Valid() && Inv(c, w) && t in w.threads && w.threads[t].Called?
    ensures Inv(c, ApplyThread(c, w, WriteCheckpoint(t), t, w.threads[t]))
  {
    hide Inv, TaskHolds, RequestHolds, PassedChecks, NextCheckpoint;
    ThreadOf(c, w, t);
    var r, seen, task, receipt := w.threads[t].r, w.threads[t].seen, w.threads[t].task, w.threads[t].receipt;
    AdvanceKeepsInv(c, w, t, Written(r, seen, task, receipt), None);
  }

  lemma RefreshKeepsInv(c: Config, w: State, t: nat)
    requires c.env.suite.Valid() && Inv(c, w) && t in w.threads && w.threads[t].ReconcileLocked?
    ensures Inv(c, ApplyThread(c, w, AdvanceCheckpoint(t), t, w.threads[t]))
  {
    hide Inv, NextCheckpoint;
    ThreadOf(c, w, t);
    AdvanceKeepsInv(c, w, t, Over, Some(w.threads[t].observationRoot));
  }

  // ----- new rows

  /** A store whose new rows hold. */
  lemma NewRowsKeepStore(c: Config, a: Store, b: Store, r: Registry)
    requires StoreGrows(a, b) && StoreHolds(c, a, r)
    requires forall e :: e in b.evaluations && e !in a.evaluations ==> EvaluationHolds(c, b, e, b.evaluations[e])
    requires forall p :: p in b.permits && p !in a.permits ==> PermitHolds(c, b, p, b.permits[p])
    requires forall x :: x in b.executions && x !in a.executions ==> ExecutionHolds(c, b, r, b.executions[x])
    requires forall k :: k in b.reconciliations && k !in a.reconciliations ==> ReconciliationHolds(c, b, b.reconciliations[k])
    ensures StoreHolds(c, b, r)
  {
    hide EvaluationHolds, PermitHolds, ExecutionHolds, ReconciliationHolds;
    RowsKeep(c, a, b, r);
  }

  lemma NewRowsKeepInv(c: Config, w: State, b: Store)
    requires Inv(c, w) && StoreGrows(w.store, b) && StoreHolds(c, b, w.vault.registry)
    ensures Inv(c, w.(store := b))
  {
    hide ChainHolds, LockHolds, StoreHolds, ThreadsHold, CommitsHold, StoreGrows;
    ChainNotEmpty(c, w.vault);
    assert VaultGrows(w.vault, w.vault) by { ExtendsSelf(w.vault.registry); }
    ThreadsKeep(c, w.store, b, w.vault, w.vault, w.threads);
  }

  lemma StoreOf(c: Config, w: State)
    requires Inv(c, w)
    ensures StoreHolds(c, w.store, w.vault.registry)
  {
  }

  lemma IntentKeepsInv(c: Config, w: State, id: Ref, intent: Intent)
    requires Inv(c, w) && id !in w.store.intents
    ensures Inv(c, w.(store := w.store.(intents := w.store.intents[id := intent])))
  {
    hide Inv, StoreHolds, EvaluationHolds, PermitHolds, ExecutionHolds, ReconciliationHolds;
    var b := w.store.(intents := w.store.intents[id := intent]);
    StoreOf(c, w);
    NewRowsKeepStore(c, w.store, b, w.vault.registry);
    NewRowsKeepInv(c, w, b);
  }

  lemma EvidenceKeepsInv(c: Config, w: State, id: Ref, item: EvidenceItem)
    requires Inv(c, w) && id !in w.store.evidence
    ensures Inv(c, w.(store := w.store.(evidence := w.store.evidence[id := item])))
  {
    hide Inv, StoreHolds, EvaluationHolds, PermitHolds, ExecutionHolds, ReconciliationHolds;
    var b := w.store.(evidence := w.store.evidence[id := item]);
    StoreOf(c, w);
    NewRowsKeepStore(c, w.store, b, w.vault.registry);
    NewRowsKeepInv(c, w, b);
  }

  lemma EvaluationKeepsInv(c: Config, w: State, id: Ref, evaluation: Evaluation)
    requires Inv(c, w) && id !in w.store.evaluations && EvaluationHolds(c, w.store, id, evaluation)
    ensures Inv(c, w.(store := w.store.(evaluations := w.store.evaluations[id := evaluation])))
  {
    hide Inv, StoreHolds, EvaluationHolds, PermitHolds, ExecutionHolds, ReconciliationHolds;
    var b := w.store.(evaluations := w.store.evaluations[id := evaluation]);
    StoreOf(c, w);
    EvaluationKeeps(c, w.store, b, id, evaluation);
    NewRowsKeepStore(c, w.store, b, w.vault.registry);
    NewRowsKeepInv(c, w, b);
  }

  /** Only a verifier can mint: an administrator has the permission, but its role is
      no issuer's. */
  lemma OnlyVerifiersMint(c: Config, t: Terms, now: int, keyId: string)
    requires Grants(t.issuerRole, PermitMint) && MintPermit(c.env, t, now, keyId).Ok?
    ensures t.issuerRole == Fixed(Verifier)
  {
    hide Mintable, SignRecord, PermitBody;
    WhoMay(t.issuerRole, PermitMint);
    MintsExactly(c.env, t, now, keyId);
    MintableIssuer(c.env, t, now);
  }

  lemma MintableIssuer(env: Env, t: Terms, now: int)
    requires Mintable(env, t, now)
    ensures t.issuerRole in {Fixed(Verifier), Fixed(Governor)}
  {
    hide RootsAreDigests, TrustIsComplete, OwnerAndName, FullObjectId;
  }

  lemma MintedHolds(c: Config, w: State, e: Event)
    requires c.env.suite.Valid() && w.vault.checkpoints != [] && e.Mint? && Minted(c, w, e).Some?
    ensures PermitHolds(c, w.store, e.id, Minted(c, w, e).value)
    ensures
      var issuer := Ref(e.id.tenant, e.principal);
      && May(w.authority.roles, issuer, PermitMint) && w.authority.roles[issuer] == Fixed(Verifier)
      && Get(Minted(c, w, e).value, Issuer) == Obj(map[PrincipalId := Str(e.principal), Role := Fixed(Verifier)])
  {
    hide MintPermit, VerifySignature, Genuine, Grants, TrustTerms;
    var ev := w.store.evaluations[Ref(e.id.tenant, e.evaluationId)];
    var effect := w.store.intents[ev.intent].effect;
    var terms := MintTerms(ev, effect, e.id, e.evaluationId, e.principal, w.authority.roles[Ref(e.id.tenant, e.principal)], e.arguments,
                           Last(w.vault).checkpoint);
    var permit := Minted(c, w, e).value;
    OnlyVerifiersMint(c, terms, e.arguments.now, c.verifierKeyId);
    MintedPermitHasTerms(c.env, terms, e.arguments.now, c.verifierKeyId, permit);
    VerifiedIsGenuine(c.env.suite, permit, c.env.verifierKey);
    assert EffectRecord(terms) == EffectFields(effect);
    TermsFields(c, terms, permit, e.arguments.now, e.arguments.now + e.arguments.seconds * SECOND);
  }

  /** The fields of a permit with these terms. */
  lemma TermsFields(c: Config, t: Terms, permit: Record, issuedAt: int, expiry: int)
    requires HasTerms(c.env, permit, t, issuedAt, expiry)
    ensures Get(permit, Roots).Obj? && RootsAre(Get(permit, Roots).fields, t.expected)
    ensures Get(permit, ApprovalDigest) == Str(t.expected.approval)
    ensures Get(permit, Field.Effect) == Obj(EffectRecord(t))
    ensures Get(permit, Issuer) == Obj(map[PrincipalId := Str(t.issuerId), Role := t.issuerRole])
    ensures Get(permit, Constraints) == Obj(t.constraints)
    ensures t.trust.Some? ==> TrustBound(permit)
  {
    hide EffectRecord;
  }

  lemma PermitKeepsInv(c: Config, w: State, id: Ref, permit: Record)
    requires Inv(c, w) && id !in w.store.permits && PermitHolds(c, w.store, id, permit)
    ensures Inv(c, w.(store := w.store.(permits := w.store.permits[id := permit])))
  {
    hide Inv, StoreHolds, EvaluationHolds, PermitHolds, ExecutionHolds, ReconciliationHolds;
    var b := w.store.(permits := w.store.permits[id := permit]);
    StoreOf(c, w);
    PermitKeeps(c, w.store, b, id, permit);
    NewRowsKeepStore(c, w.store, b, w.vault.registry);
    NewRowsKeepInv(c, w, b);
  }

  lemma ExecutionKeepsInv(c: Config, w: State, id: Ref, x: Execution)
    requires Inv(c, w) && id !in w.store.executions && ExecutionHolds(c, w.store, w.vault.registry, x)
    ensures Inv(c, w.(store := w.store.(executions := w.store.executions[id := x])))
  {
    hide Inv, StoreHolds, EvaluationHolds, PermitHolds, ExecutionHolds, ReconciliationHolds, Spending.Extends;
    var b := w.store.(executions := w.store.executions[id := x]);
    StoreOf(c, w);
    ExtendsSelf(w.vault.registry);
    ExecutionKeeps(c, w.store, b, w.vault.registry, w.vault.registry, x);
    NewRowsKeepStore(c, w.store, b, w.vault.registry);
    NewRowsKeepInv(c, w, b);
  }

  lemma WrittenExecutionHolds(c: Config, store: Store, vault: Vault, t: nat, r: Request, seen: Authority, task: Spending.Task,
                              receipt: AdapterReceipt)
    requires vault.checkpoints != [] && ThreadHolds(c, store, vault, Written(r, seen, task, receipt))
    ensures ExecutionHolds(c, store, vault.registry, Execution(r.permitRef, TextOf(Get(r.permit, RecordHash)), r.principal, receipt, t, seen))
  {
  }

  lemma RecordKeepsInv(c: Config, w: State, t: nat, id: string)
    requires Inv(c, w) && t in w.threads && w.threads[t].Written?
    ensures Inv(c, ApplyThread(c, w, RecordExecution(t, id), t, w.threads[t]))
  {
    hide Inv, ThreadHolds, ExecutionHolds;
    ThreadOf(c, w, t);
    var r, seen, task, receipt := w.threads[t].r, w.threads[t].seen, w.threads[t].task, w.threads[t].receipt;
    var ref := Ref(r.tenant, id);
    MoveOver(c, w, t);
    if ref !in w.store.executions {
      WrittenExecutionHolds(c, w.store, w.vault, t, r, seen, task, receipt);
      ExecutionKeepsInv(c, WithThread(w, t, Over), ref, Execution(r.permitRef, TextOf(Get(r.permit, RecordHash)), r.principal, receipt, t, seen));
    }
  }

  lemma MoveOver(c: Config, w: State, t: nat)
    requires Inv(c, w) && t in w.threads && !InSection(w.threads[t])
    ensures Inv(c, WithThread(w, t, Over))
  {
    hide Inv;
    ChainNotEmptyIn(c, w);
    MoveKeepsInv(c, w, t, Over);
  }

  lemma ReconciliationKeepsInv(c: Config, w: State, id: Ref, r: Reconciliation)
    requires Inv(c, w) && id !in w.store.reconciliations && ReconciliationHolds(c, w.store, r)
    ensures Inv(c, w.(store := w.store.(reconciliations := w.store.reconciliations[id := r])))
  {
    hide Inv, StoreHolds, EvaluationHolds, PermitHolds, ExecutionHolds, ReconciliationHolds;
    var b := w.store.(reconciliations := w.store.reconciliations[id := r]);
    StoreOf(c, w);
    ReconciliationKeeps(c, w.store, b, r);
    NewRowsKeepStore(c, w.store, b, w.vault.registry);
    NewRowsKeepInv(c, w, b);
  }

  lemma ReconcileKeepsInv(c: Config, w: State, e: Event)
    requires Inv(c, w) && e.Reconcile?
    ensures Inv(c, ApplyReconcile(c, w, e))
  {
    hide Inv, IsVerdict, Confirms, Observable, InSection;
    var execution := Ref(e.id.tenant, e.executionId);
    if e.thread !in w.threads && e.id !in w.store.reconciliations && execution in w.store.executions {
      var x := w.store.executions[execution];
      if x.permit in w.store.permits
        && IsVerdict(c.env.suite, ObserverPanel(c, w.store.permits[x.permit]), e.attestations, e.verdict) {
        var record := Reconciliation(execution, e.attestations, e.verdict, Confirms(e.verdict, x.receipt, w.store.permits[x.permit]));
        ReconciliationKeepsInv(c, w, e.id, record);
        var stored := w.(store := w.store.(reconciliations := w.store.reconciliations[e.id := record]));
        NewReconciler(c, stored, e);
      }
    }
  }

  lemma NewReconciler(c: Config, stored: State, e: Event)
    requires Inv(c, stored) && e.Reconcile? && e.thread !in stored.threads
    requires e.id in stored.store.reconciliations && stored.store.reconciliations[e.id].verdict == e.verdict
    ensures Inv(c, WithThread(stored, e.thread, if e.verdict.met then ReconcileWaiting(e.id, e.verdict.observationRoot) else Over))
  {
    hide Inv;
    ChainNotEmptyIn(c, stored);
    MoveKeepsInv(c, stored, e.thread, if e.verdict.met then ReconcileWaiting(e.id, e.verdict.observationRoot) else Over);
  }

  // ----- every step

  lemma RestartKeepsInv(c: Config, w: State)
    requires Inv(c, w)
    ensures Inv(c, w.(threads := map t | t in w.threads :: Over, holder := None))
  {
    hide ChainHolds, StoreHolds, CommitsHold;
    ChainNotEmpty(c, w.vault);
  }

  lemma BeginKeepsInv(c: Config, w: State, t: nat, tenant: string, principal: string, permitId: string)
    requires Inv(c, w) && t !in w.threads && BeginRequest(w, tenant, principal, permitId).Some?
    ensures Inv(c, WithThread(w, t, Waiting(BeginRequest(w, tenant, principal, permitId).value)))
  {
    hide Inv, PermitHolds, ExecutionHolds, ReconciliationHolds;
    StoreOf(c, w);
    ChainNotEmptyIn(c, w);
    var r := BeginRequest(w, tenant, principal, permitId).value;
    BoundPermit(c, w.store, r.permitRef, r.permit);
    MoveKeepsInv(c, w, t, Waiting(r));
  }

  lemma BoundPermit(c: Config, store: Store, permitRef: Ref, permit: Record)
    requires PermitHolds(c, store, permitRef, permit)
    ensures TrustBound(permit)
  {
  }

  lemma AcquireStepKeepsInv(c: Config, w: State, t: nat)
    requires Inv(c, w) && t in w.threads
    ensures Inv(c, ApplyThread(c, w, Acquire(t), t, w.threads[t]))
  {
    hide Inv, RequestHolds, BackedByQuorum;
    ThreadOf(c, w, t);
    var thread := w.threads[t];
    if w.holder.None? && thread.Waiting? {
      AcquireKeepsInv(c, w, t, Locked(thread.r));
    } else if w.holder.None? && thread.ReconcileWaiting? {
      AcquireKeepsInv(c, w, t, ReconcileLocked(thread.record, thread.observationRoot));
    }
  }

  lemma ThreadStepKeepsInv(c: Config, w: State, e: Event)
    requires c.env.suite.Valid() && Inv(c, w) && OnThread(e) && e.thread in w.threads
    ensures Inv(c, ApplyThread(c, w, e, e.thread, w.threads[e.thread]))
  {
    hide Inv;
    ChainNotEmptyIn(c, w);
    var t, thread := e.thread, w.threads[e.thread];
    if Enabled(e, thread) {
      hide ApplyThread;
      match e {
        case Acquire(_) => AcquireStepKeepsInv(c, w, t);
        case Vet(_) => VetKeepsInv(c, w, t);
        case Admit(_, now, at) => AdmitKeepsInv(c, w, t, now, at);
        case ReadState(_) => ReadKeepsInv(c, w, t);
        case CheckPermit(_) => CheckKeepsInv(c, w, t);
        case Transact(_) => TransactKeepsInv(c, w, t);
        case CallProvider(_, reply) => CallKeepsInv(c, w, t, reply);
        case WriteCheckpoint(_) => WriteKeepsInv(c, w, t);
        case RecordExecution(_, id) => RecordKeepsInv(c, w, t, id);
        case AdvanceCheckpoint(_) => RefreshKeepsInv(c, w, t);
        case Raise(_) => RaiseKeepsInv(c, w, t);
      }
    } else {
      NotEnabled(c, w, e, thread);
    }
  }

  /** Is the event the next step of a thread in this state? */
  predicate Enabled(e: Event, thread: Thread) {
    match e
    case Acquire(_) => thread.Waiting? || thread.ReconcileWaiting?
    case Vet(_) => thread.Locked?
    case Admit(_, _, _) => thread.Vetted?
    case ReadState(_) => thread.Admitted?
    case CheckPermit(_) => thread.Checked?
    case Transact(_) => thread.Verified?
    case CallProvider(_, _) => thread.Claimed?
    case WriteCheckpoint(_) => thread.Called?
    case RecordExecution(_, _) => thread.Written?
    case AdvanceCheckpoint(_) => thread.ReconcileLocked?
    case Raise(_) => true
    case _ => false
  }

  lemma NotEnabled(c: Config, w: State, e: Event, thread: Thread)
    requires w.vault.checkpoints != [] && OnThread(e) && !Enabled(e, thread)
    ensures ApplyThread(c, w, e, e.thread, thread) == w
  {
  }

  lemma RaiseKeepsInv(c: Config, w: State, t: nat)
    requires Inv(c, w) && t in w.threads
    ensures w.vault.checkpoints != []
    ensures Inv(c, ApplyThread(c, w, Raise(t), t, w.threads[t]))
  {
    hide Inv;
    ChainNotEmptyIn(c, w);
    OverKeepsInv(c, w, t);
  }

  lemma StoreStepKeepsInv(c: Config, w: State, e: Event)
    requires c.env.suite.Valid() && Inv(c, w)
    ensures w.vault.checkpoints != [] && Inv(c, ApplyStore(c, w, e))
  {
    hide Inv, EvaluationOf, Minted, EvaluationHolds, PermitHolds, May, IsRole, EffectValid;
    ChainNotEmptyIn(c, w);
    match e {
      case GrantRole(p, role) =>
        if IsRole(role) { AuthorityIsFree(c, w, w.authority.(roles := w.authority.roles[p := role])); }
      case ActivatePolicy(p, digest) => AuthorityIsFree(c, w, w.authority.(active := w.authority.active[p := digest]));
      case CreateIntent(id, principal, effect) =>
        if id !in w.store.intents && ApplyStore(c, w, e) != w { IntentKeepsInv(c, w, id, Intent(effect)); }
      case CreateEvidence(id, principal, intentId, hash) =>
        if id !in w.store.evidence && ApplyStore(c, w, e) != w { EvidenceKeepsInv(c, w, id, EvidenceItem(intentId, hash)); }
      case Evaluate(id, _, _, _, _, _, _) =>
        if id !in w.store.evaluations && EvaluationOf(c, w, e).Some? {
          EvaluatedHolds(c, w, e);
          EvaluationKeepsInv(c, w, id, EvaluationOf(c, w, e).value);
        }
      case Mint(id, _, _, _) =>
        if id !in w.store.permits && Minted(c, w, e).Some? {
          MintedHolds(c, w, e);
          PermitKeepsInv(c, w, id, Minted(c, w, e).value);
        }
      case _ =>
    }
  }

  lemma AuthorityIsFree(c: Config, w: State, authority: Authority)
    requires Inv(c, w)
    ensures Inv(c, w.(authority := authority))
  {
  }

  lemma EvidenceRootHolds(s: Suite, hashes: seq<string>)
    ensures EvidenceRootIs(s, EvidenceRoot(s, hashes), hashes)
  {
    hide TextList, HashRecord;
    assert Sorted(Sort(hashes)) && multiset(Sort(hashes)) == multiset(hashes);
  }

  lemma EvaluatedHolds(c: Config, w: State, e: Event)
    requires e.Evaluate? && EvaluationOf(c, w, e).Some?
    ensures EvaluationHolds(c, w.store, e.id, EvaluationOf(c, w, e).value)
  {
    hide EvidenceRoot, EvidenceRootIs, IsDigest, May;
    EvidenceRootHolds(c.env.suite, EvidenceHashes(w.store, e.id.tenant, e.evidenceIds));
  }

  lemma ApplyKeepsInv(c: Config, w: State, e: Event)
    requires c.env.suite.Valid() && Inv(c, w)
    ensures w.vault.checkpoints != [] && Inv(c, Apply(c, w, e))
  {
    hide Inv, ApplyThread, ApplyStore, ApplyReconcile, BeginRequest, Spending.Spend;
    ChainNotEmptyIn(c, w);
    if e.Reconcile? {
      ReconcileKeepsInv(c, w, e);
    } else if e.ForeignSpend? {
      if Spending.Spend(c.env, w.vault.registry, e.task).Ok? { RegistryGrowthKeepsInv(c, w, e.task); }
    } else if e.Restart? {
      RestartKeepsInv(c, w);
    } else if e.BeginExecute? {
      if e.thread !in w.threads && BeginRequest(w, e.tenant, e.principal, e.permitId).Some? {
        BeginKeepsInv(c, w, e.thread, e.tenant, e.principal, e.permitId);
      }
    } else if OnThread(e) {
      if e.thread in w.threads { ThreadStepKeepsInv(c, w, e); }
    } else {
      StoreStepKeepsInv(c, w, e);
    }
  }

  /** `_ensure_trust_checkpoint`: a fresh server has the checkpoint with epoch 1
      and counter 0 of its registry, and no object, request or spend. */
  ghost predicate Initial(c: Config, w: State) {
    && |w.vault.checkpoints| == 1
    && ChainHolds(c, w.vault)
    && w.store == Store(map[], map[], map[], map[], map[], map[])
    && w.holder == None && w.threads == map[] && w.commits == []
  }

  /** `EMPTY_ROOT` */
  function EmptyRoot(s: Suite): Json {
    Str(HashRecord(s, map[Kind := Fixed(EmptyRootKind)]))
  }

  /** `_ensure_trust_checkpoint`, when there is no checkpoint file yet. */
  function FirstVault(c: Config, registry: Registry): Vault {
    var roots := CheckpointRoots(RegistryRoot(c.env.suite, registry), EmptyRoot(c.env.suite), EmptyRoot(c.env.suite));
    Vault(registry, [Stored(TrustCheckpoint(c.env.suite, roots, 1, 0, Null, c.env.checkpointKey, c.checkpointKeyId), registry)])
  }

  lemma FreshServerIsInitial(c: Config, registry: Registry, authority: Authority)
    requires c.env.suite.Valid() && NoncesUnique(registry)
    ensures
      var empty := Store(map[], map[], map[], map[], map[], map[]);
      Initial(c, Server.State.State(authority, empty, FirstVault(c, registry), None, map[], []))
  {
    hide RegistryRoot, EmptyRoot, TrustCheckpoint, TrustRootOf, VerifySignature;
    var roots := CheckpointRoots(RegistryRoot(c.env.suite, registry), EmptyRoot(c.env.suite), EmptyRoot(c.env.suite));
    CreatedCheckpointIs(c.env.suite, roots, 1, 0, Null, c.env.checkpointKey, c.checkpointKeyId);
    ExtendsSelf(registry);
  }

  lemma InitialInv(c: Config, w: State)
    requires Initial(c, w)
    ensures Inv(c, w)
  {
    hide ChainHolds;
  }

  lemma {:induction false} RunKeepsInv(c: Config, w: State, events: seq<Event>)
    requires c.env.suite.Valid() && Inv(c, w)
    ensures w.vault.checkpoints != [] && Inv(c, Run(c, w, events))
  {
    hide Inv, Apply;
    ChainNotEmptyIn(c, w);
    if events != [] {
      RunKeepsInv(c, w, events[..|events| - 1]);
      ApplyKeepsInv(c, Run(c, w, events[..|events| - 1]), events[|events| - 1]);
    }
  }
}
