/**
 What the server's locked sections guarantee over whole runs.
 */
module ServerTheorems {
  import opened Hashing
  import opened Sorting
  import opened Quorum
  import opened TrustState
  import opened Permits
  import opened Rbac
  import opened Server
  import opened ServerHistory
  import opened ServerSafety
  import Spending

  // ----- histories only grow

  predicate AtMostOneMore(a: seq<ServerCommit>, b: seq<ServerCommit>, checkpoint: int) {
    b == a || (|b| == |a| + 1 && b[..|a|] == a && b[|a|].checkpoint == checkpoint)
  }

  lemma ApplyGrowsVault(c: Config, w: State, e: Event)
    requires w.vault.checkpoints != []
    ensures
      var after := Apply(c, w, e);
      && w.vault.checkpoints <= after.vault.checkpoints
      && Spending.Extends(w.vault.registry, after.vault.registry)
      && AtMostOneMore(w.commits, after.commits, |w.vault.checkpoints| - 1)
  {
    hide ApplyStore, ApplyReconcile, BeginRequest, Vets, AdmitTask, Spending.ReadTrust, Spending.VerifyTask, NextCheckpoint;
    if e.Reconcile? {
      ReconcileLeavesVault(c, w, e);
    } else if !OnThread(e) {
      StoreStepLeavesVault(c, w, e);
    }
  }

  lemma ReconcileLeavesVault(c: Config, w: State, e: Event)
    requires e.Reconcile?
    ensures ApplyReconcile(c, w, e).vault == w.vault && ApplyReconcile(c, w, e).commits == w.commits
    ensures NobodySpending(w.threads) ==> NobodySpending(ApplyReconcile(c, w, e).threads)
  {
    hide IsVerdict, Confirms, Observable, ObserverPanel;
  }

  lemma StoreStepLeavesVault(c: Config, w: State, e: Event)
    requires w.vault.checkpoints != []
    ensures ApplyStore(c, w, e).vault == w.vault && ApplyStore(c, w, e).commits == w.commits
    ensures ApplyStore(c, w, e).threads == w.threads
  {
    hide EvaluationOf, Minted;
  }

  // ----- the chain of trust checkpoints

  lemma {:induction false} RunGrowsVault(c: Config, w: State, events: seq<Event>, k: nat)
    requires w.vault.checkpoints != [] && k <= |events|
    ensures
      var before, after := Run(c, w, events[..k]), Run(c, w, events);
      && before.vault.checkpoints <= after.vault.checkpoints
      && |before.commits| <= |after.commits|
      && (forall i :: |before.commits| <= i < |after.commits| ==>
            after.commits[i].checkpoint >= |before.vault.checkpoints| - 1)
  {
    hide Apply;
    if k == |events| {
      assert events[..k] == events;
    } else {
      var front := events[..|events| - 1];
      assert front[..k] == events[..k];
      RunGrowsVault(c, w, front, k);
      ApplyGrowsVault(c, Run(c, w, front), events[|events| - 1]);
    }
  }

  /** For every interleaving of executing and reconciling threads, with crashes
      and restarts, the stored checkpoints form one linear chain: epoch 1 + k,
      counter k, the previous hash of the predecessor, the replay root of a
      registry that contains its predecessor's.  Whatever was stored at any time
      is a prefix of it, so no update is lost. */
  lemma CheckpointsFormOneChain(c: Config, w: State, events: seq<Event>, k: nat)
    requires c.env.suite.Valid() && Initial(c, w) && k <= |events|
    ensures ChainHolds(c, Run(c, w, events).vault)
    ensures Run(c, w, events[..k]).vault.checkpoints <= Run(c, w, events).vault.checkpoints
  {
    InitialInv(c, w);
    RunKeepsInv(c, w, events);
    RunGrowsVault(c, w, events, k);
  }

  // ----- dead permits

  lemma CommitsOf(c: Config, w: State)
    requires Inv(c, w)
    ensures CommitsHold(w.commits, |w.vault.checkpoints|)
  {
  }

  /** Once the checkpoint a permit is bound to has been superseded, no thread
      spends that permit in the rest of any run. */
  lemma SupersededPermitIsDead(c: Config, w: State, events: seq<Event>, k: nat, permit: Record, counter: int)
    requires c.env.suite.Valid() && Initial(c, w) && k <= |events|
    requires TrustCounter(permit) == Int(counter) && counter < |Run(c, w, events[..k]).vault.checkpoints| - 1
    ensures
      var before, after := Run(c, w, events[..k]), Run(c, w, events);
      forall i :: |before.commits| <= i < |after.commits| ==> after.commits[i].permit != permit
  {
    hide Apply, Inv, ChainHolds, TrustCounter;
    InitialInv(c, w);
    RunKeepsInv(c, w, events);
    CommitsOf(c, Run(c, w, events));
    RunGrowsVault(c, w, events, k);
  }

  // ----- fail closed

  predicate NobodySpending(threads: map<nat, Thread>) {
    forall t :: t in threads ==> !Spent(threads[t])
  }

  /** The registry has left the state the last checkpoint commits to, and no
      thread is about to write the next one. */
  predicate Stalled(w: State)
    requires w.vault.checkpoints != []
  {
    w.vault.registry != Last(w.vault).registry && NobodySpending(w.threads)
  }

  /** The registries this vault has hashed. */
  function VaultInputs(s: Suite, v: Vault): set<Bytes> {
    (set x | x in v.checkpoints :: RegistryInput(s, x.registry)) + {RegistryInput(s, v.registry)}
  }

  lemma {:induction false} EarlierIsIncluded(c: Config, v: Vault, k: nat, m: nat)
    requires ChainHolds(c, v) && k <= m < |v.checkpoints|
    ensures Spending.Extends(v.checkpoints[k].registry, v.checkpoints[m].registry)
    decreases m
  {
    hide Spending.Extends, IsCheckpoint, NoncesUnique;
    if k < m {
      EarlierIsIncluded(c, v, k, m - 1);
      ExtendsTransitive(v.checkpoints[k].registry, v.checkpoints[m - 1].registry, v.checkpoints[m].registry);
    } else {
      ExtendsSelf(v.checkpoints[k].registry);
    }
  }

  lemma ExtendsTransitive(a: Registry, b: Registry, d: Registry)
    requires Spending.Extends(a, b) && Spending.Extends(b, d)
    ensures Spending.Extends(a, d)
  {
  }

  lemma ExtendsBothWays(a: Registry, b: Registry)
    requires Spending.Extends(a, b) && Spending.Extends(b, a)
    ensures a == b
  {
  }

  lemma StoredReplayRoot(c: Config, v: Vault, k: nat)
    requires ChainHolds(c, v) && k < |v.checkpoints|
    ensures RootField(v.checkpoints[k].checkpoint, ReplayRoot) == Str(RegistryRoot(c.env.suite, v.checkpoints[k].registry))
  {
    hide RegistryRoot;
    assert IsCheckpoint(c, k, v.checkpoints[k]);
  }

  lemma RegistryIsNotStored(c: Config, v: Vault, k: nat)
    requires ChainHolds(c, v) && v.registry != Last(v).registry && k < |v.checkpoints|
    ensures v.checkpoints[k].registry != v.registry
  {
    hide Spending.Extends, IsCheckpoint, NoncesUnique;
    EarlierIsIncluded(c, v, k, |v.checkpoints| - 1);
    if v.checkpoints[k].registry == v.registry {
      ExtendsBothWays(Last(v).registry, v.registry);
    }
  }

  /** While the registry is ahead of the last checkpoint, no checkpoint the
      server ever wrote authorizes a trust-bound merge. */
  lemma NoStoredCheckpointAuthorizes(c: Config, v: Vault, task: Spending.Task, k: nat)
    requires c.env.suite.Valid() && ChainHolds(c, v) && CollisionFree(c.env.suite, VaultInputs(c.env.suite, v))
    requires v.registry != Last(v).registry && k < |v.checkpoints|
    requires task.MergeTask? && TrustBound(task.permit) && task.checkpoint == Some(v.checkpoints[k].checkpoint)
    ensures Spending.Spend(c.env, v.registry, task).Err?
  {
    hide ChainHolds, RegistryRoot, RegistryInput;
    StoredReplayRoot(c, v, k);
    RegistryIsNotStored(c, v, k);
    if RegistryRoot(c.env.suite, v.checkpoints[k].registry) == RegistryRoot(c.env.suite, v.registry) {
      SameRootSameRegistry(c.env.suite, VaultInputs(c.env.suite, v), v.checkpoints[k].registry, v.registry);
    }
  }

  lemma VaultOf(c: Config, w: State)
    requires Inv(c, w)
    ensures ChainHolds(c, w.vault)
  {
  }

  /** A thread's spend succeeds only while the registry is the one its checkpoint
      commits to. */
  lemma SpendableIsInStep(c: Config, w: State, t: nat)
    requires c.env.suite.Valid() && Inv(c, w) && w.vault.checkpoints != []
    requires CollisionFree(c.env.suite, VaultInputs(c.env.suite, w.vault))
    requires t in w.threads && w.threads[t].Verified? && Spending.Spend(c.env, w.vault.registry, w.threads[t].task).Ok?
    ensures w.vault.registry == Last(w.vault).registry
  {
    hide Inv, ChainHolds, Spending.Spend, PassedChecks;
    VaultOf(c, w);
    ThreadOf(c, w, t);
    if w.vault.registry != Last(w.vault).registry {
      NoStoredCheckpointAuthorizes(c, w.vault, w.threads[t].task, |w.vault.checkpoints| - 1);
    }
  }

  lemma StillAhead(c: Config, v: Vault, after: Vault)
    requires ChainHolds(c, v) && v.registry != Last(v).registry
    requires after.checkpoints == v.checkpoints && Spending.Extends(v.registry, after.registry)
    ensures after.registry != Last(after).registry
  {
    hide Spending.Extends, IsCheckpoint, NoncesUnique;
    if after.registry == Last(after).registry {
      ExtendsBothWays(Last(v).registry, v.registry);
    }
  }

  lemma StalledThreadStep(c: Config, w: State, e: Event)
    requires w.vault.checkpoints != [] && NobodySpending(w.threads) && OnThread(e) && !e.AdvanceCheckpoint?
    requires e.thread in w.threads
    requires w.threads[e.thread].Verified? ==> Spending.Spend(c.env, w.vault.registry, w.threads[e.thread].task).Err?
    ensures
      var after := ApplyThread(c, w, e, e.thread, w.threads[e.thread]);
      after.commits == w.commits && after.vault == w.vault && NobodySpending(after.threads)
  {
    hide Vets, AdmitTask, Spending.Spend, Spending.ReadTrust, Spending.VerifyTask;
  }

  lemma StalledStep(c: Config, w: State, e: Event)
    requires c.env.suite.Valid() && Inv(c, w) && w.vault.checkpoints != [] && Stalled(w) && !e.AdvanceCheckpoint?
    requires CollisionFree(c.env.suite, VaultInputs(c.env.suite, w.vault))
    ensures
      var after := Apply(c, w, e);
      after.commits == w.commits && after.vault.checkpoints == w.vault.checkpoints && Stalled(after)
  {
    hide Inv, ApplyThread, ApplyStore, ApplyReconcile, BeginRequest, Spending.Spend, Spending.Extends, ChainHolds, VaultInputs;
    ApplyGrowsVault(c, w, e);
    VaultOf(c, w);
    if OnThread(e) && e.thread in w.threads {
      if w.threads[e.thread].Verified? && Spending.Spend(c.env, w.vault.registry, w.threads[e.thread].task).Ok? {
        SpendableIsInStep(c, w, e.thread);
      }
      StalledThreadStep(c, w, e);
    } else if e.Reconcile? {
      ReconcileLeavesVault(c, w, e);
    } else if !OnThread(e) {
      StoreStepLeavesVault(c, w, e);
    }
    StillAhead(c, w.vault, Apply(c, w, e).vault);
  }

  /** The registries hashed along a run. */
  ghost function RunInputs(c: Config, w: State, events: seq<Event>): set<Bytes>
    requires w.vault.checkpoints != []
  {
    VaultInputs(c.env.suite, Run(c, w, events).vault)
    + if events == [] then {} else RunInputs(c, w, events[..|events| - 1])
  }

  lemma {:induction false} StallLasts(c: Config, w: State, events: seq<Event>, k: nat)
    requires c.env.suite.Valid() && Inv(c, w) && w.vault.checkpoints != [] && k <= |events|
    requires CollisionFree(c.env.suite, RunInputs(c, w, events))
    requires Stalled(Run(c, w, events[..k]))
    requires forall i :: k <= i < |events| ==> !events[i].AdvanceCheckpoint?
    ensures
      var before, after := Run(c, w, events[..k]), Run(c, w, events);
      after.commits == before.commits && after.vault.checkpoints == before.vault.checkpoints && Stalled(after)
  {
    hide Inv, Apply, Stalled, VaultInputs;
    if k == |events| {
      assert events[..k] == events;
    } else {
      var front := events[..|events| - 1];
      assert front[..k] == events[..k];
      assert RunInputs(c, w, front) <= RunInputs(c, w, events);
      StallLasts(c, w, front, k);
      RunKeepsInv(c, w, front);
      assert VaultInputs(c.env.suite, Run(c, w, front).vault) <= RunInputs(c, w, front);
      StalledStep(c, Run(c, w, front), events[|events| - 1]);
    }
  }

  // ----- one spend per checkpoint

  /** Spends carry increasing checkpoints, and a checkpoint that was spent no
      longer fits the registry. */
  predicate SpentOnce(w: State)
    requires w.vault.checkpoints != []
  {
    && (forall i, j :: 0 <= i < j < |w.commits| ==> w.commits[i].checkpoint < w.commits[j].checkpoint)
    && (forall i :: 0 <= i < |w.commits| && w.commits[i].checkpoint == |w.vault.checkpoints| - 1 ==>
          w.vault.registry != Last(w.vault).registry)
  }

  lemma CommitStep(c: Config, w: State, e: Event)
    requires w.vault.checkpoints != [] && Apply(c, w, e).commits != w.commits
    ensures e.Transact? && e.thread in w.threads && w.threads[e.thread].Verified?
    ensures
      var spent := Spending.Spend(c.env, w.vault.registry, w.threads[e.thread].task);
      spent.Ok? && Apply(c, w, e).vault == w.vault.(registry := spent.value)
  {
    hide ApplyStore, ApplyReconcile, BeginRequest, Vets, AdmitTask, Spending.ReadTrust, Spending.VerifyTask, Spending.Spend, NextCheckpoint;
    if e.Reconcile? {
      ReconcileLeavesVault(c, w, e);
    } else if !OnThread(e) {
      StoreStepLeavesVault(c, w, e);
    }
  }

  lemma ClaimLeavesStep(c: Config, v: Vault, task: Spending.Task)
    requires v.checkpoints != [] && v.registry == Last(v).registry && Spending.Spend(c.env, v.registry, task).Ok?
    ensures Spending.Spend(c.env, v.registry, task).value != Last(v).registry
  {
  }

  lemma SpentOnceStep(c: Config, w: State, e: Event)
    requires c.env.suite.Valid() && Inv(c, w) && w.vault.checkpoints != [] && SpentOnce(w)
    requires CollisionFree(c.env.suite, VaultInputs(c.env.suite, w.vault))
    ensures SpentOnce(Apply(c, w, e))
  {
    hide Inv, ChainHolds, Apply, CommitsHold, Spending.Spend, Spending.Extends, VaultInputs;
    var after := Apply(c, w, e);
    ApplyGrowsVault(c, w, e);
    VaultOf(c, w);
    if after.commits != w.commits {
      CommitStep(c, w, e);
      SpendableIsInStep(c, w, e.thread);
      ClaimLeavesStep(c, w.vault, w.threads[e.thread].task);
      CommitsBelow(c, w);
    } else if |after.vault.checkpoints| == |w.vault.checkpoints| {
      if w.vault.registry != Last(w.vault).registry { StillAhead(c, w.vault, after.vault); }
    } else {
      CommitsBelow(c, w);
    }
  }

  lemma CommitsBelow(c: Config, w: State)
    requires Inv(c, w)
    ensures forall i :: 0 <= i < |w.commits| ==> w.commits[i].checkpoint < |w.vault.checkpoints|
  {
    hide ChainHolds, LockHolds, StoreHolds, ThreadsHold;
  }

  lemma {:induction false} RunSpendsOnce(c: Config, w: State, events: seq<Event>)
    requires c.env.suite.Valid() && Inv(c, w) && w.vault.checkpoints != [] && SpentOnce(w)
    requires CollisionFree(c.env.suite, RunInputs(c, w, events))
    ensures SpentOnce(Run(c, w, events))
  {
    hide Inv, Apply, SpentOnce, VaultInputs;
    if events != [] {
      var front := events[..|events| - 1];
      assert RunInputs(c, w, front) <= RunInputs(c, w, events);
      RunSpendsOnce(c, w, front);
      RunKeepsInv(c, w, front);
      assert VaultInputs(c.env.suite, Run(c, w, front).vault) <= RunInputs(c, w, front);
      SpentOnceStep(c, Run(c, w, front), events[|events| - 1]);
    }
  }

  /** Over every run of the server each stored checkpoint is spent at most once:
      the spends carry strictly increasing checkpoints, each the one its permit
      was bound to. */
  lemma EachCheckpointIsSpentOnce(c: Config, w: State, events: seq<Event>, i: nat, j: nat)
    requires c.env.suite.Valid() && Initial(c, w)
    requires CollisionFree(c.env.suite, RunInputs(c, w, events))
    requires i < j < |Run(c, w, events).commits|
    ensures
      var a, b := Run(c, w, events).commits[i], Run(c, w, events).commits[j];
      && a.checkpoint < b.checkpoint < |Run(c, w, events).vault.checkpoints|
      && TrustCounter(a.permit) == Int(a.checkpoint) && TrustCounter(b.permit) == Int(b.checkpoint)
  {
    hide Inv, Apply, ChainHolds, TrustCounter;
    InitialInv(c, w);
    RunSpendsOnce(c, w, events);
    RunKeepsInv(c, w, events);
    CommitsOf(c, Run(c, w, events));
  }

  /** A failure that ends a thread between its claim and its checkpoint: the
      adapter raises, the checkpoint cannot be written, or the process restarts. */
  predicate Fails(e: Event, t: nat) {
    e == CallProvider(t, None) || e == Raise(t) || e == Restart
  }

  lemma HolderIsUnique(c: Config, w: State, t: nat, u: nat)
    requires Inv(c, w) && t in w.threads && u in w.threads && InSection(w.threads[t]) && InSection(w.threads[u])
    ensures t == u
  {
    hide ChainHolds, StoreHolds, ThreadsHold, CommitsHold;
  }

  lemma FailureStalls(c: Config, w: State, t: nat, e: Event)
    requires Inv(c, w) && w.vault.checkpoints != [] && t in w.threads && Spent(w.threads[t])
    requires Fails(e, t) && (e.CallProvider? ==> w.threads[t].Claimed?)
    ensures Stalled(Apply(c, w, e)) && Apply(c, w, e).commits == w.commits
    ensures Apply(c, w, e).vault == w.vault
  {
    hide Inv, RequestHolds, TaskHolds, PassedChecks, Vets, AdmitTask, ApplyStore, ApplyReconcile, Spending.Spend;
    ThreadOf(c, w, t);
    forall u | u in w.threads && Spent(w.threads[u]) ensures u == t {
      HolderIsUnique(c, w, t, u);
    }
  }

  lemma RunOneMore(c: Config, w: State, events: seq<Event>, k: nat)
    requires w.vault.checkpoints != [] && k < |events|
    ensures Run(c, w, events[..k + 1]) == Apply(c, Run(c, w, events[..k]), events[k])
  {
    hide Apply;
    assert events[..k + 1][..k] == events[..k];
  }

  /** Fail closed: when the adapter raises after the claim (or the server dies
      there), no thread spends any permit, and no checkpoint is written, in the
      rest of any run until a reconciling thread refreshes the checkpoint. */
  lemma FailedCallBlocksSpending(c: Config, w: State, events: seq<Event>, k: nat, t: nat)
    requires c.env.suite.Valid() && Initial(c, w) && k < |events|
    requires CollisionFree(c.env.suite, RunInputs(c, w, events))
    requires
      var before := Run(c, w, events[..k]);
      && t in before.threads && Spent(before.threads[t])
      && Fails(events[k], t) && (events[k].CallProvider? ==> before.threads[t].Claimed?)
    requires forall i :: k < i < |events| ==> !events[i].AdvanceCheckpoint?
    ensures
      var before, after := Run(c, w, events[..k]), Run(c, w, events);
      after.commits == before.commits && after.vault.checkpoints == before.vault.checkpoints
  {
    hide Inv, Initial, Apply, Run, Stalled, Spent, Fails, RunInputs, CollisionFree;
    InitialInv(c, w);
    RunKeepsInv(c, w, events[..k]);
    FailureStalls(c, Run(c, w, events[..k]), t, events[k]);
    RunOneMore(c, w, events, k);
    StallLasts(c, w, events, k + 1);
  }

  /** That refresh needs a stored reconciliation whose quorum was met; it commits
      to its observation root and to the registry as it is, which ends the stall. */
  lemma OnlyAQuorumRefreshes(c: Config, w: State, t: nat)
    requires c.env.suite.Valid() && Inv(c, w) && w.vault.checkpoints != []
    requires |Apply(c, w, AdvanceCheckpoint(t)).vault.checkpoints| > |w.vault.checkpoints|
    ensures t in w.threads && w.threads[t].ReconcileLocked?
    ensures
      var id, after := w.threads[t].record, Apply(c, w, AdvanceCheckpoint(t)).vault;
      && id in w.store.reconciliations && w.store.reconciliations[id].verdict.met
      && RootField(Last(after).checkpoint, Observation) == Str(w.store.reconciliations[id].verdict.observationRoot)
      && Last(after).registry == after.registry
  {
    hide Inv, RegistryRoot, TrustCheckpoint, NextCheckpoint, TrustCheckpointValid, ApplyStore, ApplyReconcile, TaskHolds, RequestHolds, PassedChecks, ClaimIsNew;
    ThreadOf(c, w, t);
    var root := w.threads[t].observationRoot;
    RefreshedRoots(c, w.vault, Last(w.vault).checkpoint, root);
  }

  lemma RefreshedRoots(c: Config, v: Vault, from: Record, root: string)
    requires c.env.suite.Valid()
    ensures RootField(NextCheckpoint(c, from, v.registry, Some(root)), Observation) == Str(root)
  {
    hide RegistryRoot, TrustCheckpoint, TrustRootOf;
    var roots := CheckpointRoots(RegistryRoot(c.env.suite, v.registry), RootField(from, LedgerCheckpoint), Str(root));
    CheckpointFields(c.env.suite, roots, IntOf(Get(from, Epoch)) + 1, IntOf(Get(from, MonotonicCounter)) + 1,
                     Get(from, RecordHash), c.env.checkpointKey, c.checkpointKeyId);
  }

  // ----- from an outcome back to its approval

  /** The statement of a reconciled outcome. */
  predicate SaysMerged(statement: Record, effect: MergeEffect, receipt: AdapterReceipt) {
    && Get(statement, Merged) == Bool(true)
    && Get(statement, HeadSha) == Str(effect.headSha)
    && Get(statement, MergeCommitSha) == receipt.operationId
  }

  lemma ConfirmedStatement(v: Verdict, receipt: AdapterReceipt, permit: Record, effect: MergeEffect)
    requires Confirms(v, receipt, permit) && Get(permit, Field.Effect) == Obj(EffectFields(effect))
    ensures v.met && receipt.confirmed && v.statement.Some? && SaysMerged(v.statement.value, effect, receipt)
  {
  }

  lemma ReconciliationOf(c: Config, w: State, id: Ref)
    requires Inv(c, w) && id in w.store.reconciliations
    ensures ReconciliationHolds(c, w.store, w.store.reconciliations[id])
    ensures
      var x := w.store.executions[w.store.reconciliations[id].execution];
      && ExecutionHolds(c, w.store, w.vault.registry, x)
      && PermitHolds(c, w.store, x.permit, w.store.permits[x.permit])
      && var id := EvaluationRef(x.permit, w.store.permits[x.permit]);
      && id in w.store.evaluations && EvaluationHolds(c, w.store, id, w.store.evaluations[id])
  {
    hide ChainHolds, LockHolds, ThreadsHold, CommitsHold, PermitHolds, EvaluationHolds, RootsWereSeen, IsVerdict, Confirms;
  }

  lemma CitedEvidence(c: Config, store: Store, id: Ref, e: Evaluation)
    requires EvaluationHolds(c, store, id, e) && e.permitted
    ensures e.evidenceIds != []
    ensures forall k :: k in e.evidenceIds ==> Ref(id.tenant, k) in store.evidence && store.evidence[Ref(id.tenant, k)].intentId == e.intent.id
  {
    hide EvidenceRootIs;
  }

  /** Backward trace: behind every RECONCILED record there is an execution whose
      permit is claimed in the registry by the principal that executed it, and was
      minted from a permitting evaluation of an intent, all of whose evidence belongs
      to that intent, for exactly that intent's effect; its identity and
      policy roots are those of the roles and policies in force at two points of a
      span during which the executing thread held the lock; and at least `threshold`
      distinct observers signed that the pull request is merged, at that head,
      with the merge commit the executor claimed. */
  lemma ReconciledOutcomeIsBacked(c: Config, w: State, events: seq<Event>, id: Ref)
    requires c.env.suite.Valid() && Initial(c, w)
    requires id in Run(c, w, events).store.reconciliations
    requires Run(c, w, events).store.reconciliations[id].confirmed
    requires CollisionFree(c.env.suite, StatementInputs(c.env.suite, Run(c, w, events).store.reconciliations[id].attestations))
    ensures
      var store, registry := Run(c, w, events).store, Run(c, w, events).vault.registry;
      var r := store.reconciliations[id];
      && r.execution in store.executions
      && var x := store.executions[r.execution];
      && x.permitHash in registry && x.permit in store.permits
      && var permit := store.permits[x.permit];
      && x.permitHash == TextOf(Get(permit, RecordHash))
      && registry[x.permitHash].executorId == x.executedBy
      && PermitHolds(c, store, x.permit, permit)
      && var evaluation := store.evaluations[EvaluationRef(x.permit, permit)];
      && evaluation.evidenceIds != []
      && (forall k :: k in evaluation.evidenceIds ==>
            && Ref(x.permit.tenant, k) in store.evidence
            && store.evidence[Ref(x.permit.tenant, k)].intentId == evaluation.intent.id)
      && RootsWereSeen(c, x.permit.tenant, evaluation.policyName, permit, x.seen)
      && ExecutionSaw(c, w, events, x)
      && r.verdict.statement.Some?
      && SaysMerged(r.verdict.statement.value, store.intents[evaluation.intent].effect, x.receipt)
      && x.receipt.confirmed
      && |Elements(r.verdict.signers)| >= c.threshold && Elements(r.verdict.signers) <= c.observers.Keys
      && forall o :: o in r.verdict.signers ==>
           Signed(c.env.suite, ObserverPanel(c, permit), r.attestations, o, r.verdict.statement.value)
  {
    hide Inv, Apply, RootsWereSeen, Genuine, RootsAre, EvaluationHolds, IsVerdict, Confirms, SaysMerged, EffectFields, Signed, TrustBound,
      ThreadSaw, ExecutionSaw;
    RunHasHistory(c, w, events);
    InitialInv(c, w);
    RunKeepsInv(c, w, events);
    var end := Run(c, w, events);
    ReconciliationOf(c, end, id);
    var r := end.store.reconciliations[id];
    var x := end.store.executions[r.execution];
    var permit := end.store.permits[x.permit];
    var evaluation := end.store.evaluations[EvaluationRef(x.permit, permit)];
    CitedEvidence(c, end.store, EvaluationRef(x.permit, permit), evaluation);
    ConfirmedStatement(r.verdict, x.receipt, permit, end.store.intents[evaluation.intent].effect);
    MetSignersSignedTheStatement(c.env.suite, ObserverPanel(c, permit), r.attestations, r.verdict);
  }

  // ----- what a reconciliation depends on

  lemma ReconciliationIs(c: Config, w: State, id: Ref)
    requires Inv(c, w) && id in w.store.reconciliations
    ensures ReconciliationHolds(c, w.store, w.store.reconciliations[id])
  {
    hide ChainHolds, LockHolds, ThreadsHold, CommitsHold, ReconciliationHolds;
  }

  /** In every run a reconciliation is confirmed exactly when its own verdict passes
      the test for RECONCILED, so two outcomes of one execution differ exactly when
      their verdicts differ on that test: earlier outcomes have no influence. */
  lemma OutcomesFollowTheirOwnVerdicts(c: Config, w: State, events: seq<Event>, id: Ref, other: Ref)
    requires c.env.suite.Valid() && Initial(c, w)
    requires id in Run(c, w, events).store.reconciliations && other in Run(c, w, events).store.reconciliations
    ensures
      var store := Run(c, w, events).store;
      var r, q := store.reconciliations[id], store.reconciliations[other];
      && r.execution in store.executions
      && var x := store.executions[r.execution];
      && x.permit in store.permits
      && var permit := store.permits[x.permit];
      && IsVerdict(c.env.suite, ObserverPanel(c, permit), r.attestations, r.verdict)
      && (r.confirmed <==> Confirms(r.verdict, x.receipt, permit))
      && (q.execution == r.execution ==>
            (r.confirmed == q.confirmed <==> Confirms(r.verdict, x.receipt, permit) == Confirms(q.verdict, x.receipt, permit)))
  {
    hide Inv, Apply, IsVerdict, Confirms, ObserverPanel;
    InitialInv(c, w);
    RunKeepsInv(c, w, events);
    ReconciliationIs(c, Run(c, w, events), id);
    ReconciliationIs(c, Run(c, w, events), other);
  }
}
