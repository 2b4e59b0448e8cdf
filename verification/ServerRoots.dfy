/**
 Writing the next trust checkpoint never fails its own checks: in every run the
 roots that are carried over, and those a reconciliation brings, are digests.
 */
module ServerRoots {
  import opened Hashing
  import opened Quorum
  import opened TrustState
  import opened Permits
  import opened Rbac
  import opened Server
  import opened ServerSafety
  import Sorting
  import Spending

  /** `int(value, 16)` reads every SHA-256 digest. */
  ghost predicate ReadsDigests(c: Config) {
    forall input :: c.env.hexInt(HexSha(c.env.suite, input))
  }

  /** The fields `next_trust_checkpoint` carries over are digests. */
  predicate CarriesDigests(c: Config, checkpoint: Record) {
    && DigestJson(c.env.hexInt, RootField(checkpoint, LedgerCheckpoint))
    && DigestJson(c.env.hexInt, RootField(checkpoint, Observation))
    && DigestJson(c.env.hexInt, Get(checkpoint, RecordHash))
  }

  predicate AllCarryDigests(c: Config, v: Vault) {
    forall k :: 0 <= k < |v.checkpoints| ==> CarriesDigests(c, v.checkpoints[k].checkpoint)
  }

  /** What `next_trust_checkpoint` passes to `create_trust_checkpoint`. */
  function NextCreated(c: Config, checkpoint: Record, registry: Registry, observation: Option<string>): Result<Record, CheckpointError> {
    CreateTrustCheckpoint(
      c.env.hexInt,
      c.env.suite,
      CheckpointRoots(
        RegistryRoot(c.env.suite, registry),
        RootField(checkpoint, LedgerCheckpoint),
        if observation.Some? then Str(observation.value) else RootField(checkpoint, Observation)),
      IntOf(Get(checkpoint, Epoch)) + 1,
      IntOf(Get(checkpoint, MonotonicCounter)) + 1,
      Get(checkpoint, RecordHash),
      c.env.checkpointKey,
      c.checkpointKeyId)
  }

  predicate DigestIfAny(c: Config, observation: Option<string>) {
    observation.Some? ==> DigestJson(c.env.hexInt, Str(observation.value))
  }

  lemma NextIsCreated(c: Config, k: nat, s: Stored, registry: Registry, observation: Option<string>)
    requires c.env.suite.Valid() && ReadsDigests(c) && IsCheckpoint(c, k, s)
    requires CarriesDigests(c, s.checkpoint) && DigestIfAny(c, observation)
    ensures NextCreated(c, s.checkpoint, registry, observation) == Ok(NextCheckpoint(c, s.checkpoint, registry, observation))
    ensures CarriesDigests(c, NextCheckpoint(c, s.checkpoint, registry, observation))
  {
    hide TrustCheckpoint, TrustRootOf, VerifySignature, RootField;
    NoDigestIsGenesis(c.env.suite, RegistryInput(c.env.suite, registry));
    var roots := CheckpointRoots(
      RegistryRoot(c.env.suite, registry),
      RootField(s.checkpoint, LedgerCheckpoint),
      if observation.Some? then Str(observation.value) else RootField(s.checkpoint, Observation));
    TrustCheckpointIsCreated(c.env.hexInt, c.env.suite, roots, k + 2, k + 1, Get(s.checkpoint, RecordHash), c.env.checkpointKey, c.checkpointKeyId);
    SignedCarriesHash(c, TrustCheckpoint(c.env.suite, roots, k + 2, k + 1, Get(s.checkpoint, RecordHash), c.env.checkpointKey, c.checkpointKeyId));
  }

  lemma SignedCarriesHash(c: Config, r: Record)
    requires c.env.suite.Valid() && ReadsDigests(c) && VerifySignature(c.env.suite, r, c.env.checkpointKey)
    ensures DigestJson(c.env.hexInt, Get(r, RecordHash))
  {
    NoDigestIsGenesis(c.env.suite, RecordInput(c.env.suite, r));
  }

  /** How an event can change the stored checkpoints. */
  predicate Advances(c: Config, w: State, e: Event)
    requires w.vault.checkpoints != []
  {
    && OnThread(e) && e.thread in w.threads
    && var thread := w.threads[e.thread];
    || (e.WriteCheckpoint? && thread.Called? && thread.task.checkpoint.Some?)
    || (e.AdvanceCheckpoint? && thread.ReconcileLocked?)
  }

  function Base(w: State, e: Event): Record
    requires w.vault.checkpoints != []
  {
    if e.WriteCheckpoint? && e.thread in w.threads && w.threads[e.thread].Called? && w.threads[e.thread].task.checkpoint.Some?
    then w.threads[e.thread].task.checkpoint.value
    else Last(w.vault).checkpoint
  }

  function Brought(w: State, e: Event): Option<string> {
    if e.AdvanceCheckpoint? && e.thread in w.threads && w.threads[e.thread].ReconcileLocked?
    then Some(w.threads[e.thread].observationRoot)
    else None
  }

  lemma CheckpointStep(c: Config, w: State, e: Event)
    requires w.vault.checkpoints != [] && Apply(c, w, e).vault.checkpoints != w.vault.checkpoints
    ensures Advances(c, w, e)
    ensures Apply(c, w, e).vault == Advance(c, w.vault, Base(w, e), Brought(w, e))
  {
    hide ApplyStore, ApplyReconcile, BeginRequest, Vets, AdmitTask, Spending.ReadTrust, Spending.VerifyTask, Spending.Spend, NextCheckpoint;
    if e.Reconcile? {
      ReconcileKeepsVault(c, w, e);
    } else if !OnThread(e) {
      StoreKeepsVault(c, w, e);
    }
  }

  lemma ReconcileKeepsVault(c: Config, w: State, e: Event)
    requires e.Reconcile?
    ensures ApplyReconcile(c, w, e).vault == w.vault
  {
    hide IsVerdict, Confirms, Observable, ObserverPanel;
  }

  lemma StoreKeepsVault(c: Config, w: State, e: Event)
    requires w.vault.checkpoints != []
    ensures ApplyStore(c, w, e).vault == w.vault
  {
    hide EvaluationOf, Minted;
  }

  lemma QuorumRootIsDigest(c: Config, p: Panel, attestations: seq<Record>, v: Verdict)
    requires c.env.suite.Valid() && ReadsDigests(c) && IsVerdict(c.env.suite, p, attestations, v)
    ensures DigestJson(c.env.hexInt, Str(v.observationRoot))
  {
    hide Leads, Chosen, Said, Voters, CountedHashes, TextList, CarriesStatement;
    var r: Record := map[
      Kind := Fixed(QuorumRootKind),
      AttestationHashes := TextList(Sorting.Sort(CountedHashes(c.env.suite, p, attestations))),
      Threshold := Int(p.threshold)];
    NoDigestIsGenesis(c.env.suite, RecordInput(c.env.suite, r));
  }

  lemma ReconciliationRoot(c: Config, w: State, id: Ref, root: string)
    requires c.env.suite.Valid() && ReadsDigests(c) && Inv(c, w) && BackedByQuorum(w.store, id, root)
    ensures DigestJson(c.env.hexInt, Str(root))
  {
    hide ChainHolds, LockHolds, ThreadsHold, CommitsHold, IsVerdict, Confirms, ObserverPanel;
    var r := w.store.reconciliations[id];
    assert ReconciliationHolds(c, w.store, r);
    QuorumRootIsDigest(c, ObserverPanel(c, w.store.permits[w.store.executions[r.execution].permit]), r.attestations, r.verdict);
  }

  lemma AdvanceFromLast(c: Config, w: State, e: Event)
    requires c.env.suite.Valid() && ReadsDigests(c) && Inv(c, w) && w.vault.checkpoints != [] && Advances(c, w, e)
    ensures Base(w, e) == Last(w.vault).checkpoint && DigestIfAny(c, Brought(w, e))
  {
    hide Inv, RequestHolds, TaskHolds, PassedChecks, ClaimIsNew, DigestJson, BackedByQuorum;
    ThreadOf(c, w, e.thread);
    if e.AdvanceCheckpoint? {
      ReconciliationRoot(c, w, w.threads[e.thread].record, w.threads[e.thread].observationRoot);
    }
  }

  lemma LastIs(c: Config, w: State)
    requires Inv(c, w)
    ensures w.vault.checkpoints != [] && IsCheckpoint(c, |w.vault.checkpoints| - 1, Last(w.vault))
  {
    hide LockHolds, StoreHolds, ThreadsHold, CommitsHold, IsCheckpoint;
    assert IsCheckpoint(c, |w.vault.checkpoints| - 1, w.vault.checkpoints[|w.vault.checkpoints| - 1]);
  }

  lemma StepCarriesDigests(c: Config, w: State, e: Event)
    requires c.env.suite.Valid() && ReadsDigests(c) && Inv(c, w) && w.vault.checkpoints != [] && AllCarryDigests(c, w.vault)
    ensures AllCarryDigests(c, Apply(c, w, e).vault)
  {
    hide Inv, Apply, Base, Brought, Advances, CarriesDigests, NextCheckpoint, IsCheckpoint, ReadsDigests, DigestIfAny;
    if Apply(c, w, e).vault.checkpoints != w.vault.checkpoints {
      CheckpointStep(c, w, e);
      AdvanceFromLast(c, w, e);
      LastIs(c, w);
      NextIsCreated(c, |w.vault.checkpoints| - 1, Last(w.vault), w.vault.registry, Brought(w, e));
    }
  }

  lemma {:induction false} RunCarriesDigests(c: Config, w: State, events: seq<Event>)
    requires c.env.suite.Valid() && ReadsDigests(c) && Initial(c, w) && AllCarryDigests(c, w.vault)
    ensures AllCarryDigests(c, Run(c, w, events).vault)
  {
    hide Inv, Apply, AllCarryDigests, ReadsDigests;
    InitialInv(c, w);
    if events != [] {
      var front := events[..|events| - 1];
      RunCarriesDigests(c, w, front);
      RunKeepsInv(c, w, front);
      StepCarriesDigests(c, Run(c, w, front), events[|events| - 1]);
    }
  }

  /** In every run, `next_trust_checkpoint` from the stored checkpoint passes all
      the checks of `create_trust_checkpoint`, so no execution or reconciliation
      fails at that point. */
  lemma NextCheckpointIsNeverRefused(c: Config, w: State, events: seq<Event>, observation: Option<string>)
    requires c.env.suite.Valid() && ReadsDigests(c) && Initial(c, w) && AllCarryDigests(c, w.vault) && DigestIfAny(c, observation)
    ensures
      var v := Run(c, w, events).vault;
      NextCreated(c, Last(v).checkpoint, v.registry, observation) == Ok(NextCheckpoint(c, Last(v).checkpoint, v.registry, observation))
  {
    hide Inv, Apply, Run, Initial, ReadsDigests, DigestIfAny, CarriesDigests, IsCheckpoint, NextCreated, NextCheckpoint;
    InitialInv(c, w);
    RunKeepsInv(c, w, events);
    RunCarriesDigests(c, w, events);
    var v := Run(c, w, events).vault;
    LastIs(c, Run(c, w, events));
    NextIsCreated(c, |v.checkpoints| - 1, Last(v), v.registry, observation);
  }
}
