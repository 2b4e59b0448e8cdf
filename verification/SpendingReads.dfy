/**
 When two trust-bound spends can share a checkpoint: exactly when both executors
 read the registry in the same state (proofrail/permit.py, proofrail/migration.py).
 A merge rechecks under the lock and so reads the state it commits on; a migration
 does not.
 */
module SpendingReads {
  import opened Hashing
  import opened TrustState
  import opened Permits
  import opened Spending

  /** The registry after the first `k` commits. */
  function RegistryAt(registry: Registry, commits: seq<Commit>, k: nat): Registry
    requires k <= |commits|
  {
    if k == |commits| then registry else commits[k].before
  }

  /** The checkpoint of a trust-bound task had this registry's replay root. */
  predicate ReadOn(env: Env, registry: Registry, t: Task) {
    TrustBound(t.permit) ==>
      t.checkpoint.Some? && RootField(t.checkpoint.value, ReplayRoot) == Str(RegistryRoot(env.suite, registry))
  }

  predicate CommitRead(env: Env, commits: seq<Commit>, i: nat)
    requires i < |commits|
  {
    commits[i].readAt <= i && ReadOn(env, commits[commits[i].readAt].before, commits[i].task)
  }

  predicate PcRead(env: Env, registry: Registry, commits: seq<Commit>, pc: Pc) {
    pc.Checked? || pc.Verified? ==> pc.readAt <= |commits| && ReadOn(env, RegistryAt(registry, commits, pc.readAt), pc.task)
  }

  /** Each executor past its reads remembers a state its checkpoint fitted. */
  predicate ReadsHold(env: Env, w: World) {
    && (forall i :: 0 <= i < |w.commits| ==> CommitRead(env, w.commits, i))
    && (forall e :: e in w.executors ==> PcRead(env, w.registry, w.commits, w.executors[e]))
  }

  lemma ReadTrustReads(env: Env, registry: Registry, t: Task)
    requires ReadTrust(env, registry, t).Ok?
    ensures ReadOn(env, registry, t)
  {
  }

  lemma MoveKeepsReads(env: Env, w: World, e: nat, pc: Pc)
    requires ReadsHold(env, w) && PcRead(env, w.registry, w.commits, pc)
    ensures ReadsHold(env, At(w, e, pc))
  {
    hide PcRead, CommitRead;
  }

  lemma CommitKeepsReads(env: Env, w: World, e: nat, t: Task, readAt: nat, after: Registry, pc: Pc)
    requires ReadsHold(env, w) && PcRead(env, w.registry, w.commits, Verified(t, readAt)) && !pc.Checked? && !pc.Verified?
    ensures ReadsHold(env, At(w, e, pc).(registry := after, commits := w.commits + [Commit(e, t, w.registry, readAt)]))
  {
    hide ReadOn;
    var more := w.commits + [Commit(e, t, w.registry, readAt)];
    forall i | 0 <= i < |more| ensures CommitRead(env, more, i) {
      if i < |w.commits| { assert CommitRead(env, w.commits, i); }
    }
    forall f | f in w.executors && f != e ensures PcRead(env, after, more, w.executors[f]) {
      assert PcRead(env, w.registry, w.commits, w.executors[f]);
    }
  }

  lemma ApplyKeepsReads(env: Env, w: World, event: Event)
    requires ReadsHold(env, w)
    ensures ReadsHold(env, Apply(env, w, event))
  {
    hide ReadsHold, ReadTrust, VerifyTask, Spend;
    var e := event.executor;
    if event.Begin? {
      if e !in w.executors { MoveKeepsReads(env, w, e, Started(event.task)); }
    } else if e in w.executors {
      PcOf(env, w, e);
      match (event, w.executors[e]) {
        case (ReadState(_), Started(t)) =>
          var values := ReadTrust(env, w.registry, t);
          if values.Ok? { ReadTrustReads(env, w.registry, t); }
          MoveKeepsReads(env, w, e, if values.Err? then Rejected(values.error) else Checked(t, values.value, |w.commits|));
        case (CheckPermit(_), Checked(t, values, readAt)) =>
          var problem := VerifyTask(env, t, values);
          MoveKeepsReads(env, w, e, if problem.Some? then Rejected(problem.value) else Verified(t, readAt));
        case (Transact(_), Verified(t, readAt)) =>
          var after := Spend(env, w.registry, t);
          if after.Ok? {
            CommitKeepsReads(env, w, e, t, readAt, after.value, Claimed(t, |w.commits|));
          } else {
            MoveKeepsReads(env, w, e, Rejected(after.error));
          }
        case (CallProvider(_), Claimed(_, _)) => MoveKeepsReads(env, w, e, Finished);
          CallsAreFree(env, At(w, e, Finished), Apply(env, w, event).calls);
        case (Crash(_), _) => MoveKeepsReads(env, w, e, Crashed);
        case _ =>
      }
    }
  }

  lemma PcOf(env: Env, w: World, e: nat)
    requires ReadsHold(env, w) && e in w.executors
    ensures PcRead(env, w.registry, w.commits, w.executors[e])
  {
    hide PcRead;
  }

  lemma CallsAreFree(env: Env, w: World, calls: seq<ProviderCall>)
    requires ReadsHold(env, w)
    ensures ReadsHold(env, w.(calls := calls))
  {
    hide PcRead, CommitRead;
  }

  lemma {:induction false} RunKeepsReads(env: Env, w: World, events: seq<Event>)
    requires Initial(w)
    ensures ReadsHold(env, Run(env, w, events))
  {
    hide Apply;
    if events != [] {
      RunKeepsReads(env, w, events[..|events| - 1]);
      ApplyKeepsReads(env, Run(env, w, events[..|events| - 1]), events[|events| - 1]);
    }
  }

  // ----- who shares a checkpoint

  lemma RegistriesDiffer(env: Env, registry: Registry, commits: seq<Commit>, i: nat, j: nat)
    requires ClaimsHold(env, registry, commits) && i < j < |commits|
    ensures commits[i].before != commits[j].before
  {
    assert CommitHolds(env, commits[i]) && Extends(After(commits[i]), commits[j].before);
    assert HashOf(commits[i].task) in commits[j].before;
  }

  lemma SameRootSamePlace(env: Env, registry: Registry, commits: seq<Commit>, i: nat, j: nat)
    requires env.suite.Valid() && CollisionFree(env.suite, RegistryInputs(env.suite, commits))
    requires ClaimsHold(env, registry, commits) && i < |commits| && j < |commits|
    ensures RegistryRoot(env.suite, commits[i].before) == RegistryRoot(env.suite, commits[j].before) <==> i == j
  {
    hide ClaimsHold, RegistryRoot, RegistryInput;
    if RegistryRoot(env.suite, commits[i].before) == RegistryRoot(env.suite, commits[j].before) {
      assert commits[i] in commits && commits[j] in commits;
      SameRootSameRegistry(env.suite, RegistryInputs(env.suite, commits), commits[i].before, commits[j].before);
      if i < j { RegistriesDiffer(env, registry, commits, i, j); }
      if j < i { RegistriesDiffer(env, registry, commits, j, i); }
    }
  }

  predicate TrustBoundCommit(c: Commit) {
    TrustBound(c.task.permit)
  }

  /** Over every run, two trust-bound spends have the same replay root exactly when
      their executors read the registry after the same number of commits. */
  lemma SharedRootsAreSharedReads(env: Env, w: World, events: seq<Event>, i: nat, j: nat)
    requires env.suite.Valid() && Initial(w)
    requires CollisionFree(env.suite, RegistryInputs(env.suite, Run(env, w, events).commits))
    requires i < |Run(env, w, events).commits| && j < |Run(env, w, events).commits|
    requires TrustBoundCommit(Run(env, w, events).commits[i]) && TrustBoundCommit(Run(env, w, events).commits[j])
    ensures
      var c, d := Run(env, w, events).commits[i], Run(env, w, events).commits[j];
      && c.task.checkpoint.Some? && d.task.checkpoint.Some?
      && c.readAt <= i && d.readAt <= j
      && (RootField(c.task.checkpoint.value, ReplayRoot) == RootField(d.task.checkpoint.value, ReplayRoot) <==> c.readAt == d.readAt)
  {
    hide Apply, ClaimsHold, RegistryRoot;
    InitialInv(env, w);
    RunKeepsInv(env, w, events);
    RunKeepsReads(env, w, events);
    var end := Run(env, w, events);
    assert CommitRead(env, end.commits, i) && CommitRead(env, end.commits, j);
    SameRootSamePlace(env, end.registry, end.commits, end.commits[i].readAt, end.commits[j].readAt);
  }

  /** A trust-bound merge reads the registry in the state it commits on: nothing
      was committed between its read and its transaction. */
  lemma MergeReadsWhereItCommits(env: Env, w: World, events: seq<Event>, i: nat)
    requires env.suite.Valid() && Initial(w)
    requires CollisionFree(env.suite, RegistryInputs(env.suite, Run(env, w, events).commits))
    requires i < |Run(env, w, events).commits| && TrustBoundMerge(Run(env, w, events).commits[i])
    ensures Run(env, w, events).commits[i].readAt == i
  {
    hide Apply, RegistryRoot;
    InitialInv(env, w);
    RunKeepsInv(env, w, events);
    RunKeepsReads(env, w, events);
    var end := Run(env, w, events);
    assert CommitRead(env, end.commits, i) && CommitHolds(env, end.commits[i]);
    SameRootSamePlace(env, end.registry, end.commits, end.commits[i].readAt, i);
  }

  /** So one spend per checkpoint fails in exactly one way: the later of two
      trust-bound spends with the same replay root is a migration that read no
      later than the state the earlier one read, and was overtaken by it. */
  lemma SecondSpendIsAnOvertakenMigration(env: Env, w: World, events: seq<Event>, i: nat, j: nat)
    requires env.suite.Valid() && Initial(w)
    requires CollisionFree(env.suite, RegistryInputs(env.suite, Run(env, w, events).commits))
    requires i < j < |Run(env, w, events).commits|
    requires TrustBoundCommit(Run(env, w, events).commits[i]) && TrustBoundCommit(Run(env, w, events).commits[j])
    ensures
      var c, d := Run(env, w, events).commits[i], Run(env, w, events).commits[j];
      && c.task.checkpoint.Some? && d.task.checkpoint.Some?
      && (RootField(c.task.checkpoint.value, ReplayRoot) == RootField(d.task.checkpoint.value, ReplayRoot) <==>
            d.task.MigrationTask? && d.readAt == c.readAt <= i)
      && (c.task.MergeTask? ==> c.readAt == i)
  {
    hide Apply, Initial;
    SharedRootsAreSharedReads(env, w, events, i, j);
    if Run(env, w, events).commits[j].task.MergeTask? { MergeReadsWhereItCommits(env, w, events, j); }
    if Run(env, w, events).commits[i].task.MergeTask? { MergeReadsWhereItCommits(env, w, events, i); }
  }

  // ----- a run in which two migrations spend one checkpoint

  /** A migration executed as its permit describes it. */
  function MigrationOf(env: Env, permit: Record, t: MigrationTerms, checkpoint: Record, executorId: string, now: int): Task {
    MigrationTask(permit, t.expected, Some(checkpoint), executorId, now, env.formatTime(now),
                  Str(t.instance), Str(t.schemaRoot), Str(SqlDigest(env.suite, t.sql)))
  }

  /** The migration a minted permit is for. */
  function MigrationSubjectOf(s: Suite, t: MigrationTerms): Subject {
    MigrationSubject(Str(t.databaseId), Str(t.instance), Str(t.schemaRoot), Str(t.resultRoot), Str(SqlDigest(s, t.sql)), Int(t.targetVersion))
  }

  /** The permit was minted for this migration, bound to this checkpoint, and is
      neither expired nor spent. */
  predicate Ready(env: Env, registry: Registry, checkpoint: Record, t: MigrationTerms, permit: Record, mintedAt: int, now: int, keyId: string) {
    && MintMigration(env, t, mintedAt, keyId) == Ok(permit)
    && t.trust == Some(TrustTerms(checkpoint))
    && now < ExpiryOf(env, t.expiry).value
    && HashRecord(env.suite, permit) !in registry
    && NonceFree(registry, t.nonce)
  }

  /** A checkpoint of this registry, as `create_trust_checkpoint` makes it. */
  function CheckpointOf(env: Env, registry: Registry, ledger: string, observation: string, epoch: nat, counter: nat, previous: Json, keyId: string): Record {
    TrustCheckpoint(env.suite, CheckpointRoots(RegistryRoot(env.suite, registry), Str(ledger), Str(observation)), epoch, counter, previous,
                    env.checkpointKey, keyId)
  }

  /** A registry, a checkpoint of it and the permits' mint parameters. */
  datatype Setting = Setting(registry: Registry, ledger: string, observation: string, epoch: nat, counter: nat, previous: Json,
                             keyId: string, mintedAt: int, now: int)

  function SettingCheckpoint(env: Env, x: Setting): Record {
    CheckpointOf(env, x.registry, x.ledger, x.observation, x.epoch, x.counter, x.previous, x.keyId)
  }

  lemma SettingCheckpointIs(env: Env, x: Setting)
    requires env.suite.Valid()
    ensures
      var checkpoint := SettingCheckpoint(env, x);
      && CheckpointIs(env.suite, checkpoint, RegistryRoot(env.suite, x.registry), x.epoch, x.counter, env.checkpointKey)
      && RootField(checkpoint, Observation) == Str(x.observation)
  {
    hide RegistryRoot, TrustRootOf, VerifySignature, TrustCheckpoint;
    var roots := CheckpointRoots(RegistryRoot(env.suite, x.registry), Str(x.ledger), Str(x.observation));
    CreatedCheckpointIs(env.suite, roots, x.epoch, x.counter, x.previous, env.checkpointKey, x.keyId);
    CheckpointFields(env.suite, roots, x.epoch, x.counter, x.previous, env.checkpointKey, x.keyId);
  }

  /** A ready migration passes its reads and its verification. */
  lemma ReadyPasses(env: Env, x: Setting, t: MigrationTerms, permit: Record, executorId: string)
    requires env.suite.Valid() && env.ClockValid()
    requires Ready(env, x.registry, SettingCheckpoint(env, x), t, permit, x.mintedAt, x.now, x.keyId)
    ensures
      var task := MigrationOf(env, permit, t, SettingCheckpoint(env, x), executorId, x.now);
      && HashOf(task) == HashRecord(env.suite, permit) && NonceOf(task) == t.nonce && TrustBound(permit)
      && ReadTrust(env, x.registry, task) == Ok(Some(ValuesOf(SettingCheckpoint(env, x), RegistryRoot(env.suite, x.registry))))
      && VerifyTask(env, task, Some(ValuesOf(SettingCheckpoint(env, x), RegistryRoot(env.suite, x.registry)))) == None
  {
    hide RegistryRoot, TrustRootOf, VerifySignature, SettingCheckpoint, MigrationSubject, MigrationEffect, Verify, TrustFits, TrustTerms,
      MintMigration, HashRecord;
    var checkpoint := SettingCheckpoint(env, x);
    var values := Some(ValuesOf(checkpoint, RegistryRoot(env.suite, x.registry)));
    SettingCheckpointIs(env, x);
    MintedMigrationHasTerms(env, t, x.mintedAt, x.keyId, permit);
    TrustTermsFit(env.suite, checkpoint, RegistryRoot(env.suite, x.registry), x.epoch, x.counter, env.checkpointKey);
    MintedMigrationFitsOnlyItsTerms(env, t, x.mintedAt, x.keyId, permit, t.expected, Str(t.databaseId), Str(t.instance), Str(t.schemaRoot),
                                    Str(t.resultRoot), Str(SqlDigest(env.suite, t.sql)), Int(t.targetVersion), x.now, values);
    MintedSubject(env, t, x.mintedAt, permit, checkpoint, executorId, x.now, x.keyId);
    SignedHash(env, permit);
    NonceIsLong(env, t, x.mintedAt, x.keyId, permit);
  }

  lemma NonceIsLong(env: Env, t: MigrationTerms, mintedAt: int, keyId: string, permit: Record)
    requires MintMigration(env, t, mintedAt, keyId) == Ok(permit)
    ensures t.nonce != ""
  {
    MigrationChecksPassed(env, t, mintedAt);
  }

  lemma SignedHash(env: Env, permit: Record)
    requires env.suite.Valid() && VerifySignature(env.suite, permit, env.verifierKey)
    ensures TextIn(permit, RecordHash) == HashRecord(env.suite, permit) != ""
  {
    NoDigestIsGenesis(env.suite, RecordInput(env.suite, permit));
  }

  lemma MintedSubject(env: Env, t: MigrationTerms, mintedAt: int, permit: Record, checkpoint: Record, executorId: string, now: int,
                      keyId: string)
    requires env.suite.Valid() && MintMigration(env, t, mintedAt, keyId) == Ok(permit)
    ensures SubjectOf(MigrationOf(env, permit, t, checkpoint, executorId, now)) == MigrationSubjectOf(env.suite, t)
  {
    hide SignRecord, VerifySignature, MigrationProblem, SqlDigest, RootsRecordOf;
    MintedMigrationHasTerms(env, t, mintedAt, keyId, permit);
  }

  /** Two executors take their steps in turn. */
  function InTurn(a: Task, b: Task): seq<Event> {
    [] + [Begin(0, a)] + [Begin(1, b)] + [ReadState(0)] + [ReadState(1)] + [CheckPermit(0)] + [CheckPermit(1)] + [Transact(0)] + [Transact(1)]
  }

  /** Both tasks pass on this registry and claim different permits and nonces. */
  predicate BothPass(env: Env, registry: Registry, a: Task, b: Task, x: Option<TrustValues>, y: Option<TrustValues>) {
    && ReadTrust(env, registry, a) == Ok(x) && VerifyTask(env, a, x) == None
    && ReadTrust(env, registry, b) == Ok(y) && VerifyTask(env, b, y) == None
    && a.MigrationTask? && b.MigrationTask?
    && HashOf(a) !in registry && NonceFree(registry, NonceOf(a))
    && HashOf(b) !in registry && NonceFree(registry, NonceOf(b))
    && HashOf(a) != HashOf(b) && NonceOf(a) != NonceOf(b)
  }

  lemma BeginStep(env: Env, w: World, e: nat, t: Task)
    requires e !in w.executors
    ensures Apply(env, w, Begin(e, t)) == At(w, e, Started(t))
  {
  }

  lemma TransactStep(env: Env, w: World, e: nat, t: Task, readAt: nat)
    requires e in w.executors && w.executors[e] == Verified(t, readAt) && Spend(env, w.registry, t).Ok?
    ensures
      var after := Apply(env, w, Transact(e));
      && after.registry == Spend(env, w.registry, t).value
      && after.commits == w.commits + [Commit(e, t, w.registry, readAt)]
      && after.executors == w.executors[e := Claimed(t, |w.commits|)]
  {
    hide Spend;
  }

  lemma BothReach(env: Env, registry: Registry, a: Task, b: Task, x: Option<TrustValues>, y: Option<TrustValues>)
    requires BothPass(env, registry, a, b, x, y)
    ensures
      var w := Run(env, AloneFrom(registry), [] + [Begin(0, a)] + [Begin(1, b)] + [ReadState(0)] + [ReadState(1)] + [CheckPermit(0)] + [CheckPermit(1)]);
      w.registry == registry && w.commits == [] && w.executors == map[0 := Verified(a, 0), 1 := Verified(b, 0)]
  {
    hide Apply, Run, ReadTrust, VerifyTask;
    var w := AloneFrom(registry);
    var e1 := [] + [Begin(0, a)];
    var e2 := e1 + [Begin(1, b)];
    var e3 := e2 + [ReadState(0)];
    var e4 := e3 + [ReadState(1)];
    var e5 := e4 + [CheckPermit(0)];
    RunNothing(env, w);
    RunOneMore(env, w, [], Begin(0, a));
    BeginStep(env, w, 0, a);
    RunOneMore(env, w, e1, Begin(1, b));
    BeginStep(env, Run(env, w, e1), 1, b);
    RunOneMore(env, w, e2, ReadState(0));
    ReadStep(env, Run(env, w, e2), 0, a);
    RunOneMore(env, w, e3, ReadState(1));
    ReadStep(env, Run(env, w, e3), 1, b);
    RunOneMore(env, w, e4, CheckPermit(0));
    CheckStep(env, Run(env, w, e4), 0, a, x, 0);
    RunOneMore(env, w, e5, CheckPermit(1));
    CheckStep(env, Run(env, w, e5), 1, b, y, 0);
  }

  lemma RunNothing(env: Env, w: World)
    ensures Run(env, w, []) == w
  {
  }

  lemma BothCommit(env: Env, registry: Registry, a: Task, b: Task, x: Option<TrustValues>, y: Option<TrustValues>)
    requires BothPass(env, registry, a, b, x, y)
    ensures
      var commits := Run(env, AloneFrom(registry), InTurn(a, b)).commits;
      |commits| == 2 && commits[0].task == a && commits[1].task == b && commits[0].readAt == 0 && commits[1].readAt == 0
  {
    hide Apply, Run, ReadTrust, VerifyTask;
    var w := AloneFrom(registry);
    var e6 := [] + [Begin(0, a)] + [Begin(1, b)] + [ReadState(0)] + [ReadState(1)] + [CheckPermit(0)] + [CheckPermit(1)];
    BothReach(env, registry, a, b, x, y);
    RunOneMore(env, w, e6, Transact(0));
    TransactStep(env, Run(env, w, e6), 0, a, 0);
    RunOneMore(env, w, e6 + [Transact(0)], Transact(1));
    TransactStep(env, Run(env, w, e6 + [Transact(0)]), 1, b, 0);
  }

  /** A run from an initial world in which two trust-bound migrations on one
      checkpoint both commit: any two migration permits minted against the same
      checkpoint of the registry, with different nonces, executed in turn. */
  lemma TwoMigrationsSpendOneCheckpoint(env: Env, x: Setting, t: MigrationTerms, u: MigrationTerms, p: Record, q: Record)
    requires env.suite.Valid() && env.ClockValid() && NoncesUnique(x.registry)
    requires Ready(env, x.registry, SettingCheckpoint(env, x), t, p, x.mintedAt, x.now, x.keyId)
    requires Ready(env, x.registry, SettingCheckpoint(env, x), u, q, x.mintedAt, x.now, x.keyId)
    requires t.nonce != u.nonce && CollisionFree(env.suite, {RecordInput(env.suite, p), RecordInput(env.suite, q)})
    ensures
      var a := MigrationOf(env, p, t, SettingCheckpoint(env, x), "a", x.now);
      var b := MigrationOf(env, q, u, SettingCheckpoint(env, x), "b", x.now);
      var w, commits := AloneFrom(x.registry), Run(env, AloneFrom(x.registry), InTurn(a, b)).commits;
      && Initial(w) && |commits| == 2
      && TrustBoundCommit(commits[0]) && TrustBoundCommit(commits[1])
      && commits[0].task.MigrationTask? && commits[1].task.MigrationTask?
      && commits[0].task.permit == p && commits[1].task.permit == q
      && commits[0].task.checkpoint == commits[1].task.checkpoint == Some(SettingCheckpoint(env, x))
  {
    hide Ready, Run, ReadTrust, VerifyTask, SettingCheckpoint, RegistryRoot, TrustBound, HashRecord;
    var a := MigrationOf(env, p, t, SettingCheckpoint(env, x), "a", x.now);
    var b := MigrationOf(env, q, u, SettingCheckpoint(env, x), "b", x.now);
    var values := Some(ValuesOf(SettingCheckpoint(env, x), RegistryRoot(env.suite, x.registry)));
    ReadyPasses(env, x, t, p, "a");
    ReadyPasses(env, x, u, q, "b");
    ReadyIsFree(env, x, t, p);
    ReadyIsFree(env, x, u, q);
    DifferentNonceDifferentHash(env, x, t, u, p, q);
    BothCommit(env, x.registry, a, b, values, values);
  }

  lemma ReadyIsFree(env: Env, x: Setting, t: MigrationTerms, permit: Record)
    requires Ready(env, x.registry, SettingCheckpoint(env, x), t, permit, x.mintedAt, x.now, x.keyId)
    ensures HashRecord(env.suite, permit) !in x.registry && NonceFree(x.registry, t.nonce)
  {
  }

  lemma DifferentNonceDifferentHash(env: Env, x: Setting, t: MigrationTerms, u: MigrationTerms, p: Record, q: Record)
    requires env.suite.Valid()
    requires Ready(env, x.registry, SettingCheckpoint(env, x), t, p, x.mintedAt, x.now, x.keyId)
    requires Ready(env, x.registry, SettingCheckpoint(env, x), u, q, x.mintedAt, x.now, x.keyId)
    requires t.nonce != u.nonce && CollisionFree(env.suite, {RecordInput(env.suite, p), RecordInput(env.suite, q)})
    ensures HashRecord(env.suite, p) != HashRecord(env.suite, q)
  {
    hide MintMigration, SettingCheckpoint, MigrationScope, MigrationBody, TrustTerms;
    MintedMigrationHasTerms(env, t, x.mintedAt, x.keyId, p);
    MintedMigrationHasTerms(env, u, x.mintedAt, x.keyId, q);
    if HashRecord(env.suite, p) == HashRecord(env.suite, q) {
      SameDigestSameInput(env.suite, {RecordInput(env.suite, p), RecordInput(env.suite, q)}, RecordInput(env.suite, p), RecordInput(env.suite, q));
      ContentNonce(p);
      ContentNonce(q);
    }
  }

  lemma ContentNonce(a: Record)
    ensures Get(Content(a), Nonce) == Get(a, Nonce)
  {
  }
}
