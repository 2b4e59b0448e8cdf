/**
 Permit spending as an interleaved protocol: `consume_permit` and
 `execute_github_merge` of proofrail/permit.py, and `_trust_values`,
 `_claim_permit` and `execute_database_migration` of proofrail/migration.py, over
 one shared replay registry.

 Any number of executors take the steps below in any order; each committed
 transaction is one step, and the reads before it are steps of their own.
 Either kind of executor may crash, or see its adapter raise, at any point.
 */
module Spending {
  import opened Hashing
  import opened TrustState
  import opened Permits

  /** One call of `execute_github_merge` or `execute_database_migration`.
      `observed...` is what the migration adapter's first `observe` returned. */
  datatype Task =
    | MergeTask(permit: Record, expected: Expected, checkpoint: Option<Record>, executorId: string, now: int, at: string)
    | MigrationTask(permit: Record, expected: Expected, checkpoint: Option<Record>, executorId: string, now: int, at: string,
                    observedInstance: Json, observedSchemaRoot: Json, sqlDigest: Json)

  function EffectField(permit: Record, field: Field): Json {
    Get(FieldsOf(Get(permit, Effect)), field)
  }

  /** The effect is taken from the permit itself, except what was observed. */
  function SubjectOf(t: Task): Subject {
    match t
    case MergeTask(p, _, _, _, _, _) =>
      MergeSubject(EffectField(p, Repository), EffectField(p, PullNumber), EffectField(p, ExpectedHeadSha), EffectField(p, MergeMethod))
    case MigrationTask(p, _, _, _, _, _, instance, schemaRoot, digest) =>
      MigrationSubject(EffectField(p, DatabaseId), instance, schemaRoot, EffectField(p, ExpectedResultSchemaRoot), digest,
                       EffectField(p, TargetVersion))
  }

  predicate TrustBound(permit: Record) {
    Get(permit, Trust) != Null
  }

  function TextIn(permit: Record, field: Field): string {
    TextOf(Get(permit, field))
  }

  // ----- the steps

  /** The first reads of `consume_permit`, and `_trust_values`. */
  function ReadTrust(env: Env, registry: Registry, t: Task): Result<Option<TrustValues>, PermitCode> {
    if !TrustBound(t.permit) then Ok(None)
    else if t.checkpoint.None? then Err(TrustCheckpointMissing)
    else
      var checkpoint := t.checkpoint.value;
      if !TrustCheckpointValid(env.suite, checkpoint, registry, env.checkpointKey) then
        if ReplayRootMismatch(env.suite, checkpoint, registry) then Err(Changed(ReplayRoot)) else Err(TrustCheckpointInvalid)
      else if TextIn(t.permit, RecordHash) == "" then Err(Missing(RecordHash))
      else if TextIn(t.permit, RecordHash) in registry then Err(PermitReplayed)
      else Ok(Some(ValuesOf(checkpoint, RegistryRoot(env.suite, registry))))
  }

  /** Verification, and the two `_required_text` reads that follow it. */
  function VerifyTask(env: Env, t: Task, values: Option<TrustValues>): Option<PermitCode> {
    FirstOf(Verify(env, t.permit, SubjectOf(t), t.expected, t.now, values),
    FirstOf(Permits.Unless(TextIn(t.permit, RecordHash) != "", Missing(RecordHash)),
            Permits.Unless(TextIn(t.permit, Nonce) != "", Missing(Nonce))))
  }

  /** The transaction: `BEGIN IMMEDIATE`, for a trust-bound merge the recheck,
      the insert under two uniqueness constraints, `COMMIT` or `ROLLBACK`. */
  function Spend(env: Env, registry: Registry, t: Task): Result<Registry, PermitCode> {
    if t.MergeTask? && TrustBound(t.permit)
      && !(t.checkpoint.Some? && TrustCheckpointValid(env.suite, t.checkpoint.value, registry, env.checkpointKey)) then
      Err(Changed(ReplayRoot))
    else if TextIn(t.permit, RecordHash) in registry || !NonceFree(registry, TextIn(t.permit, Nonce)) then
      Err(PermitReplayed)
    else
      Ok(registry[TextIn(t.permit, RecordHash) := Claim(TextIn(t.permit, Nonce), t.executorId, t.at)])
  }

  // ----- the machine

  datatype Pc =
    | Started(task: Task)
    | Checked(task: Task, values: Option<TrustValues>, readAt: nat)  // the number of commits when it read
    | Verified(task: Task, readAt: nat)
    | Claimed(task: Task, claim: nat)  // the position of its claim in commit order
    | Finished
    | Rejected(code: PermitCode)
    | Crashed

  /** A committed claim, with the registry its transaction found and the number of
      commits its executor had read after. */
  datatype Commit = Commit(executor: nat, task: Task, before: Registry, readAt: nat)

  /** One call of the provider adapter's `execute`. */
  datatype ProviderCall = ProviderCall(executor: nat, permit: Record, claim: nat)

  datatype World = World(registry: Registry, executors: map<nat, Pc>, commits: seq<Commit>, calls: seq<ProviderCall>)

  datatype Event =
    | Begin(executor: nat, task: Task)
    | ReadState(executor: nat)
    | CheckPermit(executor: nat)
    | Transact(executor: nat)
    | CallProvider(executor: nat)
    | Crash(executor: nat)

  function At(w: World, e: nat, pc: Pc): World {
    w.(executors := w.executors[e := pc])
  }

  /** What an event does; one that is not enabled does nothing. */
  function Apply(env: Env, w: World, event: Event): World {
    var e := event.executor;
    if event.Begin? then
      if e in w.executors then w else At(w, e, Started(event.task))
    else if e !in w.executors then w
    else
      match (event, w.executors[e])
      case (ReadState(_), Started(t)) =>
        (match ReadTrust(env, w.registry, t)
         case Err(code) => At(w, e, Rejected(code))
         case Ok(values) => At(w, e, Checked(t, values, |w.commits|)))
      case (CheckPermit(_), Checked(t, values, readAt)) =>
        (match VerifyTask(env, t, values)
         case Some(code) => At(w, e, Rejected(code))
         case None => At(w, e, Verified(t, readAt)))
      case (Transact(_), Verified(t, readAt)) =>
        (match Spend(env, w.registry, t)
         case Err(code) => At(w, e, Rejected(code))
         case Ok(registry) => At(w, e, Claimed(t, |w.commits|)).(
           registry := registry,
           commits := w.commits + [Commit(e, t, w.registry, readAt)]))
      case (CallProvider(_), Claimed(t, claim)) =>
        At(w, e, Finished).(calls := w.calls + [ProviderCall(e, t.permit, claim)])
      case (Crash(_), _) => At(w, e, Crashed)
      case _ => w
  }

  function Run(env: Env, w: World, events: seq<Event>): World {
    if events == [] then w else Apply(env, Run(env, w, events[..|events| - 1]), events[|events| - 1])
  }

  // ----- what every step keeps

  predicate Extends(a: Registry, b: Registry) {
    forall h :: h in a ==> h in b && b[h] == a[h]
  }

  function HashOf(t: Task): string { TextIn(t.permit, RecordHash) }

  function NonceOf(t: Task): string { TextIn(t.permit, Nonce) }

  function After(c: Commit): Registry {
    c.before[HashOf(c.task) := Claim(NonceOf(c.task), c.task.executorId, c.task.at)]
  }

  /** Signed by the checkpoint key, with a trust root over its own roots. */
  predicate SignedCheckpoint(env: Env, checkpoint: Record) {
    && Genuine(env.suite, checkpoint, env.checkpointKey)
    && Get(checkpoint, Kind) == Fixed(TrustCheckpointKind)
    && Get(checkpoint, Roots).Obj?
    && Get(checkpoint, TrustRoot) == Str(TrustRootOf(env.suite, Get(checkpoint, Roots).fields))
    && RootField(checkpoint, ReplayRoot).Str?
  }

  /** The values verification takes from a checkpoint. */
  function ValuesIn(checkpoint: Record): TrustValues {
    ValuesOf(checkpoint, TextOf(RootField(checkpoint, ReplayRoot)))
  }

  /** What was read for a trust-bound permit comes from its signed checkpoint. */
  predicate ReadsHold(env: Env, t: Task, values: Option<TrustValues>) {
    TrustBound(t.permit) ==>
      t.checkpoint.Some? && SignedCheckpoint(env, t.checkpoint.value) && values == Some(ValuesIn(t.checkpoint.value))
  }

  /** The permit is in force for this task, and, if it is trust-bound, its terms fit
      the signed checkpoint it is used with. */
  predicate Vouched(env: Env, t: Task) {
    && InForce(env, t.permit, SubjectOf(t), t.expected, t.now)
    && (TrustBound(t.permit) ==>
          && t.checkpoint.Some? && SignedCheckpoint(env, t.checkpoint.value)
          && Get(t.permit, Trust).Obj? && TrustFits(Get(t.permit, Trust).fields, ValuesIn(t.checkpoint.value)))
  }

  lemma ReadTrustHolds(env: Env, registry: Registry, t: Task)
    requires ReadTrust(env, registry, t).Ok?
    ensures ReadsHold(env, t, ReadTrust(env, registry, t).value)
  {
    hide RegistryRoot, TrustRootOf;
    if TrustBound(t.permit) {
      VerifiedIsGenuine(env.suite, t.checkpoint.value, env.checkpointKey);
    }
  }

  lemma VerifiedIsVouched(env: Env, t: Task, values: Option<TrustValues>)
    requires ReadsHold(env, t, values) && VerifyTask(env, t, values) == None
    ensures Vouched(env, t)
  {
    hide InForce, Verify, TrustFits, SignedCheckpoint, ValuesIn;
    VerifyAcceptsExactly(env, t.permit, SubjectOf(t), t.expected, t.now, values);
  }

  lemma VouchedNamesItsContent(env: Env, t: Task)
    requires Vouched(env, t)
    ensures Get(t.permit, RecordHash) == Str(HashRecord(env.suite, t.permit))
  {
    hide SignedCheckpoint, TrustFits;
  }

  predicate Rechecked(env: Env, c: Commit) {
    c.task.MergeTask? && TrustBound(c.task.permit) ==>
      c.task.checkpoint.Some? && TrustCheckpointValid(env.suite, c.task.checkpoint.value, c.before, env.checkpointKey)
  }

  predicate CommitHolds(env: Env, c: Commit) {
    && HashOf(c.task) !in c.before
    && NonceFree(c.before, NonceOf(c.task))
    && Vouched(env, c.task)
    && Rechecked(env, c)
  }

  /** Claims are only added, each to a registry that lacked its hash and nonce. */
  ghost predicate ClaimsHold(env: Env, registry: Registry, commits: seq<Commit>) {
    && NoncesUnique(registry)
    && (forall i :: 0 <= i < |commits| ==> CommitHolds(env, commits[i]) && Extends(After(commits[i]), registry))
    && (forall i, j :: 0 <= i < j < |commits| ==> Extends(After(commits[i]), commits[j].before))
  }

  predicate PastCommit(executors: map<nat, Pc>, e: nat) {
    e in executors && (executors[e].Claimed? || executors[e].Finished? || executors[e].Crashed?)
  }

  predicate PastCall(executors: map<nat, Pc>, e: nat) {
    e in executors && (executors[e].Finished? || executors[e].Crashed?)
  }

  predicate PcHolds(env: Env, commits: seq<Commit>, e: nat, pc: Pc) {
    match pc
    case Checked(t, values, _) => ReadsHold(env, t, values)
    case Verified(t, _) => Vouched(env, t)
    case Claimed(t, claim) => claim < |commits| && commits[claim].executor == e && commits[claim].task == t
    case _ => true
  }

  predicate CallHolds(commits: seq<Commit>, c: ProviderCall) {
    c.claim < |commits| && commits[c.claim].executor == c.executor && commits[c.claim].task.permit == c.permit
  }

  /** Each executor commits at most once, and calls the provider at most once,
      for the claim it committed. */
  ghost predicate ControlHolds(env: Env, executors: map<nat, Pc>, commits: seq<Commit>, calls: seq<ProviderCall>) {
    && (forall e :: e in executors ==> PcHolds(env, commits, e, executors[e]))
    && (forall i :: 0 <= i < |commits| ==> PastCommit(executors, commits[i].executor))
    && (forall i, j :: 0 <= i < j < |commits| ==> commits[i].executor != commits[j].executor)
    && (forall k :: 0 <= k < |calls| ==> CallHolds(commits, calls[k]) && PastCall(executors, calls[k].executor))
    && (forall k, l :: 0 <= k < l < |calls| ==> calls[k].executor != calls[l].executor)
  }

  ghost predicate Inv(env: Env, w: World) {
    ClaimsHold(env, w.registry, w.commits) && ControlHolds(env, w.executors, w.commits, w.calls)
  }

  /** No executor has started; earlier claims may fill the registry. */
  predicate Initial(w: World) {
    NoncesUnique(w.registry) && w.executors == map[] && w.commits == [] && w.calls == []
  }

  lemma SpendAddsOneClaim(env: Env, registry: Registry, t: Task)
    requires NoncesUnique(registry) && Spend(env, registry, t).Ok?
    ensures
      var after := Spend(env, registry, t).value;
      NoncesUnique(after) && Extends(registry, after) && after == After(Commit(0, t, registry, 0))
  {
  }

  lemma OneMoreClaim(env: Env, registry: Registry, commits: seq<Commit>, e: nat, t: Task, readAt: nat)
    requires ClaimsHold(env, registry, commits) && Vouched(env, t) && Spend(env, registry, t).Ok?
    ensures ClaimsHold(env, Spend(env, registry, t).value, commits + [Commit(e, t, registry, readAt)])
  {
    hide Vouched;
    var after, more := Spend(env, registry, t).value, commits + [Commit(e, t, registry, readAt)];
    SpendAddsOneClaim(env, registry, t);
    forall i | 0 <= i < |more| ensures CommitHolds(env, more[i]) && Extends(After(more[i]), after) {
      if i < |commits| { assert Extends(After(commits[i]), registry); }
    }
  }

  lemma OneMoreCommitter(env: Env, executors: map<nat, Pc>, commits: seq<Commit>, calls: seq<ProviderCall>, c: Commit)
    requires ControlHolds(env, executors, commits, calls)
    requires c.executor in executors && executors[c.executor] == Verified(c.task, c.readAt)
    ensures ControlHolds(env, executors[c.executor := Claimed(c.task, |commits|)], commits + [c], calls)
  {
    hide Vouched, ReadsHold;
  }

  lemma OneMoreCall(env: Env, executors: map<nat, Pc>, commits: seq<Commit>, calls: seq<ProviderCall>, e: nat)
    requires ControlHolds(env, executors, commits, calls) && e in executors && executors[e].Claimed?
    ensures ControlHolds(env, executors[e := Finished], commits,
                         calls + [ProviderCall(e, executors[e].task.permit, executors[e].claim)])
  {
    hide Vouched, ReadsHold;
  }

  lemma MoveKeepsControl(env: Env, executors: map<nat, Pc>, commits: seq<Commit>, calls: seq<ProviderCall>, e: nat, pc: Pc)
    requires ControlHolds(env, executors, commits, calls)
    requires e !in executors || executors[e].Started? || executors[e].Checked? || executors[e].Verified? || pc.Crashed?
    requires pc.Started? || pc.Checked? || pc.Verified? || pc.Rejected? || pc.Crashed?
    requires PcHolds(env, commits, e, pc)
    ensures ControlHolds(env, executors[e := pc], commits, calls)
  {
    hide Vouched, ReadsHold;
  }

  lemma ApplyKeepsInv(env: Env, w: World, event: Event)
    requires Inv(env, w)
    ensures Inv(env, Apply(env, w, event))
  {
    hide Vouched, ReadsHold;
    var e := event.executor;
    if event.Begin? {
      if e !in w.executors { MoveKeepsControl(env, w.executors, w.commits, w.calls, e, Started(event.task)); }
    } else if e in w.executors {
      match (event, w.executors[e]) {
        case (ReadState(_), Started(t)) =>
          var r := ReadTrust(env, w.registry, t);
          if r.Ok? { ReadTrustHolds(env, w.registry, t); }
          MoveKeepsControl(env, w.executors, w.commits, w.calls, e, if r.Err? then Rejected(r.error) else Checked(t, r.value, |w.commits|));
        case (CheckPermit(_), Checked(t, values, readAt)) =>
          var code := VerifyTask(env, t, values);
          if code == None { VerifiedIsVouched(env, t, values); }
          MoveKeepsControl(env, w.executors, w.commits, w.calls, e, if code.Some? then Rejected(code.value) else Verified(t, readAt));
        case (Transact(_), Verified(t, readAt)) =>
          var r := Spend(env, w.registry, t);
          if r.Ok? {
            OneMoreClaim(env, w.registry, w.commits, e, t, readAt);
            OneMoreCommitter(env, w.executors, w.commits, w.calls, Commit(e, t, w.registry, readAt));
          } else {
            MoveKeepsControl(env, w.executors, w.commits, w.calls, e, Rejected(r.error));
          }
        case (CallProvider(_), Claimed(_, _)) => OneMoreCall(env, w.executors, w.commits, w.calls, e);
        case (Crash(_), _) => MoveKeepsControl(env, w.executors, w.commits, w.calls, e, Crashed);
        case _ =>
      }
    }
  }

  lemma {:induction false} RunKeepsInv(env: Env, w: World, events: seq<Event>)
    requires Inv(env, w)
    ensures Inv(env, Run(env, w, events))
  {
    if events != [] {
      RunKeepsInv(env, w, events[..|events| - 1]);
      ApplyKeepsInv(env, Run(env, w, events[..|events| - 1]), events[|events| - 1]);
    }
  }

  lemma InitialInv(env: Env, w: World)
    requires Initial(w)
    ensures Inv(env, w)
  {
  }

  // ----- single use

  /** The provider is called only for a claim that is already committed. */
  lemma CallFollowsItsClaim(env: Env, w: World, event: Event)
    requires Inv(env, w) && |Apply(env, w, event).calls| > |w.calls|
    ensures
      var calls := Apply(env, w, event).calls;
      && calls == w.calls + [calls[|w.calls|]]
      && var permit := calls[|w.calls|].permit;
      && TextIn(permit, RecordHash) in w.registry
      && w.registry[TextIn(permit, RecordHash)].nonce == TextIn(permit, Nonce)
  {
    var e := event.executor;
    assert PcHolds(env, w.commits, e, w.executors[e]);
    assert Extends(After(w.commits[w.executors[e].claim]), w.registry);
  }

  lemma CommitsDiffer(env: Env, registry: Registry, commits: seq<Commit>, i: nat, j: nat)
    requires ClaimsHold(env, registry, commits) && i < j < |commits|
    ensures HashOf(commits[i].task) != HashOf(commits[j].task)
    ensures NonceOf(commits[i].task) != NonceOf(commits[j].task)
    ensures Content(commits[i].task.permit) != Content(commits[j].task.permit)
  {
    var c, d := commits[i], commits[j];
    assert Extends(After(c), d.before) && CommitHolds(env, d) && CommitHolds(env, c);
    assert HashOf(c.task) in d.before;
  }

  /** In every run, whatever crashes and interleaves, each committed claim is of a
      permit that carries the verifier's signature over its own content, was issued
      by a verifier or governor, had not expired, and names these roots and this
      approval; a merge permit for a merge, and a migration permit for the database
      instance, schema and SQL that were observed. */
  lemma CommittedPermitsAreInForce(env: Env, w: World, events: seq<Event>, i: nat)
    requires Initial(w) && i < |Run(env, w, events).commits|
    ensures
      var t := Run(env, w, events).commits[i].task;
      && Genuine(env.suite, t.permit, env.verifierKey)
      && IssuedByVerifierOrGovernor(t.permit)
      && Get(t.permit, State) == Fixed(PermittedState)
      && Unexpired(env, t.permit, t.now)
      && Get(t.permit, Roots).Obj? && RootsAre(Get(t.permit, Roots).fields, t.expected)
      && Get(t.permit, ApprovalDigest) == Str(t.expected.approval)
      && (t.MergeTask? ==> Get(t.permit, Kind) == Fixed(PermitKind) && EffectField(t.permit, ActionType) == Fixed(GithubMerge))
      && (t.MigrationTask? ==>
            && Get(t.permit, Kind) == Fixed(MigrationPermitKind)
            && EffectField(t.permit, ActionType) == Fixed(DatabaseMigration)
            && EffectField(t.permit, DatabaseInstance) == t.observedInstance
            && EffectField(t.permit, ExpectedSchemaRoot) == t.observedSchemaRoot
            && EffectField(t.permit, MigrationDigest) == t.sqlDigest)
  {
    hide Genuine, IssuedByVerifierOrGovernor, Unexpired, RootsAre, Extends;
    InitialInv(env, w);
    RunKeepsInv(env, w, events);
    var c := Run(env, w, events).commits[i];
    assert CommitHolds(env, c);
    InForceNamesEffect(env, c.task);
  }

  lemma InForceNamesEffect(env: Env, t: Task)
    requires InForce(env, t.permit, SubjectOf(t), t.expected, t.now)
    ensures t.MergeTask? ==> Get(t.permit, Kind) == Fixed(PermitKind) && EffectField(t.permit, ActionType) == Fixed(GithubMerge)
    ensures t.MigrationTask? ==>
      && Get(t.permit, Kind) == Fixed(MigrationPermitKind)
      && EffectField(t.permit, ActionType) == Fixed(DatabaseMigration)
      && EffectField(t.permit, DatabaseInstance) == t.observedInstance
      && EffectField(t.permit, ExpectedSchemaRoot) == t.observedSchemaRoot
      && EffectField(t.permit, MigrationDigest) == t.sqlDigest
  {
    hide Genuine, IssuedByVerifierOrGovernor, Unexpired, RootsAre;
    var effect := SubjectOf(t).effect;
    if t.MergeTask? {
      assert Matches(FieldsOf(Get(t.permit, Effect)), effect[4]);
    } else {
      assert Matches(FieldsOf(Get(t.permit, Effect)), effect[0]);
      assert Matches(FieldsOf(Get(t.permit, Effect)), effect[2]);
      assert Matches(FieldsOf(Get(t.permit, Effect)), effect[3]);
      assert Matches(FieldsOf(Get(t.permit, Effect)), effect[5]);
    }
  }

  /** In every run a trust-bound permit is spent only under a checkpoint that the
      checkpoint key signed and whose epoch, counter, replay, record hash and
      observation root fit the permit's terms; for a merge it also fits the
      registry that the transaction found. */
  lemma TrustBoundSpendsFitTheirCheckpoint(env: Env, w: World, events: seq<Event>, i: nat)
    requires Initial(w) && i < |Run(env, w, events).commits|
    requires TrustBound(Run(env, w, events).commits[i].task.permit)
    ensures
      var c := Run(env, w, events).commits[i];
      && c.task.checkpoint.Some?
      && var checkpoint := c.task.checkpoint.value;
      && SignedCheckpoint(env, checkpoint)
      && Get(c.task.permit, Trust).Obj? && TrustFits(Get(c.task.permit, Trust).fields, ValuesIn(checkpoint))
      && (c.task.MergeTask? ==> RootField(checkpoint, ReplayRoot) == Str(RegistryRoot(env.suite, c.before)))
  {
    hide InForce, SignedCheckpoint, TrustFits, Extends, RegistryRoot;
    InitialInv(env, w);
    RunKeepsInv(env, w, events);
    assert CommitHolds(env, Run(env, w, events).commits[i]);
  }

  /** In every run the provider is called only for a permit with the verifier's
      signature, whose claim, made for that call's executor, is in the registry. */
  lemma CallsAreVouchedFor(env: Env, w: World, events: seq<Event>, k: nat)
    requires Initial(w) && k < |Run(env, w, events).calls|
    ensures
      var end, call := Run(env, w, events), Run(env, w, events).calls[k];
      && Genuine(env.suite, call.permit, env.verifierKey)
      && TextIn(call.permit, RecordHash) in end.registry
      && call.claim < |end.commits|
      && end.registry[TextIn(call.permit, RecordHash)].executorId == end.commits[call.claim].task.executorId
  {
    hide InForce, SignedCheckpoint, TrustFits, Genuine;
    InitialInv(env, w);
    RunKeepsInv(env, w, events);
    var end, call := Run(env, w, events), Run(env, w, events).calls[k];
    assert CallHolds(end.commits, call);
    assert CommitHolds(env, end.commits[call.claim]) && Extends(After(end.commits[call.claim]), end.registry);
    CommittedPermitsAreInForce(env, w, events, call.claim);
  }

  /** Over every run, with crashes and exceptions anywhere, the provider is
      called at most once per permit content and at most once per nonce, for
      merge and migration permits together. */
  lemma ProviderCalledOncePerPermit(env: Env, w: World, events: seq<Event>, k: nat, l: nat)
    requires Initial(w) && k < l < |Run(env, w, events).calls|
    ensures
      var a, b := Run(env, w, events).calls[k].permit, Run(env, w, events).calls[l].permit;
      Content(a) != Content(b) && TextIn(a, Nonce) != TextIn(b, Nonce)
  {
    InitialInv(env, w);
    RunKeepsInv(env, w, events);
    var end := Run(env, w, events);
    var c, d := end.calls[k], end.calls[l];
    assert CallHolds(end.commits, c) && CallHolds(end.commits, d);
    assert c.claim != d.claim;
    if c.claim < d.claim {
      CommitsDiffer(env, end.registry, end.commits, c.claim, d.claim);
    } else {
      CommitsDiffer(env, end.registry, end.commits, d.claim, c.claim);
    }
  }

  lemma {:induction false} RegistryOnlyGrows(env: Env, w: World, events: seq<Event>)
    ensures Extends(w.registry, Run(env, w, events).registry)
  {
    if events != [] {
      var front := Run(env, w, events[..|events| - 1]);
      RegistryOnlyGrows(env, w, events[..|events| - 1]);
      assert Extends(front.registry, Apply(env, front, events[|events| - 1]).registry);
    }
  }

  /** No run makes a spent permit, or a spent nonce, spendable again. */
  lemma SpentStaysSpent(env: Env, w: World, events: seq<Event>, t: Task)
    requires HashOf(t) in w.registry || !NonceFree(w.registry, NonceOf(t))
    ensures Spend(env, Run(env, w, events).registry, t).Err?
  {
    RegistryOnlyGrows(env, w, events);
    if !NonceFree(w.registry, NonceOf(t)) {
      var h :| h in w.registry && w.registry[h].nonce == NonceOf(t);
      assert Run(env, w, events).registry[h].nonce == NonceOf(t);
    }
  }

  // ----- one spend per checkpoint

  function RegistryInputs(s: Suite, commits: seq<Commit>): set<Bytes> {
    set c | c in commits :: RegistryInput(s, c.before)
  }

  predicate TrustBoundMerge(c: Commit) {
    c.task.MergeTask? && TrustBound(c.task.permit)
  }

  /** Over every run, trust-bound merges commit at most once per checkpoint, and
      even per replay root: a registry never returns to a root it has left.
      Untrusted and migration claims may be interleaved at will. */
  lemma OneSpendPerCheckpoint(env: Env, w: World, events: seq<Event>, i: nat, j: nat)
    requires env.suite.Valid() && Initial(w)
    requires CollisionFree(env.suite, RegistryInputs(env.suite, Run(env, w, events).commits))
    requires i < j < |Run(env, w, events).commits|
    requires TrustBoundMerge(Run(env, w, events).commits[i]) && TrustBoundMerge(Run(env, w, events).commits[j])
    ensures
      var c, d := Run(env, w, events).commits[i].task.checkpoint, Run(env, w, events).commits[j].task.checkpoint;
      c.Some? && d.Some? && c != d && RootField(c.value, ReplayRoot) != RootField(d.value, ReplayRoot)
  {
    InitialInv(env, w);
    RunKeepsInv(env, w, events);
    var end := Run(env, w, events);
    var c, d := end.commits[i], end.commits[j];
    assert CommitHolds(env, c) && CommitHolds(env, d) && Extends(After(c), d.before);
    assert HashOf(c.task) in d.before && HashOf(c.task) !in c.before;
    if RegistryRoot(env.suite, c.before) == RegistryRoot(env.suite, d.before) {
      SameRootSameRegistry(env.suite, RegistryInputs(env.suite, end.commits), c.before, d.before);
    }
  }

  // ----- the calls as the program makes them, one at a time

  datatype PermitState = Executing | Consumed

  /** A row of `permit_events`. */
  datatype PermitEvent = PermitEvent(permitHash: string, state: PermitState, at: string, executorId: string)

  function SpendEvents(t: Task): seq<PermitEvent> {
    [PermitEvent(HashOf(t), Executing, t.at, t.executorId), PermitEvent(HashOf(t), Consumed, t.at, t.executorId)]
  }

  /** What `consume_permit` returns. */
  datatype Receipt = Receipt(permitHash: string, executorId: string, consumedAt: string, nextReplayRoot: string,
                             nextEpoch: Option<int>, nextCounter: Option<int>)

  function NextOf(j: Json): Option<int> {
    if j.Int? then Some(j.i + 1) else None
  }

  /** One executor taking the three steps of a spend with nobody in between. */
  function Alone(t: Task): seq<Event> {
    [] + [Begin(0, t)] + [ReadState(0)] + [CheckPermit(0)] + [Transact(0)]
  }

  lemma RunOneMore(env: Env, w: World, events: seq<Event>, event: Event)
    ensures Run(env, w, events + [event]) == Apply(env, Run(env, w, events), event)
  {
    assert (events + [event])[..|events|] == events;
  }

  function AloneFrom(registry: Registry): World {
    World(registry, map[], [], [])
  }

  /** The outcome of the three steps in a row. */
  function AloneOutcome(env: Env, registry: Registry, t: Task): Result<Registry, PermitCode> {
    var values := ReadTrust(env, registry, t);
    if values.Err? then Err(values.error)
    else
      var problem := VerifyTask(env, t, values.value);
      if problem.Some? then Err(problem.value) else Spend(env, registry, t)
  }

  lemma RunAlone(env: Env, registry: Registry, t: Task)
    ensures
      var w, outcome := Run(env, AloneFrom(registry), Alone(t)), AloneOutcome(env, registry, t);
      && 0 in w.executors
      && w.registry == (if outcome.Ok? then outcome.value else registry)
      && w.executors[0] == (if outcome.Ok? then Claimed(t, 0) else Rejected(outcome.error))
  {
    var w0 := AloneFrom(registry);
    var one := [] + [Begin(0, t)];
    var two := one + [ReadState(0)];
    var three := two + [CheckPermit(0)];
    RunOneMore(env, w0, [], Begin(0, t));
    RunOneMore(env, w0, one, ReadState(0));
    RunOneMore(env, w0, two, CheckPermit(0));
    RunOneMore(env, w0, three, Transact(0));
    var w1, w2, w3, w4 := Run(env, w0, one), Run(env, w0, two), Run(env, w0, three), Run(env, w0, Alone(t));
    assert w1 == At(w0, 0, Started(t));
    var values := ReadTrust(env, registry, t);
    ReadStep(env, w1, 0, t);
    if values.Err? {
      RejectedStays(env, w2, 0);
    } else {
      CheckThenTransact(env, w2, w3, w4, t, values.value, 0);
    }
  }

  lemma CheckThenTransact(env: Env, w2: World, w3: World, w4: World, t: Task, values: Option<TrustValues>, readAt: nat)
    requires 0 in w2.executors && w2.executors[0] == Checked(t, values, readAt)
    requires w3 == Apply(env, w2, CheckPermit(0)) && w4 == Apply(env, w3, Transact(0))
    ensures
      var problem, spent := VerifyTask(env, t, values), Spend(env, w2.registry, t);
      && 0 in w4.executors
      && w4.registry == (if problem == None && spent.Ok? then spent.value else w2.registry)
      && (problem.Some? ==> w4.executors[0] == Rejected(problem.value))
      && (problem.None? && spent.Err? ==> w4.executors[0] == Rejected(spent.error))
      && (problem.None? && spent.Ok? ==> w4.executors[0] == Claimed(t, |w2.commits|))
  {
    CheckStep(env, w2, 0, t, values, readAt);
    if VerifyTask(env, t, values).Some? {
      RejectedStays(env, w3, 0);
    }
  }

  lemma ReadStep(env: Env, w: World, e: nat, t: Task)
    requires e in w.executors && w.executors[e] == Started(t)
    ensures
      var values := ReadTrust(env, w.registry, t);
      Apply(env, w, ReadState(e)) == At(w, e, if values.Err? then Rejected(values.error) else Checked(t, values.value, |w.commits|))
  {
  }

  lemma CheckStep(env: Env, w: World, e: nat, t: Task, values: Option<TrustValues>, readAt: nat)
    requires e in w.executors && w.executors[e] == Checked(t, values, readAt)
    ensures
      var problem := VerifyTask(env, t, values);
      Apply(env, w, CheckPermit(e)) == At(w, e, if problem.Some? then Rejected(problem.value) else Verified(t, readAt))
  {
  }

  lemma RejectedStays(env: Env, w: World, e: nat)
    requires e in w.executors && w.executors[e].Rejected?
    ensures Apply(env, w, CheckPermit(e)) == w && Apply(env, w, Transact(e)) == w
  {
  }

  /** What a registry must offer for a task to spend its permit when nobody is in
      between: a permit in force that was not spent and has a fresh nonce, and, if it
      is trust-bound, a signed checkpoint of exactly this registry that fits. */
  predicate Spendable(env: Env, registry: Registry, t: Task) {
    && Vouched(env, t)
    && Get(t.permit, Nonce).Str? && Get(t.permit, Nonce).s != ""
    && Get(t.permit, RecordHash).s !in registry
    && (forall h :: h in registry ==> registry[h].nonce != Get(t.permit, Nonce).s)
    && (TrustBound(t.permit) ==>
          t.checkpoint.Some? && RootField(t.checkpoint.value, ReplayRoot) == Str(RegistryRoot(env.suite, registry)))
  }

  lemma CheckpointMeaning(env: Env, checkpoint: Record, registry: Registry)
    ensures TrustCheckpointValid(env.suite, checkpoint, registry, env.checkpointKey) <==>
      SignedCheckpoint(env, checkpoint) && RootField(checkpoint, ReplayRoot) == Str(RegistryRoot(env.suite, registry))
  {
    hide RegistryRoot, TrustRootOf, VerifySignature, Genuine;
    VerifiedIsGenuine(env.suite, checkpoint, env.checkpointKey);
  }

  lemma GenuineHashIsText(env: Env, t: Task)
    requires env.suite.Valid() && Vouched(env, t)
    ensures TextIn(t.permit, RecordHash) != ""
  {
    hide SignedCheckpoint, TrustFits;
    NoDigestIsGenesis(env.suite, RecordInput(env.suite, t.permit));
  }

  lemma UnboundSpendsExactly(env: Env, registry: Registry, t: Task)
    requires env.suite.Valid() && !TrustBound(t.permit)
    ensures AloneOutcome(env, registry, t).Ok? <==> Spendable(env, registry, t)
  {
    hide RegistryRoot, InForce, Verify, TrustFits, SignedCheckpoint, ValuesIn, TrustCheckpointValid;
    VerifyAcceptsExactly(env, t.permit, SubjectOf(t), t.expected, t.now, None);
    if Vouched(env, t) {
      GenuineHashIsText(env, t);
      VouchedNamesItsContent(env, t);
    }
  }

  lemma BoundSpendsExactly(env: Env, registry: Registry, t: Task)
    requires env.suite.Valid() && TrustBound(t.permit) && t.checkpoint.Some?
    ensures AloneOutcome(env, registry, t).Ok? <==> Spendable(env, registry, t)
  {
    hide RegistryRoot, InForce, Verify, TrustFits, SignedCheckpoint, TrustCheckpointValid, ValuesOf;
    VerifyAcceptsExactly(env, t.permit, SubjectOf(t), t.expected, t.now, Some(ValuesIn(t.checkpoint.value)));
    CheckpointMeaning(env, t.checkpoint.value, registry);
    if Vouched(env, t) {
      GenuineHashIsText(env, t);
      VouchedNamesItsContent(env, t);
    }
  }

  /** A spend that nobody interrupts succeeds exactly when its permit is spendable. */
  lemma SpendsExactly(env: Env, registry: Registry, t: Task)
    requires env.suite.Valid()
    ensures AloneOutcome(env, registry, t).Ok? <==> Spendable(env, registry, t)
  {
    hide Spendable, AloneOutcome;
    if !TrustBound(t.permit) {
      UnboundSpendsExactly(env, registry, t);
    } else if t.checkpoint.Some? {
      BoundSpendsExactly(env, registry, t);
    } else {
      NoCheckpointNoSpend(env, registry, t);
    }
  }

  lemma NoCheckpointNoSpend(env: Env, registry: Registry, t: Task)
    requires TrustBound(t.permit) && t.checkpoint.None?
    ensures AloneOutcome(env, registry, t).Err? && !Spendable(env, registry, t)
  {
    hide InForce, TrustFits;
  }

  /** Why a checkpoint is refused, for a trust-bound permit that nobody else spends:
      a checkpoint with the replay root of another registry is reported as overtaken,
      any other that does not verify as invalid. */
  lemma CheckpointRefusals(env: Env, registry: Registry, t: Task)
    requires TrustBound(t.permit)
    ensures t.checkpoint.None? ==> AloneOutcome(env, registry, t) == Err(TrustCheckpointMissing)
    ensures t.checkpoint.Some? && SignedCheckpoint(env, t.checkpoint.value) ==>
      (RootField(t.checkpoint.value, ReplayRoot) != Str(RegistryRoot(env.suite, registry))
       ==> AloneOutcome(env, registry, t) == Err(Changed(ReplayRoot)))
    ensures t.checkpoint.Some? && !SignedCheckpoint(env, t.checkpoint.value) ==>
      AloneOutcome(env, registry, t)
      == Err(if Get(t.checkpoint.value, Roots).Obj?
                && RootField(t.checkpoint.value, ReplayRoot) != Str(RegistryRoot(env.suite, registry))
             then Changed(ReplayRoot) else TrustCheckpointInvalid)
  {
    hide RegistryRoot, VerifyTask, Spend, TrustCheckpointValid;
    if t.checkpoint.Some? {
      CheckpointMeaning(env, t.checkpoint.value, registry);
    }
  }

  /** The database behind the registry: `permit_claims` and `permit_events`. */
  class ReplayRegistry {
    var claims: Registry
    var events: seq<PermitEvent>

    constructor ()
      ensures claims == map[] && events == []
    {
      claims, events := map[], [];
    }

    /** The transaction both kinds of spend end with. */
    method Commit(env: Env, t: Task) returns (r: Result<(), PermitCode>)
      modifies this
      ensures r.Ok? <==> Spend(env, old(claims), t).Ok?
      ensures r.Ok? ==> claims == Spend(env, old(claims), t).value && events == old(events) + SpendEvents(t)
      ensures r.Err? ==> r.error == Spend(env, old(claims), t).error && claims == old(claims) && events == old(events)
    {
      if t.MergeTask? && TrustBound(t.permit) {
        if t.checkpoint.None? || !TrustCheckpointValid(env.suite, t.checkpoint.value, claims, env.checkpointKey) {
          return Err(Changed(ReplayRoot));
        }
      }
      if HashOf(t) in claims || !NonceFree(claims, NonceOf(t)) {
        return Err(PermitReplayed);
      }
      claims := claims[HashOf(t) := Claim(NonceOf(t), t.executorId, t.at)];
      events := events + SpendEvents(t);
      r := Ok(());
    }

    /** `consume_permit`, and the claim of a migration.  Called alone it does
        what the protocol's steps do when nothing comes between them. */
    method Consume(env: Env, t: Task) returns (r: Result<Receipt, PermitCode>)
      modifies this
      ensures
        var w := Run(env, AloneFrom(old(claims)), Alone(t));
        && claims == w.registry && 0 in w.executors
        && w.executors[0] == (if r.Ok? then Claimed(t, 0) else Rejected(r.error))
      ensures env.suite.Valid() ==> (r.Ok? <==> Spendable(env, old(claims), t))
      ensures r.Ok? ==> events == old(events) + SpendEvents(t)
      ensures r.Ok? ==> r.value.permitHash == HashOf(t) && r.value.executorId == t.executorId && r.value.consumedAt == t.at
      ensures r.Ok? ==> r.value.nextReplayRoot == RegistryRoot(env.suite, claims)
      ensures r.Ok? && !TrustBound(t.permit) ==> r.value.nextEpoch == None && r.value.nextCounter == None
      ensures r.Ok? && TrustBound(t.permit) ==>
        && t.checkpoint.Some?
        && r.value.nextEpoch == NextOf(Get(t.checkpoint.value, Epoch))
        && r.value.nextCounter == NextOf(Get(t.checkpoint.value, MonotonicCounter))
      ensures r.Err? ==> events == old(events)
    {
      hide VerifyTask, RegistryRoot, Run, Spendable;
      RunAlone(env, claims, t);
      if env.suite.Valid() { SpendsExactly(env, claims, t); }
      var values := ReadTrust(env, claims, t);
      if values.Err? {
        return Err(values.error);
      }
      var problem := VerifyTask(env, t, values.value);
      if problem.Some? {
        return Err(problem.value);
      }
      var committed := Commit(env, t);
      if committed.Err? {
        return Err(committed.error);
      }
      var epoch := if values.value.Some? then values.value.value.epoch else Null;
      var counter := if values.value.Some? then values.value.value.counter else Null;
      r := Ok(Receipt(HashOf(t), t.executorId, t.at, RegistryRoot(env.suite, claims), NextOf(epoch), NextOf(counter)));
    }
  }
}
