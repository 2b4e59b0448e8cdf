/**
 Immutable policy versions with one active row: the policy operations of
 `ControlPlane` in proofrail/control_plane.py.

 Callers interleave.  Authorization and the governors' quorum are read before the
 transaction that publishes or activates, so each call is two steps.
 */
module Policies {
  import opened Hashing
  import opened Sorting
  import opened Quorum
  import opened Rbac
  import QuorumLoop

  // ----- the table

  /** A row of `policies`. */
  datatype Row = Row(tenant: string, name: string, version: int, digest: string, document: Record, active: bool, publisher: string)

  datatype PolicyError =
    | Unauthorized
    | NameRequired
    | IntegrityError
    | VersionNotFound
    | StaleActivation
    | QuorumNotMet
    | StatementMismatch
    | InvalidThreshold

  predicate Of(r: Row, tenant: string, name: string) {
    r.tenant == tenant && r.name == name
  }

  /** `COALESCE(MAX(version), 0)` */
  function MaxVersion(rows: seq<Row>, tenant: string, name: string): int {
    if rows == [] then 0
    else
      var last, highest := rows[|rows| - 1], MaxVersion(rows[..|rows| - 1], tenant, name);
      if Of(last, tenant, name) && last.version > highest then last.version else highest
  }

  function ActiveVersion(rows: seq<Row>, tenant: string, name: string): Option<int> {
    if rows == [] then None
    else if Of(rows[0], tenant, name) && rows[0].active then Some(rows[0].version)
    else ActiveVersion(rows[1..], tenant, name)
  }

  predicate DigestTaken(rows: seq<Row>, tenant: string, name: string, digest: string) {
    exists i :: 0 <= i < |rows| && Of(rows[i], tenant, name) && rows[i].digest == digest
  }

  predicate HasVersion(rows: seq<Row>, tenant: string, name: string, version: int) {
    exists i :: 0 <= i < |rows| && Of(rows[i], tenant, name) && rows[i].version == version
  }

  /** The transaction of `publish_policy`. */
  function Publish(s: Suite, rows: seq<Row>, tenant: string, name: string, document: Record,
                   publisher: string): Result<seq<Row>, PolicyError> {
    if DigestTaken(rows, tenant, name, DigestDocument(s, document)) then Err(IntegrityError)
    else Ok(rows + [Row(tenant, name, MaxVersion(rows, tenant, name) + 1, DigestDocument(s, document), document, false, publisher)])
  }

  function SetActive(rows: seq<Row>, tenant: string, name: string, version: int): seq<Row> {
    seq(|rows|, i requires 0 <= i < |rows| =>
      if Of(rows[i], tenant, name) then rows[i].(active := rows[i].version == version) else rows[i])
  }

  /** `_activate_policy` */
  function Activate(rows: seq<Row>, tenant: string, name: string, version: int, allowRollback: bool): Result<seq<Row>, PolicyError> {
    var active := ActiveVersion(rows, tenant, name);
    if active.Some? && version < active.value && !allowRollback then Err(StaleActivation)
    else if !HasVersion(rows, tenant, name, version) then Err(VersionNotFound)
    else Ok(SetActive(rows, tenant, name, version))
  }

  // ----- what the table keeps

  function Count(rows: seq<Row>, tenant: string, name: string): nat {
    if rows == [] then 0
    else Count(rows[..|rows| - 1], tenant, name) + if Of(rows[|rows| - 1], tenant, name) then 1 else 0
  }

  /** Every row has the next version of its policy. */
  predicate Numbered(rows: seq<Row>) {
    forall i :: 0 <= i < |rows| ==> rows[i].version == Count(rows[..i], rows[i].tenant, rows[i].name) + 1
  }

  predicate DistinctDigests(rows: seq<Row>) {
    forall i, j :: 0 <= i < j < |rows| && Of(rows[i], rows[j].tenant, rows[j].name) ==> rows[i].digest != rows[j].digest
  }

  predicate OneActive(rows: seq<Row>) {
    forall i, j :: 0 <= i < j < |rows| && Of(rows[i], rows[j].tenant, rows[j].name) ==> !(rows[i].active && rows[j].active)
  }

  predicate Digested(s: Suite, rows: seq<Row>) {
    forall i :: 0 <= i < |rows| ==> rows[i].digest == DigestDocument(s, rows[i].document)
  }

  predicate TableHolds(s: Suite, rows: seq<Row>) {
    Numbered(rows) && DistinctDigests(rows) && OneActive(rows) && Digested(s, rows)
  }

  /** Later tables only add rows and move the active flag. */
  predicate Keeps(a: seq<Row>, b: seq<Row>) {
    |a| <= |b| && forall i :: 0 <= i < |a| ==> b[i].(active := a[i].active) == a[i]
  }

  lemma {:induction false} CountOfKept(a: seq<Row>, b: seq<Row>, tenant: string, name: string)
    requires |a| == |b| && forall i :: 0 <= i < |a| ==> b[i].(active := a[i].active) == a[i]
    ensures Count(a, tenant, name) == Count(b, tenant, name)
  {
    if a != [] {
      var m := |a| - 1;
      assert b[m].(active := a[m].active) == a[m];
      CountOfKept(a[..m], b[..m], tenant, name);
    }
  }

  /** In a numbered table the highest version is the number of versions. */
  lemma {:induction false} MaxIsCount(rows: seq<Row>, tenant: string, name: string)
    requires Numbered(rows)
    ensures MaxVersion(rows, tenant, name) == Count(rows, tenant, name)
  {
    if rows != [] {
      var front := rows[..|rows| - 1];
      assert forall i :: 0 <= i < |front| ==> front[..i] == rows[..i];
      MaxIsCount(front, tenant, name);
    }
  }

  /** The versions of a policy are exactly 1 to k. */
  lemma {:induction false} VersionsAreOneToK(rows: seq<Row>, tenant: string, name: string, version: int)
    requires Numbered(rows)
    ensures HasVersion(rows, tenant, name, version) <==> 1 <= version <= Count(rows, tenant, name)
  {
    if rows != [] {
      var m := |rows| - 1;
      var front := rows[..m];
      assert forall i :: 0 <= i < |front| ==> front[..i] == rows[..i];
      VersionsAreOneToK(front, tenant, name, version);
      HasVersionOneMore(rows, tenant, name, version);
    }
  }

  lemma HasVersionOneMore(rows: seq<Row>, tenant: string, name: string, version: int)
    requires rows != []
    ensures
      var m := |rows| - 1;
      HasVersion(rows, tenant, name, version) <==>
        HasVersion(rows[..m], tenant, name, version) || (Of(rows[m], tenant, name) && rows[m].version == version)
  {
    var m := |rows| - 1;
    if HasVersion(rows[..m], tenant, name, version) {
      var i :| 0 <= i < m && Of(rows[..m][i], tenant, name) && rows[..m][i].version == version;
      assert Of(rows[i], tenant, name);
    }
    if HasVersion(rows, tenant, name, version) {
      var i :| 0 <= i <= m && Of(rows[i], tenant, name) && rows[i].version == version;
      if i < m { assert Of(rows[..m][i], tenant, name); }
    }
  }

  lemma {:induction false} CountIsMonotone(rows: seq<Row>, i: nat, tenant: string, name: string)
    requires i <= |rows|
    ensures Count(rows[..i], tenant, name) <= Count(rows, tenant, name)
  {
    if i == |rows| {
      assert rows[..i] == rows;
    } else {
      var front := rows[..|rows| - 1];
      assert front[..i] == rows[..i];
      CountIsMonotone(front, i, tenant, name);
    }
  }

  /** No two rows of a policy have the same version. */
  lemma VersionsDiffer(rows: seq<Row>, i: nat, j: nat)
    requires Numbered(rows) && i < j < |rows| && Of(rows[i], rows[j].tenant, rows[j].name)
    ensures rows[i].version < rows[j].version
  {
    var before := rows[..j];
    assert before[..i + 1] == rows[..i + 1] && rows[..i + 1][..i] == rows[..i];
    CountIsMonotone(before, i + 1, rows[i].tenant, rows[i].name);
  }

  lemma PublishKeepsTable(s: Suite, rows: seq<Row>, tenant: string, name: string, document: Record, publisher: string)
    requires TableHolds(s, rows) && Publish(s, rows, tenant, name, document, publisher).Ok?
    ensures TableHolds(s, Publish(s, rows, tenant, name, document, publisher).value)
    ensures Keeps(rows, Publish(s, rows, tenant, name, document, publisher).value)
  {
    hide DigestDocument, Count, MaxVersion;
    var after := Publish(s, rows, tenant, name, document, publisher).value;
    MaxIsCount(rows, tenant, name);
    assert forall i :: 0 <= i <= |rows| ==> after[..i] == rows[..i];
    assert rows[..|rows|] == rows;
  }

  lemma SetActiveKeepsTable(s: Suite, rows: seq<Row>, tenant: string, name: string, version: int)
    requires TableHolds(s, rows)
    ensures TableHolds(s, SetActive(rows, tenant, name, version)) && Keeps(rows, SetActive(rows, tenant, name, version))
  {
    hide DigestDocument, Count;
    var after := SetActive(rows, tenant, name, version);
    forall i | 0 <= i < |after| ensures after[i].version == Count(after[..i], after[i].tenant, after[i].name) + 1 {
      CountOfKept(rows[..i], after[..i], after[i].tenant, after[i].name);
    }
    forall i, j | 0 <= i < j < |after| && Of(after[i], after[j].tenant, after[j].name)
      ensures !(after[i].active && after[j].active)
    {
      VersionsDiffer(rows, i, j);
    }
  }

  /** Publishing succeeds exactly for a document this policy has not had yet, up
      to its `signature`. */
  lemma PublishRejectsRepeats(s: Suite, rows: seq<Row>, tenant: string, name: string, document: Record, publisher: string)
    requires TableHolds(s, rows)
    requires CollisionFree(s, (set r | r in rows :: DocumentInput(s, r.document)) + {DocumentInput(s, document)}) && s.Valid()
    ensures Publish(s, rows, tenant, name, document, publisher).Err? <==>
      exists i :: 0 <= i < |rows| && Of(rows[i], tenant, name) && Unsigned(rows[i].document) == Unsigned(document)
  {
    var inputs := (set r | r in rows :: DocumentInput(s, r.document)) + {DocumentInput(s, document)};
    if Publish(s, rows, tenant, name, document, publisher).Err? {
      var i :| 0 <= i < |rows| && Of(rows[i], tenant, name) && rows[i].digest == DigestDocument(s, document);
      assert rows[i] in rows;
      SameDigestSameInput(s, inputs, DocumentInput(s, rows[i].document), DocumentInput(s, document));
    }
  }

  // ----- activation

  lemma {:induction false} ActiveIs(rows: seq<Row>, tenant: string, name: string, i: nat)
    requires OneActive(rows) && i < |rows| && Of(rows[i], tenant, name) && rows[i].active
    ensures ActiveVersion(rows, tenant, name) == Some(rows[i].version)
  {
    if i > 0 {
      ActiveIs(rows[1..], tenant, name, i - 1);
      assert !(rows[0].active && rows[i].active && Of(rows[0], tenant, name));
    }
  }

  lemma {:induction false} ActiveRow(rows: seq<Row>, tenant: string, name: string) returns (i: nat)
    requires ActiveVersion(rows, tenant, name).Some?
    ensures i < |rows| && Of(rows[i], tenant, name) && rows[i].active && ActiveVersion(rows, tenant, name) == Some(rows[i].version)
  {
    if Of(rows[0], tenant, name) && rows[0].active {
      i := 0;
    } else {
      i := ActiveRow(rows[1..], tenant, name);
      i := i + 1;
    }
  }

  lemma SetActiveMeaning(s: Suite, rows: seq<Row>, tenant: string, name: string, version: int)
    requires TableHolds(s, rows) && HasVersion(rows, tenant, name, version)
    ensures ActiveVersion(SetActive(rows, tenant, name, version), tenant, name) == Some(version)
  {
    var after := SetActive(rows, tenant, name, version);
    SetActiveKeepsTable(s, rows, tenant, name, version);
    var i :| 0 <= i < |rows| && Of(rows[i], tenant, name) && rows[i].version == version;
    ActiveIs(after, tenant, name, i);
  }

  /** Rows that keep their flags keep the active version. */
  lemma SameActive(a: seq<Row>, b: seq<Row>, tenant: string, name: string)
    requires OneActive(b) && |a| <= |b| && ActiveVersion(a, tenant, name).Some?
    requires forall i :: 0 <= i < |a| && Of(a[i], tenant, name) ==> b[i] == a[i]
    ensures ActiveVersion(b, tenant, name) == ActiveVersion(a, tenant, name)
  {
    var i := ActiveRow(a, tenant, name);
    ActiveIs(b, tenant, name, i);
  }

  // ----- callers

  /** The arguments of `activate_policy_with_quorum`, and the verdict on them. */
  datatype Approval = Approval(governors: map<string, Trusted>, threshold: int, approvals: seq<Record>, verdict: Verdict)

  datatype Caller =
    | Publishing(tenant: string, name: string, document: Record, principal: string)
    | Activating(tenant: string, name: string, version: int, principal: string)
    | Approved(tenant: string, name: string, version: int, row: nat, action: Constant, approval: Approval)
    | Finished

  datatype Config = Config(suite: Suite, show: Json -> string)

  datatype World = World(roles: map<Ref, Json>, rows: seq<Row>, callers: map<nat, Caller>)

  datatype Event =
    | GrantRole(who: Ref, role: Json)
    | BeginPublish(caller: nat, tenant: string, principal: string, name: string, document: Record)
    | BeginActivate(caller: nat, tenant: string, principal: string, name: string, version: int)
    | Approve(caller: nat, tenant: string, name: string, version: int, row: nat, approval: Approval)
    | Commit(caller: nat)
    | Abandon(caller: nat)

  /** The governors are asked about the digest of the target version. */
  function GovernorPanel(c: Config, approval: Approval, digest: string): Panel {
    Panel(approval.governors, approval.threshold, Fixed(PromotionKind), Str(digest), c.show)
  }

  function Target(tenant: string, name: string, version: int, digest: string, action: Json): Record {
    map[TenantId := Str(tenant), PolicyName := Str(name), Version := Int(version), PolicyDigest := Str(digest), Action := action]
  }

  /** `statement != expected or statement["action"] not in {...}`, negated. */
  predicate StatementFits(statement: Record, tenant: string, name: string, version: int, digest: string) {
    && statement == Target(tenant, name, version, digest, Get(statement, Action))
    && Get(statement, Action) in {Fixed(Promote), Fixed(Rollback)}
  }

  /** The quorum check: the target as it was read, and the governors' verdict. */
  ghost predicate ApprovalHolds(c: Config, a: Approval, tenant: string, name: string, version: int, digest: string, action: Constant) {
    && 1 <= a.threshold <= |a.governors|
    && IsVerdict(c.suite, GovernorPanel(c, a, digest), a.approvals, a.verdict)
    && a.verdict.met && a.verdict.statement.Some?
    && StatementFits(a.verdict.statement.value, tenant, name, version, digest)
    && Get(a.verdict.statement.value, Action) == Fixed(action)
  }

  predicate ReadsTarget(rows: seq<Row>, i: nat, tenant: string, name: string, version: int) {
    i < |rows| && Of(rows[i], tenant, name) && rows[i].version == version
  }

  function ApplyCommit(c: Config, rows: seq<Row>, caller: Caller): Result<seq<Row>, PolicyError> {
    match caller
    case Publishing(tenant, name, document, principal) => Publish(c.suite, rows, tenant, name, document, principal)
    case Activating(tenant, name, version, _) => Activate(rows, tenant, name, version, false)
    case Approved(tenant, name, version, _, action, _) => Activate(rows, tenant, name, version, action == Rollback)
    case Finished => Ok(rows)
  }

  function Becomes(w: World, id: nat, caller: Caller): World {
    w.(callers := w.callers[id := caller])
  }

  ghost function Apply(c: Config, w: World, e: Event): World {
    match e
    case GrantRole(who, role) => if IsRole(role) then w.(roles := w.roles[who := role]) else w
    case BeginPublish(id, tenant, principal, name, document) =>
      if id in w.callers || !May(w.roles, Ref(tenant, principal), PolicyPublish) || Blank(name) then w
      else Becomes(w, id, Publishing(tenant, name, document, principal))
    case BeginActivate(id, tenant, principal, name, version) =>
      if id in w.callers || !May(w.roles, Ref(tenant, principal), PolicyActivate) then w
      else Becomes(w, id, Activating(tenant, name, version, principal))
    case Approve(id, tenant, name, version, row, approval) =>
      if id in w.callers || !ReadsTarget(w.rows, row, tenant, name, version) then w
      else if ApprovalHolds(c, approval, tenant, name, version, w.rows[row].digest, Promote) then
        Becomes(w, id, Approved(tenant, name, version, row, Promote, approval))
      else if ApprovalHolds(c, approval, tenant, name, version, w.rows[row].digest, Rollback) then
        Becomes(w, id, Approved(tenant, name, version, row, Rollback, approval))
      else w
    case Commit(id) =>
      if id !in w.callers then w
      else
        var after := ApplyCommit(c, w.rows, w.callers[id]);
        Becomes(if after.Ok? then w.(rows := after.value) else w, id, Finished)
    case Abandon(id) => if id in w.callers then Becomes(w, id, Finished) else w
  }

  ghost function Run(c: Config, w: World, events: seq<Event>): World {
    if events == [] then w else Apply(c, Run(c, w, events[..|events| - 1]), events[|events| - 1])
  }

  /** An approval still holds when it is used: the row it read has not changed. */
  ghost predicate CallerHolds(c: Config, rows: seq<Row>, caller: Caller) {
    match caller
    case Approved(tenant, name, version, row, action, approval) =>
      ReadsTarget(rows, row, tenant, name, version)
      && ApprovalHolds(c, approval, tenant, name, version, rows[row].digest, action)
    case _ => true
  }

  ghost predicate Inv(c: Config, w: World) {
    TableHolds(c.suite, w.rows) && forall id :: id in w.callers ==> CallerHolds(c, w.rows, w.callers[id])
  }

  lemma CommitKeepsTable(c: Config, rows: seq<Row>, caller: Caller)
    requires TableHolds(c.suite, rows) && ApplyCommit(c, rows, caller).Ok?
    ensures TableHolds(c.suite, ApplyCommit(c, rows, caller).value) && Keeps(rows, ApplyCommit(c, rows, caller).value)
  {
    hide TableHolds, Publish, SetActive, HasVersion;
    match caller {
      case Publishing(tenant, name, document, principal) => PublishKeepsTable(c.suite, rows, tenant, name, document, principal);
      case Activating(tenant, name, version, _) => SetActiveKeepsTable(c.suite, rows, tenant, name, version);
      case Approved(tenant, name, version, _, _, _) => SetActiveKeepsTable(c.suite, rows, tenant, name, version);
      case Finished =>
    }
  }

  lemma CallersKeep(c: Config, a: seq<Row>, b: seq<Row>, callers: map<nat, Caller>)
    requires Keeps(a, b) && forall id :: id in callers ==> CallerHolds(c, a, callers[id])
    ensures forall id :: id in callers ==> CallerHolds(c, b, callers[id])
  {
    hide ApprovalHolds;
  }

  lemma ApplyKeepsInv(c: Config, w: World, e: Event)
    requires Inv(c, w)
    ensures Inv(c, Apply(c, w, e)) && Keeps(w.rows, Apply(c, w, e).rows)
  {
    hide TableHolds, ApprovalHolds, ApplyCommit;
    if e.Commit? && e.caller in w.callers {
      var after := ApplyCommit(c, w.rows, w.callers[e.caller]);
      if after.Ok? {
        CommitKeepsTable(c, w.rows, w.callers[e.caller]);
        CallersKeep(c, w.rows, after.value, w.callers);
      }
    }
  }

  predicate Initial(w: World) {
    w.rows == [] && w.callers == map[]
  }

  /** Over every run of publish, activate and quorum-activate, each policy keeps
      versions 1 to k with distinct digests of their documents and at most one
      active row, and no document or version ever changes. */
  lemma {:induction false} RunKeepsTable(c: Config, w: World, events: seq<Event>, k: nat)
    requires Initial(w) && k <= |events|
    ensures Inv(c, Run(c, w, events)) && TableHolds(c.suite, Run(c, w, events).rows)
    ensures Keeps(Run(c, w, events[..k]).rows, Run(c, w, events).rows)
  {
    hide TableHolds, CallerHolds, Apply;
    if events == [] {
      assert TableHolds(c.suite, []) by { EmptyTable(c.suite); }
    } else if k == |events| {
      assert events[..k] == events;
      RunKeepsTable(c, w, events[..k - 1], 0);
      ApplyKeepsInv(c, Run(c, w, events[..k - 1]), events[k - 1]);
    } else {
      var front := events[..|events| - 1];
      assert front[..k] == events[..k];
      RunKeepsTable(c, w, front, k);
      ApplyKeepsInv(c, Run(c, w, front), events[|events| - 1]);
    }
  }

  lemma EmptyTable(s: Suite)
    ensures TableHolds(s, [])
  {
  }

  // ----- monotone activation

  /** At least `threshold` distinct trusted governors signed the rollback of
      exactly this version with this digest. */
  ghost predicate RollbackSigned(c: Config, a: Approval, tenant: string, name: string, version: int, digest: string) {
    && Elements(a.verdict.signers) <= a.governors.Keys
    && |Elements(a.verdict.signers)| >= a.threshold >= 1
    && forall g :: g in a.verdict.signers ==>
         Signed(c.suite, GovernorPanel(c, a, digest), a.approvals, g, Target(tenant, name, version, digest, Fixed(Rollback)))
  }

  lemma ApprovalIsSigned(c: Config, a: Approval, tenant: string, name: string, version: int, digest: string)
    requires c.suite.Valid() && CollisionFree(c.suite, StatementInputs(c.suite, a.approvals))
    requires ApprovalHolds(c, a, tenant, name, version, digest, Rollback)
    ensures RollbackSigned(c, a, tenant, name, version, digest)
  {
    hide IsVerdict, Signed;
    MetSignersSignedTheStatement(c.suite, GovernorPanel(c, a, digest), a.approvals, a.verdict);
  }

  /** What one committed call does to the active version of one policy. */
  lemma CommitMovesActive(c: Config, rows: seq<Row>, caller: Caller, tenant: string, name: string)
    requires TableHolds(c.suite, rows) && ActiveVersion(rows, tenant, name).Some? && ApplyCommit(c, rows, caller).Ok?
    ensures
      var before, after := ActiveVersion(rows, tenant, name), ActiveVersion(ApplyCommit(c, rows, caller).value, tenant, name);
      && after.Some?
      && (after.value < before.value ==>
            && caller.Approved? && caller.tenant == tenant && caller.name == name
            && caller.version == after.value && caller.action == Rollback)
  {
    hide DigestDocument, MaxVersion, Numbered, DistinctDigests, Digested;
    var after := ApplyCommit(c, rows, caller).value;
    CommitKeepsTable(c, rows, caller);
    if (caller.Activating? || caller.Approved?) && caller.tenant == tenant && caller.name == name {
      SetActiveMeaning(c.suite, rows, tenant, name, caller.version);
    } else {
      SameActive(rows, after, tenant, name);
    }
  }

  /** In every run, one step never leaves a policy without an active version, and
      lowers it only when it commits a call whose approvals were signed by at
      least `threshold` distinct governors for the rollback of exactly the
      version and digest that become active, although they were checked in an
      earlier step. */
  lemma ActiveVersionOnlyRollsBackByQuorum(c: Config, w: World, events: seq<Event>, k: nat, tenant: string, name: string)
    requires c.suite.Valid() && Initial(w) && k < |events|
    requires ActiveVersion(Run(c, w, events[..k]).rows, tenant, name).Some?
    requires forall id :: id in Run(c, w, events[..k]).callers && Run(c, w, events[..k]).callers[id].Approved? ==>
      CollisionFree(c.suite, StatementInputs(c.suite, Run(c, w, events[..k]).callers[id].approval.approvals))
    ensures
      var before, after := Run(c, w, events[..k]), Run(c, w, events[..k + 1]);
      var a, b := ActiveVersion(before.rows, tenant, name), ActiveVersion(after.rows, tenant, name);
      && b.Some?
      && (b.value < a.value ==>
            && events[k].Commit? && events[k].caller in before.callers
            && var caller := before.callers[events[k].caller];
            && caller.Approved?
            && caller.row < |after.rows| && after.rows[caller.row].version == b.value
            && after.rows[caller.row].tenant == tenant && after.rows[caller.row].name == name
            && RollbackSigned(c, caller.approval, tenant, name, b.value, after.rows[caller.row].digest))
  {
    hide TableHolds, ApprovalHolds, ApplyCommit, RollbackSigned, ActiveVersion;
    var before, e := Run(c, w, events[..k]), events[k];
    assert events[..k + 1][..k] == events[..k];
    RunKeepsTable(c, w, events[..k], 0);
    ApplyKeepsInv(c, before, e);
    if e.Commit? && e.caller in before.callers && ApplyCommit(c, before.rows, before.callers[e.caller]).Ok? {
      var caller := before.callers[e.caller];
      CommitMovesActive(c, before.rows, caller, tenant, name);
      if caller.Approved? && caller.action == Rollback {
        ApprovalIsSigned(c, caller.approval, caller.tenant, caller.name, caller.version, before.rows[caller.row].digest);
      }
    }
  }

  // ----- the calls as the program makes them, one at a time

  function FindVersion(rows: seq<Row>, tenant: string, name: string, version: int): (found: Option<nat>)
    ensures found.Some? ==> found.value < |rows|
    ensures found.Some? ==> ReadsTarget(rows, found.value, tenant, name, version)
    ensures found.Some? <==> HasVersion(rows, tenant, name, version)
  {
    if rows == [] then None
    else
      HasVersionOneMore(rows, tenant, name, version);
      var m := |rows| - 1;
      if Of(rows[m], tenant, name) && rows[m].version == version then Some(m)
      else FindVersion(rows[..m], tenant, name, version)
  }

  /** An approval of the stored target; one that lowers the version is a rollback. */
  ghost predicate Justified(c: Config, rows: seq<Row>, a: Approval, tenant: string, name: string, version: int, action: Constant) {
    && (exists i: nat :: ReadsTarget(rows, i, tenant, name, version)
                 && ApprovalHolds(c, a, tenant, name, version, rows[i].digest, action))
    && var active := ActiveVersion(rows, tenant, name);
    && (active.Some? && version < active.value ==> action == Rollback)
  }

  /** Whatever verdict the governors' approvals of the stored target get, it is a met
      quorum for this action on exactly this target, and the action may lower the
      version if it has to. */
  ghost predicate Promotable(c: Config, rows: seq<Row>, approvals: seq<Record>, governors: map<string, Trusted>, threshold: int,
                             tenant: string, name: string, version: int, row: nat, action: Constant) {
    && action in {Promote, Rollback} && 1 <= threshold <= |governors|
    && row < |rows| && rows[row].tenant == tenant && rows[row].name == name && rows[row].version == version
    && (forall v :: IsVerdict(c.suite, Panel(governors, threshold, Fixed(PromotionKind), Str(rows[row].digest), c.show), approvals, v) ==>
          v.met && v.statement == Some(Target(tenant, name, version, rows[row].digest, Fixed(action))))
    && (forall i :: 0 <= i < |rows| && Of(rows[i], tenant, name) && rows[i].active && version < rows[i].version ==> action == Rollback)
  }

  lemma RunOneMore(c: Config, w: World, events: seq<Event>, e: Event)
    ensures Run(c, w, events + [e]) == Apply(c, Run(c, w, events), e)
  {
    hide Apply;
    assert (events + [e])[..|events|] == events;
  }

  lemma RunTwo(c: Config, w: World, d: Event, e: Event)
    ensures Run(c, w, [d] + [e]) == Apply(c, Apply(c, w, d), e)
  {
    hide Apply;
    assert [d] == [] + [d];
    RunOneMore(c, w, [], d);
    RunOneMore(c, w, [d], e);
  }

  /** What a publication and an activation leave when nobody is in between. */
  lemma PublishAlone(c: Config, roles: map<Ref, Json>, rows: seq<Row>, tenant: string, principal: string, name: string, document: Record)
    ensures
      var end := Run(c, World(roles, rows, map[]), [BeginPublish(0, tenant, principal, name, document)] + [Commit(0)]);
      var published := Publish(c.suite, rows, tenant, name, document, principal);
      end.rows == if May(roles, Ref(tenant, principal), PolicyPublish) && !Blank(name) && published.Ok? then published.value else rows
  {
    hide Publish, May, Blank;
    RunTwo(c, World(roles, rows, map[]), BeginPublish(0, tenant, principal, name, document), Commit(0));
  }

  lemma ActivateAlone(c: Config, roles: map<Ref, Json>, rows: seq<Row>, tenant: string, principal: string, name: string, version: int)
    ensures
      var end := Run(c, World(roles, rows, map[]), [BeginActivate(0, tenant, principal, name, version)] + [Commit(0)]);
      var activated := Activate(rows, tenant, name, version, false);
      end.rows == if May(roles, Ref(tenant, principal), PolicyActivate) && activated.Ok? then activated.value else rows
  {
    hide Activate, May;
    RunTwo(c, World(roles, rows, map[]), BeginActivate(0, tenant, principal, name, version), Commit(0));
  }

  /** What an approved activation leaves when nobody is in between. */
  ghost function ApprovedEnd(c: Config, roles: map<Ref, Json>, rows: seq<Row>, tenant: string, name: string, version: int, row: nat,
                             a: Approval): seq<Row> {
    Run(c, World(roles, rows, map[]), [Approve(0, tenant, name, version, row, a)] + [Commit(0)]).rows
  }

  lemma ApproveAlone(c: Config, roles: map<Ref, Json>, rows: seq<Row>, tenant: string, name: string, version: int, row: nat, a: Approval,
                     action: Constant)
    requires action in {Promote, Rollback} && ReadsTarget(rows, row, tenant, name, version)
    requires ApprovalHolds(c, a, tenant, name, version, rows[row].digest, action)
    ensures
      var activated := Activate(rows, tenant, name, version, action == Rollback);
      ApprovedEnd(c, roles, rows, tenant, name, version, row, a) == if activated.Ok? then activated.value else rows
  {
    hide Activate, Run, IsVerdict;
    assert ReadsTarget(rows, row, tenant, name, version);
    RunTwo(c, World(roles, rows, map[]), Approve(0, tenant, name, version, row, a), Commit(0));
  }

  lemma NumberedTable(s: Suite, rows: seq<Row>)
    requires TableHolds(s, rows)
    ensures Numbered(rows)
  {
  }

  lemma KeepsItself(rows: seq<Row>)
    ensures Keeps(rows, rows)
  {
  }

  /** A policy has only one row of each version. */
  lemma OneRowPerVersion(s: Suite, rows: seq<Row>, i: nat, j: nat)
    requires TableHolds(s, rows) && i < |rows| && j < |rows|
    requires Of(rows[i], rows[j].tenant, rows[j].name) && rows[i].version == rows[j].version
    ensures i == j
  {
    if i < j {
      VersionsDiffer(rows, i, j);
    } else if j < i {
      VersionsDiffer(rows, j, i);
    }
  }

  ghost predicate SomePromotable(c: Config, rows: seq<Row>, approvals: seq<Record>, governors: map<string, Trusted>, threshold: int,
                                 tenant: string, name: string, version: int) {
    exists row: nat, action: Constant :: Promotable(c, rows, approvals, governors, threshold, tenant, name, version, row, action)
  }

  lemma NothingPromotable(c: Config, rows: seq<Row>, approvals: seq<Record>, governors: map<string, Trusted>, threshold: int,
                          tenant: string, name: string, version: int)
    requires !HasVersion(rows, tenant, name, version)
    ensures !SomePromotable(c, rows, approvals, governors, threshold, tenant, name, version)
  {
    hide Promotable, HasVersion;
    if SomePromotable(c, rows, approvals, governors, threshold, tenant, name, version) {
      var row: nat, action: Constant :| Promotable(c, rows, approvals, governors, threshold, tenant, name, version, row, action);
      PromotableIsStored(c, rows, approvals, governors, threshold, tenant, name, version, row, action);
    }
  }

  lemma PromotableIsStored(c: Config, rows: seq<Row>, approvals: seq<Record>, governors: map<string, Trusted>, threshold: int,
                           tenant: string, name: string, version: int, row: nat, action: Constant)
    requires Promotable(c, rows, approvals, governors, threshold, tenant, name, version, row, action)
    ensures HasVersion(rows, tenant, name, version)
  {
    hide IsVerdict;
    assert Of(rows[row], tenant, name);
  }

  lemma BadThreshold(c: Config, rows: seq<Row>, approvals: seq<Record>, governors: map<string, Trusted>, threshold: int,
                     tenant: string, name: string, version: int)
    requires !(1 <= threshold <= |governors|)
    ensures !SomePromotable(c, rows, approvals, governors, threshold, tenant, name, version)
  {
    hide IsVerdict;
  }

  lemma VerdictDecides(c: Config, rows: seq<Row>, approvals: seq<Record>, governors: map<string, Trusted>, threshold: int,
                       tenant: string, name: string, version: int, target: nat, v: Verdict)
    requires TableHolds(c.suite, rows) && ReadsTarget(rows, target, tenant, name, version)
    requires SomePromotable(c, rows, approvals, governors, threshold, tenant, name, version)
      ==> IsVerdict(c.suite, Panel(governors, threshold, Fixed(PromotionKind), Str(rows[target].digest), c.show), approvals, v)
    ensures SomePromotable(c, rows, approvals, governors, threshold, tenant, name, version) ==>
      && v.met && v.statement.Some? && StatementFits(v.statement.value, tenant, name, version, rows[target].digest)
      && Activate(rows, tenant, name, version, Get(v.statement.value, Action) == Fixed(Rollback)).Ok?
  {
    hide TableHolds, IsVerdict, Activate;
    if SomePromotable(c, rows, approvals, governors, threshold, tenant, name, version) {
      var row: nat, action: Constant :| Promotable(c, rows, approvals, governors, threshold, tenant, name, version, row, action);
      OneRowPerVersion(c.suite, rows, row, target);
      ActionSuffices(rows, tenant, name, version, target, action);
    }
  }

  lemma ActionSuffices(rows: seq<Row>, tenant: string, name: string, version: int, target: nat, action: Constant)
    requires ReadsTarget(rows, target, tenant, name, version)
    requires forall i :: 0 <= i < |rows| && Of(rows[i], tenant, name) && rows[i].active && version < rows[i].version ==> action == Rollback
    ensures Activate(rows, tenant, name, version, action == Rollback).Ok?
  {
    hide SetActive, ActiveVersion;
    if ActiveVersion(rows, tenant, name).Some? {
      var i := ActiveRow(rows, tenant, name);
    }
    assert HasVersion(rows, tenant, name, version);
  }

  /** Some verdict on the approvals justifies the activation. */
  ghost predicate WasJustified(c: Config, rows: seq<Row>, approvals: seq<Record>, governors: map<string, Trusted>, threshold: int,
                               tenant: string, name: string, version: int) {
    exists verdict: Verdict, action: Constant ::
      Justified(c, rows, Approval(governors, threshold, approvals, verdict), tenant, name, version, action)
  }

  /** The table is what an approved activation leaves when nobody is in between. */
  ghost predicate WasApproved(c: Config, roles: map<Ref, Json>, rows: seq<Row>, after: seq<Row>, approvals: seq<Record>,
                              governors: map<string, Trusted>, threshold: int, tenant: string, name: string, version: int) {
    exists verdict: Verdict, row: nat ::
      after == ApprovedEnd(c, roles, rows, tenant, name, version, row, Approval(governors, threshold, approvals, verdict))
  }

  lemma QuorumActivates(c: Config, roles: map<Ref, Json>, rows: seq<Row>, target: nat, approvals: seq<Record>,
                        governors: map<string, Trusted>, threshold: int, tenant: string, name: string, version: int, verdict: Verdict)
    requires ReadsTarget(rows, target, tenant, name, version) && 1 <= threshold <= |governors|
    requires IsVerdict(c.suite, Panel(governors, threshold, Fixed(PromotionKind), Str(rows[target].digest), c.show), approvals, verdict)
    requires verdict.met && verdict.statement.Some?
    requires StatementFits(verdict.statement.value, tenant, name, version, rows[target].digest)
    requires Activate(rows, tenant, name, version, Get(verdict.statement.value, Action) == Fixed(Rollback)).Ok?
    ensures WasJustified(c, rows, approvals, governors, threshold, tenant, name, version)
    ensures
      var after := Activate(rows, tenant, name, version, Get(verdict.statement.value, Action) == Fixed(Rollback)).value;
      WasApproved(c, roles, rows, after, approvals, governors, threshold, tenant, name, version)
  {
    hide IsVerdict, ApprovedEnd, SetActive, ActiveVersion, HasVersion;
    var a := Approval(governors, threshold, approvals, verdict);
    var action := Get(verdict.statement.value, Action).c;
    ApproveAlone(c, roles, rows, tenant, name, version, target, a, action);
    assert Justified(c, rows, a, tenant, name, version, action);
  }

  /** The policy tables of one database. */
  class ControlPlane {
    const c: Config
    var roles: map<Ref, Json>
    var policies: seq<Row>

    constructor (c: Config)
      ensures this.c == c && roles == map[] && policies == [] && TableHolds(c.suite, policies)
    {
      this.c, roles, policies := c, map[], [];
    }

    /** `grant_role`, in a known tenant. */
    method GrantRole(tenant: string, principal: string, role: Json) returns (known: bool)
      modifies this`roles
      ensures known <==> IsRole(role)
      ensures roles == if known then old(roles)[Ref(tenant, principal) := role] else old(roles)
    {
      known := IsRole(role);
      if known {
        roles := roles[Ref(tenant, principal) := role];
      }
    }

    /** `publish_policy`: the next version, inactive, or no change. */
    method PublishPolicy(tenant: string, principal: string, name: string, document: Record) returns (r: Result<Row, PolicyError>)
      requires TableHolds(c.suite, policies)
      modifies this`policies
      ensures TableHolds(c.suite, policies)
      ensures r.Ok? <==>
        && May(roles, Ref(tenant, principal), PolicyPublish) && !Blank(name)
        && !DigestTaken(old(policies), tenant, name, DigestDocument(c.suite, document))
      ensures r.Ok? ==> policies == old(policies) + [r.value]
      ensures r.Ok? ==>
        r.value == Row(tenant, name, Count(old(policies), tenant, name) + 1, DigestDocument(c.suite, document), document, false, principal)
      ensures r.Err? ==> policies == old(policies)
      ensures policies ==
        Run(c, World(roles, old(policies), map[]), [BeginPublish(0, tenant, principal, name, document)] + [Commit(0)]).rows
    {
      hide Run, May, Blank, DigestDocument, TableHolds, Count, MaxVersion;
      PublishAlone(c, roles, policies, tenant, principal, name, document);
      if !May(roles, Ref(tenant, principal), PolicyPublish) {
        return Err(Unauthorized);
      }
      if Blank(name) {
        return Err(NameRequired);
      }
      var digest := DigestDocument(c.suite, document);
      var version := MaxVersion(policies, tenant, name) + 1;
      if DigestTaken(policies, tenant, name, digest) {
        return Err(IntegrityError);
      }
      NumberedTable(c.suite, policies);
      MaxIsCount(policies, tenant, name);
      PublishKeepsTable(c.suite, policies, tenant, name, document, principal);
      var row := Row(tenant, name, version, digest, document, false, principal);
      policies := policies + [row];
      r := Ok(row);
    }

    /** `_activate_policy`: exactly the target becomes active, and only a
        rollback may lower the active version. */
    method SwitchTo(tenant: string, name: string, version: int, allowRollback: bool) returns (r: Result<(), PolicyError>)
      requires TableHolds(c.suite, policies)
      modifies this`policies
      ensures TableHolds(c.suite, policies) && Keeps(old(policies), policies)
      ensures r.Ok? <==>
        && 1 <= version <= Count(old(policies), tenant, name)
        && var active := ActiveVersion(old(policies), tenant, name);
        && (active.Some? && version < active.value ==> allowRollback)
      ensures
        var activated := Activate(old(policies), tenant, name, version, allowRollback);
        (r.Ok? <==> activated.Ok?) && (r.Ok? ==> policies == activated.value)
      ensures r.Ok? ==> ActiveVersion(policies, tenant, name) == Some(version)
      ensures r.Err? ==> policies == old(policies)
    {
      VersionsAreOneToK(policies, tenant, name, version);
      var active := ActiveVersion(policies, tenant, name);
      if active.Some? && version < active.value && !allowRollback {
        return Err(StaleActivation);
      }
      if !HasVersion(policies, tenant, name, version) {
        return Err(VersionNotFound);
      }
      SetActiveKeepsTable(c.suite, policies, tenant, name, version);
      SetActiveMeaning(c.suite, policies, tenant, name, version);
      policies := SetActive(policies, tenant, name, version);
      r := Ok(());
    }

    /** `activate_policy` never lowers the active version. */
    method ActivatePolicy(tenant: string, principal: string, name: string, version: int) returns (r: Result<(), PolicyError>)
      requires TableHolds(c.suite, policies)
      modifies this`policies
      ensures TableHolds(c.suite, policies) && Keeps(old(policies), policies)
      ensures r.Ok? <==>
        && May(roles, Ref(tenant, principal), PolicyActivate)
        && 1 <= version <= Count(old(policies), tenant, name)
        && var active := ActiveVersion(old(policies), tenant, name);
        && (active.Some? ==> active.value <= version)
      ensures r.Ok? ==> ActiveVersion(policies, tenant, name) == Some(version)
      ensures policies ==
        Run(c, World(roles, old(policies), map[]), [BeginActivate(0, tenant, principal, name, version)] + [Commit(0)]).rows
      ensures r.Err? ==> policies == old(policies)
    {
      hide Run, May, TableHolds, Count, SetActive, HasVersion, ActiveVersion, Keeps;
      ActivateAlone(c, roles, policies, tenant, principal, name, version);
      NumberedTable(c.suite, policies);
      KeepsItself(policies);
      VersionsAreOneToK(policies, tenant, name, version);
      if !May(roles, Ref(tenant, principal), PolicyActivate) {
        return Err(Unauthorized);
      }
      r := SwitchTo(tenant, name, version, false);
    }

    /** `activate_policy_with_quorum`: success needs the governors' signatures on
        this version and digest, for its rollback if the version goes down. */
    method ActivatePolicyWithQuorum(tenant: string, name: string, version: int, approvals: seq<Record>,
                                    governors: map<string, Trusted>, threshold: int) returns (r: Result<(), PolicyError>)
      requires TableHolds(c.suite, policies)
      modifies this`policies
      ensures TableHolds(c.suite, policies) && Keeps(old(policies), policies)
      ensures r.Ok? ==> ActiveVersion(policies, tenant, name) == Some(version)
      ensures r.Ok? ==> WasJustified(c, old(policies), approvals, governors, threshold, tenant, name, version)
      ensures r.Ok? ==> WasApproved(c, roles, old(policies), policies, approvals, governors, threshold, tenant, name, version)
      ensures r.Err? ==> policies == old(policies)
      ensures SomePromotable(c, old(policies), approvals, governors, threshold, tenant, name, version) ==> r.Ok?
    {
      hide IsVerdict, TableHolds, HasVersion, ActiveVersion, Activate, Keeps, SomePromotable, WasJustified, WasApproved, StatementFits,
        ReadsTarget, Numbered, Count;
      KeepsItself(policies);
      NumberedTable(c.suite, policies);
      VersionsAreOneToK(policies, tenant, name, version);
      var target := FindVersion(policies, tenant, name, version);
      if target.None? {
        NothingPromotable(c, policies, approvals, governors, threshold, tenant, name, version);
        return Err(VersionNotFound);
      }
      var digest := policies[target.value].digest;
      var panel := Panel(governors, threshold, Fixed(PromotionKind), Str(digest), c.show);
      var quorum := QuorumLoop.VerifyQuorum(c.suite, panel, approvals);
      if quorum.Err? {
        BadThreshold(c, policies, approvals, governors, threshold, tenant, name, version);
        return Err(InvalidThreshold);
      }
      VerdictDecides(c, policies, approvals, governors, threshold, tenant, name, version, target.value, quorum.value);
      if !quorum.value.met || quorum.value.statement.None? {
        return Err(QuorumNotMet);
      }
      var statement := quorum.value.statement.value;
      if !StatementFits(statement, tenant, name, version, digest) {
        return Err(StatementMismatch);
      }
      r := SwitchTo(tenant, name, version, Get(statement, Action) == Fixed(Rollback));
      if r.Ok? {
        QuorumActivates(c, roles, old(policies), target.value, approvals, governors, threshold, tenant, name, version, quorum.value);
      }
    }
  }
}
