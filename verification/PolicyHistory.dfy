/**
 Who published and who activated: in every run each policy version, and each change
 of an active version, goes back to a call that was permitted when it was made.
 */
module PolicyHistory {
  import opened Hashing
  import opened Quorum
  import opened Rbac
  import opened Policies

  /** The call that published this document was made with the permission to publish. */
  ghost predicate PublishedAt(c: Config, w: World, events: seq<Event>, tenant: string, name: string, document: Record, principal: string, k: nat) {
    && k < |events| && events[k].BeginPublish?
    && events[k].tenant == tenant && events[k].name == name && events[k].document == document && events[k].principal == principal
    && May(Run(c, w, events[..k]).roles, Ref(tenant, principal), PolicyPublish)
  }

  ghost predicate Published(c: Config, w: World, events: seq<Event>, tenant: string, name: string, document: Record, principal: string) {
    exists k: nat :: PublishedAt(c, w, events, tenant, name, document, principal, k)
  }

  /** The call to activate this version was made with the permission to activate. */
  ghost predicate RequestedAt(c: Config, w: World, events: seq<Event>, tenant: string, name: string, version: int, principal: string, k: nat) {
    && k < |events| && events[k].BeginActivate?
    && events[k].tenant == tenant && events[k].name == name && events[k].version == version && events[k].principal == principal
    && May(Run(c, w, events[..k]).roles, Ref(tenant, principal), PolicyActivate)
  }

  ghost predicate Requested(c: Config, w: World, events: seq<Event>, tenant: string, name: string, version: int, principal: string) {
    exists k: nat :: RequestedAt(c, w, events, tenant, name, version, principal, k)
  }

  ghost predicate CallerBacked(c: Config, w: World, events: seq<Event>, caller: Caller) {
    match caller
    case Publishing(tenant, name, document, principal) => Published(c, w, events, tenant, name, document, principal)
    case Activating(tenant, name, version, principal) => Requested(c, w, events, tenant, name, version, principal)
    case _ => true
  }

  ghost predicate RowBacked(c: Config, w: World, events: seq<Event>, row: Row) {
    Published(c, w, events, row.tenant, row.name, row.document, row.publisher)
  }

  ghost predicate History(c: Config, w: World, events: seq<Event>) {
    && (forall id :: id in Run(c, w, events).callers ==> CallerBacked(c, w, events, Run(c, w, events).callers[id]))
    && (forall i :: 0 <= i < |Run(c, w, events).rows| ==> RowBacked(c, w, events, Run(c, w, events).rows[i]))
  }

  lemma StillPublished(c: Config, w: World, front: seq<Event>, e: Event, tenant: string, name: string, document: Record, principal: string)
    requires Published(c, w, front, tenant, name, document, principal)
    ensures Published(c, w, front + [e], tenant, name, document, principal)
  {
    hide Run, May;
    var k: nat :| PublishedAt(c, w, front, tenant, name, document, principal, k);
    assert (front + [e])[..k] == front[..k];
    assert PublishedAt(c, w, front + [e], tenant, name, document, principal, k);
  }

  lemma StillRequested(c: Config, w: World, front: seq<Event>, e: Event, tenant: string, name: string, version: int, principal: string)
    requires Requested(c, w, front, tenant, name, version, principal)
    ensures Requested(c, w, front + [e], tenant, name, version, principal)
  {
    hide Run, May;
    var k: nat :| RequestedAt(c, w, front, tenant, name, version, principal, k);
    assert (front + [e])[..k] == front[..k];
    assert RequestedAt(c, w, front + [e], tenant, name, version, principal, k);
  }

  lemma StillBacked(c: Config, w: World, front: seq<Event>, e: Event, caller: Caller)
    requires CallerBacked(c, w, front, caller)
    ensures CallerBacked(c, w, front + [e], caller)
  {
    hide Published, Requested;
    match caller {
      case Publishing(tenant, name, document, principal) => StillPublished(c, w, front, e, tenant, name, document, principal);
      case Activating(tenant, name, version, principal) => StillRequested(c, w, front, e, tenant, name, version, principal);
      case _ =>
    }
  }

  /** How a caller can come about in one step. */
  predicate Comes(w: World, e: Event, id: nat, caller: Caller) {
    || (id in w.callers && caller == w.callers[id])
    || caller.Finished? || caller.Approved?
    || (e.BeginPublish? && caller == Publishing(e.tenant, e.name, e.document, e.principal)
        && May(w.roles, Ref(e.tenant, e.principal), PolicyPublish))
    || (e.BeginActivate? && caller == Activating(e.tenant, e.name, e.version, e.principal)
        && May(w.roles, Ref(e.tenant, e.principal), PolicyActivate))
  }

  lemma StepCallers(c: Config, w: World, e: Event, id: nat)
    requires id in Apply(c, w, e).callers
    ensures Comes(w, e, id, Apply(c, w, e).callers[id])
  {
    hide May, ApprovalHolds, ReadsTarget, ApplyCommit, Blank;
  }

  lemma NewCallerBacked(c: Config, w: World, front: seq<Event>, e: Event, id: nat, caller: Caller)
    requires Comes(Run(c, w, front), e, id, caller)
    requires id in Run(c, w, front).callers ==> CallerBacked(c, w, front, Run(c, w, front).callers[id])
    ensures CallerBacked(c, w, front + [e], caller)
  {
    hide Run, May;
    assert (front + [e])[..|front|] == front;
    if id in Run(c, w, front).callers && caller == Run(c, w, front).callers[id] {
      StillBacked(c, w, front, e, caller);
    } else if caller.Publishing? {
      assert PublishedAt(c, w, front + [e], e.tenant, e.name, e.document, e.principal, |front|);
    } else if caller.Activating? {
      assert RequestedAt(c, w, front + [e], e.tenant, e.name, e.version, e.principal, |front|);
    }
  }

  /** A row either was there, up to its active flag, or is what its caller publishes. */
  lemma StepRows(c: Config, w: World, e: Event, i: nat)
    requires i < |Apply(c, w, e).rows|
    ensures
      var row := Apply(c, w, e).rows[i];
      || (i < |w.rows| && row.(active := w.rows[i].active) == w.rows[i])
      || (e.Commit? && e.caller in w.callers && w.callers[e.caller] == Publishing(row.tenant, row.name, row.document, row.publisher))
  {
    hide May, ApprovalHolds, ReadsTarget, Blank, DigestDocument, MaxVersion, DigestTaken, HasVersion, ActiveVersion;
  }

  lemma NewRowBacked(c: Config, w: World, front: seq<Event>, e: Event, i: nat)
    requires History(c, w, front) && Run(c, w, front + [e]) == Apply(c, Run(c, w, front), e)
    requires i < |Run(c, w, front + [e]).rows|
    ensures RowBacked(c, w, front + [e], Run(c, w, front + [e]).rows[i])
  {
    hide Run, Apply, Published;
    var before, row := Run(c, w, front), Run(c, w, front + [e]).rows[i];
    StepRows(c, before, e, i);
    if i < |before.rows| && row.(active := before.rows[i].active) == before.rows[i] {
      assert RowBacked(c, w, front, before.rows[i]);
    } else {
      assert CallerBacked(c, w, front, before.callers[e.caller]);
    }
    StillPublished(c, w, front, e, row.tenant, row.name, row.document, row.publisher);
  }

  lemma {:induction false} RunHasHistory(c: Config, w: World, events: seq<Event>)
    requires Initial(w)
    ensures History(c, w, events)
  {
    hide Apply, CallerBacked, RowBacked, Comes;
    if events != [] {
      var front, e := events[..|events| - 1], events[|events| - 1];
      assert events == front + [e];
      RunHasHistory(c, w, front);
      forall id | id in Run(c, w, events).callers ensures CallerBacked(c, w, events, Run(c, w, events).callers[id]) {
        StepCallers(c, Run(c, w, front), e, id);
        NewCallerBacked(c, w, front, e, id, Run(c, w, events).callers[id]);
      }
      forall i | 0 <= i < |Run(c, w, events).rows| ensures RowBacked(c, w, events, Run(c, w, events).rows[i]) {
        NewRowBacked(c, w, front, e, i);
      }
    }
  }

  /** Every version of every policy was published by a call whose principal, when the
      call was made, had a role that grants publishing. */
  lemma VersionsWerePublishedWithPermission(c: Config, w: World, events: seq<Event>, i: nat) returns (k: nat)
    requires Initial(w) && i < |Run(c, w, events).rows|
    ensures k < |events| && events[k].BeginPublish?
    ensures
      var row, e := Run(c, w, events).rows[i], events[k];
      && e.tenant == row.tenant && e.name == row.name && e.document == row.document && e.principal == row.publisher
      && May(Run(c, w, events[..k]).roles, Ref(e.tenant, e.principal), PolicyPublish)
  {
    hide Apply, Run, May;
    RunHasHistory(c, w, events);
    var row := Run(c, w, events).rows[i];
    assert RowBacked(c, w, events, row);
    k :| PublishedAt(c, w, events, row.tenant, row.name, row.document, row.publisher, k);
  }

  /** What changes an active version in one step. */
  lemma StepActivates(c: Config, w: World, e: Event, tenant: string, name: string)
    requires TableHolds(c.suite, w.rows) && Inv(c, w)
    requires ActiveVersion(Apply(c, w, e).rows, tenant, name) != ActiveVersion(w.rows, tenant, name)
    ensures e.Commit? && e.caller in w.callers && (w.callers[e.caller].Activating? || w.callers[e.caller].Approved?)
    ensures
      var caller := w.callers[e.caller];
      caller.tenant == tenant && caller.name == name && ActiveVersion(Apply(c, w, e).rows, tenant, name) == Some(caller.version)
  {
    hide TableHolds, ApprovalHolds, SetActive, ActiveVersion, HasVersion, DigestTaken, DigestDocument, MaxVersion, May, Blank;
    var caller := w.callers[e.caller];
    match caller {
      case Publishing(t, n, document, principal) => PublishKeepsActive(c, w.rows, t, n, document, principal, tenant, name);
      case Activating(t, n, version, _) => SwitchMoves(c, w.rows, t, n, version, tenant, name);
      case Approved(t, n, version, _, _, _) => SwitchMoves(c, w.rows, t, n, version, tenant, name);
      case Finished =>
    }
  }

  lemma {:induction false} OneMoreInactive(rows: seq<Row>, row: Row, tenant: string, name: string)
    requires !row.active
    ensures ActiveVersion(rows + [row], tenant, name) == ActiveVersion(rows, tenant, name)
  {
    if rows == [] {
      assert [] + [row] == [row];
    } else {
      assert (rows + [row])[1..] == rows[1..] + [row];
      OneMoreInactive(rows[1..], row, tenant, name);
    }
  }

  lemma PublishKeepsActive(c: Config, rows: seq<Row>, t: string, n: string, document: Record, principal: string, tenant: string, name: string)
    requires Publish(c.suite, rows, t, n, document, principal).Ok?
    ensures ActiveVersion(Publish(c.suite, rows, t, n, document, principal).value, tenant, name) == ActiveVersion(rows, tenant, name)
  {
    hide ActiveVersion, DigestTaken, DigestDocument, MaxVersion;
    var after := Publish(c.suite, rows, t, n, document, principal).value;
    OneMoreInactive(rows, after[|rows|], tenant, name);
  }

  lemma {:induction false} OthersStay(rows: seq<Row>, t: string, n: string, version: int, tenant: string, name: string)
    requires t != tenant || n != name
    ensures ActiveVersion(SetActive(rows, t, n, version), tenant, name) == ActiveVersion(rows, tenant, name)
  {
    if rows != [] {
      assert SetActive(rows, t, n, version)[1..] == SetActive(rows[1..], t, n, version);
      OthersStay(rows[1..], t, n, version, tenant, name);
    }
  }

  lemma SwitchMoves(c: Config, rows: seq<Row>, t: string, n: string, version: int, tenant: string, name: string)
    requires TableHolds(c.suite, rows)
    ensures (t != tenant || n != name) ==> ActiveVersion(SetActive(rows, t, n, version), tenant, name) == ActiveVersion(rows, tenant, name)
    ensures t == tenant && n == name && HasVersion(rows, t, n, version) ==>
      ActiveVersion(SetActive(rows, t, n, version), tenant, name) == Some(version)
  {
    hide TableHolds, SetActive, ActiveVersion, HasVersion;
    if t != tenant || n != name {
      OthersStay(rows, t, n, version, tenant, name);
    } else if HasVersion(rows, t, n, version) {
      SetActiveMeaning(c.suite, rows, t, n, version);
    }
  }

  /** In every run, whenever the active version of a policy changes, the step commits a
      call for exactly the version that becomes active, which either was made by a
      principal whose role granted activation at that time, or carries a quorum of
      governors for promoting or rolling back exactly that version and digest. */
  lemma ActivationsWerePermitted(c: Config, w: World, events: seq<Event>, k: nat, tenant: string, name: string)
    requires Initial(w) && k < |events|
    requires ActiveVersion(Run(c, w, events[..k + 1]).rows, tenant, name) != ActiveVersion(Run(c, w, events[..k]).rows, tenant, name)
    ensures events[k].Commit? && events[k].caller in Run(c, w, events[..k]).callers
    ensures
      var before, after := Run(c, w, events[..k]), Run(c, w, events[..k + 1]);
      var caller := before.callers[events[k].caller];
      && (caller.Activating? || caller.Approved?)
      && caller.tenant == tenant && caller.name == name && ActiveVersion(after.rows, tenant, name) == Some(caller.version)
      && (caller.Activating? ==>
            exists j: nat :: RequestedAt(c, w, events[..k], tenant, name, caller.version, caller.principal, j))
      && (caller.Approved? ==>
            && caller.row < |before.rows| && caller.action in {Promote, Rollback}
            && 1 <= caller.approval.threshold <= |caller.approval.governors|
            && IsVerdict(c.suite, GovernorPanel(c, caller.approval, before.rows[caller.row].digest), caller.approval.approvals,
                         caller.approval.verdict)
            && caller.approval.verdict.met
            && caller.approval.verdict.statement
               == Some(Target(tenant, name, caller.version, before.rows[caller.row].digest, Fixed(caller.action))))
  {
    hide Run, Apply, TableHolds, ActiveVersion, RequestedAt, IsVerdict, GovernorPanel;
    var before, e := Run(c, w, events[..k]), events[k];
    RunStep(c, w, events, k);
    RunKeepsTable(c, w, events[..k], 0);
    RunHasHistory(c, w, events[..k]);
    StepActivates(c, before, e, tenant, name);
    var caller := before.callers[e.caller];
    assert CallerBacked(c, w, events[..k], caller);
    assert CallerHolds(c, before.rows, caller);
  }

  lemma RunStep(c: Config, w: World, events: seq<Event>, k: nat)
    requires k < |events|
    ensures Run(c, w, events[..k + 1]) == Apply(c, Run(c, w, events[..k]), events[k])
  {
    hide Apply;
    assert events[..k + 1][..k] == events[..k];
  }
}
