/**
 What an evaluation saw still held when its permit was executed: the tenant's roles
 and the active policy at the moment of evaluation are those the executing thread
 read under the lock.
 */
module ServerFreshness {
  import opened Hashing
  import opened Quorum
  import opened Permits
  import opened Rbac
  import opened Identity
  import opened Server
  import opened ServerSafety
  import opened ServerHistory
  import opened ServerDuties
  import Spending

  /** At event `k` this evaluation was made. */
  ghost predicate EvaluatedAt(c: Config, w: State, events: seq<Event>, id: Ref, evaluation: Evaluation, k: nat)
    requires w.vault.checkpoints != []
  {
    && k < |events| && events[k].Evaluate? && events[k].id == id
    && EvaluationOf(c, Before(c, w, events, k), events[k]) == Some(evaluation)
  }

  ghost predicate WasEvaluated(c: Config, w: State, events: seq<Event>, id: Ref, evaluation: Evaluation)
    requires w.vault.checkpoints != []
  {
    exists k: nat :: EvaluatedAt(c, w, events, id, evaluation, k)
  }

  lemma StillEvaluated(c: Config, w: State, front: seq<Event>, e: Event, id: Ref, evaluation: Evaluation)
    requires w.vault.checkpoints != [] && WasEvaluated(c, w, front, id, evaluation)
    ensures WasEvaluated(c, w, front + [e], id, evaluation)
  {
    hide Before, EvaluationOf;
    var k: nat :| EvaluatedAt(c, w, front, id, evaluation, k);
    EarlierStates(c, w, front, e, k);
    assert EvaluatedAt(c, w, front + [e], id, evaluation, k);
  }

  lemma StepEvaluations(c: Config, w: State, e: Event, id: Ref)
    requires w.vault.checkpoints != [] && id in Apply(c, w, e).store.evaluations
    ensures
      || (id in w.store.evaluations && Apply(c, w, e).store.evaluations[id] == w.store.evaluations[id])
      || (e.Evaluate? && e.id == id && EvaluationOf(c, w, e) == Some(Apply(c, w, e).store.evaluations[id]))
  {
    hide EvaluationOf, ApplyReconcile, ApplyStore, ApplyThread, BeginRequest, Spending.Spend;
    if e.Reconcile? {
      ReconcileKeepsEvaluations(c, w, e);
    } else if OnThread(e) {
      if e.thread in w.threads { ThreadKeepsEvaluations(c, w, e); }
    } else if !e.ForeignSpend? && !e.Restart? && !e.BeginExecute? {
      StoreEvaluations(c, w, e, id);
    }
  }

  lemma ReconcileKeepsEvaluations(c: Config, w: State, e: Event)
    requires e.Reconcile?
    ensures ApplyReconcile(c, w, e).store.evaluations == w.store.evaluations
  {
    hide IsVerdict, Confirms, Observable, ObserverPanel, May;
  }

  lemma ThreadKeepsEvaluations(c: Config, w: State, e: Event)
    requires w.vault.checkpoints != [] && OnThread(e) && e.thread in w.threads
    ensures ApplyThread(c, w, e, e.thread, w.threads[e.thread]).store.evaluations == w.store.evaluations
  {
    hide Vets, AdmitTask, Spending.ReadTrust, Spending.VerifyTask, Spending.Spend, Advance;
  }

  lemma StoreEvaluations(c: Config, w: State, e: Event, id: Ref)
    requires w.vault.checkpoints != [] && id in ApplyStore(c, w, e).store.evaluations
    ensures
      || (id in w.store.evaluations && ApplyStore(c, w, e).store.evaluations[id] == w.store.evaluations[id])
      || (e.Evaluate? && e.id == id && EvaluationOf(c, w, e) == Some(ApplyStore(c, w, e).store.evaluations[id]))
  {
    hide EvaluationOf, Minted, May, EffectValid, IsRole;
  }

  lemma {:induction false} EvaluationsWereMade(c: Config, w: State, events: seq<Event>, id: Ref)
    requires c.env.suite.Valid() && Initial(c, w) && id in Run(c, w, events).store.evaluations
    ensures WasEvaluated(c, w, events, id, Run(c, w, events).store.evaluations[id])
  {
    hide Apply, EvaluationOf, EvaluatedAt, ChainHolds;
    if events != [] {
      var front, e := events[..|events| - 1], events[|events| - 1];
      assert events == front + [e];
      StepEvaluations(c, Run(c, w, front), e, id);
      var evaluation := Run(c, w, events).store.evaluations[id];
      if id in Run(c, w, front).store.evaluations && evaluation == Run(c, w, front).store.evaluations[id] {
        EvaluationsWereMade(c, w, front, id);
        StillEvaluated(c, w, front, e, id, evaluation);
      } else {
        NowEvaluated(c, w, front, e, evaluation);
      }
    }
  }

  lemma NowEvaluated(c: Config, w: State, front: seq<Event>, e: Event, evaluation: Evaluation)
    requires w.vault.checkpoints != [] && e.Evaluate? && EvaluationOf(c, Run(c, w, front), e) == Some(evaluation)
    ensures WasEvaluated(c, w, front + [e], e.id, evaluation)
  {
    hide Run, EvaluationOf;
    EarlierStates(c, w, front, e, |front|);
    assert front[..|front|] == front;
    assert EvaluatedAt(c, w, front + [e], e.id, evaluation, |front|);
  }

  lemma EvaluationRoots(c: Config, w: State, e: Event)
    requires e.Evaluate? && EvaluationOf(c, w, e).Some?
    ensures
      var x := EvaluationOf(c, w, e).value;
      && x.expected.identity == IdentityRoot(c.env.suite, e.id.tenant, w.authority.roles)
      && Ref(e.id.tenant, x.policyName) in w.authority.active && x.expected.policy == w.authority.active[Ref(e.id.tenant, x.policyName)]
  {
    hide IdentityRoot, EvidenceRoot, IsDigest, May;
  }

  /** The role tables of a run, as they enter this tenant's identity root. */
  ghost function RoleInputs(c: Config, w: State, events: seq<Event>, tenant: string): set<Bytes>
    requires w.vault.checkpoints != []
  {
    set k | 0 <= k <= |events| :: IdentityInput(c.env.suite, tenant, Before(c, w, events, k).authority.roles)
  }

  lemma ExecutedRoots(c: Config, w: State, id: Ref)
    requires Inv(c, w) && id in w.store.executions
    ensures
      var x := w.store.executions[id];
      && x.permit in w.store.permits
      && var evaluation := EvaluationRef(x.permit, w.store.permits[x.permit]);
      && evaluation in w.store.evaluations
      && var e := w.store.evaluations[evaluation];
      && e.expected.identity == IdentityRoot(c.env.suite, x.permit.tenant, x.seen.roles)
      && Ref(x.permit.tenant, e.policyName) in x.seen.active
      && e.expected.policy == x.seen.active[Ref(x.permit.tenant, e.policyName)]
  {
    hide ChainHolds, LockHolds, ThreadsHold, CommitsHold, EvaluationHolds, ReconciliationHolds, IdentityRoot, Genuine;
    var x := w.store.executions[id];
    assert ExecutionHolds(c, w.store, w.vault.registry, x);
    assert PermitHolds(c, w.store, x.permit, w.store.permits[x.permit]);
  }

  /** For every execution of every run: its permit's evaluation was made at some event,
      and under the lock the executing thread saw the tenant with exactly the same
      principals and roles, and the same active version of that policy, as at that
      event, whatever was granted and activated in between. */
  lemma NothingChangedSinceEvaluation(c: Config, w: State, events: seq<Event>, id: Ref) returns (k: nat, i: nat, j: nat)
    requires c.env.suite.Valid() && Initial(c, w) && id in Run(c, w, events).store.executions
    requires CollisionFree(c.env.suite, RoleInputs(c, w, events, Run(c, w, events).store.executions[id].permit.tenant))
    ensures k < |events| && i <= j <= |events| && events[k].Evaluate?
    ensures
      var store, x := Run(c, w, events).store, Run(c, w, events).store.executions[id];
      && x.permit in store.permits && events[k].id == EvaluationRef(x.permit, store.permits[x.permit])
      && (forall m :: i <= m <= j ==> Run(c, w, events[..m]).holder == Some(x.thread))
      && var tenant, policy := x.permit.tenant, Ref(x.permit.tenant, events[k].policyName);
      && SameRoles(tenant, Run(c, w, events[..k]).authority.roles, Run(c, w, events[..j]).authority.roles)
      && policy in Run(c, w, events[..k]).authority.active && policy in Run(c, w, events[..i]).authority.active
      && Run(c, w, events[..k]).authority.active[policy] == Run(c, w, events[..i]).authority.active[policy]
  {
    hide Run, Apply, Inv, EvaluationOf, SameRoles, ChainHolds, IdentityRoot, IdentityInput;
    InitialInv(c, w);
    RunKeepsInv(c, w, events);
    var end, x := Run(c, w, events), Run(c, w, events).store.executions[id];
    ExecutedRoots(c, end, id);
    var evaluation := EvaluationRef(x.permit, end.store.permits[x.permit]);
    EvaluationsWereMade(c, w, events, evaluation);
    k :| EvaluatedAt(c, w, events, evaluation, end.store.evaluations[evaluation], k);
    i, j := ExecutionsSawAuthorityUnderTheLock(c, w, events, id);
    EvaluationRoots(c, Run(c, w, events[..k]), events[k]);
    EvaluationPolicy(c, Run(c, w, events[..k]), events[k]);
    var before, after := Before(c, w, events, k).authority.roles, Before(c, w, events, j).authority.roles;
    var inputs := {IdentityInput(c.env.suite, x.permit.tenant, before), IdentityInput(c.env.suite, x.permit.tenant, after)};
    assert inputs <= RoleInputs(c, w, events, x.permit.tenant);
    IdentityRootFixesRoles(c.env.suite, x.permit.tenant, x.permit.tenant, before, after);
  }

  lemma EvaluationPolicy(c: Config, w: State, e: Event)
    requires e.Evaluate? && EvaluationOf(c, w, e).Some?
    ensures EvaluationOf(c, w, e).value.policyName == e.policyName
  {
    hide IdentityRoot, EvidenceRoot, IsDigest, May;
  }
}
