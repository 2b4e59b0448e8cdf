/**
 Who minted and who executed: in every run the permits were minted by verifiers, and
 nobody mints and executes a permit in one role.
 */
module ServerDuties {
  import opened Hashing
  import opened Quorum
  import opened Permits
  import opened Rbac
  import opened Server
  import opened ServerSafety
  import opened ServerHistory
  import Spending

  /** At event `k` this permit was minted, by a principal who was a verifier then and is
      named as its issuer. */
  ghost predicate MintedAt(c: Config, w: State, events: seq<Event>, id: Ref, permit: Record, k: nat)
    requires w.vault.checkpoints != []
  {
    && k < |events| && events[k].Mint? && events[k].id == id
    && var issuer := Ref(id.tenant, events[k].principal);
    && issuer in Before(c, w, events, k).authority.roles
    && Before(c, w, events, k).authority.roles[issuer] == Fixed(Verifier)
    && Get(permit, Issuer) == Obj(map[PrincipalId := Str(events[k].principal), Role := Fixed(Verifier)])
  }

  ghost predicate WasMinted(c: Config, w: State, events: seq<Event>, id: Ref, permit: Record)
    requires w.vault.checkpoints != []
  {
    exists k: nat :: MintedAt(c, w, events, id, permit, k)
  }

  lemma StillMinted(c: Config, w: State, front: seq<Event>, e: Event, id: Ref, permit: Record)
    requires w.vault.checkpoints != [] && WasMinted(c, w, front, id, permit)
    ensures WasMinted(c, w, front + [e], id, permit)
  {
    hide Before;
    var k: nat :| MintedAt(c, w, front, id, permit, k);
    EarlierStates(c, w, front, e, k);
    assert MintedAt(c, w, front + [e], id, permit, k);
  }

  /** A permit either was there or is what this event mints. */
  lemma StepPermits(c: Config, w: State, e: Event, id: Ref)
    requires w.vault.checkpoints != [] && id in Apply(c, w, e).store.permits
    ensures
      || (id in w.store.permits && Apply(c, w, e).store.permits[id] == w.store.permits[id])
      || (e.Mint? && e.id == id && Minted(c, w, e) == Some(Apply(c, w, e).store.permits[id]))
  {
    hide Minted, ApplyReconcile, ApplyStore, ApplyThread, BeginRequest, Spending.Spend;
    if e.Reconcile? {
      ReconcileKeepsPermits(c, w, e);
    } else if OnThread(e) {
      if e.thread in w.threads { ThreadKeepsPermits(c, w, e); }
    } else if !e.ForeignSpend? && !e.Restart? && !e.BeginExecute? {
      StorePermits(c, w, e, id);
    }
  }

  lemma ThreadKeepsPermits(c: Config, w: State, e: Event)
    requires w.vault.checkpoints != [] && OnThread(e) && e.thread in w.threads
    ensures
      var after := ApplyThread(c, w, e, e.thread, w.threads[e.thread]);
      after.store.permits == w.store.permits && after.authority == w.authority
  {
    hide Vets, AdmitTask, Spending.ReadTrust, Spending.VerifyTask, Spending.Spend, Advance;
  }

  lemma StorePermits(c: Config, w: State, e: Event, id: Ref)
    requires w.vault.checkpoints != [] && id in ApplyStore(c, w, e).store.permits
    ensures
      || (id in w.store.permits && ApplyStore(c, w, e).store.permits[id] == w.store.permits[id])
      || (e.Mint? && e.id == id && Minted(c, w, e) == Some(ApplyStore(c, w, e).store.permits[id]))
  {
    hide EvaluationOf, Minted, May, EffectValid, IsRole;
  }

  lemma ReconcileKeepsPermits(c: Config, w: State, e: Event)
    requires e.Reconcile?
    ensures ApplyReconcile(c, w, e).store.permits == w.store.permits
    ensures ApplyReconcile(c, w, e).authority == w.authority
  {
    hide IsVerdict, Confirms, Observable, ObserverPanel, May;
  }

  lemma NewPermitMinted(c: Config, w: State, front: seq<Event>, e: Event, permit: Record)
    requires c.env.suite.Valid() && w.vault.checkpoints != [] && e.Mint? && Minted(c, Run(c, w, front), e) == Some(permit)
    ensures WasMinted(c, w, front + [e], e.id, permit)
  {
    hide Run, Minted, PermitHolds, Grants;
    MintedHolds(c, Run(c, w, front), e);
    EarlierStates(c, w, front, e, |front|);
    assert front[..|front|] == front;
    assert MintedAt(c, w, front + [e], e.id, permit, |front|);
  }

  lemma {:induction false} PermitsWereMinted(c: Config, w: State, events: seq<Event>, id: Ref)
    requires c.env.suite.Valid() && Initial(c, w) && id in Run(c, w, events).store.permits
    ensures WasMinted(c, w, events, id, Run(c, w, events).store.permits[id])
  {
    hide Apply, Minted, MintedAt, ChainHolds;
    if events != [] {
      var front, e := events[..|events| - 1], events[|events| - 1];
      assert events == front + [e];
      StepPermits(c, Run(c, w, front), e, id);
      var permit := Run(c, w, events).store.permits[id];
      if id in Run(c, w, front).store.permits && permit == Run(c, w, front).store.permits[id] {
        PermitsWereMinted(c, w, front, id);
        StillMinted(c, w, front, e, id, permit);
      } else {
        NewPermitMinted(c, w, front, e, permit);
      }
    }
  }

  /** In every run each stored permit names as its issuer a principal who was a verifier
      when it was minted. */
  lemma MintersWereVerifiers(c: Config, w: State, events: seq<Event>, id: Ref) returns (k: nat)
    requires c.env.suite.Valid() && Initial(c, w) && id in Run(c, w, events).store.permits
    ensures k < |events| && events[k].Mint? && events[k].id == id
    ensures
      var roles, issuer := Run(c, w, events[..k]).authority.roles, Ref(id.tenant, events[k].principal);
      && issuer in roles && roles[issuer] == Fixed(Verifier)
      && Get(Run(c, w, events).store.permits[id], Issuer) == Obj(map[PrincipalId := Str(events[k].principal), Role := Fixed(Verifier)])
  {
    hide Run, ChainHolds;
    PermitsWereMinted(c, w, events, id);
    k :| MintedAt(c, w, events, id, Run(c, w, events).store.permits[id], k);
  }

  // ----- separation of duties

  lemma StepRoles(c: Config, w: State, e: Event, who: Ref)
    requires w.vault.checkpoints != [] && !(e.GrantRole? && e.who == who)
    ensures who in Apply(c, w, e).authority.roles <==> who in w.authority.roles
    ensures who in w.authority.roles ==> Apply(c, w, e).authority.roles[who] == w.authority.roles[who]
  {
    hide EvaluationOf, Minted, ApplyReconcile, ApplyThread, BeginRequest, Spending.Spend, May, EffectValid, IsRole;
    if e.Reconcile? {
      ReconcileKeepsPermits(c, w, e);
    } else if OnThread(e) && e.thread in w.threads {
      ThreadKeepsPermits(c, w, e);
    }
  }

  /** Between two points of a run a role changes only by a grant to that principal. */
  ghost predicate GrantedBetween(events: seq<Event>, who: Ref, i: nat, j: nat) {
    exists k :: i <= k < j && k < |events| && events[k].GrantRole? && events[k].who == who
  }

  lemma {:induction false} RolesStay(c: Config, w: State, events: seq<Event>, who: Ref, i: nat, j: nat)
    requires w.vault.checkpoints != [] && i <= j <= |events| && !GrantedBetween(events, who, i, j)
    ensures
      var a, b := Run(c, w, events[..i]).authority.roles, Run(c, w, events[..j]).authority.roles;
      (who in a <==> who in b) && (who in a ==> b[who] == a[who])
    decreases j
  {
    hide Apply;
    if i < j {
      assert !GrantedBetween(events, who, i, j - 1);
      RolesStay(c, w, events, who, i, j - 1);
      assert events[..j][..j - 1] == events[..j - 1];
      StepRoles(c, Run(c, w, events[..j - 1]), events[j - 1], who);
    }
  }

  /** Separation of duties, in every run: whoever minted a permit as a verifier and also
      executed it was granted another role between the two. */
  lemma NobodyMintsAndExecutes(c: Config, w: State, events: seq<Event>, id: Ref) returns (minted: nat, executed: nat)
    requires c.env.suite.Valid() && Initial(c, w) && id in Run(c, w, events).store.executions
    ensures minted < |events| && executed <= |events|
    ensures
      var x := Run(c, w, events).store.executions[id];
      && events[minted].Mint? && events[minted].id == x.permit
      && Run(c, w, events[..executed]).holder == Some(x.thread)
      && (events[minted].principal == x.executedBy ==>
            GrantedBetween(events, Ref(x.permit.tenant, x.executedBy), if minted < executed then minted else executed,
                           if minted < executed then executed else minted))
  {
    hide Run, Apply, Inv, GrantedBetween;
    InitialInv(c, w);
    RunKeepsInv(c, w, events);
    var x := Run(c, w, events).store.executions[id];
    StoredPermit(c, Run(c, w, events), id);
    minted := MintersWereVerifiers(c, w, events, x.permit);
    var last;
    executed, last := ExecutionsSawAuthorityUnderTheLock(c, w, events, id);
    var who := Ref(x.permit.tenant, x.executedBy);
    var first, second := if minted < executed then minted else executed, if minted < executed then executed else minted;
    if events[minted].principal == x.executedBy && !GrantedBetween(events, who, first, second) {
      RolesStay(c, w, events, who, first, second);
    }
  }

  lemma StoredPermit(c: Config, w: State, id: Ref)
    requires Inv(c, w) && id in w.store.executions
    ensures w.store.executions[id].permit in w.store.permits
  {
    hide ChainHolds, LockHolds, ThreadsHold, CommitsHold, EvaluationHolds, PermitHolds, ReconciliationHolds;
    assert ExecutionHolds(c, w.store, w.vault.registry, w.store.executions[id]);
  }
}
