/**
 The two locked requests of `PilotControlPlane` in proofrail/server.py as methods
 of an object, handled one at a time.  They take the steps of the interleaved
 machine in order.
 */
module Pilot {
  import opened Hashing
  import opened Quorum
  import opened TrustState
  import opened Permits
  import opened Rbac
  import opened Server
  import opened ServerRequests
  import QuorumLoop
  import Spending

  datatype RequestError =
    | UnknownObject
    | NotAuthorized
    | Refused(code: PermitCode)
    | AdapterRaised
    | IdTaken
    | NotObservable
    | InvalidThreshold

  /** The state in which no thread has started. */
  function AtRest(authority: Authority, store: Store, vault: Vault): Server.State {
    Server.State.State(authority, store, vault, None, map[], [])
  }

  /** The registry with the claim of this permit. */
  predicate ClaimedNow(before: Registry, after: Registry, permit: Record, executor: string, at: string) {
    var h, nonce := TextOf(Get(permit, RecordHash)), TextOf(Get(permit, Nonce));
    h !in before && NonceFree(before, nonce) && after == before[h := Claim(nonce, executor, at)]
  }

  lemma SpendClaims(env: Env, registry: Registry, t: Spending.Task)
    requires Spending.Spend(env, registry, t).Ok?
    ensures ClaimedNow(registry, Spending.Spend(env, registry, t).value, t.permit, t.executorId, t.at)
  {
  }

  lemma AdmittedTask(c: Config, seen: Authority, checkpoint: Record, r: Request, now: int, at: string)
    requires AdmitTask(c, seen, checkpoint, r, now, at).Some?
    ensures
      var task := AdmitTask(c, seen, checkpoint, r, now, at).value;
      && task.MergeTask? && task.permit == r.permit && task.executorId == r.principal && task.at == at
      && task.checkpoint == Some(checkpoint)
  {
  }

  lemma VettedMayExecute(authority: Authority, r: Request)
    requires Vets(authority, r)
    ensures
      var who := Ref(r.tenant, r.principal);
      who in authority.roles && authority.roles[who] in {Fixed(Executor), Fixed(Operator), Fixed(Admin)}
  {
    hide Grants;
    WhoMay(authority.roles[Ref(r.tenant, r.principal)], ActionExecute);
  }

  lemma MayReconcile(authority: Authority, who: Ref)
    ensures May(authority.roles, who, OutcomeReconcile) <==>
      who in authority.roles && authority.roles[who] in {Fixed(Reconciler), Fixed(Admin)}
  {
    hide Grants;
    if who in authority.roles {
      WhoMay(authority.roles[who], OutcomeReconcile);
    }
  }

  lemma RequestOf(w: Server.State, tenant: string, principal: string, permitId: string)
    requires BeginRequest(w, tenant, principal, permitId).Some?
    ensures
      var r := BeginRequest(w, tenant, principal, permitId).value;
      && r.tenant == tenant && r.principal == principal && r.permitRef == Ref(tenant, permitId)
      && r.permitRef in w.store.permits && r.permit == w.store.permits[r.permitRef]
  {
  }

  // ----- one request, with nobody in between

  /** The steps of one execution request. */
  function ExecuteEvents(tenant: string, principal: string, permitId: string, now: int, at: string, reply: Option<AdapterReceipt>,
                         executionId: string): seq<Event> {
    [] + [BeginExecute(0, tenant, principal, permitId)] + [Acquire(0)] + [Vet(0)] + [Admit(0, now, at)] + [ReadState(0)]
    + [CheckPermit(0)] + [Transact(0)] + [CallProvider(0, reply)] + [WriteCheckpoint(0)] + [RecordExecution(0, executionId)]
  }

  /** What the interleaved machine makes of it. */
  ghost function ExecuteEnd(c: Config, authority: Authority, store: Store, vault: Vault, tenant: string, principal: string, permitId: string,
                            now: int, at: string, reply: Option<AdapterReceipt>, executionId: string): Server.State
    requires vault.checkpoints != []
  {
    Run(c, AtRest(authority, store, vault), ExecuteEvents(tenant, principal, permitId, now, at, reply, executionId))
  }

  lemma RunMore(c: Config, w: Server.State, events: seq<Event>, e: Event)
    requires w.vault.checkpoints != []
    ensures Run(c, w, events + [e]) == Apply(c, Run(c, w, events), e)
  {
    hide Apply;
    assert (events + [e])[..|events|] == events;
  }

  /** Thread 0 and the rest of the server are in this state. */
  predicate Lone(w: Server.State, authority: Authority, store: Store, vault: Vault, holder: Option<nat>, thread: Thread) {
    w.authority == authority && w.store == store && w.vault == vault && w.holder == holder && 0 in w.threads && w.threads[0] == thread
  }

  /** Nothing more happens to a request that has ended, or was never taken up. */
  predicate Ended(w: Server.State) {
    0 !in w.threads || w.threads[0].Over?
  }

  lemma EndedStays(c: Config, w: Server.State, e: Event)
    requires w.vault.checkpoints != [] && Ended(w) && OnThread(e) && e.thread == 0 && !e.Raise?
    ensures Apply(c, w, e) == w
  {
    if 0 in w.threads {
      hide Apply;
      ThreadApplies(c, w, e);
    }
  }

  lemma {:induction false} EndedRun(c: Config, w: Server.State, events: seq<Event>, more: seq<Event>)
    requires w.vault.checkpoints != [] && Ended(Run(c, w, events))
    requires forall i :: 0 <= i < |more| ==> OnThread(more[i]) && more[i].thread == 0 && !more[i].Raise?
    ensures Run(c, w, events + more) == Run(c, w, events)
  {
    hide Apply, Ended, OnThread;
    if more == [] {
      assert events + more == events;
    } else {
      var front, e := more[..|more| - 1], more[|more| - 1];
      assert events + more == (events + front) + [e];
      EndedRun(c, w, events, front);
      RunMore(c, w, events + front, e);
      EndedStays(c, Run(c, w, events), e);
    }
  }

  lemma Begins(c: Config, authority: Authority, store: Store, vault: Vault, tenant: string, principal: string, permitId: string)
    requires vault.checkpoints != []
    ensures
      var w := AtRest(authority, store, vault);
      var r, after := BeginRequest(w, tenant, principal, permitId), Apply(c, w, BeginExecute(0, tenant, principal, permitId));
      if r.None? then after == w else Lone(after, authority, store, vault, None, Waiting(r.value))
  {
    hide BeginRequest;
  }

  lemma ThreadApplies(c: Config, w: Server.State, e: Event)
    requires w.vault.checkpoints != [] && OnThread(e) && e.thread == 0 && 0 in w.threads
    ensures Apply(c, w, e) == ApplyThread(c, w, e, 0, w.threads[0])
  {
    hide ApplyThread, ApplyStore, ApplyReconcile, BeginRequest, Spending.Spend;
  }

  lemma Acquires(c: Config, w: Server.State, authority: Authority, store: Store, vault: Vault, r: Request)
    requires vault.checkpoints != [] && Lone(w, authority, store, vault, None, Waiting(r))
    ensures Lone(Apply(c, w, Acquire(0)), authority, store, vault, Some(0), Locked(r))
  {
    hide Apply, Vets, AdmitTask, Spending.ReadTrust, Spending.VerifyTask, Spending.Spend, Advance;
    ThreadApplies(c, w, Acquire(0));
  }

  lemma IsVetted(c: Config, w: Server.State, authority: Authority, store: Store, vault: Vault, r: Request)
    requires vault.checkpoints != [] && Lone(w, authority, store, vault, Some(0), Locked(r))
    ensures
      if Vets(authority, r) then Lone(Apply(c, w, Vet(0)), authority, store, vault, Some(0), Vetted(r, authority.active))
      else Lone(Apply(c, w, Vet(0)), authority, store, vault, None, Over)
  {
    hide Apply, Vets, AdmitTask, Spending.ReadTrust, Spending.VerifyTask, Spending.Spend, Advance;
    ThreadApplies(c, w, Vet(0));
  }

  lemma IsAdmitted(c: Config, w: Server.State, authority: Authority, store: Store, vault: Vault, r: Request, now: int, at: string)
    requires vault.checkpoints != [] && Lone(w, authority, store, vault, Some(0), Vetted(r, authority.active))
    ensures
      var task := AdmitTask(c, authority, Last(vault).checkpoint, r, now, at);
      if task.Some? then Lone(Apply(c, w, Admit(0, now, at)), authority, store, vault, Some(0), Admitted(r, authority, task.value))
      else Lone(Apply(c, w, Admit(0, now, at)), authority, store, vault, None, Over)
  {
    hide Apply, Vets, AdmitTask, Spending.ReadTrust, Spending.VerifyTask, Spending.Spend, Advance;
    ThreadApplies(c, w, Admit(0, now, at));
    assert Authority(authority.roles, authority.active) == authority;
  }

  lemma IsRead(c: Config, w: Server.State, authority: Authority, store: Store, vault: Vault, r: Request, task: Spending.Task)
    requires vault.checkpoints != [] && Lone(w, authority, store, vault, Some(0), Admitted(r, authority, task))
    ensures
      var values := Spending.ReadTrust(c.env, vault.registry, task);
      if values.Ok? then Lone(Apply(c, w, ReadState(0)), authority, store, vault, Some(0), Server.Checked(r, authority, task, values.value))
      else Lone(Apply(c, w, ReadState(0)), authority, store, vault, None, Over)
  {
    hide Apply, Vets, AdmitTask, Spending.ReadTrust, Spending.VerifyTask, Spending.Spend, Advance;
    ThreadApplies(c, w, ReadState(0));
  }

  lemma IsChecked(c: Config, w: Server.State, authority: Authority, store: Store, vault: Vault, r: Request, task: Spending.Task,
                  values: Option<TrustValues>)
    requires vault.checkpoints != [] && Lone(w, authority, store, vault, Some(0), Server.Checked(r, authority, task, values))
    ensures
      if Spending.VerifyTask(c.env, task, values).None?
      then Lone(Apply(c, w, CheckPermit(0)), authority, store, vault, Some(0), Server.Verified(r, authority, task))
      else Lone(Apply(c, w, CheckPermit(0)), authority, store, vault, None, Over)
  {
    hide Apply, Vets, AdmitTask, Spending.ReadTrust, Spending.VerifyTask, Spending.Spend, Advance;
    ThreadApplies(c, w, CheckPermit(0));
  }

  lemma IsSpent(c: Config, w: Server.State, authority: Authority, store: Store, vault: Vault, r: Request, task: Spending.Task)
    requires vault.checkpoints != [] && Lone(w, authority, store, vault, Some(0), Server.Verified(r, authority, task))
    ensures
      var spent := Spending.Spend(c.env, vault.registry, task);
      if spent.Ok? then
        Lone(Apply(c, w, Transact(0)), authority, store, vault.(registry := spent.value), Some(0), Server.Claimed(r, authority, task))
      else Lone(Apply(c, w, Transact(0)), authority, store, vault, None, Over)
  {
    hide Apply, Vets, AdmitTask, Spending.ReadTrust, Spending.VerifyTask, Spending.Spend, Advance;
    ThreadApplies(c, w, Transact(0));
  }

  lemma IsCalled(c: Config, w: Server.State, authority: Authority, store: Store, vault: Vault, r: Request, task: Spending.Task,
                 reply: Option<AdapterReceipt>)
    requires vault.checkpoints != [] && Lone(w, authority, store, vault, Some(0), Server.Claimed(r, authority, task))
    ensures
      if reply.Some? then Lone(Apply(c, w, CallProvider(0, reply)), authority, store, vault, Some(0), Called(r, authority, task, reply.value))
      else Lone(Apply(c, w, CallProvider(0, reply)), authority, store, vault, None, Over)
  {
    hide Apply, Vets, AdmitTask, Spending.ReadTrust, Spending.VerifyTask, Spending.Spend, Advance;
    ThreadApplies(c, w, CallProvider(0, reply));
  }

  lemma IsWritten(c: Config, w: Server.State, authority: Authority, store: Store, vault: Vault, r: Request, task: Spending.Task,
                  receipt: AdapterReceipt)
    requires vault.checkpoints != [] && task.checkpoint.Some?
    requires Lone(w, authority, store, vault, Some(0), Called(r, authority, task, receipt))
    ensures Lone(Apply(c, w, WriteCheckpoint(0)), authority, store, Advance(c, vault, task.checkpoint.value, None), None,
                 Written(r, authority, task, receipt))
  {
    hide Apply, Vets, AdmitTask, Spending.ReadTrust, Spending.VerifyTask, Spending.Spend, Advance;
    ThreadApplies(c, w, WriteCheckpoint(0));
  }

  lemma RecordStep(c: Config, w: Server.State, r: Request, seen: Authority, task: Spending.Task, receipt: AdapterReceipt, id: string)
    requires w.vault.checkpoints != []
    ensures
      var ref := Ref(r.tenant, id);
      var x := Execution(r.permitRef, TextOf(Get(r.permit, RecordHash)), r.principal, receipt, 0, seen);
      ApplyThread(c, w, RecordExecution(0, id), 0, Written(r, seen, task, receipt)) ==
        if ref in w.store.executions then WithThread(w, 0, Over)
        else WithThread(w, 0, Over).(store := w.store.(executions := w.store.executions[ref := x]))
  {
    hide Vets, AdmitTask, Spending.ReadTrust, Spending.VerifyTask, Spending.Spend, Advance;
  }

  lemma IsRecorded(c: Config, w: Server.State, authority: Authority, store: Store, vault: Vault, r: Request, task: Spending.Task,
                   receipt: AdapterReceipt, id: string)
    requires vault.checkpoints != [] && Lone(w, authority, store, vault, None, Written(r, authority, task, receipt))
    ensures
      var ref := Ref(r.tenant, id);
      var x := Execution(r.permitRef, TextOf(Get(r.permit, RecordHash)), r.principal, receipt, 0, authority);
      Lone(Apply(c, w, RecordExecution(0, id)), authority,
           if ref in store.executions then store else store.(executions := store.executions[ref := x]), vault, None, Over)
  {
    hide Apply, ApplyThread;
    ThreadApplies(c, w, RecordExecution(0, id));
    RecordStep(c, w, r, authority, task, receipt, id);
  }

  /** How far a request gets on its own, and what it leaves. */
  datatype Left = Left(store: Store, vault: Vault)

  /** From the claim on. */
  function ClaimedOutcome(c: Config, authority: Authority, store: Store, vault: Vault, r: Request, task: Spending.Task,
                          reply: Option<AdapterReceipt>, executionId: string): Left
    requires vault.checkpoints != [] && task.checkpoint.Some?
  {
    var ref := Ref(r.tenant, executionId);
    if reply.None? then Left(store, vault)
    else
      var x := Execution(r.permitRef, TextOf(Get(r.permit, RecordHash)), r.principal, reply.value, 0, authority);
      Left(if ref in store.executions then store else store.(executions := store.executions[ref := x]),
              Advance(c, vault, task.checkpoint.value, None))
  }

  lemma FromClaim(c: Config, start: Server.State, events: seq<Event>, authority: Authority, store: Store, vault: Vault, r: Request,
                  task: Spending.Task, reply: Option<AdapterReceipt>, executionId: string)
    requires start.vault.checkpoints != [] && vault.checkpoints != [] && task.checkpoint.Some?
    requires Lone(Run(c, start, events), authority, store, vault, Some(0), Server.Claimed(r, authority, task))
    ensures
      var end := Run(c, start, events + [CallProvider(0, reply)] + [WriteCheckpoint(0)] + [RecordExecution(0, executionId)]);
      Left(end.store, end.vault) == ClaimedOutcome(c, authority, store, vault, r, task, reply, executionId)
  {
    hide Run, Apply, Advance;
    var called := events + [CallProvider(0, reply)];
    var written := called + [WriteCheckpoint(0)];
    RunMore(c, start, events, CallProvider(0, reply));
    RunMore(c, start, called, WriteCheckpoint(0));
    RunMore(c, start, written, RecordExecution(0, executionId));
    IsCalled(c, Run(c, start, events), authority, store, vault, r, task, reply);
    if reply.None? {
      EndedStays(c, Run(c, start, called), WriteCheckpoint(0));
      EndedStays(c, Run(c, start, written), RecordExecution(0, executionId));
    } else {
      IsWritten(c, Run(c, start, called), authority, store, vault, r, task, reply.value);
      IsRecorded(c, Run(c, start, written), authority, store, Advance(c, vault, task.checkpoint.value, None), r, task, reply.value,
                 executionId);
    }
  }

  /** The reads, the verification and the transaction of `execute_github_merge`. */
  function CheckedSpend(env: Env, registry: Registry, task: Spending.Task): Result<Registry, PermitCode> {
    var values := Spending.ReadTrust(env, registry, task);
    if values.Err? then Err(values.error)
    else
      var problem := Spending.VerifyTask(env, task, values.value);
      if problem.Some? then Err(problem.value) else Spending.Spend(env, registry, task)
  }

  /** From the reads under the lock on. */
  function AdmittedOutcome(c: Config, authority: Authority, store: Store, vault: Vault, r: Request, task: Spending.Task,
                           reply: Option<AdapterReceipt>, executionId: string): Left
    requires vault.checkpoints != [] && task.checkpoint.Some?
  {
    var spent := CheckedSpend(c.env, vault.registry, task);
    if spent.Err? then Left(store, vault)
    else ClaimedOutcome(c, authority, store, vault.(registry := spent.value), r, task, reply, executionId)
  }

  lemma FromAdmission(c: Config, start: Server.State, events: seq<Event>, authority: Authority, store: Store, vault: Vault, r: Request,
                      task: Spending.Task, reply: Option<AdapterReceipt>, executionId: string)
    requires start.vault.checkpoints != [] && vault.checkpoints != [] && task.checkpoint.Some?
    requires Lone(Run(c, start, events), authority, store, vault, Some(0), Admitted(r, authority, task))
    ensures
      var end := Run(c, start, events + [ReadState(0)] + [CheckPermit(0)] + [Transact(0)]
                               + [CallProvider(0, reply)] + [WriteCheckpoint(0)] + [RecordExecution(0, executionId)]);
      Left(end.store, end.vault) == AdmittedOutcome(c, authority, store, vault, r, task, reply, executionId)
  {
    hide Run, Apply, ClaimedOutcome, Spending.ReadTrust, Spending.VerifyTask, Spending.Spend;
    var read := events + [ReadState(0)];
    var checked := read + [CheckPermit(0)];
    var spent := checked + [Transact(0)];
    var rest := [CallProvider(0, reply)] + [WriteCheckpoint(0)] + [RecordExecution(0, executionId)];
    assert spent + [CallProvider(0, reply)] + [WriteCheckpoint(0)] + [RecordExecution(0, executionId)] == spent + rest;
    RunMore(c, start, events, ReadState(0));
    RunMore(c, start, read, CheckPermit(0));
    RunMore(c, start, checked, Transact(0));
    IsRead(c, Run(c, start, events), authority, store, vault, r, task);
    var values := Spending.ReadTrust(c.env, vault.registry, task);
    if values.Err? {
      EndedStays(c, Run(c, start, read), CheckPermit(0));
      EndedStays(c, Run(c, start, checked), Transact(0));
      EndedRun(c, start, spent, rest);
    } else {
      IsChecked(c, Run(c, start, read), authority, store, vault, r, task, values.value);
      if Spending.VerifyTask(c.env, task, values.value).Some? {
        EndedStays(c, Run(c, start, checked), Transact(0));
        EndedRun(c, start, spent, rest);
      } else {
        IsSpent(c, Run(c, start, checked), authority, store, vault, r, task);
        var outcome := Spending.Spend(c.env, vault.registry, task);
        if outcome.Err? {
          EndedRun(c, start, spent, rest);
        } else {
          FromClaim(c, start, spent, authority, store, vault.(registry := outcome.value), r, task, reply, executionId);
        }
      }
    }
  }

  /** From the request on. */
  function ExecuteOutcome(c: Config, authority: Authority, store: Store, vault: Vault, tenant: string, principal: string, permitId: string,
                          now: int, at: string, reply: Option<AdapterReceipt>, executionId: string): Left
    requires vault.checkpoints != []
  {
    var request := BeginRequest(AtRest(authority, store, vault), tenant, principal, permitId);
    if request.None? || !Vets(authority, request.value) then Left(store, vault)
    else
      var task := AdmitTask(c, authority, Last(vault).checkpoint, request.value, now, at);
      if task.None? || task.value.checkpoint.None? then Left(store, vault)
      else AdmittedOutcome(c, authority, store, vault, request.value, task.value, reply, executionId)
  }

  /** The interleaved machine comes to the same outcome when nobody is in between. */
  lemma ExecuteAlone(c: Config, authority: Authority, store: Store, vault: Vault, tenant: string, principal: string, permitId: string,
                     now: int, at: string, reply: Option<AdapterReceipt>, executionId: string)
    requires vault.checkpoints != []
    ensures
      var end := ExecuteEnd(c, authority, store, vault, tenant, principal, permitId, now, at, reply, executionId);
      Left(end.store, end.vault)
      == ExecuteOutcome(c, authority, store, vault, tenant, principal, permitId, now, at, reply, executionId)
  {
    hide Run, Apply, BeginRequest, Vets, AdmitTask, AdmittedOutcome;
    var start := AtRest(authority, store, vault);
    var begun := [] + [BeginExecute(0, tenant, principal, permitId)];
    var locked := begun + [Acquire(0)];
    var vetted := locked + [Vet(0)];
    var admitted := vetted + [Admit(0, now, at)];
    var rest := [ReadState(0)] + [CheckPermit(0)] + [Transact(0)] + [CallProvider(0, reply)] + [WriteCheckpoint(0)]
                + [RecordExecution(0, executionId)];
    assert ExecuteEvents(tenant, principal, permitId, now, at, reply, executionId) == admitted + rest;
    NothingRun(c, start);
    RunMore(c, start, [], BeginExecute(0, tenant, principal, permitId));
    RunMore(c, start, begun, Acquire(0));
    RunMore(c, start, locked, Vet(0));
    RunMore(c, start, vetted, Admit(0, now, at));
    Begins(c, authority, store, vault, tenant, principal, permitId);
    var request := BeginRequest(start, tenant, principal, permitId);
    if request.None? {
      EndedStays(c, Run(c, start, begun), Acquire(0));
      EndedStays(c, Run(c, start, locked), Vet(0));
      EndedStays(c, Run(c, start, vetted), Admit(0, now, at));
      EndedRun(c, start, admitted, rest);
    } else {
      Acquires(c, Run(c, start, begun), authority, store, vault, request.value);
      IsVetted(c, Run(c, start, locked), authority, store, vault, request.value);
      if !Vets(authority, request.value) {
        EndedStays(c, Run(c, start, vetted), Admit(0, now, at));
        EndedRun(c, start, admitted, rest);
      } else {
        IsAdmitted(c, Run(c, start, vetted), authority, store, vault, request.value, now, at);
        var task := AdmitTask(c, authority, Last(vault).checkpoint, request.value, now, at);
        if task.None? {
          EndedRun(c, start, admitted, rest);
        } else {
          AdmittedTask(c, authority, Last(vault).checkpoint, request.value, now, at);
          FromAdmission(c, start, admitted, authority, store, vault, request.value, task.value, reply, executionId);
        }
      }
    }
  }

  lemma NothingRun(c: Config, w: Server.State)
    requires w.vault.checkpoints != []
    ensures Run(c, w, []) == w
  {
  }

  class PilotControlPlane {
    const c: Config
    var authority: Authority
    var store: Store
    var vault: Vault

    constructor (c: Config, authority: Authority, vault: Vault)
      requires ChainHolds(c, vault)
      ensures this.c == c && this.authority == authority && this.vault == vault && ChainHolds(this.c, this.vault)
      ensures store == Store(map[], map[], map[], map[], map[], map[])
    {
      hide ChainHolds;
      this.c, this.authority, this.vault := c, authority, vault;
      store := Store(map[], map[], map[], map[], map[], map[]);
    }

    /** `execute_github_merge` of proofrail/permit.py: the permit is claimed before the
        adapter is called, and stays claimed when the adapter raises. */
    method ExecutePermit(task: Spending.Task, reply: Option<AdapterReceipt>) returns (r: Result<AdapterReceipt, RequestError>)
      requires ChainHolds(c, vault)
      modifies this`vault
      ensures ChainHolds(c, vault) && vault.checkpoints == old(vault).checkpoints
      ensures
        var spent := CheckedSpend(c.env, old(vault).registry, task);
        && vault == old(vault).(registry := if spent.Ok? then spent.value else old(vault).registry)
        && r == if spent.Err? then Err(Refused(spent.error)) else if reply.None? then Err(AdapterRaised) else Ok(reply.value)
      ensures r.Ok? || r.error.AdapterRaised? ==>
        ClaimedNow(old(vault).registry, vault.registry, task.permit, task.executorId, task.at)
    {
      hide ChainHolds, Spending.ReadTrust, Spending.VerifyTask, Spending.Spend;
      var values := Spending.ReadTrust(c.env, vault.registry, task);
      if values.Err? {
        return Err(Refused(values.error));
      }
      var problem := Spending.VerifyTask(c.env, task, values.value);
      if problem.Some? {
        return Err(Refused(problem.value));
      }
      var spent := Spending.Spend(c.env, vault.registry, task);
      if spent.Err? {
        return Err(Refused(spent.error));
      }
      SpendClaims(c.env, vault.registry, task);
      SpendKeepsChain(c, vault, task);
      vault := vault.(registry := spent.value);
      r := if reply.None? then Err(AdapterRaised) else Ok(reply.value);
    }

    /** The next checkpoint, and the execution record. */
    method Finish(request: Request, task: Spending.Task, receipt: AdapterReceipt, executionId: string) returns (r: Result<Execution, RequestError>)
      requires c.env.suite.Valid() && ChainHolds(c, vault) && vault.checkpoints != [] && task.checkpoint == Some(Last(vault).checkpoint)
      modifies this`store, this`vault
      ensures ChainHolds(c, vault) && vault == Advance(c, old(vault), Last(old(vault)).checkpoint, None)
      ensures
        var ref := Ref(request.tenant, executionId);
        var x := Execution(request.permitRef, TextOf(Get(request.permit, RecordHash)), request.principal, receipt, 0, authority);
        && r == (if ref in old(store).executions then Err(IdTaken) else Ok(x))
        && store == if r.Ok? then old(store).(executions := old(store).executions[ref := x]) else old(store)
    {
      hide ChainHolds, NextCheckpoint;
      AdvanceKeepsChain(c, vault, None);
      vault := Advance(c, vault, task.checkpoint.value, None);
      var ref := Ref(request.tenant, executionId);
      if ref in store.executions {
        return Err(IdTaken);
      }
      var execution := Execution(request.permitRef, TextOf(Get(request.permit, RecordHash)), request.principal, receipt, 0, authority);
      store := store.(executions := store.executions[ref := execution]);
      r := Ok(execution);
    }

    /** `_execute_github_merge`: a refused request changes nothing; an adapter that
        raises leaves the claim and the old checkpoint; otherwise the permit is
        claimed, the next checkpoint commits to that registry, and the execution
        is recorded with the authority state it was checked against. */
    method ExecuteGithubMerge(tenant: string, principal: string, permitId: string, now: int, at: string,
                              reply: Option<AdapterReceipt>, executionId: string) returns (r: Result<Execution, RequestError>)
      requires c.env.suite.Valid() && ChainHolds(c, vault)
      modifies this`store, this`vault
      ensures ChainHolds(c, vault) && old(vault).checkpoints != []
      ensures Left(store, vault)
        == ExecuteOutcome(c, authority, old(store), old(vault), tenant, principal, permitId, now, at, reply, executionId)
      ensures r.Err? && !r.error.AdapterRaised? && !r.error.IdTaken? ==> vault == old(vault)
      ensures r.Err? ==> store == old(store)
      ensures r.Ok? || r.error.AdapterRaised? || r.error.IdTaken? ==>
        && Ref(tenant, permitId) in old(store).permits
        && ClaimedNow(old(vault).registry, vault.registry, old(store).permits[Ref(tenant, permitId)], principal, at)
      ensures r.Ok? || r.error.AdapterRaised? || r.error.IdTaken? ==>
        && Ref(tenant, principal) in authority.roles
        && authority.roles[Ref(tenant, principal)] in {Fixed(Executor), Fixed(Operator), Fixed(Admin)}
      ensures r.Err? && r.error.AdapterRaised? ==> reply.None? && vault.checkpoints == old(vault).checkpoints
      ensures r.Ok? ==>
        && reply.Some?
        && vault == Advance(c, Vault(vault.registry, old(vault).checkpoints), Last(old(vault)).checkpoint, None)
        && store == old(store).(executions := old(store).executions[Ref(tenant, executionId) := r.value])
        && r.value.permit == Ref(tenant, permitId) && r.value.executedBy == principal && r.value.permitHash in vault.registry
        && r.value.receipt == reply.value && r.value.seen == authority
    {
      hide ChainHolds, BeginRequest, Vets, AdmitTask, NextCheckpoint, NonceFree;
      assert vault.checkpoints != [] by { NotEmpty(c, vault); }
      hide CheckedSpend;
      ghost var rest := AtRest(authority, store, vault);
      var request := BeginRequest(AtRest(authority, store, vault), tenant, principal, permitId);
      if request.None? {
        return Err(UnknownObject);
      }
      RequestOf(rest, tenant, principal, permitId);
      if !Vets(authority, request.value) {
        return Err(NotAuthorized);
      }
      VettedMayExecute(authority, request.value);
      var checkpoint := Last(vault).checkpoint;
      var admitted := AdmitTask(c, authority, checkpoint, request.value, now, at);
      if admitted.None? {
        return Err(NotAuthorized);
      }
      AdmittedTask(c, authority, checkpoint, request.value, now, at);
      var task := admitted.value;
      var receipt := ExecutePermit(task, reply);
      if receipt.Err? {
        return Err(receipt.error);
      }
      r := Finish(request.value, task, receipt.value, executionId);
    }

    /** `_reconcile_github_merge` with a quorum of observers: the record holds their
        verdict, it is confirmed exactly by the test for RECONCILED, and the
        checkpoint is refreshed exactly when the quorum was met. */
    method ReconcileGithubMerge(id: Ref, principal: string, executionId: string, attestations: seq<Record>)
      returns (r: Result<Reconciliation, RequestError>)
      requires c.env.suite.Valid() && ChainHolds(c, vault)
      modifies this`store, this`vault
      ensures ChainHolds(c, vault)
      ensures r.Err? ==> vault == old(vault) && store == old(store)
      ensures r.Ok? <==>
        && Ref(id.tenant, principal) in authority.roles && authority.roles[Ref(id.tenant, principal)] in {Fixed(Reconciler), Fixed(Admin)}
        && id !in old(store).reconciliations
        && Ref(id.tenant, executionId) in old(store).executions
        && var permitRef := old(store).executions[Ref(id.tenant, executionId)].permit;
        && permitRef in old(store).permits
        && '/' in TextOf(Get(EffectOf(old(store).permits[permitRef]), Repository))
        && 1 <= c.threshold <= |c.observers|
      ensures r.Ok? ==>
        && Ref(id.tenant, principal) in authority.roles && authority.roles[Ref(id.tenant, principal)] in {Fixed(Reconciler), Fixed(Admin)}
        && r.value.execution == Ref(id.tenant, executionId) && r.value.execution in old(store).executions
        && var x := old(store).executions[r.value.execution];
        && x.permit in old(store).permits
        && var permit := old(store).permits[x.permit];
        && IsVerdict(c.env.suite, ObserverPanel(c, permit), attestations, r.value.verdict)
        && (r.value.confirmed <==> Confirms(r.value.verdict, x.receipt, permit))
        && store == old(store).(reconciliations := old(store).reconciliations[id := r.value])
      ensures r.Ok? ==>
        var verdict := r.value.verdict;
        vault == if verdict.met then Advance(c, old(vault), Last(old(vault)).checkpoint, Some(verdict.observationRoot))
                 else old(vault)
    {
      hide ChainHolds, IsVerdict, Confirms, NextCheckpoint, May;
      assert vault.checkpoints != [] by { NotEmpty(c, vault); }
      MayReconcile(authority, Ref(id.tenant, principal));
      if !May(authority.roles, Ref(id.tenant, principal), OutcomeReconcile) {
        return Err(NotAuthorized);
      }
      var execution := Ref(id.tenant, executionId);
      if execution !in store.executions || store.executions[execution].permit !in store.permits {
        return Err(UnknownObject);
      }
      var x := store.executions[execution];
      var permit := store.permits[x.permit];
      SplitsAtSlash(TextOf(Get(EffectOf(permit), Repository)));
      if !Observable(permit) {
        return Err(NotObservable);
      }
      var quorum := QuorumLoop.VerifyQuorum(c.env.suite, ObserverPanel(c, permit), attestations);
      if quorum.Err? {
        return Err(InvalidThreshold);
      }
      if id in store.reconciliations {
        return Err(IdTaken);
      }
      var record := Reconciliation(execution, attestations, quorum.value, Confirms(quorum.value, x.receipt, permit));
      store := store.(reconciliations := store.reconciliations[id := record]);
      if quorum.value.met {
        AdvanceKeepsChain(c, vault, Some(quorum.value.observationRoot));
        vault := Advance(c, vault, Last(vault).checkpoint, Some(quorum.value.observationRoot));
      }
      r := Ok(record);
    }
  }

  lemma NotEmpty(c: Config, v: Vault)
    requires ChainHolds(c, v)
    ensures v.checkpoints != []
  {
  }
}
