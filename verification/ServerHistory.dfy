/**
 What an executing thread of the server read, and when: the authority state kept
 with an execution was in force while that thread held the trust lock.
 */
module ServerHistory {
  import opened Hashing
  import opened Quorum
  import opened Rbac
  import opened Server
  import opened ServerSafety
  import Spending

  /** The state after the first `k` events. */
  ghost function Before(c: Config, w: State, events: seq<Event>, k: nat): (at: State)
    requires w.vault.checkpoints != [] && k <= |events|
    ensures at.vault.checkpoints != []
  {
    Run(c, w, events[..k])
  }

  /** The thread held the lock at every point from `i` to `j`. */
  ghost predicate HeldLock(c: Config, w: State, events: seq<Event>, t: nat, i: nat, j: nat)
    requires w.vault.checkpoints != []
  {
    i <= j <= |events| && forall k :: i <= k <= j ==> Before(c, w, events, k).holder == Some(t)
  }

  /** At point `i` the thread was authorized and these policies were active. */
  ghost predicate SawPolicies(c: Config, w: State, events: seq<Event>, r: Request, active: map<Ref, string>, i: nat)
    requires w.vault.checkpoints != []
  {
    i <= |events| && Vets(Before(c, w, events, i).authority, r) && Before(c, w, events, i).authority.active == active
  }

  /** Holding the lock from `i` to `j`, the thread saw the policies at `i` and the
      roles at `j`. */
  ghost predicate SawAuthority(c: Config, w: State, events: seq<Event>, t: nat, r: Request, seen: Authority, i: nat, j: nat)
    requires w.vault.checkpoints != []
  {
    && HeldLock(c, w, events, t, i, j)
    && SawPolicies(c, w, events, r, seen.active, i)
    && Before(c, w, events, j).authority.roles == seen.roles
  }

  /** The authority state a thread carries after its admission. */
  function Carried(thread: Thread): Option<(Request, Authority)> {
    match thread
    case Admitted(r, seen, _) => Some((r, seen))
    case Checked(r, seen, _, _) => Some((r, seen))
    case Verified(r, seen, _) => Some((r, seen))
    case Claimed(r, seen, _) => Some((r, seen))
    case Called(r, seen, _, _) => Some((r, seen))
    case Written(r, seen, _, _) => Some((r, seen))
    case _ => None
  }

  ghost predicate ThreadSaw(c: Config, w: State, events: seq<Event>, t: nat, thread: Thread)
    requires w.vault.checkpoints != []
  {
    && (thread.Vetted? ==> exists i ::
          HeldLock(c, w, events, t, i, |events|) && SawPolicies(c, w, events, thread.r, thread.active, i))
    && (Carried(thread).Some? ==> exists i, j ::
          SawAuthority(c, w, events, t, Carried(thread).value.0, Carried(thread).value.1, i, j))
  }

  /** The request behind an execution. */
  predicate RequestOf(r: Request, x: Execution) {
    r.permitRef == x.permit && r.tenant == x.permit.tenant && r.principal == x.executedBy
  }

  ghost predicate ExecutionSaw(c: Config, w: State, events: seq<Event>, x: Execution)
    requires w.vault.checkpoints != []
  {
    exists r: Request, i, j :: RequestOf(r, x) && SawAuthority(c, w, events, x.thread, r, x.seen, i, j)
  }

  ghost predicate History(c: Config, w: State, events: seq<Event>)
    requires w.vault.checkpoints != []
  {
    && (forall t :: t in Run(c, w, events).threads ==> ThreadSaw(c, w, events, t, Run(c, w, events).threads[t]))
    && (forall x :: x in Run(c, w, events).store.executions ==> ExecutionSaw(c, w, events, Run(c, w, events).store.executions[x]))
  }

  // ----- one more event

  lemma EarlierStates(c: Config, w: State, front: seq<Event>, e: Event, k: nat)
    requires w.vault.checkpoints != [] && k <= |front|
    ensures Before(c, w, front + [e], k) == Before(c, w, front, k)
  {
    assert (front + [e])[..k] == front[..k];
  }

  lemma StillSawAuthority(c: Config, w: State, front: seq<Event>, e: Event, t: nat, r: Request, seen: Authority, i: nat, j: nat)
    requires w.vault.checkpoints != [] && SawAuthority(c, w, front, t, r, seen, i, j)
    ensures SawAuthority(c, w, front + [e], t, r, seen, i, j)
  {
    hide Before, Vets;
    forall k: nat | k <= |front| { EarlierStates(c, w, front, e, k); }
  }

  lemma StillHolds(c: Config, w: State, front: seq<Event>, e: Event, t: nat, r: Request, active: map<Ref, string>, i: nat)
    requires w.vault.checkpoints != [] && HeldLock(c, w, front, t, i, |front|) && SawPolicies(c, w, front, r, active, i)
    requires Run(c, w, front + [e]).holder == Some(t)
    ensures HeldLock(c, w, front + [e], t, i, |front| + 1) && SawPolicies(c, w, front + [e], r, active, i)
  {
    hide Run, Vets;
    forall k: nat | k <= |front| { EarlierStates(c, w, front, e, k); }
    assert (front + [e])[..|front| + 1] == front + [e];
  }

  lemma StillExecutionSaw(c: Config, w: State, front: seq<Event>, e: Event, x: Execution)
    requires w.vault.checkpoints != [] && ExecutionSaw(c, w, front, x)
    ensures ExecutionSaw(c, w, front + [e], x)
  {
    hide SawAuthority;
    var r: Request, i, j :| RequestOf(r, x) && SawAuthority(c, w, front, x.thread, r, x.seen, i, j);
    StillSawAuthority(c, w, front, e, x.thread, r, x.seen, i, j);
  }

  /** How a thread's state can change. */
  predicate Moves(c: Config, w: State, t: nat, after: Thread) {
    || (t in w.threads && after == w.threads[t])
    || (!after.Vetted? && Carried(after).None?)
    || (t in w.threads && w.threads[t].Locked? && after == Vetted(w.threads[t].r, w.authority.active)
        && Vets(w.authority, w.threads[t].r))
    || (t in w.threads && w.threads[t].Vetted?
        && Carried(after) == Some((w.threads[t].r, Authority(w.authority.roles, w.threads[t].active))))
    || (t in w.threads && Carried(after).Some? && Carried(after) == Carried(w.threads[t]))
  }

  lemma ThreadStepMoves(c: Config, w: State, e: Event, t: nat)
    requires w.vault.checkpoints != [] && OnThread(e) && e.thread in w.threads
    requires t in ApplyThread(c, w, e, e.thread, w.threads[e.thread]).threads
    ensures Moves(c, w, t, ApplyThread(c, w, e, e.thread, w.threads[e.thread]).threads[t])
  {
    hide Vets, AdmitTask, Spending.ReadTrust, Spending.VerifyTask, Spending.Spend, Advance;
  }

  lemma StepMoves(c: Config, w: State, e: Event, t: nat)
    requires w.vault.checkpoints != [] && t in Apply(c, w, e).threads
    ensures Moves(c, w, t, Apply(c, w, e).threads[t])
  {
    hide ApplyThread, ApplyStore, ApplyReconcile, BeginRequest, Spending.Spend, Vets;
    if e.Reconcile? {
      ReconcileThreads(c, w, e, t);
    } else if OnThread(e) {
      if e.thread in w.threads { ThreadStepMoves(c, w, e, t); }
    } else {
      StoreStepKeepsThreads(c, w, e);
    }
  }

  lemma ReconcileThreads(c: Config, w: State, e: Event, t: nat)
    requires e.Reconcile?
    ensures ApplyReconcile(c, w, e).store.executions == w.store.executions
    ensures t in ApplyReconcile(c, w, e).threads ==> Moves(c, w, t, ApplyReconcile(c, w, e).threads[t])
  {
    hide IsVerdict, Observable, ObserverPanel, Confirms, Vets;
  }

  lemma StoreStepKeepsThreads(c: Config, w: State, e: Event)
    requires w.vault.checkpoints != []
    ensures ApplyStore(c, w, e).threads == w.threads && ApplyStore(c, w, e).store.executions == w.store.executions
  {
    hide EvaluationOf, Minted;
  }

  lemma StepExecutions(c: Config, w: State, e: Event, id: Ref)
    requires w.vault.checkpoints != [] && id in Apply(c, w, e).store.executions
    ensures
      var x := Apply(c, w, e).store.executions[id];
      || (id in w.store.executions && x == w.store.executions[id])
      || (x.thread in w.threads && w.threads[x.thread].Written?
          && x.seen == w.threads[x.thread].seen && x.permit == w.threads[x.thread].r.permitRef
          && x.executedBy == w.threads[x.thread].r.principal)
  {
    hide ApplyStore, ApplyReconcile, BeginRequest, Vets, AdmitTask, Spending.ReadTrust, Spending.VerifyTask, Spending.Spend, Advance;
    if e.Reconcile? {
      ReconcileThreads(c, w, e, 0);
    } else if !OnThread(e) {
      StoreStepKeepsThreads(c, w, e);
    }
  }

  lemma InSectionHolds(c: Config, w: State, t: nat)
    requires Inv(c, w) && t in w.threads && InSection(w.threads[t])
    ensures w.holder == Some(t)
  {
    hide ChainHolds, StoreHolds, ThreadsHold, CommitsHold;
  }

  /** The thread held the lock before and after the event that vetted it. */
  lemma VettedNow(c: Config, w: State, front: seq<Event>, e: Event, t: nat, r: Request)
    requires w.vault.checkpoints != []
    requires Run(c, w, front).holder == Some(t) && Run(c, w, front + [e]).holder == Some(t)
    requires Vets(Run(c, w, front).authority, r)
    ensures HeldLock(c, w, front + [e], t, |front|, |front| + 1)
    ensures SawPolicies(c, w, front + [e], r, Run(c, w, front).authority.active, |front|)
  {
    hide Run, Vets;
    EarlierStates(c, w, front, e, |front|);
    assert front[..|front|] == front && (front + [e])[..|front| + 1] == front + [e];
  }

  lemma AdmittedNow(c: Config, w: State, front: seq<Event>, e: Event, t: nat, r: Request, active: map<Ref, string>)
    requires w.vault.checkpoints != []
    requires exists i :: HeldLock(c, w, front, t, i, |front|) && SawPolicies(c, w, front, r, active, i)
    ensures exists i, j :: SawAuthority(c, w, front + [e], t, r, Authority(Run(c, w, front).authority.roles, active), i, j)
  {
    hide Run, Vets;
    var i :| HeldLock(c, w, front, t, i, |front|) && SawPolicies(c, w, front, r, active, i);
    assert front[..|front|] == front;
    assert SawAuthority(c, w, front, t, r, Authority(Run(c, w, front).authority.roles, active), i, |front|);
    StillSawAuthority(c, w, front, e, t, r, Authority(Run(c, w, front).authority.roles, active), i, |front|);
  }

  lemma ThreadStillSaw(c: Config, w: State, front: seq<Event>, e: Event, t: nat)
    requires w.vault.checkpoints != [] && c.env.suite.Valid()
    requires Inv(c, Run(c, w, front)) && Inv(c, Run(c, w, front + [e]))
    requires Run(c, w, front + [e]) == Apply(c, Run(c, w, front), e)
    requires forall u :: u in Run(c, w, front).threads ==> ThreadSaw(c, w, front, u, Run(c, w, front).threads[u])
    requires t in Run(c, w, front + [e]).threads
    ensures ThreadSaw(c, w, front + [e], t, Run(c, w, front + [e]).threads[t])
  {
    hide Inv, Run, Apply, HeldLock, SawPolicies, SawAuthority, Vets;
    var before, after := Run(c, w, front), Run(c, w, front + [e]).threads[t];
    StepMoves(c, before, e, t);
    if after.Vetted? {
      InSectionHolds(c, Run(c, w, front + [e]), t);
      if before.threads[t].Locked? {
        InSectionHolds(c, before, t);
        VettedNow(c, w, front, e, t, after.r);
      } else {
        var i :| HeldLock(c, w, front, t, i, |front|) && SawPolicies(c, w, front, after.r, after.active, i);
        StillHolds(c, w, front, e, t, after.r, after.active, i);
      }
    } else if Carried(after).Some? {
      if before.threads[t].Vetted? {
        AdmittedNow(c, w, front, e, t, before.threads[t].r, before.threads[t].active);
      } else {
        var r, seen := Carried(after).value.0, Carried(after).value.1;
        var i, j :| SawAuthority(c, w, front, t, r, seen, i, j);
        StillSawAuthority(c, w, front, e, t, r, seen, i, j);
      }
    }
  }

  lemma WrittenRequest(c: Config, w: State, t: nat)
    requires Inv(c, w) && t in w.threads && w.threads[t].Written?
    ensures w.threads[t].r.tenant == w.threads[t].r.permitRef.tenant
  {
    hide Inv, TaskHolds, PassedChecks, ClaimedBy;
    ThreadOf(c, w, t);
  }

  lemma ExecutionStillSaw(c: Config, w: State, front: seq<Event>, e: Event, id: Ref)
    requires w.vault.checkpoints != [] && History(c, w, front) && Inv(c, Run(c, w, front))
    requires Run(c, w, front + [e]) == Apply(c, Run(c, w, front), e)
    requires id in Run(c, w, front + [e]).store.executions
    ensures ExecutionSaw(c, w, front + [e], Run(c, w, front + [e]).store.executions[id])
  {
    hide Run, Apply, SawAuthority, Inv;
    var before, x := Run(c, w, front), Run(c, w, front + [e]).store.executions[id];
    StepExecutions(c, before, e, id);
    if id in before.store.executions && x == before.store.executions[id] {
      StillExecutionSaw(c, w, front, e, x);
    } else {
      var r := before.threads[x.thread].r;
      WrittenRequest(c, before, x.thread);
      assert ThreadSaw(c, w, front, x.thread, before.threads[x.thread]);
      var i, j :| SawAuthority(c, w, front, x.thread, r, x.seen, i, j);
      StillSawAuthority(c, w, front, e, x.thread, r, x.seen, i, j);
    }
  }

  lemma {:induction false} RunHasHistory(c: Config, w: State, events: seq<Event>)
    requires c.env.suite.Valid() && Initial(c, w)
    ensures History(c, w, events)
  {
    hide Inv, Apply, ThreadSaw, ExecutionSaw;
    InitialInv(c, w);
    if events == [] {
      NothingYet(c, w);
    } else {
      var front, e := events[..|events| - 1], events[|events| - 1];
      assert events == front + [e];
      RunHasHistory(c, w, front);
      RunKeepsInv(c, w, front);
      RunKeepsInv(c, w, events);
      forall t | t in Run(c, w, events).threads ensures ThreadSaw(c, w, events, t, Run(c, w, events).threads[t]) {
        ThreadStillSaw(c, w, front, e, t);
      }
      forall x | x in Run(c, w, events).store.executions ensures ExecutionSaw(c, w, events, Run(c, w, events).store.executions[x]) {
        ExecutionStillSaw(c, w, front, e, x);
      }
    }
  }

  lemma NothingYet(c: Config, w: State)
    requires Initial(c, w)
    ensures History(c, w, [])
  {
    hide Apply;
  }

  /** For every execution of every run there is a span of the run during which its
      thread held the trust lock without interruption.  At the start of the span the
      principal that is recorded as the executor, and in whose name the permit is
      claimed, had a role that may execute, and the policies were active that are kept
      with the execution; at its end the roles were those kept with it. */
  lemma ExecutionsSawAuthorityUnderTheLock(c: Config, w: State, events: seq<Event>, id: Ref) returns (i: nat, j: nat)
    requires c.env.suite.Valid() && Initial(c, w) && id in Run(c, w, events).store.executions
    ensures i <= j <= |events|
    ensures
      var end, x := Run(c, w, events), Run(c, w, events).store.executions[id];
      && (forall k :: i <= k <= j ==> Run(c, w, events[..k]).holder == Some(x.thread))
      && var start := Run(c, w, events[..i]).authority;
      && var executor := Ref(x.permit.tenant, x.executedBy);
      && executor in start.roles && start.roles[executor] in {Fixed(Executor), Fixed(Operator), Fixed(Admin)}
      && start.active == x.seen.active
      && Run(c, w, events[..j]).authority.roles == x.seen.roles
      && x.permitHash in end.vault.registry && end.vault.registry[x.permitHash].executorId == x.executedBy
  {
    hide Inv, Apply, Vets, Run;
    RunHasHistory(c, w, events);
    InitialInv(c, w);
    RunKeepsInv(c, w, events);
    ExecutionIsClaimed(c, Run(c, w, events), id);
    var x := Run(c, w, events).store.executions[id];
    assert ExecutionSaw(c, w, events, x);
    var r: Request;
    r, i, j :| RequestOf(r, x) && SawAuthority(c, w, events, x.thread, r, x.seen, i, j);
    forall k | i <= k <= j ensures Run(c, w, events[..k]).holder == Some(x.thread) {
      assert Before(c, w, events, k).holder == Some(x.thread);
    }
    VettedRole(Run(c, w, events[..i]).authority, r);
  }

  lemma VettedRole(authority: Authority, r: Request)
    requires Vets(authority, r)
    ensures
      var who := Ref(r.tenant, r.principal);
      who in authority.roles && authority.roles[who] in {Fixed(Executor), Fixed(Operator), Fixed(Admin)}
  {
    hide Grants;
    WhoMay(authority.roles[Ref(r.tenant, r.principal)], ActionExecute);
  }

  lemma ExecutionIsClaimed(c: Config, w: State, id: Ref)
    requires Inv(c, w) && id in w.store.executions
    ensures
      var x := w.store.executions[id];
      x.permitHash in w.vault.registry && w.vault.registry[x.permitHash].executorId == x.executedBy
  {
    hide ChainHolds, LockHolds, ThreadsHold, CommitsHold, EvaluationHolds, PermitHolds, ReconciliationHolds;
    assert ExecutionHolds(c, w.store, w.vault.registry, w.store.executions[id]);
  }
}
