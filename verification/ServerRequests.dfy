/**
 What the server's requests do to its store: exactly when each adds an object, and
 what that object says.
 */
module ServerRequests {
  import opened Hashing
  import opened Sorting
  import opened Quorum
  import opened TrustState
  import opened Permits
  import opened Rbac
  import opened Identity
  import opened Server
  import opened ServerSafety

  /** The principal's role is one of these. */
  predicate HasRole(w: State, tenant: string, principal: string, roles: set<Constant>) {
    && Ref(tenant, principal) in w.authority.roles
    && w.authority.roles[Ref(tenant, principal)].Fixed? && w.authority.roles[Ref(tenant, principal)].c in roles
  }

  lemma RolesThatMay(w: State, tenant: string, principal: string)
    ensures May(w.authority.roles, Ref(tenant, principal), IntentCreate) <==> HasRole(w, tenant, principal, {Proposer, Admin})
    ensures May(w.authority.roles, Ref(tenant, principal), EvidenceCreate) <==> HasRole(w, tenant, principal, {Proposer, Admin})
    ensures May(w.authority.roles, Ref(tenant, principal), EvaluationCreate) <==> HasRole(w, tenant, principal, {Verifier, Admin})
    ensures HasRole(w, tenant, principal, {Verifier, Admin}) ==> May(w.authority.roles, Ref(tenant, principal), PolicyRead)
  {
    hide Grants;
    if Ref(tenant, principal) in w.authority.roles {
      WhoMay(w.authority.roles[Ref(tenant, principal)], IntentCreate);
      WhoMay(w.authority.roles[Ref(tenant, principal)], EvidenceCreate);
      WhoMay(w.authority.roles[Ref(tenant, principal)], EvaluationCreate);
      WhoMay(w.authority.roles[Ref(tenant, principal)], PolicyRead);
    }
  }

  /** A merge effect the server accepts: an owner and a name, a positive number, a head
      that is not blank and one of three methods. */
  predicate WellFormedEffect(e: MergeEffect) {
    && OwnerAndName(e.repository) && e.pullNumber >= 1 && HasText(e.headSha)
    && (e.mergeMethod == "merge" || e.mergeMethod == "squash" || e.mergeMethod == "rebase")
  }

  /** An intent is added exactly by a proposer (or administrator), under a new id, for
      a well-formed effect. */
  lemma IntentIsAdded(c: Config, w: State, e: Event)
    requires w.vault.checkpoints != [] && e.CreateIntent?
    ensures
      var after := Apply(c, w, e);
      after == if e.id !in w.store.intents && HasRole(w, e.id.tenant, e.principal, {Proposer, Admin}) && WellFormedEffect(e.effect)
               then w.(store := w.store.(intents := w.store.intents[e.id := Intent(e.effect)]))
               else w
  {
    hide May, HasRole, Slashes, OwnerAndName, Blank, HasText;
    RolesThatMay(w, e.id.tenant, e.principal);
    OneSlash(e.effect.repository);
    NotBlank(e.effect.headSha);
  }

  /** Evidence is added exactly by a proposer (or administrator), under a new id, for a
      stored intent of the same tenant. */
  lemma EvidenceIsAdded(c: Config, w: State, e: Event)
    requires w.vault.checkpoints != [] && e.CreateEvidence?
    ensures
      var after := Apply(c, w, e);
      after == if e.id !in w.store.evidence && HasRole(w, e.id.tenant, e.principal, {Proposer, Admin})
                 && Ref(e.id.tenant, e.intentId) in w.store.intents
               then w.(store := w.store.(evidence := w.store.evidence[e.id := EvidenceItem(e.intentId, e.recordHash)]))
               else w
  {
    hide May, HasRole;
    RolesThatMay(w, e.id.tenant, e.principal);
  }

  /** What an evaluation needs: a verifier (or administrator), a stored intent, evidence
      that is all stored, an active policy and two digests. */
  ghost predicate CanEvaluate(c: Config, w: State, e: Event)
    requires e.Evaluate?
  {
    && HasRole(w, e.id.tenant, e.principal, {Verifier, Admin})
    && Ref(e.id.tenant, e.intentId) in w.store.intents
    && e.evidenceIds != [] && (forall x :: x in e.evidenceIds ==> Ref(e.id.tenant, x) in w.store.evidence)
    && Ref(e.id.tenant, e.policyName) in w.authority.active
    && HexDigest(c.env, Str(e.stateRoot)) && HexDigest(c.env, Str(e.approval))
  }

  lemma EvaluatesWhenItCan(c: Config, w: State, e: Event)
    requires e.Evaluate?
    ensures EvaluationOf(c, w, e).Some? <==> CanEvaluate(c, w, e)
  {
    hide May, HasRole, IsDigest, HexDigest, EvidenceRoot;
    RolesThatMay(w, e.id.tenant, e.principal);
    DigestMeaning(c.env, e.stateRoot);
    DigestMeaning(c.env, e.approval);
    assert forall i :: 0 <= i < |e.evidenceIds| ==> e.evidenceIds[i] in e.evidenceIds;
  }

  function RecordHashAt(store: Store, id: Ref): string {
    if id in store.evidence then store.evidence[id].recordHash else ""
  }

  /** An evaluation is added exactly when it can be made under a new id; it permits
      exactly when every cited evidence item belongs to the intent, and carries the
      identity root and policy in force, the root of the cited record hashes, and the
      state root and approval it was given. */
  lemma EvaluationIsAdded(c: Config, w: State, e: Event)
    requires w.vault.checkpoints != [] && e.Evaluate?
    ensures !(e.id !in w.store.evaluations && CanEvaluate(c, w, e)) ==> Apply(c, w, e) == w
    ensures e.id !in w.store.evaluations && CanEvaluate(c, w, e) ==>
      var after := Apply(c, w, e);
      && e.id in after.store.evaluations
      && after == w.(store := w.store.(evaluations := w.store.evaluations[e.id := after.store.evaluations[e.id]]))
      && var x := after.store.evaluations[e.id];
      && x.intent == Ref(e.id.tenant, e.intentId) && x.evidenceIds == e.evidenceIds && x.policyName == e.policyName
      && (x.permitted <==> forall k :: k in e.evidenceIds ==> w.store.evidence[Ref(e.id.tenant, k)].intentId == e.intentId)
      && x.expected.identity == IdentityRoot(c.env.suite, e.id.tenant, w.authority.roles)
      && x.expected.policy == w.authority.active[Ref(e.id.tenant, e.policyName)]
      && x.expected.state == e.stateRoot && x.expected.approval == e.approval
      && exists hashes: seq<string> ::
           && |hashes| == |e.evidenceIds|
           && (forall i :: 0 <= i < |hashes| ==> hashes[i] == RecordHashAt(w.store, Ref(e.id.tenant, e.evidenceIds[i])))
           && EvidenceRootIs(c.env.suite, x.expected.evidence, hashes)
  {
    hide May, IsDigest, HexDigest, CanEvaluate, EvidenceRoot, EvidenceRootIs, IdentityRoot, Minted, ApplyThread, ApplyReconcile;
    EvaluatesWhenItCan(c, w, e);
    if EvaluationOf(c, w, e).Some? {
      var hashes := EvidenceHashes(w.store, e.id.tenant, e.evidenceIds);
      EvidenceRootHolds(c.env.suite, hashes);
      assert forall i :: 0 <= i < |e.evidenceIds| ==> e.evidenceIds[i] in e.evidenceIds;
    }
  }

  function EvidenceRecord(hashes: seq<string>): Record {
    map[Field.Other("evidence_hashes") := TextList(hashes)]
  }

  /** Two evidence roots are equal exactly for the same record hashes, each as often, in
      whatever order they were cited. */
  lemma EvidenceRootFixesHashes(s: Suite, root: string, other: string, a: seq<string>, b: seq<string>)
    requires s.Valid() && EvidenceRootIs(s, root, a) && EvidenceRootIs(s, other, b)
    requires CollisionFree(s, {RecordInput(s, EvidenceRecord(Sort(a))), RecordInput(s, EvidenceRecord(Sort(b)))})
    ensures root == other <==> multiset(a) == multiset(b)
  {
    hide TextList, RecordInput;
    SortedRoot(s, root, a);
    SortedRoot(s, other, b);
    var x, y := EvidenceRecord(Sort(a)), EvidenceRecord(Sort(b));
    if root == other {
      SameDigestSameInput(s, {RecordInput(s, x), RecordInput(s, y)}, RecordInput(s, x), RecordInput(s, y));
      SameEvidenceRecord(s, Sort(a), Sort(b));
    }
    if multiset(a) == multiset(b) {
      SortIgnoresOrder(a, b);
    }
  }

  lemma SameEvidenceRecord(s: Suite, a: seq<string>, b: seq<string>)
    requires s.Valid() && RecordInput(s, EvidenceRecord(a)) == RecordInput(s, EvidenceRecord(b))
    ensures a == b
  {
    hide TextList;
    var x, y := EvidenceRecord(a), EvidenceRecord(b);
    assert Content(x) == x && Content(y) == y;
    assert x[Field.Other("evidence_hashes")] == y[Field.Other("evidence_hashes")];
    TextListInjective(a, b);
  }

  lemma SortedRoot(s: Suite, root: string, hashes: seq<string>)
    requires EvidenceRootIs(s, root, hashes)
    ensures root == HashRecord(s, EvidenceRecord(Sort(hashes)))
  {
    hide TextList, HashRecord;
    var sorted: seq<string> :| Sorted(sorted) && multiset(sorted) == multiset(hashes)
      && root == HashRecord(s, map[Field.Other("evidence_hashes") := TextList(sorted)]);
    SortedListsAgree(sorted, Sort(hashes));
  }

  /** What a permit is minted with: the evaluation's roots and approval, the intent's
      effect, the requested lifetime, the asking principal as issuer, and the trust
      terms of the stored checkpoint. */
  function RequestedTerms(w: State, e: Event, evaluation: Evaluation, effect: MergeEffect): Terms
    requires e.Mint? && w.vault.checkpoints != []
  {
    var checkpoint := w.vault.checkpoints[|w.vault.checkpoints| - 1].checkpoint;
    Terms(
      evaluation.expected, effect.repository, effect.pullNumber, effect.headSha, effect.mergeMethod,
      e.arguments.nonce, Instant(e.arguments.now + e.arguments.seconds * 1000000), e.principal, Fixed(Verifier),
      map[Field.EvaluationId := Str(e.evaluationId)],
      Some(map[
        ReplayRoot := RootField(checkpoint, ReplayRoot),
        CheckpointRoot := Get(checkpoint, RecordHash),
        ObservationRootField := RootField(checkpoint, Observation),
        MinimumCheckpointEpoch := Get(checkpoint, Epoch),
        MonotonicCounter := Get(checkpoint, MonotonicCounter)]),
      None, e.id.id)
  }

  /** What minting needs: a verifier, a permitting evaluation, a lifetime between one
      second and an hour, and terms that can be minted. */
  ghost predicate CanMint(c: Config, w: State, e: Event)
    requires e.Mint? && w.vault.checkpoints != []
  {
    var id := Ref(e.id.tenant, e.evaluationId);
    && HasRole(w, e.id.tenant, e.principal, {Verifier})
    && id in w.store.evaluations && w.store.evaluations[id].permitted
    && w.store.evaluations[id].intent in w.store.intents
    && 1 <= e.arguments.seconds <= 3600
    && Mintable(c.env, RequestedTerms(w, e, w.store.evaluations[id], w.store.intents[w.store.evaluations[id].intent].effect), e.arguments.now)
  }

  lemma TermsAreRequested(w: State, e: Event, evaluation: Evaluation, effect: MergeEffect)
    requires e.Mint? && w.vault.checkpoints != []
    ensures MintTerms(evaluation, effect, e.id, e.evaluationId, e.principal, Fixed(Verifier), e.arguments, Last(w.vault).checkpoint)
      == RequestedTerms(w, e, evaluation, effect)
  {
  }

  lemma MintsWhenItCan(c: Config, w: State, e: Event)
    requires e.Mint? && w.vault.checkpoints != []
    ensures Minted(c, w, e).Some? <==> CanMint(c, w, e)
    ensures CanMint(c, w, e) ==>
      var id := Ref(e.id.tenant, e.evaluationId);
      var terms := RequestedTerms(w, e, w.store.evaluations[id], w.store.intents[w.store.evaluations[id].intent].effect);
      MintPermit(c.env, terms, e.arguments.now, c.verifierKeyId) == Ok(Minted(c, w, e).value)
  {
    hide MintPermit, Mintable, Grants, MintTerms, RequestedTerms;
    var id, issuer := Ref(e.id.tenant, e.evaluationId), Ref(e.id.tenant, e.principal);
    if issuer in w.authority.roles && id in w.store.evaluations && w.store.evaluations[id].intent in w.store.intents {
      var ev := w.store.evaluations[id];
      var effect, role := w.store.intents[ev.intent].effect, w.authority.roles[issuer];
      var terms := MintTerms(ev, effect, e.id, e.evaluationId, e.principal, role, e.arguments, Last(w.vault).checkpoint);
      WhoMay(role, PermitMint);
      TermsRole(ev, effect, e.id, e.evaluationId, e.principal, role, e.arguments, Last(w.vault).checkpoint);
      if Grants(role, PermitMint) && MintPermit(c.env, terms, e.arguments.now, c.verifierKeyId).Ok? {
        OnlyVerifiersMint(c, terms, e.arguments.now, c.verifierKeyId);
      }
      TermsAreRequested(w, e, ev, effect);
      MintsExactly(c.env, RequestedTerms(w, e, ev, effect), e.arguments.now, c.verifierKeyId);
    }
  }

  lemma TermsRole(e: Evaluation, effect: MergeEffect, id: Ref, evaluationId: string, issuerId: string, issuerRole: Json, a: MintArguments,
                  checkpoint: Record)
    ensures MintTerms(e, effect, id, evaluationId, issuerId, issuerRole, a, checkpoint).issuerRole == issuerRole
  {
    hide TrustTerms;
  }

  /** A permit is added exactly when it can be minted under a new id; it is what
      `mint_permit` makes of the requested terms. */
  lemma PermitIsAdded(c: Config, w: State, e: Event)
    requires w.vault.checkpoints != [] && e.Mint?
    ensures !(e.id !in w.store.permits && CanMint(c, w, e)) ==> Apply(c, w, e) == w
    ensures e.id !in w.store.permits && CanMint(c, w, e) ==>
      var after, id := Apply(c, w, e), Ref(e.id.tenant, e.evaluationId);
      && e.id in after.store.permits
      && after == w.(store := w.store.(permits := w.store.permits[e.id := after.store.permits[e.id]]))
      && var terms := RequestedTerms(w, e, w.store.evaluations[id], w.store.intents[w.store.evaluations[id].intent].effect);
      MintPermit(c.env, terms, e.arguments.now, c.verifierKeyId) == Ok(after.store.permits[e.id])
  {
    hide MintPermit, CanMint, Minted, RequestedTerms;
    MintsWhenItCan(c, w, e);
    CanMintNeeds(c, w, e);
  }

  lemma CanMintNeeds(c: Config, w: State, e: Event)
    requires e.Mint? && w.vault.checkpoints != []
    ensures CanMint(c, w, e) ==>
      && Ref(e.id.tenant, e.evaluationId) in w.store.evaluations
      && w.store.evaluations[Ref(e.id.tenant, e.evaluationId)].intent in w.store.intents
  {
    hide Mintable, RequestedTerms;
  }

  // ----- execution and reconciliation

  lemma MoreRolesThatMay(w: State, tenant: string, principal: string)
    ensures May(w.authority.roles, Ref(tenant, principal), ActionExecute) <==> HasRole(w, tenant, principal, {Executor, Operator, Admin})
    ensures May(w.authority.roles, Ref(tenant, principal), OutcomeReconcile) <==> HasRole(w, tenant, principal, {Reconciler, Admin})
  {
    hide Grants;
    if Ref(tenant, principal) in w.authority.roles {
      WhoMay(w.authority.roles[Ref(tenant, principal)], ActionExecute);
      WhoMay(w.authority.roles[Ref(tenant, principal)], OutcomeReconcile);
    }
  }

  /** A request to execute is taken up exactly from an executor (operator, or
      administrator) for a stored permit whose evaluation is stored. */
  lemma ExecutionIsRequested(c: Config, w: State, e: Event)
    requires w.vault.checkpoints != [] && e.BeginExecute?
    ensures
      var id := Ref(e.tenant, e.permitId);
      var able := e.thread !in w.threads && HasRole(w, e.tenant, e.principal, {Executor, Operator, Admin})
                  && id in w.store.permits && EvaluationRef(id, w.store.permits[id]) in w.store.evaluations;
      && (!able ==> Apply(c, w, e) == w)
      && (able ==>
            Apply(c, w, e) == w.(threads := w.threads[e.thread := Waiting(
              Request(e.tenant, e.principal, id, w.store.permits[id], w.store.evaluations[EvaluationRef(id, w.store.permits[id])]))]))
  {
    hide May, HasRole, PermitEvaluation;
    MoreRolesThatMay(w, e.tenant, e.principal);
  }

  lemma {:induction false} SplitsAtSlash(text: string)
    ensures SplitSlash(text).Some? <==> '/' in text
  {
    if text != "" {
      SplitsAtSlash(text[1..]);
      assert text == [text[0]] + text[1..];
    }
  }

  /** What a reconciliation needs. */
  ghost predicate CanReconcile(c: Config, w: State, e: Event)
    requires e.Reconcile?
  {
    var id := Ref(e.id.tenant, e.executionId);
    && HasRole(w, e.id.tenant, e.principal, {Reconciler, Admin})
    && id in w.store.executions && w.store.executions[id].permit in w.store.permits
    && var permit := w.store.permits[w.store.executions[id].permit];
    && '/' in TextOf(Get(EffectOf(permit), Repository))
    && 1 <= c.threshold <= |c.observers|
    && IsVerdict(c.env.suite, ObserverPanel(c, permit), e.attestations, e.verdict)
  }

  /** The field of the statement the observers agreed on. */
  function Agreed(v: Verdict, field: Field): Json {
    if v.statement.Some? then Get(v.statement.value, field) else Null
  }

  /** A reconciliation is recorded exactly by a reconciler (or administrator) for a
      stored execution, with the observers' verdict; its outcome is confirmed exactly
      when the quorum was met, saw the merge at the approved head, and saw the merge
      commit that the executor named and confirmed. */
  lemma ReconciliationIsAdded(c: Config, w: State, e: Event)
    requires w.vault.checkpoints != [] && e.Reconcile?
    ensures !(e.thread !in w.threads && e.id !in w.store.reconciliations && CanReconcile(c, w, e)) ==> Apply(c, w, e) == w
    ensures e.thread !in w.threads && e.id !in w.store.reconciliations && CanReconcile(c, w, e) ==>
      var after, x := Apply(c, w, e), w.store.executions[Ref(e.id.tenant, e.executionId)];
      && e.id in after.store.reconciliations
      && after.store == w.store.(reconciliations := w.store.reconciliations[e.id := after.store.reconciliations[e.id]])
      && after.vault == w.vault
      && var r := after.store.reconciliations[e.id];
      && r.execution == Ref(e.id.tenant, e.executionId) && r.attestations == e.attestations && r.verdict == e.verdict
      && (r.confirmed <==>
            && e.verdict.met
            && Agreed(e.verdict, Merged) == Bool(true)
            && Agreed(e.verdict, HeadSha) == Get(EffectOf(w.store.permits[x.permit]), ExpectedHeadSha)
            && x.receipt.confirmed && x.receipt.operationId.Str?
            && Agreed(e.verdict, MergeCommitSha) == x.receipt.operationId)
      && (e.thread in after.threads && (after.threads[e.thread].ReconcileWaiting? <==> e.verdict.met))
  {
    hide May, HasRole, IsVerdict, ObserverPanel, EffectOf, SplitSlash;
    MoreRolesThatMay(w, e.id.tenant, e.principal);
    var id := Ref(e.id.tenant, e.executionId);
    if id in w.store.executions && w.store.executions[id].permit in w.store.permits {
      SplitsAtSlash(TextOf(Get(EffectOf(w.store.permits[w.store.executions[id].permit]), Repository)));
    }
  }
}
