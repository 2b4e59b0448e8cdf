/**
 The evidence gate: `evaluate_action` and `_verify_approval` of proofrail/core.py.

 The gate reads each document into an `Action`, `Item` or `Approval`, which say
 what it looks at: presence of the required fields, whether the signature
 verifies, times (None for a timestamp that does not parse) and the rest.
 */
module Gate {
  import opened Hashing
  import opened Sorting

  // ----- what the gate reads of a document

  /** `complete`: every required field is present. */
  datatype Action = Action(complete: bool, kind: Json, risk: Json, reversible: bool, claimIds: seq<Json>, digest: string)

  datatype Expiry = NoExpiry | ExpiresAt(instant: Option<int>)

  /** `refs`: None when it is not a list; otherwise, for each reference, whether it
      is an object with a `uri`. */
  datatype Item = Item(complete: bool, authentic: bool, claimId: Json, observed: bool, observedAt: Option<int>,
                       expires: Expiry, refs: Option<seq<bool>>)

  datatype Policy = Policy(allowedTypes: seq<Json>, maxAge: int, observedRisks: seq<Json>, minimumRefs: Json -> int,
                           approvalRisks: seq<Json>)

  datatype Approval = Approval(authentic: bool, actionDigest: Json, expires: Option<int>, identified: bool)

  /** Secrets, and the parser of ISO timestamps. */
  datatype Gatekeeper = Gatekeeper(suite: Suite, parseTime: string -> Option<int>, evidenceSecret: Key, approvalSecret: Option<Key>)

  const ACTION_ID := Field.Other("action_id")
  const TARGET := Field.Other("target")
  const RISK := Field.Other("risk")
  const REVERSIBLE := Field.Other("reversible")
  const CLAIM_IDS := Field.Other("claim_ids")
  const CLAIM_ID := Field.Other("claim_id")
  const CLAIM := Field.Other("claim")
  const EPISTEMIC_STATUS := Field.Other("epistemic_status")
  const OBSERVED_AT := Field.Other("observed_at")
  const URI := Field.Other("uri")
  const APPROVED_BY := Field.Other("approved_by")
  const SCOPE := Field.Other("scope")
  const ALLOWED_TYPES := Field.Other("allowed_action_types")
  const MAX_AGE := Field.Other("max_evidence_age_seconds")
  const OBSERVED_RISKS := Field.Other("require_observed_for_risks")
  const MINIMUM_REFS := Field.Other("minimum_evidence_refs")
  const APPROVAL_RISKS := Field.Other("approval_required_for_risks")

  const LOW := Str("low")
  const MEDIUM := Str("medium")
  const HIGH := Str("high")
  const CRITICAL := Str("critical")

  predicate KnownRisk(risk: Json) {
    risk in {LOW, MEDIUM, HIGH, CRITICAL}
  }

  /** `_require_fields` */
  predicate HasFields(document: Record, fields: set<Field>) {
    fields <= document.Keys
  }

  function ItemsOf(j: Json): seq<Json> {
    if j.Arr? then j.items else []
  }

  /** `parse_time`: only a text can parse. */
  function TimeOf(g: Gatekeeper, j: Json): Option<int> {
    if j.Str? then g.parseTime(j.s) else None
  }

  function ReadAction(g: Gatekeeper, document: Record): Action {
    Action.Action(
      HasFields(document, {ACTION_ID, ActionType, TARGET, RISK, REVERSIBLE, CLAIM_IDS}),
      Get(document, ActionType),
      Get(document, RISK),
      Get(document, REVERSIBLE) == Bool(true),
      ItemsOf(Get(document, CLAIM_IDS)),
      DigestDocument(g.suite, document))
  }

  function ReadRefs(j: Json): Option<seq<bool>> {
    if j.Arr? then Some(seq(|j.items|, i requires 0 <= i < |j.items| => j.items[i].Obj? && Truthy(Get(j.items[i].fields, URI)))) else None
  }

  function ReadItem(g: Gatekeeper, document: Record): Item {
    var expires := Get(document, Field.ExpiresAt);
    Item(
      HasFields(document, {CLAIM_ID, CLAIM, EPISTEMIC_STATUS, OBSERVED_AT, Evidence}),
      VerifyDocument(g.suite, document, g.evidenceSecret),
      Get(document, CLAIM_ID),
      Get(document, EPISTEMIC_STATUS) == Str("observed"),
      TimeOf(g, Get(document, OBSERVED_AT)),
      if Truthy(expires) then Expiry.ExpiresAt(TimeOf(g, expires)) else NoExpiry,
      ReadRefs(Get(document, Evidence)))
  }

  function ReadItems(g: Gatekeeper, documents: seq<Record>): seq<Item> {
    seq(|documents|, i requires 0 <= i < |documents| => ReadItem(g, documents[i]))
  }

  /** An approval counts only when there is a secret to check it with. */
  function ReadApproval(g: Gatekeeper, approval: Option<Record>): Option<Approval> {
    if approval.None? || g.approvalSecret.None? then None
    else
      var document := approval.value;
      Some(Approval(
        VerifyDocument(g.suite, document, g.approvalSecret.value),
        Get(document, ActionDigest),
        TimeOf(g, Get(document, Field.ExpiresAt)),
        Truthy(Get(document, APPROVED_BY)) && Truthy(Get(document, SCOPE))))
  }

  /** `policy.get(field, default)` for a number, and for a list. */
  function IntOr(document: Record, field: Field, default: int): int {
    if field in document && document[field].Int? then document[field].i else default
  }

  function ListOr(document: Record, field: Field, default: seq<Json>): seq<Json> {
    if field in document then ItemsOf(document[field]) else default
  }

  function ReadPolicy(document: Record): Policy {
    Policy.Policy(
      ListOr(document, ALLOWED_TYPES, []),
      IntOr(document, MAX_AGE, 86400),
      ListOr(document, OBSERVED_RISKS, [HIGH, CRITICAL]),
      (risk: Json) => IntOr(FieldsOf(Get(document, MINIMUM_REFS)), Field.Other(TextOf(risk)), 1),
      ListOr(document, APPROVAL_RISKS, [MEDIUM, HIGH, CRITICAL]))
  }

  datatype Reason =
    | ActionTypeNotAllowed
    | InvalidEvidenceSignature(id: Json)
    | MissingSignedClaim(id: Json)
    | ClaimNotObserved(id: Json)
    | ClaimFromFuture(id: Json)
    | StaleClaim(id: Json)
    | ExpiredClaim(id: Json)
    | InsufficientEvidenceRefs(id: Json)
    | InvalidEvidenceRef(id: Json)
    | ApprovalRequired
    | InvalidApprovalSignature
    | ApprovalActionMismatch
    | ApprovalExpired
    | InvalidApprovalExpiry
    | ApprovalIdentityOrScopeMissing
    | IrreversibleCriticalAction

  datatype GateError = MissingFields | UnsupportedRisk | NoClaims | InvalidTimestamp

  datatype Decision = Decision(permitted: bool, digest: string, reasons: seq<Reason>, evidenceIds: seq<Json>, approvalRequired: bool)

  // ----- `dict.fromkeys`: the first occurrence of each element, in order

  function Dedup<T(==)>(l: seq<T>): seq<T> {
    if l == [] then []
    else
      var front, last := Dedup(l[..|l| - 1]), l[|l| - 1];
      if last in front then front else front + [last]
  }

  predicate FirstAt<T(==)>(l: seq<T>, x: T, i: nat) {
    i < |l| && l[i] == x && x !in l[..i]
  }

  lemma {:induction false} DedupMembers<T>(l: seq<T>)
    ensures Distinct(Dedup(l)) && forall x :: x in Dedup(l) <==> x in l
  {
    if l != [] {
      assert l == l[..|l| - 1] + [l[|l| - 1]];
      DedupMembers(l[..|l| - 1]);
    }
  }

  /** The elements keep the order in which they first occur. */
  lemma {:induction false} DedupOrder<T>(l: seq<T>, i: nat, j: nat, m: nat, n: nat)
    requires i < |Dedup(l)| && j < |Dedup(l)| && FirstAt(l, Dedup(l)[i], m) && FirstAt(l, Dedup(l)[j], n)
    ensures i < j <==> m < n
    decreases |l|
  {
    var front, last := l[..|l| - 1], l[|l| - 1];
    assert l == front + [last];
    DedupMembers(l);
    DedupMembers(front);
    if m < |front| && n < |front| {
      assert front[..m] == l[..m] && front[..n] == l[..n];
      assert Dedup(l)[i] in front && Dedup(l)[j] in front;
      DedupOrder(front, i, j, m, n);
    } else if m < |front| {
      assert l[..n] == front;
    } else if n < |front| {
      assert l[..m] == front;
    }
  }

  // ----- reasons

  function If(holds: bool, reason: Reason): seq<Reason> {
    if holds then [reason] else []
  }

  /** `evidence_by_id`: the last authentic item of each claim. */
  function ById(evidence: seq<Item>): map<Json, Item> {
    if evidence == [] then map[]
    else
      var front, last := ById(evidence[..|evidence| - 1]), evidence[|evidence| - 1];
      if last.authentic then front[last.claimId := last] else front
  }

  function SignatureReasons(evidence: seq<Item>): seq<Reason> {
    if evidence == [] then []
    else
      SignatureReasons(evidence[..|evidence| - 1])
      + If(!evidence[|evidence| - 1].authentic, InvalidEvidenceSignature(evidence[|evidence| - 1].claimId))
  }

  predicate TimesParse(item: Item) {
    item.observedAt.Some? && (item.expires.ExpiresAt? ==> item.expires.instant.Some?)
  }

  predicate RefsAccepted(item: Item, minimum: int) {
    item.refs.Some? && |item.refs.value| >= minimum && forall i :: 0 <= i < |item.refs.value| ==> item.refs.value[i]
  }

  function ItemReasons(item: Item, id: Json, needsObserved: bool, maxAge: int, minimum: int, now: int): seq<Reason>
    requires TimesParse(item)
  {
    var age := now - item.observedAt.value;
    If(needsObserved && !item.observed, ClaimNotObserved(id))
    + (if age < -60 * SECOND then [ClaimFromFuture(id)] else If(age > maxAge * SECOND, StaleClaim(id)))
    + If(item.expires.ExpiresAt? && now >= item.expires.instant.value, ExpiredClaim(id))
    + (if item.refs.None? || |item.refs.value| < minimum then [InsufficientEvidenceRefs(id)]
       else If(!RefsAccepted(item, minimum), InvalidEvidenceRef(id)))
  }

  predicate ClaimParses(items: map<Json, Item>, id: Json) {
    id in items ==> TimesParse(items[id])
  }

  function ClaimReasons(items: map<Json, Item>, id: Json, risk: Json, policy: Policy, now: int): seq<Reason>
    requires ClaimParses(items, id)
  {
    if id !in items then [MissingSignedClaim(id)]
    else ItemReasons(items[id], id, risk in policy.observedRisks, policy.maxAge, policy.minimumRefs(risk), now)
  }

  function AllClaimReasons(items: map<Json, Item>, ids: seq<Json>, risk: Json, policy: Policy, now: int): seq<Reason>
    requires forall i :: 0 <= i < |ids| ==> ClaimParses(items, ids[i])
  {
    if ids == [] then []
    else AllClaimReasons(items, ids[..|ids| - 1], risk, policy, now) + ClaimReasons(items, ids[|ids| - 1], risk, policy, now)
  }

  function AcceptedIds(items: map<Json, Item>, ids: seq<Json>, minimum: int): seq<Json> {
    if ids == [] then []
    else
      var last := ids[|ids| - 1];
      AcceptedIds(items, ids[..|ids| - 1], minimum) + if last in items && RefsAccepted(items[last], minimum) then [last] else []
  }

  /** `_verify_approval` */
  function ApprovalReasons(digest: string, approval: Approval, now: int): seq<Reason> {
    If(!approval.authentic, InvalidApprovalSignature)
    + If(approval.actionDigest != Str(digest), ApprovalActionMismatch)
    + (if approval.expires.None? then [InvalidApprovalExpiry] else If(now >= approval.expires.value, ApprovalExpired))
    + If(!approval.identified, ApprovalIdentityOrScopeMissing)
  }

  function Reasons(action: Action, evidence: seq<Item>, policy: Policy, approval: Option<Approval>, now: int): seq<Reason>
    requires forall i :: 0 <= i < |action.claimIds| ==> ClaimParses(ById(evidence), action.claimIds[i])
  {
    If(policy.allowedTypes != [] && action.kind !in policy.allowedTypes, ActionTypeNotAllowed)
    + SignatureReasons(evidence)
    + AllClaimReasons(ById(evidence), action.claimIds, action.risk, policy, now)
    + (if action.risk !in policy.approvalRisks then []
       else if approval.None? then [ApprovalRequired]
       else ApprovalReasons(action.digest, approval.value, now))
    + If(action.risk == CRITICAL && !action.reversible, IrreversibleCriticalAction)
  }

  // ----- the declarative condition

  /** The item the gate judges a claim by: the last one about it. */
  predicate LastItem(evidence: seq<Item>, id: Json, i: nat) {
    i < |evidence| && evidence[i].claimId == id && forall j :: i < j < |evidence| ==> evidence[j].claimId != id
  }

  predicate ItemSupports(item: Item, risk: Json, policy: Policy, now: int) {
    && TimesParse(item)
    && (risk in policy.observedRisks ==> item.observed)
    && item.observedAt.value - 60 * SECOND <= now <= item.observedAt.value + policy.maxAge * SECOND
    && (item.expires.ExpiresAt? ==> now < item.expires.instant.value)
    && RefsAccepted(item, policy.minimumRefs(risk))
  }

  predicate Approves(approval: Approval, digest: string, now: int) {
    approval.authentic && approval.actionDigest == Str(digest) && approval.identified && approval.expires.Some? && now < approval.expires.value
  }

  predicate Supported(evidence: seq<Item>, id: Json, risk: Json, policy: Policy, now: int) {
    exists i :: 0 <= i < |evidence| && LastItem(evidence, id, i) && ItemSupports(evidence[i], risk, policy, now)
  }

  predicate Authorized(action: Action, evidence: seq<Item>, policy: Policy, approval: Option<Approval>, now: int) {
    && (policy.allowedTypes == [] || action.kind in policy.allowedTypes)
    && (forall i :: 0 <= i < |evidence| ==> evidence[i].authentic)
    && (forall k :: 0 <= k < |action.claimIds| ==> Supported(evidence, action.claimIds[k], action.risk, policy, now))
    && (action.risk in policy.approvalRisks ==> approval.Some? && Approves(approval.value, action.digest, now))
    && (action.risk == CRITICAL ==> action.reversible)
  }

  lemma {:induction false} NoSignatureReason(evidence: seq<Item>)
    ensures SignatureReasons(evidence) == [] <==> forall i :: 0 <= i < |evidence| ==> evidence[i].authentic
  {
    if evidence != [] {
      var m := |evidence| - 1;
      NoSignatureReason(evidence[..m]);
      assert forall i :: 0 <= i < m ==> evidence[..m][i] == evidence[i];
    }
  }

  /** The last authentic item of a claim. */
  predicate LastAuthentic(evidence: seq<Item>, id: Json, i: nat) {
    && i < |evidence| && evidence[i].claimId == id && evidence[i].authentic
    && forall j :: i < j < |evidence| && evidence[j].claimId == id ==> !evidence[j].authentic
  }

  lemma LastOfFront(evidence: seq<Item>, id: Json, i: nat)
    requires evidence != [] && i < |evidence| - 1
    requires !(evidence[|evidence| - 1].claimId == id && evidence[|evidence| - 1].authentic)
    ensures LastAuthentic(evidence, id, i) <==> LastAuthentic(evidence[..|evidence| - 1], id, i)
  {
    var front := evidence[..|evidence| - 1];
    assert forall j :: 0 <= j < |front| ==> front[j] == evidence[j];
  }

  /** `evidence_by_id` holds the last authentic item of each claim. */
  lemma {:induction false} ByIdIsLast(evidence: seq<Item>, id: Json)
    ensures id in ById(evidence) <==> exists i :: 0 <= i < |evidence| && LastAuthentic(evidence, id, i)
    ensures forall i :: 0 <= i < |evidence| && LastAuthentic(evidence, id, i) ==> id in ById(evidence) && ById(evidence)[id] == evidence[i]
  {
    if evidence != [] {
      var m := |evidence| - 1;
      ByIdIsLast(evidence[..m], id);
      if evidence[m].claimId == id && evidence[m].authentic {
        assert LastAuthentic(evidence, id, m);
      } else {
        hide LastAuthentic;
        assert !LastAuthentic(evidence, id, m) by { NotThisOne(evidence, id, m); }
        forall i: nat | i < m ensures LastAuthentic(evidence, id, i) <==> LastAuthentic(evidence[..m], id, i) {
          LastOfFront(evidence, id, i);
        }
      }
    }
  }

  lemma NotThisOne(evidence: seq<Item>, id: Json, i: nat)
    requires i < |evidence| && !(evidence[i].claimId == id && evidence[i].authentic)
    ensures !LastAuthentic(evidence, id, i)
  {
  }

  lemma AllAuthenticLast(evidence: seq<Item>, id: Json, i: nat)
    requires forall j :: 0 <= j < |evidence| ==> evidence[j].authentic
    ensures LastAuthentic(evidence, id, i) <==> LastItem(evidence, id, i)
  {
  }

  lemma ItemHasNoReason(item: Item, id: Json, risk: Json, policy: Policy, now: int)
    requires TimesParse(item)
    ensures ItemReasons(item, id, risk in policy.observedRisks, policy.maxAge, policy.minimumRefs(risk), now) == []
      <==> ItemSupports(item, risk, policy, now)
  {
  }

  lemma {:induction false} NoClaimReason(items: map<Json, Item>, ids: seq<Json>, risk: Json, policy: Policy, now: int)
    requires forall i :: 0 <= i < |ids| ==> ClaimParses(items, ids[i])
    ensures AllClaimReasons(items, ids, risk, policy, now) == []
      <==> forall k :: 0 <= k < |ids| ==> ids[k] in items && ItemSupports(items[ids[k]], risk, policy, now)
  {
    hide ItemReasons, ItemSupports;
    if ids != [] {
      var m := |ids| - 1;
      NoClaimReason(items, ids[..m], risk, policy, now);
      if ids[m] in items { ItemHasNoReason(items[ids[m]], ids[m], risk, policy, now); }
      assert forall k :: 0 <= k < m ==> ids[..m][k] == ids[k];
    }
  }

  lemma NoApprovalReason(digest: string, approval: Approval, now: int)
    ensures ApprovalReasons(digest, approval, now) == [] <==> Approves(approval, digest, now)
  {
  }

  lemma ClaimsSupported(action: Action, evidence: seq<Item>, policy: Policy, now: int, k: nat)
    requires forall i :: 0 <= i < |evidence| ==> evidence[i].authentic
    requires k < |action.claimIds|
    ensures
      var id, items := action.claimIds[k], ById(evidence);
      (id in items && ItemSupports(items[id], action.risk, policy, now)) <==> Supported(evidence, id, action.risk, policy, now)
  {
    hide ItemSupports, LastAuthentic, LastItem;
    ByIdIsLast(evidence, action.claimIds[k]);
    forall i: nat | i < |evidence|
      ensures LastAuthentic(evidence, action.claimIds[k], i) <==> LastItem(evidence, action.claimIds[k], i)
    {
      AllAuthenticLast(evidence, action.claimIds[k], i);
    }
  }

  /** No reason to deny exactly when the declarative condition holds. */
  lemma PermitsExactlyWhenAuthorized(action: Action, evidence: seq<Item>, policy: Policy, approval: Option<Approval>, now: int)
    requires forall i :: 0 <= i < |action.claimIds| ==> ClaimParses(ById(evidence), action.claimIds[i])
    ensures Reasons(action, evidence, policy, approval, now) == [] <==> Authorized(action, evidence, policy, approval, now)
  {
    hide ItemSupports, Approves, ApprovalReasons, ClaimReasons, LastItem;
    NoSignatureReason(evidence);
    NoClaimReason(ById(evidence), action.claimIds, action.risk, policy, now);
    if approval.Some? { NoApprovalReason(action.digest, approval.value, now); }
    if forall i :: 0 <= i < |evidence| ==> evidence[i].authentic {
      forall k: nat | k < |action.claimIds| {
        ClaimsSupported(action, evidence, policy, now, k);
      }
    }
  }

  lemma SupportIsConvex(item: Item, risk: Json, policy: Policy, early: int, now: int, late: int)
    requires early <= now <= late
    requires ItemSupports(item, risk, policy, early) && ItemSupports(item, risk, policy, late)
    ensures ItemSupports(item, risk, policy, now)
  {
  }

  /** For fixed inputs the instants at which an action is authorized form an
      interval. */
  lemma AuthorizedInstantsFormAnInterval(action: Action, evidence: seq<Item>, policy: Policy, approval: Option<Approval>,
                                         early: int, now: int, late: int)
    requires early <= now <= late
    requires Authorized(action, evidence, policy, approval, early) && Authorized(action, evidence, policy, approval, late)
    ensures Authorized(action, evidence, policy, approval, now)
  {
    hide Supported;
    forall k | 0 <= k < |action.claimIds| ensures Supported(evidence, action.claimIds[k], action.risk, policy, now) {
      assert Supported(evidence, action.claimIds[k], action.risk, policy, early);
      SupportedBetween(evidence, action.claimIds[k], action.risk, policy, early, now, late);
    }
  }

  lemma SupportedBetween(evidence: seq<Item>, id: Json, risk: Json, policy: Policy, early: int, now: int, late: int)
    requires early <= now <= late && Supported(evidence, id, risk, policy, early) && Supported(evidence, id, risk, policy, late)
    ensures Supported(evidence, id, risk, policy, now)
  {
    hide ItemSupports;
    var i :| 0 <= i < |evidence| && LastItem(evidence, id, i) && ItemSupports(evidence[i], risk, policy, early);
    var j :| 0 <= j < |evidence| && LastItem(evidence, id, j) && ItemSupports(evidence[j], risk, policy, late);
    assert i == j;
    SupportIsConvex(evidence[i], risk, policy, early, now, late);
  }

  lemma {:induction false} SupportedIdsAreAccepted(items: map<Json, Item>, ids: seq<Json>, risk: Json, policy: Policy, now: int)
    requires forall k :: 0 <= k < |ids| ==> ids[k] in items && ItemSupports(items[ids[k]], risk, policy, now)
    ensures AcceptedIds(items, ids, policy.minimumRefs(risk)) == ids
  {
    if ids != [] {
      SupportedIdsAreAccepted(items, ids[..|ids| - 1], risk, policy, now);
      assert ids == ids[..|ids| - 1] + [ids[|ids| - 1]];
    }
  }

  lemma NoReasonToDeny(action: Action, evidence: seq<Item>, policy: Policy, approval: Option<Approval>, now: int)
    requires forall i :: 0 <= i < |action.claimIds| ==> ClaimParses(ById(evidence), action.claimIds[i])
    ensures Reasons(action, evidence, policy, approval, now) == [] <==> Authorized(action, evidence, policy, approval, now)
    ensures Reasons(action, evidence, policy, approval, now) == [] ==>
      AcceptedIds(ById(evidence), action.claimIds, policy.minimumRefs(action.risk)) == action.claimIds
  {
    hide Authorized, ItemSupports;
    PermitsExactlyWhenAuthorized(action, evidence, policy, approval, now);
    NoClaimReason(ById(evidence), action.claimIds, action.risk, policy, now);
    if Reasons(action, evidence, policy, approval, now) == [] {
      SupportedIdsAreAccepted(ById(evidence), action.claimIds, action.risk, policy, now);
    }
  }

  // ----- what each reason means

  /** Why the gate gives a reason about this claim. */
  predicate ClaimCause(items: map<Json, Item>, id: Json, risk: Json, policy: Policy, now: int, reason: Reason) {
    if id !in items then reason == MissingSignedClaim(id)
    else
      var item := items[id];
      || (reason == ClaimNotObserved(id) && risk in policy.observedRisks && !item.observed)
      || (reason == ClaimFromFuture(id) && item.observedAt.Some? && now < item.observedAt.value - 60 * SECOND)
      || (reason == StaleClaim(id) && item.observedAt.Some? && now >= item.observedAt.value - 60 * SECOND
          && now > item.observedAt.value + policy.maxAge * SECOND)
      || (reason == ExpiredClaim(id) && item.expires.ExpiresAt? && item.expires.instant.Some? && now >= item.expires.instant.value)
      || (reason == InsufficientEvidenceRefs(id) && (item.refs.None? || |item.refs.value| < policy.minimumRefs(risk)))
      || (reason == InvalidEvidenceRef(id) && item.refs.Some? && |item.refs.value| >= policy.minimumRefs(risk) && false in item.refs.value)
  }

  predicate ApprovalCause(digest: string, approval: Approval, now: int, reason: Reason) {
    || (reason == InvalidApprovalSignature && !approval.authentic)
    || (reason == ApprovalActionMismatch && approval.actionDigest != Str(digest))
    || (reason == InvalidApprovalExpiry && approval.expires.None?)
    || (reason == ApprovalExpired && approval.expires.Some? && now >= approval.expires.value)
    || (reason == ApprovalIdentityOrScopeMissing && !approval.identified)
  }

  /** Why the gate gives a reason at all. */
  predicate Cause(action: Action, evidence: seq<Item>, policy: Policy, approval: Option<Approval>, now: int, reason: Reason) {
    || (reason == ActionTypeNotAllowed && policy.allowedTypes != [] && action.kind !in policy.allowedTypes)
    || (exists i :: 0 <= i < |evidence| && !evidence[i].authentic && reason == InvalidEvidenceSignature(evidence[i].claimId))
    || (exists k :: 0 <= k < |action.claimIds| && ClaimCause(ById(evidence), action.claimIds[k], action.risk, policy, now, reason))
    || (action.risk in policy.approvalRisks && approval.None? && reason == ApprovalRequired)
    || (action.risk in policy.approvalRisks && approval.Some? && ApprovalCause(action.digest, approval.value, now, reason))
    || (reason == IrreversibleCriticalAction && action.risk == CRITICAL && !action.reversible)
  }

  lemma {:induction false} SignatureReasonsMean(evidence: seq<Item>, reason: Reason)
    ensures reason in SignatureReasons(evidence)
      <==> exists i :: 0 <= i < |evidence| && !evidence[i].authentic && reason == InvalidEvidenceSignature(evidence[i].claimId)
  {
    if evidence != [] {
      var m := |evidence| - 1;
      SignatureReasonsMean(evidence[..m], reason);
      assert forall i :: 0 <= i < m ==> evidence[..m][i] == evidence[i];
    }
  }

  lemma ClaimReasonsMean(items: map<Json, Item>, id: Json, risk: Json, policy: Policy, now: int, reason: Reason)
    requires ClaimParses(items, id)
    ensures reason in ClaimReasons(items, id, risk, policy, now) <==> ClaimCause(items, id, risk, policy, now, reason)
  {
    if id in items && items[id].refs.Some? {
      var refs := items[id].refs.value;
      assert false in refs <==> !(forall i :: 0 <= i < |refs| ==> refs[i]);
    }
  }

  lemma {:induction false} AllClaimReasonsMean(items: map<Json, Item>, ids: seq<Json>, risk: Json, policy: Policy, now: int, reason: Reason)
    requires forall i :: 0 <= i < |ids| ==> ClaimParses(items, ids[i])
    ensures reason in AllClaimReasons(items, ids, risk, policy, now)
      <==> exists k :: 0 <= k < |ids| && ClaimCause(items, ids[k], risk, policy, now, reason)
  {
    hide ClaimReasons, ClaimCause, ClaimParses;
    if ids != [] {
      var m := |ids| - 1;
      AllClaimReasonsMean(items, ids[..m], risk, policy, now, reason);
      ClaimReasonsMean(items, ids[m], risk, policy, now, reason);
      assert forall k :: 0 <= k < m ==> ids[..m][k] == ids[k];
    }
  }

  /** A reason is given exactly when there is a cause for it. */
  lemma ReasonsHaveCauses(action: Action, evidence: seq<Item>, policy: Policy, approval: Option<Approval>, now: int, reason: Reason)
    requires forall i :: 0 <= i < |action.claimIds| ==> ClaimParses(ById(evidence), action.claimIds[i])
    ensures reason in Reasons(action, evidence, policy, approval, now) <==> Cause(action, evidence, policy, approval, now, reason)
  {
    hide SignatureReasons, AllClaimReasons, ClaimCause, ById, ClaimParses;
    SignatureReasonsMean(evidence, reason);
    AllClaimReasonsMean(ById(evidence), action.claimIds, action.risk, policy, now, reason);
    if approval.Some? { ApprovalReasonsMean(action.digest, approval.value, now, reason); }
    hide ApprovalReasons, ApprovalCause;
  }

  lemma ApprovalReasonsMean(digest: string, approval: Approval, now: int, reason: Reason)
    ensures reason in ApprovalReasons(digest, approval, now) <==> ApprovalCause(digest, approval, now, reason)
  {
  }

  // ----- evaluate_action

  predicate Evaluable(action: Action, evidence: seq<Item>) {
    && action.complete && KnownRisk(action.risk) && action.claimIds != []
    && (forall i :: 0 <= i < |evidence| ==> evidence[i].complete)
    && (forall i :: 0 <= i < |action.claimIds| ==> ClaimParses(ById(evidence), action.claimIds[i]))
  }

  /** The loop over the evidence: reasons, and the item of each claim. */
  method CheckEvidence(evidence: seq<Item>) returns (r: Result<(seq<Reason>, map<Json, Item>), GateError>)
    ensures r.Ok? <==> forall k :: 0 <= k < |evidence| ==> evidence[k].complete
    ensures r.Ok? ==> r.value == (SignatureReasons(evidence), ById(evidence))
  {
    var reasons: seq<Reason> := [];
    var byId: map<Json, Item> := map[];
    for i := 0 to |evidence|
      invariant forall k :: 0 <= k < i ==> evidence[k].complete
      invariant byId == ById(evidence[..i])
      invariant reasons == SignatureReasons(evidence[..i])
    {
      var item := evidence[i];
      assert evidence[..i + 1][..i] == evidence[..i];
      if !item.complete {
        return Err(MissingFields);
      }
      if !item.authentic {
        reasons := reasons + [InvalidEvidenceSignature(item.claimId)];
      } else {
        byId := byId[item.claimId := item];
      }
    }
    assert evidence[..|evidence|] == evidence;
    r := Ok((reasons, byId));
  }

  /** The loop over the claims: reasons, and the accepted claim ids. */
  method CheckClaims(byId: map<Json, Item>, action: Action, policy: Policy, now: int)
    returns (r: Result<(seq<Reason>, seq<Json>), GateError>)
    ensures r.Ok? <==> forall k :: 0 <= k < |action.claimIds| ==> ClaimParses(byId, action.claimIds[k])
    ensures r.Ok? ==> r.value.0 == AllClaimReasons(byId, action.claimIds, action.risk, policy, now)
    ensures r.Ok? ==> r.value.1 == AcceptedIds(byId, action.claimIds, policy.minimumRefs(action.risk))
  {
    hide TimesParse, RefsAccepted, ItemReasons;
    var reasons: seq<Reason> := [];
    var acceptedIds := [];
    for i := 0 to |action.claimIds|
      invariant forall k :: 0 <= k < i ==> ClaimParses(byId, action.claimIds[k])
      invariant reasons == AllClaimReasons(byId, action.claimIds[..i], action.risk, policy, now)
      invariant acceptedIds == AcceptedIds(byId, action.claimIds[..i], policy.minimumRefs(action.risk))
    {
      var id := action.claimIds[i];
      assert action.claimIds[..i + 1][..i] == action.claimIds[..i];
      if id !in byId {
        reasons := reasons + [MissingSignedClaim(id)];
      } else {
        var item := byId[id];
        if !TimesParse(item) {
          return Err(InvalidTimestamp);
        }
        var minimum := policy.minimumRefs(action.risk);
        reasons := reasons + ItemReasons(item, id, action.risk in policy.observedRisks, policy.maxAge, minimum, now);
        if RefsAccepted(item, minimum) {
          acceptedIds := acceptedIds + [id];
        }
      }
    }
    assert action.claimIds[..|action.claimIds|] == action.claimIds;
    r := Ok((reasons, acceptedIds));
  }

  lemma DedupOfNothing<T>(l: seq<T>)
    ensures Dedup(l) == [] <==> l == []
  {
    DedupMembers(l);
    if l != [] { assert l[0] in Dedup(l); }
  }

  lemma ReasonsInOrder(action: Action, evidence: seq<Item>, policy: Policy, approval: Option<Approval>, now: int,
                       approvalReasons: seq<Reason>)
    requires forall i :: 0 <= i < |action.claimIds| ==> ClaimParses(ById(evidence), action.claimIds[i])
    requires approvalReasons ==
      if action.risk !in policy.approvalRisks then []
      else if approval.None? then [ApprovalRequired]
      else ApprovalReasons(action.digest, approval.value, now)
    ensures Reasons(action, evidence, policy, approval, now) ==
      If(policy.allowedTypes != [] && action.kind !in policy.allowedTypes, ActionTypeNotAllowed)
      + SignatureReasons(evidence)
      + AllClaimReasons(ById(evidence), action.claimIds, action.risk, policy, now)
      + approvalReasons
      + If(action.risk == CRITICAL && !action.reversible, IrreversibleCriticalAction)
  {
    hide If, SignatureReasons, AllClaimReasons, ById;
  }

  /** The evaluation of what was read: it raises exactly for inputs that cannot be
      evaluated; otherwise it permits exactly what is authorized, with the
      de-duplicated claim ids in order as evidence, and says why it denies the rest. */
  method Evaluate(action: Action, evidence: seq<Item>, policy: Policy, approval: Option<Approval>, now: int)
    returns (r: Result<Decision, GateError>)
    ensures r.Ok? <==> Evaluable(action, evidence)
    ensures r.Ok? ==>
      && r.value.digest == action.digest
      && (r.value.approvalRequired <==> action.risk in policy.approvalRisks)
      && (r.value.permitted <==> Authorized(action, evidence, policy, approval, now))
      && r.value.reasons == Dedup(Reasons(action, evidence, policy, approval, now))
    ensures r.Ok? && r.value.permitted ==> r.value.evidenceIds == Dedup(action.claimIds)
  {
    if !action.complete {
      return Err(MissingFields);
    }
    if !KnownRisk(action.risk) {
      return Err(UnsupportedRisk);
    }
    if action.claimIds == [] {
      return Err(NoClaims);
    }
    hide Authorized, ById, SignatureReasons, AllClaimReasons, AcceptedIds, ApprovalReasons, Dedup, TimesParse, If, Reasons;
    var reasons := If(policy.allowedTypes != [] && action.kind !in policy.allowedTypes, ActionTypeNotAllowed);
    var signed := CheckEvidence(evidence);
    if signed.Err? {
      return Err(signed.error);
    }
    reasons := reasons + signed.value.0;
    var byId := signed.value.1;
    var checked := CheckClaims(byId, action, policy, now);
    if checked.Err? {
      return Err(checked.error);
    }
    reasons := reasons + checked.value.0;
    var acceptedIds := checked.value.1;
    var approvalReasons := [];
    if action.risk in policy.approvalRisks {
      approvalReasons := if approval.None? then [ApprovalRequired] else ApprovalReasons(action.digest, approval.value, now);
    }
    reasons := reasons + approvalReasons + If(action.risk == CRITICAL && !action.reversible, IrreversibleCriticalAction);
    ReasonsInOrder(action, evidence, policy, approval, now, approvalReasons);
    NoReasonToDeny(action, evidence, policy, approval, now);
    DedupOfNothing(reasons);
    var unique := Dedup(reasons);
    r := Ok(Decision(unique == [], action.digest, unique, Dedup(acceptedIds), action.risk in policy.approvalRisks));
  }

  // ----- what the documents must say

  /** The last document about a claim. */
  predicate LastAbout(evidence: seq<Record>, id: Json, i: nat) {
    && i < |evidence| && Get(evidence[i], CLAIM_ID) == id
    && forall j :: i < j < |evidence| ==> Get(evidence[j], CLAIM_ID) != id
  }

  predicate TypeAllowed(policy: Record, kind: Json) {
    ALLOWED_TYPES in policy && policy[ALLOWED_TYPES].Arr? && policy[ALLOWED_TYPES].items != [] ==> kind in policy[ALLOWED_TYPES].items
  }

  /** By default evidence must be observed for high and critical risks. */
  predicate MustBeObserved(policy: Record, risk: Json) {
    if OBSERVED_RISKS in policy then policy[OBSERVED_RISKS].Arr? && risk in policy[OBSERVED_RISKS].items
    else risk == Str("high") || risk == Str("critical")
  }

  /** By default all but low risks need an approval. */
  predicate MustBeApproved(policy: Record, risk: Json) {
    if APPROVAL_RISKS in policy then policy[APPROVAL_RISKS].Arr? && risk in policy[APPROVAL_RISKS].items
    else risk == Str("medium") || risk == Str("high") || risk == Str("critical")
  }

  /** One day by default. */
  function OldestAge(policy: Record): int {
    if Get(policy, MAX_AGE).Int? then Get(policy, MAX_AGE).i else 24 * 60 * 60
  }

  /** One reference by default. */
  function RefsNeeded(policy: Record, risk: Json): int {
    var minimums := Get(policy, MINIMUM_REFS);
    if minimums.Obj? && risk.Str? && Get(minimums.fields, Field.Other(risk.s)).Int? then Get(minimums.fields, Field.Other(risk.s)).i else 1
  }

  /** The field is a timestamp, at most `late` and at least `early`. */
  predicate TimeBetween(g: Gatekeeper, document: Record, field: Field, early: int, late: int) {
    && Get(document, field).Str?
    && var at := g.parseTime(Get(document, field).s);
    && at.Some? && early <= at.value <= late
  }

  predicate LaterThan(g: Gatekeeper, document: Record, field: Field, now: int) {
    && Get(document, field).Str?
    && var at := g.parseTime(Get(document, field).s);
    && at.Some? && now < at.value
  }

  /** Evidence that supports its claim now: observed at most a minute ahead and not too
      long ago, observed at all where the policy asks for it, not expired, with enough
      references that each name a uri. */
  predicate Supports(g: Gatekeeper, document: Record, policy: Record, risk: Json, now: int) {
    && TimeBetween(g, document, OBSERVED_AT, now - OldestAge(policy) * SECOND, now + 60 * SECOND)
    && (MustBeObserved(policy, risk) ==> Get(document, EPISTEMIC_STATUS) == Str("observed"))
    && (Truthy(Get(document, Field.ExpiresAt)) ==> LaterThan(g, document, Field.ExpiresAt, now))
    && Get(document, Evidence).Arr?
    && var refs := Get(document, Evidence).items;
    && |refs| >= RefsNeeded(policy, risk)
    && forall i :: 0 <= i < |refs| ==> refs[i].Obj? && Truthy(Get(refs[i].fields, URI))
  }

  /** The last document about the claim supports it. */
  predicate ClaimSupported(g: Gatekeeper, evidence: seq<Record>, policy: Record, risk: Json, now: int, id: Json) {
    exists i :: 0 <= i < |evidence| && LastAbout(evidence, id, i) && Supports(g, evidence[i], policy, risk, now)
  }

  /** An approval of this action, signed with the approval secret, not expired, by
      somebody and for some scope. */
  predicate ApprovesAction(g: Gatekeeper, action: Record, approval: Record, now: int) {
    && g.approvalSecret.Some? && Sealed(g.suite, approval, g.approvalSecret.value)
    && Get(approval, ActionDigest) == Str(HexSha(g.suite, g.suite.dumps(action - {Signature})))
    && LaterThan(g, approval, Field.ExpiresAt, now)
    && Truthy(Get(approval, APPROVED_BY)) && Truthy(Get(approval, SCOPE))
  }

  /** What the documents must say for the action to be permitted. */
  predicate Permissible(g: Gatekeeper, action: Record, evidence: seq<Record>, policy: Record, approval: Option<Record>, now: int) {
    var risk := Get(action, RISK);
    && TypeAllowed(policy, Get(action, ActionType))
    && (forall i :: 0 <= i < |evidence| ==> Sealed(g.suite, evidence[i], g.evidenceSecret))
    && (Get(action, CLAIM_IDS).Arr? ==>
          forall id :: id in Get(action, CLAIM_IDS).items ==> ClaimSupported(g, evidence, policy, risk, now, id))
    && (MustBeApproved(policy, risk) ==> approval.Some? && ApprovesAction(g, action, approval.value, now))
    && (risk == Str("critical") ==> Get(action, REVERSIBLE) == Bool(true))
  }

  /** The last document about a claim among those with a good signature. */
  predicate LastSealedAbout(g: Gatekeeper, evidence: seq<Record>, id: Json, i: nat) {
    && i < |evidence| && Get(evidence[i], CLAIM_ID) == id && Sealed(g.suite, evidence[i], g.evidenceSecret)
    && forall j :: i < j < |evidence| && Get(evidence[j], CLAIM_ID) == id ==> !Sealed(g.suite, evidence[j], g.evidenceSecret)
  }

  predicate ReadableTimes(g: Gatekeeper, document: Record) {
    && Get(document, OBSERVED_AT).Str? && g.parseTime(Get(document, OBSERVED_AT).s).Some?
    && (Truthy(Get(document, Field.ExpiresAt)) ==>
          Get(document, Field.ExpiresAt).Str? && g.parseTime(Get(document, Field.ExpiresAt).s).Some?)
  }

  /** The last sealed document about the claim, if any, has readable times. */
  predicate TimesReadable(g: Gatekeeper, evidence: seq<Record>, id: Json) {
    forall i :: 0 <= i < |evidence| && LastSealedAbout(g, evidence, id, i) ==> ReadableTimes(g, evidence[i])
  }

  /** The documents can be evaluated at all. */
  predicate Readable(g: Gatekeeper, action: Record, evidence: seq<Record>) {
    && {ACTION_ID, ActionType, TARGET, RISK, REVERSIBLE, CLAIM_IDS} <= action.Keys
    && (action[RISK] == Str("low") || action[RISK] == Str("medium") || action[RISK] == Str("high") || action[RISK] == Str("critical"))
    && action[CLAIM_IDS].Arr? && action[CLAIM_IDS].items != []
    && (forall i :: 0 <= i < |evidence| ==> {CLAIM_ID, CLAIM, EPISTEMIC_STATUS, OBSERVED_AT, Evidence} <= evidence[i].Keys)
    && (forall id :: id in action[CLAIM_IDS].items ==> TimesReadable(g, evidence, id))
  }

  // ----- reading the documents loses nothing

  lemma TypesRead(policy: Record, kind: Json)
    ensures TypeAllowed(policy, kind) <==> ReadPolicy(policy).allowedTypes == [] || kind in ReadPolicy(policy).allowedTypes
  {
  }

  lemma ObservedRead(policy: Record, risk: Json)
    ensures MustBeObserved(policy, risk) <==> risk in ReadPolicy(policy).observedRisks
  {
  }

  lemma ApprovalsRead(policy: Record, risk: Json)
    ensures MustBeApproved(policy, risk) <==> risk in ReadPolicy(policy).approvalRisks
  {
  }

  lemma AgeRead(policy: Record)
    ensures ReadPolicy(policy).maxAge == OldestAge(policy)
  {
  }

  lemma RefsRead(policy: Record, risk: Json)
    requires risk.Str?
    ensures ReadPolicy(policy).minimumRefs(risk) == RefsNeeded(policy, risk)
  {
    var minimums := FieldsOf(Get(policy, MINIMUM_REFS));
    assert ReadPolicy(policy).minimumRefs(risk) == IntOr(minimums, Field.Other(TextOf(risk)), 1);
  }

  lemma RefsAreRead(j: Json, minimum: int)
    ensures
      (ReadRefs(j).Some? && |ReadRefs(j).value| >= minimum && forall i :: 0 <= i < |ReadRefs(j).value| ==> ReadRefs(j).value[i])
      <==> (j.Arr? && |j.items| >= minimum && forall i :: 0 <= i < |j.items| ==> j.items[i].Obj? && Truthy(Get(j.items[i].fields, URI)))
  {
    hide Truthy;
    if j.Arr? {
      assert forall i :: 0 <= i < |j.items| ==> ReadRefs(j).value[i] == (j.items[i].Obj? && Truthy(Get(j.items[i].fields, URI)));
    }
  }

  lemma TimesRead(g: Gatekeeper, document: Record)
    ensures TimesParse(ReadItem(g, document)) <==> ReadableTimes(g, document)
    ensures ReadItem(g, document).authentic <==> Sealed(g.suite, document, g.evidenceSecret)
    ensures ReadItem(g, document).claimId == Get(document, CLAIM_ID)
  {
    hide ReadRefs, VerifyDocument, Sealed, Truthy;
    VerifiedIsSealed(g.suite, document, g.evidenceSecret);
  }

  lemma ItemRead(g: Gatekeeper, document: Record, policy: Record, risk: Json, now: int)
    requires risk.Str?
    ensures ItemSupports(ReadItem(g, document), risk, ReadPolicy(policy), now) <==> Supports(g, document, policy, risk, now)
  {
    hide ReadRefs, ReadPolicy, MustBeObserved, OldestAge, RefsNeeded, VerifyDocument, Truthy;
    ObservedRead(policy, risk);
    AgeRead(policy);
    RefsRead(policy, risk);
    RefsAreRead(Get(document, Evidence), RefsNeeded(policy, risk));
  }

  lemma ApprovalRead(g: Gatekeeper, action: Record, approval: Option<Record>, now: int)
    ensures (ReadApproval(g, approval).Some? && Approves(ReadApproval(g, approval).value, DigestDocument(g.suite, action), now))
      <==> (approval.Some? && ApprovesAction(g, action, approval.value, now))
  {
    hide VerifyDocument, Sealed, Truthy;
    if approval.Some? && g.approvalSecret.Some? {
      VerifiedIsSealed(g.suite, approval.value, g.approvalSecret.value);
    }
  }

  lemma SameLast(g: Gatekeeper, evidence: seq<Record>, id: Json, i: nat)
    requires i < |evidence|
    ensures LastItem(ReadItems(g, evidence), id, i) <==> LastAbout(evidence, id, i)
    ensures LastAuthentic(ReadItems(g, evidence), id, i) <==> LastSealedAbout(g, evidence, id, i)
  {
    hide TimesParse, ReadableTimes, Sealed, ReadItem;
    var items := ReadItems(g, evidence);
    forall j | 0 <= j < |evidence|
      ensures items[j].claimId == Get(evidence[j], CLAIM_ID) && (items[j].authentic <==> Sealed(g.suite, evidence[j], g.evidenceSecret))
    {
      assert items[j] == ReadItem(g, evidence[j]);
      TimesRead(g, evidence[j]);
    }
  }

  lemma ClaimRead(g: Gatekeeper, evidence: seq<Record>, policy: Record, risk: Json, now: int, id: Json)
    requires risk.Str?
    ensures Supported(ReadItems(g, evidence), id, risk, ReadPolicy(policy), now) <==> ClaimSupported(g, evidence, policy, risk, now, id)
  {
    hide ItemSupports, Supports, ReadItem, LastItem, LastAbout, ReadPolicy;
    var items := ReadItems(g, evidence);
    forall i: nat | i < |evidence|
      ensures LastItem(items, id, i) <==> LastAbout(evidence, id, i)
      ensures ItemSupports(items[i], risk, ReadPolicy(policy), now) <==> Supports(g, evidence[i], policy, risk, now)
    {
      SameLast(g, evidence, id, i);
      ItemRead(g, evidence[i], policy, risk, now);
      assert items[i] == ReadItem(g, evidence[i]);
    }
  }

  /** What the gate authorizes is exactly what the documents permit. */
  lemma AuthorizedMeansPermissible(g: Gatekeeper, action: Record, evidence: seq<Record>, policy: Record, approval: Option<Record>, now: int)
    requires Get(action, RISK).Str?
    ensures Authorized(ReadAction(g, action), ReadItems(g, evidence), ReadPolicy(policy), ReadApproval(g, approval), now)
      <==> Permissible(g, action, evidence, policy, approval, now)
  {
    hide ItemSupports, Supports, Sealed, ReadItem, LastItem, LastAbout, ReadPolicy, Supported, TypeAllowed, MustBeApproved,
      ReadApproval, Approves, ApprovesAction, DigestDocument;
    var risk := Get(action, RISK);
    TypesRead(policy, Get(action, ActionType));
    ApprovalsRead(policy, risk);
    ApprovalRead(g, action, approval, now);
    var items, ids := ReadItems(g, evidence), ReadAction(g, action).claimIds;
    forall i | 0 <= i < |evidence| ensures items[i].authentic <==> Sealed(g.suite, evidence[i], g.evidenceSecret) {
      assert items[i] == ReadItem(g, evidence[i]);
      TimesRead(g, evidence[i]);
    }
    forall k | 0 <= k < |ids|
      ensures ids[k] in ids
      ensures Supported(items, ids[k], risk, ReadPolicy(policy), now) <==> ClaimSupported(g, evidence, policy, risk, now, ids[k])
    {
      ClaimRead(g, evidence, policy, risk, now, ids[k]);
    }
  }

  /** An action can be evaluated exactly when its documents are readable. */
  lemma EvaluableMeansReadable(g: Gatekeeper, action: Record, evidence: seq<Record>)
    ensures Evaluable(ReadAction(g, action), ReadItems(g, evidence)) <==> Readable(g, action, evidence)
  {
    hide ClaimParses, TimesReadable, ReadItem, DigestDocument, ById;
    ClaimsParse(g, action, evidence);
    ItemsComplete(g, evidence);
  }

  lemma ItemsComplete(g: Gatekeeper, evidence: seq<Record>)
    ensures (forall i :: 0 <= i < |evidence| ==> ReadItems(g, evidence)[i].complete)
      <==> (forall i :: 0 <= i < |evidence| ==> {CLAIM_ID, CLAIM, EPISTEMIC_STATUS, OBSERVED_AT, Evidence} <= evidence[i].Keys)
  {
    hide VerifyDocument, Truthy;
    assert forall i :: 0 <= i < |evidence| ==> ReadItems(g, evidence)[i] == ReadItem(g, evidence[i]);
  }

  lemma ClaimParsesMeans(g: Gatekeeper, evidence: seq<Record>, id: Json)
    ensures ClaimParses(ById(ReadItems(g, evidence)), id) <==> TimesReadable(g, evidence, id)
  {
    hide TimesParse, ReadableTimes, LastAuthentic, LastSealedAbout, ReadItem;
    var items := ReadItems(g, evidence);
    ByIdIsLast(items, id);
    forall i: nat | i < |evidence|
      ensures LastAuthentic(items, id, i) <==> LastSealedAbout(g, evidence, id, i)
      ensures TimesParse(items[i]) <==> ReadableTimes(g, evidence[i])
    {
      SameLast(g, evidence, id, i);
      assert items[i] == ReadItem(g, evidence[i]);
      TimesRead(g, evidence[i]);
    }
  }

  lemma ClaimsParse(g: Gatekeeper, action: Record, evidence: seq<Record>)
    ensures
      var ids := ReadAction(g, action).claimIds;
      (forall k :: 0 <= k < |ids| ==> ClaimParses(ById(ReadItems(g, evidence)), ids[k]))
      <==> (forall id :: id in ids ==> TimesReadable(g, evidence, id))
  {
    hide ClaimParses, TimesReadable, ReadAction, ReadItems, ById;
    var ids := ReadAction(g, action).claimIds;
    forall k | 0 <= k < |ids| ensures ids[k] in ids && (ClaimParses(ById(ReadItems(g, evidence)), ids[k]) <==> TimesReadable(g, evidence, ids[k])) {
      ClaimParsesMeans(g, evidence, ids[k]);
    }
  }

  /** `evaluate_action`: it raises exactly for documents that cannot be read; otherwise
      it permits exactly what they permit, under the digest of the action, with the
      claim ids in order as evidence. */
  method EvaluateAction(g: Gatekeeper, action: Record, evidence: seq<Record>, policy: Record, approval: Option<Record>, now: int)
    returns (r: Result<Decision, GateError>)
    ensures r.Ok? <==> Readable(g, action, evidence)
    ensures r.Ok? ==>
      && (r.value.permitted <==> Permissible(g, action, evidence, policy, approval, now))
      && r.value.digest == HexSha(g.suite, g.suite.dumps(action - {Signature}))
      && (r.value.approvalRequired <==> MustBeApproved(policy, Get(action, RISK)))
    ensures r.Ok? && r.value.permitted ==> r.value.evidenceIds == Dedup(action[CLAIM_IDS].items)
    ensures r.Ok? ==>
      && Evaluable(ReadAction(g, action), ReadItems(g, evidence))
      && r.value.reasons == Dedup(Reasons(ReadAction(g, action), ReadItems(g, evidence), ReadPolicy(policy), ReadApproval(g, approval), now))
  {
    hide VerifyDocument, Sealed, Evaluable, Supported, Supports, Dedup, Reasons, ReadItems, ReadApproval, ReadPolicy, Authorized, Permissible,
      MustBeApproved;
    r := Evaluate(ReadAction(g, action), ReadItems(g, evidence), ReadPolicy(policy), ReadApproval(g, approval), now);
    EvaluableMeansReadable(g, action, evidence);
    if r.Ok? {
      ApprovalsRead(policy, Get(action, RISK));
      AuthorizedMeansPermissible(g, action, evidence, policy, approval, now);
    }
  }
}
