/**
 `GitHubMergeAdapter` of integrations/openclaw/github_adapter.py against a
 provider that other people use at the same time.

 Between any two of the adapter's calls others may push to the pull request or
 merge it, and any response may be lost.  A pull request keeps its head once it
 is merged.  A read answered with status 200 tells the truth; everything else a
 response says, including every answer to a merge request, is unconstrained.
 */
module GitHubAdapter {
  import opened Hashing

  // ----- the provider

  /** How the pull request was merged: its merge commit, and by whom. */
  datatype Merge = Merge(commit: string, ours: bool)

  datatype Pull = Pull(head: string, merge: Option<Merge>)

  /** What somebody else does to the pull request. */
  datatype Foreign = Push(head: string) | MergeAs(commit: string)

  function Disturb(p: Pull, f: Foreign): Pull {
    if p.merge.Some? then p
    else match f
      case Push(head) => p.(head := head)
      case MergeAs(commit) => p.(merge := Some(Merge(commit, false)))
  }

  function Drift(p: Pull, foreign: seq<Foreign>): (q: Pull)
    ensures p.merge.Some? ==> q == p
    ensures q.merge.Some? && q.merge.value.ours ==> q == p
    decreases |foreign|
  {
    if foreign == [] then p else Drift(Disturb(p, foreign[0]), foreign[1..])
  }

  /** The response fields the adapter reads. */
  datatype Body = Body(headSha: Json, merged: Json, mergeCommit: Json, mergeable: Json)

  datatype Fate =
    | Lost                              // a timeout or connection error
    | Raises                            // any other exception
    | Answers(status: int, body: Body)

  /** The world's part in one call: what others did before it, whether a merge
      request reached a provider willing to merge (and the commit it would
      make), and what became of the response. */
  datatype Turn = Turn(foreign: seq<Foreign>, takes: bool, commit: string, fate: Fate)

  /** A read with status 200 reports the head and whether it is merged; the merge
      commit may be left out. */
  function Report(p: Pull, body: Body): Body {
    Body(
      Str(p.head),
      Bool(p.merge.Some?),
      if p.merge.Some? && body.mergeCommit != Null then Str(p.merge.value.commit)
      else if p.merge.Some? then Null
      else body.mergeCommit,
      body.mergeable)
  }

  function ReadFate(p: Pull, fate: Fate): Fate {
    if fate.Answers? && fate.status == 200 then Answers(200, Report(p, fate.body)) else fate
  }

  /** A merge request merges only an open pull request with exactly this head. */
  function MergeRequest(p: Pull, sha: Json, turn: Turn): Pull {
    if turn.takes && p.merge.None? && sha == Str(p.head) then p.(merge := Some(Merge(turn.commit, true))) else p
  }

  // ----- actions and receipts

  datatype ExecuteError = MissingExecution | Required(field: Field) | InvalidPullNumber | UnsupportedMergeMethod | TransportRaised

  datatype Status = Success | Failed | Unknown

  datatype Reason =
    | PreflightStatus(code: int)
    | HeadMismatch(actual: Json)
    | AlreadyMerged
    | NotMergeable
    | MergeStatus(code: int)
    | MergedHeadMismatch(actual: Json)
    | MergeSeen
    | ReadLost
    | Unreadable(code: int)

  datatype Receipt = Receipt(idempotencyKey: string, status: Status, confirmed: bool, retrySafe: bool, operationId: Json, reason: Reason)

  /** A validated action. */
  datatype Request = Request(head: string, body: Record)

  function TrimLeft(text: string): string {
    if text != "" && IsBlank(text[0]) then TrimLeft(text[1..]) else text
  }

  function TrimRight(text: string): string {
    if text != "" && IsBlank(text[|text| - 1]) then TrimRight(text[..|text| - 1]) else text
  }

  /** `_required_text` */
  function RequiredText(document: Record, field: Field): Result<string, ExecuteError> {
    var text := Text(Get(document, field));
    if text.None? || TrimRight(TrimLeft(text.value)) == "" then Err(Required(field))
    else Ok(TrimRight(TrimLeft(text.value)))
  }

  /** `isinstance(value, int) and value > 0`; in Python `True` is such an int. */
  predicate PositiveInt(j: Json) {
    (j.Int? && j.i > 0) || j == Bool(true)
  }

  function MethodOf(execution: Record): Json {
    if MergeMethod in execution then execution[MergeMethod] else Str("squash")
  }

  function WithIfTruthy(body: Record, execution: Record, field: Field): Record {
    if Truthy(Get(execution, field)) then body[field := Get(execution, field)] else body
  }

  function MergeBody(execution: Record, head: string): Record {
    var body: Record := map[Sha := Str(head), MergeMethod := MethodOf(execution)];
    WithIfTruthy(WithIfTruthy(body, execution, CommitTitle), execution, CommitMessage)
  }

  function Validate(execution: Json): Result<Request, ExecuteError> {
    if !execution.Obj? then Err(MissingExecution)
    else
      var owner, repo := RequiredText(execution.fields, Owner), RequiredText(execution.fields, Repo);
      var head := RequiredText(execution.fields, ExpectedHeadSha);
      if owner.Err? then Err(owner.error)
      else if repo.Err? then Err(repo.error)
      else if head.Err? then Err(head.error)
      else if !PositiveInt(Get(execution.fields, PullNumber)) then Err(InvalidPullNumber)
      else if MethodOf(execution.fields) !in {Str("merge"), Str("squash"), Str("rebase")} then Err(UnsupportedMergeMethod)
      else Ok(Request(head.value, MergeBody(execution.fields, head.value)))
  }

  lemma ValidRequest(execution: Json)
    requires Validate(execution).Ok?
    ensures execution.Obj?
    ensures
      var head := Validate(execution).value.head;
      Validate(execution).value == Request(head, MergeBody(execution.fields, head))
  {
    hide RequiredText, MergeBody;
  }

  // ----- what a validated action is

  predicate AllBlank(text: string) {
    forall c :: c in text ==> IsBlank(c)
  }

  /** `inner` is `text` without the white space around it. */
  ghost predicate Stripped(text: string, inner: string) {
    && inner != "" && !IsBlank(inner[0]) && !IsBlank(inner[|inner| - 1])
    && exists left: string, right: string :: text == left + inner + right && AllBlank(left) && AllBlank(right)
  }

  lemma {:induction false} TrimLeftMeaning(text: string) returns (left: string)
    ensures text == left + TrimLeft(text) && AllBlank(left)
    ensures TrimLeft(text) != "" ==> !IsBlank(TrimLeft(text)[0])
  {
    left := "";
    if text != "" && IsBlank(text[0]) {
      left := TrimLeftMeaning(text[1..]);
      left := [text[0]] + left;
      assert text == [text[0]] + text[1..];
    }
  }

  lemma {:induction false} TrimRightMeaning(text: string) returns (right: string)
    ensures text == TrimRight(text) + right && AllBlank(right)
    ensures TrimRight(text) != "" ==> !IsBlank(TrimRight(text)[|TrimRight(text)| - 1])
    ensures TrimRight(text) != "" ==> TrimRight(text)[0] == text[0]
  {
    right := "";
    if text != "" && IsBlank(text[|text| - 1]) {
      right := TrimRightMeaning(text[..|text| - 1]);
      assert text == text[..|text| - 1] + [text[|text| - 1]];
      right := right + [text[|text| - 1]];
    }
  }

  /** A required text is stripped; it is refused exactly when nothing is left. */
  lemma RequiredTextMeaning(document: Record, field: Field)
    ensures RequiredText(document, field).Ok? <==>
      Get(document, field).Str? && exists c :: c in Get(document, field).s && !IsBlank(c)
    ensures RequiredText(document, field).Ok? ==> Stripped(Get(document, field).s, RequiredText(document, field).value)
    ensures RequiredText(document, field).Err? ==> RequiredText(document, field).error == Required(field)
  {
    if Get(document, field).Str? {
      hide TrimLeft, TrimRight, IsBlank;
      var text := Get(document, field).s;
      var left := TrimLeftMeaning(text);
      var right := TrimRightMeaning(TrimLeft(text));
      assert text == left + TrimRight(TrimLeft(text)) + right;
    }
  }

  /** The texts, the pull request number and the merge method (squash when none is
      given) that an action must have. */
  predicate Acceptable(execution: Record) {
    && (forall field :: field in {Owner, Repo, ExpectedHeadSha} ==> RequiredText(execution, field).Ok?)
    && ((Get(execution, PullNumber).Int? && Get(execution, PullNumber).i >= 1) || Get(execution, PullNumber) == Bool(true))
    && (MergeMethod !in execution
        || execution[MergeMethod] == Str("merge") || execution[MergeMethod] == Str("squash") || execution[MergeMethod] == Str("rebase"))
  }

  /** The merge request that is sent: the stripped head, the given method or squash,
      and the title and message that are not empty. */
  predicate Requests(execution: Record, r: Request) {
    && RequiredText(execution, ExpectedHeadSha) == Ok(r.head)
    && Get(r.body, Sha) == Str(r.head)
    && Get(r.body, MergeMethod) == (if MergeMethod in execution then execution[MergeMethod] else Str("squash"))
    && (forall field :: field in {CommitTitle, CommitMessage} ==>
          Get(r.body, field) == if Truthy(Get(execution, field)) then Get(execution, field) else Null)
    && r.body.Keys <= {Sha, MergeMethod, CommitTitle, CommitMessage}
  }

  /** An action is accepted exactly when it is complete, and its request says what it
      says. */
  lemma ValidatesExactly(execution: Json)
    ensures Validate(execution).Ok? <==> execution.Obj? && Acceptable(execution.fields)
    ensures Validate(execution).Ok? ==> Requests(execution.fields, Validate(execution).value)
  {
    hide RequiredText;
  }

  predicate WellFormed(r: Request) {
    Get(r.body, Sha) == Str(r.head)
  }

  /** A merge request names the approved head. */
  lemma RequestNamesHead(execution: Json)
    requires Validate(execution).Ok?
    ensures WellFormed(Validate(execution).value)
  {
  }

  // ----- what an execution does, call by call

  datatype Call = GetCall | PutCall(body: Record)

  datatype Transcript = Transcript(result: Result<Receipt, ExecuteError>, pull: Pull, calls: seq<Call>)

  const AMBIGUOUS := {409, 422, 502, 503, 504}

  function ReconcileReceipt(key: string, head: string, seen: Fate): Result<Receipt, ExecuteError> {
    match seen
    case Raises => Err(TransportRaised)
    case Lost => Ok(Receipt(key, Unknown, false, false, Null, ReadLost))
    case Answers(status, current) =>
      if status == 200 && current.merged == Bool(true) && current.headSha != Str(head) then
        Ok(Receipt(key, Failed, false, false, Null, MergedHeadMismatch(current.headSha)))
      else if status == 200 && current.merged == Bool(true) && Truthy(current.mergeCommit) then
        Ok(Receipt(key, Success, true, true, current.mergeCommit, MergeSeen))
      else
        Ok(Receipt(key, Unknown, false, false, Null, Unreadable(status)))
  }

  /** Does the answer to the merge request call for another read? */
  predicate NeedsReading(fate: Fate) {
    fate.Lost? || (fate.Answers? && ((fate.status == 200 && fate.body.merged == Bool(true)) || fate.status in AMBIGUOUS))
  }

  function PreflightReceipt(key: string, head: string, seen: Fate): Option<Result<Receipt, ExecuteError>> {
    match seen
    case Lost => Some(Err(TransportRaised))
    case Raises => Some(Err(TransportRaised))
    case Answers(status, before) =>
      if status != 200 then Some(Ok(Receipt(key, Failed, false, status == 404, Null, PreflightStatus(status))))
      else if before.headSha != Str(head) then Some(Ok(Receipt(key, Failed, false, false, Null, HeadMismatch(before.headSha))))
      else if before.merged == Bool(true) then Some(Ok(Receipt(key, Success, true, true, before.mergeCommit, AlreadyMerged)))
      else if before.mergeable == Bool(false) then Some(Ok(Receipt(key, Failed, false, false, Null, NotMergeable)))
      else None
  }

  /** The pull request as each of the three calls finds it. */
  function AtPreflight(p: Pull, plan: nat -> Turn, n: nat): Pull {
    Drift(p, plan(n).foreign)
  }

  function AtMerge(p: Pull, plan: nat -> Turn, n: nat): Pull {
    Drift(AtPreflight(p, plan, n), plan(n + 1).foreign)
  }

  function AfterMerge(p: Pull, plan: nat -> Turn, n: nat, r: Request): Pull {
    MergeRequest(AtMerge(p, plan, n), Get(r.body, Sha), plan(n + 1))
  }

  function AtReconcile(p: Pull, plan: nat -> Turn, n: nat, r: Request): Pull {
    Drift(AfterMerge(p, plan, n, r), plan(n + 2).foreign)
  }

  /** `execute` on a validated action, with `n` calls made before it. */
  function Attempt(p: Pull, plan: nat -> Turn, n: nat, r: Request, key: string): Transcript {
    var before := AtPreflight(p, plan, n);
    var preflight := PreflightReceipt(key, r.head, ReadFate(before, plan(n).fate));
    if preflight.Some? then Transcript(preflight.value, before, [GetCall])
    else
      var after := AfterMerge(p, plan, n, r);
      var fate := plan(n + 1).fate;
      if NeedsReading(fate) then
        var end := AtReconcile(p, plan, n, r);
        Transcript(ReconcileReceipt(key, r.head, ReadFate(end, plan(n + 2).fate)), end, [GetCall, PutCall(r.body), GetCall])
      else if fate.Raises? then Transcript(Err(TransportRaised), after, [GetCall, PutCall(r.body)])
      else Transcript(Ok(Receipt(key, Failed, false, fate.status in {401, 403, 404}, Null, MergeStatus(fate.status))),
                      after, [GetCall, PutCall(r.body)])
  }

  // ----- the adapter as the program runs it

  /** The transport, and the pull request behind it. */
  class Transport {
    const plan: nat -> Turn
    var pull: Pull
    var calls: seq<Call>

    constructor (plan: nat -> Turn, pull: Pull)
      ensures this.plan == plan && this.pull == pull && calls == []
    {
      this.plan, this.pull, calls := plan, pull, [];
    }

    method Read() returns (seen: Fate)
      modifies this
      ensures pull == Drift(old(pull), plan(|old(calls)|).foreign)
      ensures calls == old(calls) + [GetCall]
      ensures seen == ReadFate(pull, plan(|old(calls)|).fate)
    {
      var turn := plan(|calls|);
      pull, calls := Drift(pull, turn.foreign), calls + [GetCall];
      seen := ReadFate(pull, turn.fate);
    }

    method PutMerge(body: Record) returns (answer: Fate)
      modifies this
      ensures pull == MergeRequest(Drift(old(pull), plan(|old(calls)|).foreign), Get(body, Sha), plan(|old(calls)|))
      ensures calls == old(calls) + [PutCall(body)]
      ensures answer == plan(|old(calls)|).fate
    {
      var turn := plan(|calls|);
      pull, calls := MergeRequest(Drift(pull, turn.foreign), Get(body, Sha), turn), calls + [PutCall(body)];
      answer := turn.fate;
    }
  }

  /** What `observe` returns. */
  datatype Observed = Observed(status: int, merged: bool, mergeCommit: Json, headSha: Json)

  class GitHubMergeAdapter {
    const transport: Transport

    constructor (transport: Transport)
      ensures this.transport == transport
    {
      this.transport := transport;
    }

    /** `execute` */
    method Execute(execution: Json, key: string) returns (result: Result<Receipt, ExecuteError>)
      modifies transport
      ensures
        var valid := Validate(execution);
        if valid.Err? then
          result == Err(valid.error) && transport.pull == old(transport.pull) && transport.calls == old(transport.calls)
        else
          var t := Attempt(old(transport.pull), transport.plan, |old(transport.calls)|, valid.value, key);
          && result == t.result && transport.pull == t.pull && transport.calls == old(transport.calls) + t.calls
          && WellFormed(valid.value)
    {
      hide Validate, RequiredText, MethodOf, PreflightReceipt, ReconcileReceipt, Drift, ReadFate, MergeRequest;
      var valid := Validate(execution);
      if valid.Err? {
        return Err(valid.error);
      }
      ValidRequest(execution);
      RequestNamesHead(execution);
      var head := valid.value.head;
      var before := transport.Read();
      var preflight := PreflightReceipt(key, head, before);
      if preflight.Some? {
        return preflight.value;
      }
      var body: Record := map[Sha := Str(head), MergeMethod := MethodOf(execution.fields)];
      if Truthy(Get(execution.fields, CommitTitle)) {
        body := body[CommitTitle := Get(execution.fields, CommitTitle)];
      }
      if Truthy(Get(execution.fields, CommitMessage)) {
        body := body[CommitMessage := Get(execution.fields, CommitMessage)];
      }
      var answer := transport.PutMerge(body);
      if NeedsReading(answer) {
        result := Reconcile(head, key);
        return;
      }
      if answer.Raises? {
        return Err(TransportRaised);
      }
      result := Ok(Receipt(key, Failed, false, answer.status in {401, 403, 404}, Null, MergeStatus(answer.status)));
    }

    /** `_reconcile` */
    method Reconcile(head: string, key: string) returns (result: Result<Receipt, ExecuteError>)
      modifies transport
      ensures transport.pull == Drift(old(transport.pull), transport.plan(|old(transport.calls)|).foreign)
      ensures transport.calls == old(transport.calls) + [GetCall]
      ensures result == ReconcileReceipt(key, head, ReadFate(transport.pull, transport.plan(|old(transport.calls)|).fate))
    {
      var current := transport.Read();
      result := ReconcileReceipt(key, head, current);
    }

    /** `observe`, on a validated action: what it says is merged is merged, at
        the head and with the commit it names. */
    method Observe() returns (result: Result<Observed, ExecuteError>)
      modifies transport
      ensures transport.calls == old(transport.calls) + [GetCall]
      ensures result.Ok? <==> transport.plan(|old(transport.calls)|).fate.Answers?
      ensures result.Ok? ==>
        var o, p := result.value, transport.pull;
        && o.merged == (o.status == 200 && p.merge.Some?)
        && o.headSha == (if o.status == 200 then Str(p.head) else Null)
        && (o.merged ==> o.mergeCommit in {Null, Str(p.merge.value.commit)})
        && (o.status != 200 ==> o.mergeCommit == Null)
    {
      var current := transport.Read();
      if !current.Answers? {
        return Err(TransportRaised);
      }
      if current.status != 200 {
        return Ok(Observed(current.status, false, Null, Null));
      }
      result := Ok(Observed(200, current.body.merged == Bool(true), current.body.mergeCommit, current.body.headSha));
    }
  }

  // ----- what a receipt means

  predicate Succeeded(t: Transcript) {
    t.result.Ok? && t.result.value.status == Success
  }

  /** For every interleaving and every lost response: a success receipt is
      confirmed and means that the pull request is merged at exactly the approved
      head, and remains so whatever others do; nothing else is confirmed. */
  lemma SuccessMeansMergedAtApprovedHead(p: Pull, plan: nat -> Turn, n: nat, r: Request, key: string, later: seq<Foreign>)
    ensures
      var t := Attempt(p, plan, n, r, key);
      && (t.result.Ok? ==> (t.result.value.confirmed <==> t.result.value.status == Success))
      && (Succeeded(t) ==> Drift(t.pull, later) == t.pull && t.pull.merge.Some? && t.pull.head == r.head)
  {
  }

  /** The states `execute_github_merge` gives an execution. */
  datatype AuthorityState = Reconciled | ExecutionFailed | ReconciliationFailed

  function StateOf(r: Receipt): AuthorityState {
    if r.status == Success && r.confirmed then Reconciled
    else if r.status == Failed then ExecutionFailed
    else ReconciliationFailed
  }

  /** An execution is RECONCILED only if the pull request is merged at the approved
      head, and RECONCILIATION_FAILED exactly for an unknown outcome; one that is
      EXECUTION_FAILED although this request merged got a decisive error status. */
  lemma AuthorityStateIsSound(p: Pull, plan: nat -> Turn, n: nat, r: Request, key: string)
    requires WellFormed(r) && !OurMerge(p) && Attempt(p, plan, n, r, key).result.Ok?
    ensures
      var t := Attempt(p, plan, n, r, key);
      var state := StateOf(t.result.value);
      && (state.Reconciled? ==> t.pull.merge.Some? && t.pull.head == r.head)
      && (state.ReconciliationFailed? <==> t.result.value.status == Unknown)
      && (state.ExecutionFailed? && OurMerge(t.pull) ==> t.result.value.reason.MergeStatus? && |t.calls| == 2)
  {
    hide Attempt;
    SuccessMeansMergedAtApprovedHead(p, plan, n, r, key, []);
    AtMostOneMergeRequest(p, plan, n, r, key);
    if |Attempt(p, plan, n, r, key).calls| > 1 {
      FailedYetMerged(p, plan, n, r, key);
      ReadsAgainExactly(p, plan, n, r, key);
    } else {
      PreflightIsNotOurs(p, plan, n, r, key);
    }
  }

  /** After a merge request there is a third call, the reconciling read, exactly when
      the answer was lost, agreed to the merge, or had status 409, 422, 502, 503 or
      504. */
  lemma ReadsAgainExactly(p: Pull, plan: nat -> Turn, n: nat, r: Request, key: string)
    requires |Attempt(p, plan, n, r, key).calls| > 1
    ensures
      var answer := plan(n + 1).fate;
      |Attempt(p, plan, n, r, key).calls| == 3 <==>
        || answer == Lost
        || (answer.Answers? && answer.status == 200 && answer.body.merged == Bool(true))
        || (answer.Answers? && (answer.status == 409 || answer.status == 422
                                || answer.status == 502 || answer.status == 503 || answer.status == 504))
  {
  }

  /** The first read alone decides exactly unless it shows the approved head, open and
      not refused as unmergeable; and what the receipt says then. */
  lemma PreflightDecides(p: Pull, plan: nat -> Turn, n: nat, r: Request, key: string)
    ensures
      var t, pull, seen := Attempt(p, plan, n, r, key), AtPreflight(p, plan, n), plan(n).fate;
      && (|t.calls| == 1 <==>
            !(seen.Answers? && seen.status == 200 && pull == Pull(r.head, None) && seen.body.mergeable != Bool(false)))
      && (|t.calls| == 1 ==>
            && (t.result.Err? <==> !seen.Answers?)
            && (seen.Answers? && seen.status != 200 ==>
                  t.result.value == Receipt(key, Failed, false, seen.status == 404, Null, PreflightStatus(seen.status)))
            && (seen.Answers? && seen.status == 200 && pull.head != r.head ==>
                  t.result.value == Receipt(key, Failed, false, false, Null, HeadMismatch(Str(pull.head))))
            && (seen.Answers? && seen.status == 200 && pull.head == r.head && pull.merge.Some? ==>
                  && t.result.value.status == Success && t.result.value.reason == AlreadyMerged
                  && t.result.value.operationId in {Null, Str(pull.merge.value.commit)})
            && (seen.Answers? && seen.status == 200 && pull == Pull(r.head, None) ==>
                  t.result.value == Receipt(key, Failed, false, false, Null, NotMergeable)))
  {
  }

  /** An answer that needs no second read ends in a failed receipt with its status,
      safe to retry exactly for 401, 403 and 404, or in the exception it raised. */
  lemma DecisiveAnswer(p: Pull, plan: nat -> Turn, n: nat, r: Request, key: string)
    requires |Attempt(p, plan, n, r, key).calls| == 2
    ensures
      var t, answer := Attempt(p, plan, n, r, key), plan(n + 1).fate;
      && (t.result.Err? <==> answer.Raises?)
      && (t.result.Ok? ==>
            && answer.Answers?
            && t.result.value == Receipt(key, Failed, false, answer.status == 401 || answer.status == 403 || answer.status == 404,
                                         Null, MergeStatus(answer.status)))
  {
  }

  /** Every receipt is made out to the caller's key. */
  lemma ReceiptsCarryTheKey(p: Pull, plan: nat -> Turn, n: nat, r: Request, key: string)
    requires Attempt(p, plan, n, r, key).result.Ok?
    ensures Attempt(p, plan, n, r, key).result.value.idempotencyKey == key
  {
  }

  lemma PreflightIsNotOurs(p: Pull, plan: nat -> Turn, n: nat, r: Request, key: string)
    requires |Attempt(p, plan, n, r, key).calls| == 1 && Attempt(p, plan, n, r, key).result.Ok?
    ensures Attempt(p, plan, n, r, key).result.value.status == Failed && OurMerge(Attempt(p, plan, n, r, key).pull) ==> OurMerge(p)
  {
  }

  /** The operation id of a success receipt is the provider's merge commit exactly
      when it comes from the reconciling read, or the preflight read of a merged
      pull request included it. */
  lemma OperationIdIsTheMergeCommit(p: Pull, plan: nat -> Turn, n: nat, r: Request, key: string)
    requires Succeeded(Attempt(p, plan, n, r, key))
    ensures
      var t := Attempt(p, plan, n, r, key);
      t.pull.merge.Some?
      && (t.result.value.operationId == Str(t.pull.merge.value.commit)
          <==> |t.calls| == 3 || plan(n).fate.body.mergeCommit != Null)
  {
  }

  /** The preflight receipt for a pull request that was merged already does not
      check that a merge commit is present. */
  lemma PreflightSuccessMayLackItsCommit()
    ensures
      var p := Pull("aaaa", Some(Merge("cccc", false)));
      var plan := (n: nat) => Turn([], false, "", Answers(200, Body(Null, Null, Null, Null)));
      var t := Attempt(p, plan, 0, Request("aaaa", map[Sha := Str("aaaa")]), "key");
      Succeeded(t) && t.result.value.operationId == Null
  {
  }

  /** At most one merge request is sent, for the approved head, and only after a
      read that showed exactly that head, unmerged. */
  lemma AtMostOneMergeRequest(p: Pull, plan: nat -> Turn, n: nat, r: Request, key: string)
    requires WellFormed(r)
    ensures
      var t := Attempt(p, plan, n, r, key);
      && t.calls in {[GetCall], [GetCall, PutCall(r.body)], [GetCall, PutCall(r.body), GetCall]}
      && (|t.calls| > 1 ==>
            && plan(n).fate.Answers? && plan(n).fate.status == 200
            && AtPreflight(p, plan, n) == Pull(r.head, None))
  {
  }

  /** Did our own merge request merge the pull request? */
  predicate OurMerge(p: Pull) {
    p.merge.Some? && p.merge.value.ours
  }

  predicate MergedElsewhere(p: Pull, head: string) {
    p.merge.Some? && p.head != head
  }

  /** Once a merge request was sent and no decisive status came back, the outcome
      is decided by one read: success at the approved head, failed at another
      head, and otherwise unknown, which is neither confirmed nor retry-safe. */
  lemma ReadDecides(p: Pull, plan: nat -> Turn, n: nat, r: Request, key: string)
    requires |Attempt(p, plan, n, r, key).calls| == 3 && Attempt(p, plan, n, r, key).result.Ok?
    ensures
      var t, read := Attempt(p, plan, n, r, key), plan(n + 2).fate;
      var receipt := t.result.value;
      var readable := read.Answers? && read.status == 200;
      && (receipt.status == Failed <==> readable && MergedElsewhere(t.pull, r.head))
      && (receipt.status == Success <==>
            && readable && t.pull.merge.Some? && t.pull.head == r.head
            && t.pull.merge.value.commit != "" && read.body.mergeCommit != Null)
      && (receipt.status == Unknown ==> !receipt.confirmed && !receipt.retrySafe)
      && (receipt.status == Failed ==> !receipt.confirmed && !receipt.retrySafe)
  {
  }

  /** A lost response after preflight never reads as a plain failure: the receipt
      is failed only if a read showed the merge of another head. */
  lemma LostResponseIsNotAFailure(p: Pull, plan: nat -> Turn, n: nat, r: Request, key: string)
    requires |Attempt(p, plan, n, r, key).calls| > 1
    requires plan(n + 1).fate.Lost? || (|Attempt(p, plan, n, r, key).calls| == 3 && plan(n + 2).fate.Lost?)
    ensures
      var t := Attempt(p, plan, n, r, key);
      t.result.Ok? && t.result.value.status == Failed ==> t.result.value.reason.MergedHeadMismatch? && MergedElsewhere(t.pull, r.head)
  {
  }

  lemma OursIsAtTheApprovedHead(p: Pull, plan: nat -> Turn, n: nat, r: Request)
    requires WellFormed(r) && AtPreflight(p, plan, n).merge.None?
    ensures OurMerge(AfterMerge(p, plan, n, r)) <==>
      plan(n + 1).takes && AtMerge(p, plan, n) == Pull(r.head, None)
    ensures OurMerge(AfterMerge(p, plan, n, r)) ==> AfterMerge(p, plan, n, r).head == r.head
  {
  }

  /** A failed receipt can stand beside our own applied merge, exactly when the
      provider merged and answered with a status that is neither an agreed
      success nor one of the ambiguous ones (409, 422, 502, 503, 504); the
      receipt's reason then names that status. */
  lemma FailedYetMerged(p: Pull, plan: nat -> Turn, n: nat, r: Request, key: string)
    requires WellFormed(r)
    requires |Attempt(p, plan, n, r, key).calls| > 1
    ensures
      var t := Attempt(p, plan, n, r, key);
      var failedYetMerged := t.result.Ok? && t.result.value.status == Failed && OurMerge(t.pull);
      && (failedYetMerged <==>
            && plan(n + 1).takes && AtMerge(p, plan, n) == Pull(r.head, None)
            && plan(n + 1).fate.Answers?
            && !(plan(n + 1).fate.status == 200 && plan(n + 1).fate.body.merged == Bool(true))
            && plan(n + 1).fate.status !in {409, 422, 502, 503, 504})
      && (failedYetMerged ==> t.result.value.reason == MergeStatus(plan(n + 1).fate.status))
  {
    AtMostOneMergeRequest(p, plan, n, r, key);
    OursIsAtTheApprovedHead(p, plan, n, r);
  }

  /** Such a run: the merge happened and the provider answered 500. */
  lemma FailedYetMergedHappens()
    ensures
      var plan := (n: nat) => if n == 0 then Turn([], false, "", Answers(200, Body(Null, Null, Null, Null)))
                              else Turn([], true, "cccc", Answers(500, Body(Null, Null, Null, Null)));
      var t := Attempt(Pull("aaaa", None), plan, 0, Request("aaaa", map[Sha := Str("aaaa")]), "key");
      t.result.Ok? && t.result.value.status == Failed && OurMerge(t.pull)
  {
  }

  /** The provider's recorded answer to a merge request on a merged pull request:
      200, merged, whatever sha was asked for. */
  predicate RecordedAnswer(p: Pull, fate: Fate) {
    p.merge.Some? ==> fate.Answers? && fate.status == 200 && fate.body.merged == Bool(true)
  }

  /** Under that behaviour a merge by somebody else between our preflight read and
      our merge request is never reported as ours unless it is at the approved
      head: at another head the receipt is failed or unknown. */
  lemma ForeignMergeIsNotOurs(p: Pull, plan: nat -> Turn, n: nat, r: Request, key: string)
    requires |Attempt(p, plan, n, r, key).calls| > 1 && AtMerge(p, plan, n).merge.Some?
    requires RecordedAnswer(AtMerge(p, plan, n), plan(n + 1).fate)
    ensures
      var t := Attempt(p, plan, n, r, key);
      && |t.calls| == 3 && t.pull == AtMerge(p, plan, n) && !OurMerge(t.pull)
      && (t.pull.head != r.head && t.result.Ok? ==> t.result.value.status in {Failed, Unknown} && !t.result.value.confirmed)
  {
    AtMostMergedByOthers(p, plan, n, r, key);
  }

  lemma AtMostMergedByOthers(p: Pull, plan: nat -> Turn, n: nat, r: Request, key: string)
    requires |Attempt(p, plan, n, r, key).calls| > 1
    ensures AtPreflight(p, plan, n).merge.None? && !OurMerge(AtMerge(p, plan, n))
  {
  }
}
