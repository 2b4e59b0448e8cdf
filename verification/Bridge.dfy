/**
 `OpenClawProofRailBridge` of integrations/openclaw/bridge.py: at most one
 execution per action digest, with unknown outcomes kept apart from failures.

 Runs interleave over the `executions` table and the ledger.  The adapter, the
 ledger append and the completing update may each raise, and a run may be cut
 off, at any step.
 */
module Bridge {
  import opened Hashing
  import opened LedgerChain
  import GitHubAdapter

  type Outcome = GitHubAdapter.Status

  // ----- adapter receipts

  function OutcomeName(o: Outcome): Constant {
    match o
    case Success => SuccessOutcome
    case Failed => FailedOutcome
    case Unknown => UnknownOutcome
  }

  function OutcomeOf(j: Json): Option<Outcome> {
    if j == Fixed(SuccessOutcome) then Some(GitHubAdapter.Success)
    else if j == Fixed(FailedOutcome) then Some(GitHubAdapter.Failed)
    else if j == Fixed(UnknownOutcome) then Some(GitHubAdapter.Unknown)
    else None
  }

  predicate NonEmptyText(j: Json) {
    j.Str? && j.s != ""
  }

  const RECEIPT_FIELDS := {Contract, IdempotencyKey, RemoteOperationId, ReceiptStatus, SideEffectConfirmed, RetrySafe, ReceiptEvidence}

  /** `validate_adapter_receipt`: the outcome of an accepted receipt. */
  function AcceptReceipt(receipt: Json, key: string): Option<Outcome> {
    if !receipt.Obj? || !(RECEIPT_FIELDS <= receipt.fields.Keys) then None
    else
      var r := receipt.fields;
      var outcome := OutcomeOf(r[ReceiptStatus]);
      if r[Contract] != Fixed(ReceiptContract) || r[IdempotencyKey] != Str(key) || outcome.None?
        || !r[SideEffectConfirmed].Bool? || !r[RetrySafe].Bool? || !r[ReceiptEvidence].Obj? then None
      else if outcome.value.Success?
        && (!r[SideEffectConfirmed].b || !NonEmptyText(r[RemoteOperationId]) || r[ReceiptEvidence].fields == map[]) then None
      else if outcome.value.Unknown? && r[RetrySafe].b then None
      else outcome
  }

  /** What a receipt must say to report this outcome of the action with this key: every
      field, the contract, that key and that outcome; a success also confirms the side
      effect, names the remote operation and brings evidence, and an unknown outcome
      is not safe to retry. */
  predicate Reports(receipt: Json, key: string, outcome: Outcome) {
    && receipt.Obj?
    && var r := receipt.fields;
    && Get(r, Contract) == Fixed(ReceiptContract)
    && Get(r, IdempotencyKey) == Str(key)
    && Get(r, ReceiptStatus) == Fixed(if outcome == GitHubAdapter.Success then SuccessOutcome
                                      else if outcome == GitHubAdapter.Failed then FailedOutcome else UnknownOutcome)
    && RemoteOperationId in r
    && Get(r, SideEffectConfirmed).Bool? && Get(r, RetrySafe).Bool? && Get(r, ReceiptEvidence).Obj?
    && (outcome == GitHubAdapter.Success ==>
          && Get(r, SideEffectConfirmed) == Bool(true) && Get(r, ReceiptEvidence) != Obj(map[])
          && r[RemoteOperationId].Str? && |r[RemoteOperationId].s| > 0)
    && (outcome == GitHubAdapter.Unknown ==> Get(r, RetrySafe) == Bool(false))
  }

  /** A receipt of any adapter is accepted, with this outcome, exactly when it reports
      it for this key. */
  lemma AcceptsExactly(receipt: Json, key: string, outcome: Outcome)
    ensures AcceptReceipt(receipt, key) == Some(outcome) <==> Reports(receipt, key, outcome)
  {
    if receipt.Obj? {
      var r := receipt.fields;
      assert Reports(receipt, key, outcome) ==> RECEIPT_FIELDS <= r.Keys;
    }
  }

  /** `GitHubMergeAdapter._receipt`, with whatever evidence it gathered. */
  function ReceiptRecord(r: GitHubAdapter.Receipt, evidence: Record): Record {
    map[
      Contract := Fixed(ReceiptContract),
      IdempotencyKey := Str(r.idempotencyKey),
      RemoteOperationId := r.operationId,
      ReceiptStatus := Fixed(OutcomeName(r.status)),
      SideEffectConfirmed := Bool(r.confirmed),
      RetrySafe := Bool(r.retrySafe),
      ReceiptEvidence := Obj(evidence)]
  }

  /** A receipt of the GitHub adapter is accepted with its own status, except a
      success that names no merge commit, which is then recorded as unknown. */
  lemma GitHubReceiptsAreAccepted(p: GitHubAdapter.Pull, plan: nat -> GitHubAdapter.Turn, n: nat, request: GitHubAdapter.Request,
                                  key: string, evidence: Record)
    requires evidence != map[]
    requires GitHubAdapter.Attempt(p, plan, n, request, key).result.Ok?
    ensures
      var r := GitHubAdapter.Attempt(p, plan, n, request, key).result.value;
      && AcceptReceipt(Obj(ReceiptRecord(r, evidence)), key) in {None, Some(r.status)}
      && (AcceptReceipt(Obj(ReceiptRecord(r, evidence)), key).None? <==> r.status.Success? && !NonEmptyText(r.operationId))
  {
    var r := GitHubAdapter.Attempt(p, plan, n, request, key).result.value;
    AttemptReceipt(p, plan, n, request, key);
    ReceiptRoundTrip(r, key, evidence);
  }

  lemma AttemptReceipt(p: GitHubAdapter.Pull, plan: nat -> GitHubAdapter.Turn, n: nat, request: GitHubAdapter.Request, key: string)
    requires GitHubAdapter.Attempt(p, plan, n, request, key).result.Ok?
    ensures
      var r := GitHubAdapter.Attempt(p, plan, n, request, key).result.value;
      r.idempotencyKey == key && (r.confirmed <==> r.status.Success?) && (r.status.Unknown? ==> !r.retrySafe)
  {
  }

  lemma ReceiptRoundTrip(r: GitHubAdapter.Receipt, key: string, evidence: Record)
    requires evidence != map[]
    requires r.idempotencyKey == key && (r.confirmed <==> r.status.Success?) && (r.status.Unknown? ==> !r.retrySafe)
    ensures AcceptReceipt(Obj(ReceiptRecord(r, evidence)), key) in {None, Some(r.status)}
    ensures AcceptReceipt(Obj(ReceiptRecord(r, evidence)), key).None? <==> r.status.Success? && !NonEmptyText(r.operationId)
  {
    var record := ReceiptRecord(r, evidence);
    assert RECEIPT_FIELDS <= record.Keys;
  }

  // ----- the machine

  datatype RowStatus = Started | Done(outcome: Outcome)

  /** A row of `executions`; `receipt` is the ledger entry its result holds. */
  datatype Row = Row(actionId: string, status: RowStatus, receipt: Option<Record>)

  datatype Pc =
    | Permitted(digest: string, actionId: string)
    | Claimed(digest: string)
    | Returned(digest: string, outcome: Outcome)
    | Appended(digest: string, outcome: Outcome, entry: Record)
    | Faulted(digest: string)
    | Noted(digest: string, noted: Option<Record>)
    | Over

  datatype Fault = NoFault | BeforeWrite | AfterWrite

  /** One call of an adapter's `execute`, and what it returned. */
  datatype AdapterCall = AdapterCall(run: nat, digest: string, reply: Option<Json>)

  datatype World = World(rows: map<string, Row>, ledger: seq<Record>, runs: map<nat, Pc>, calls: seq<AdapterCall>)

  datatype Event =
    | Begin(run: nat, digest: string, actionId: string)  // the gate permits
    | Claim(run: nat)
    | Call(run: nat, reply: Option<Json>)                // None: the adapter raises
    | Append(run: nat, body: Record, fault: Fault)
    | Complete(run: nat, works: bool)
    | CutOff(run: nat)                                   // also: no adapter for the type

  function EntryBody(body: Record, digest: string, outcome: Outcome): Record {
    body[ActionDigest := Str(digest)][Field.Outcome := Fixed(OutcomeName(outcome))]
  }

  function Entry(s: Suite, ledger: seq<Record>, body: Record, digest: string, outcome: Outcome): Record {
    ChainEntry(s, ledger, EntryBody(body, digest, outcome))
  }

  function Step(w: World, r: nat, pc: Pc): World {
    w.(runs := w.runs[r := pc])
  }

  function ApplyTo(s: Suite, w: World, e: Event, r: nat, pc: Pc): World {
    match (e, pc)
    case (Claim(_), Permitted(digest, actionId)) =>
      if digest in w.rows then Step(w, r, Over)
      else Step(w, r, Claimed(digest)).(rows := w.rows[digest := Row(actionId, Started, None)])
    case (Call(_, reply), Claimed(digest)) =>
      var outcome := if reply.None? then None else AcceptReceipt(reply.value, digest);
      Step(w, r, if outcome.None? then Faulted(digest) else Returned(digest, outcome.value)).(
        calls := w.calls + [AdapterCall(r, digest, reply)])
    case (Append(_, body, fault), Returned(digest, outcome)) =>
      var entry := Entry(s, w.ledger, body, digest, outcome);
      Step(w, r, if fault.NoFault? then Appended(digest, outcome, entry) else Faulted(digest)).(
        ledger := if fault.BeforeWrite? then w.ledger else w.ledger + [entry])
    case (Append(_, body, fault), Faulted(digest)) =>
      var entry := Entry(s, w.ledger, body, digest, GitHubAdapter.Unknown);
      Step(w, r, Noted(digest, if fault.NoFault? then Some(entry) else None)).(
        ledger := if fault.BeforeWrite? then w.ledger else w.ledger + [entry])
    case (Complete(_, works), Appended(digest, outcome, entry)) =>
      if !works then Step(w, r, Faulted(digest))
      else if digest !in w.rows then Step(w, r, Over)
      else Step(w, r, Over).(rows := w.rows[digest := w.rows[digest].(status := Done(outcome), receipt := Some(entry))])
    case (Complete(_, works), Noted(digest, entry)) =>
      if !works || digest !in w.rows then Step(w, r, Over)
      else Step(w, r, Over).(rows := w.rows[digest := w.rows[digest].(status := Done(GitHubAdapter.Unknown), receipt := entry)])
    case (CutOff(_), _) => Step(w, r, Over)
    case _ => w
  }

  function Apply(s: Suite, w: World, e: Event): World {
    if e.Begin? then
      if e.run in w.runs then w else Step(w, e.run, Permitted(e.digest, e.actionId))
    else if e.run in w.runs then ApplyTo(s, w, e, e.run, w.runs[e.run])
    else w
  }

  function Run(s: Suite, w: World, events: seq<Event>): World {
    if events == [] then w else Apply(s, Run(s, w, events[..|events| - 1]), events[|events| - 1])
  }

  // ----- what every step keeps

  /** The run that inserted the row of this digest and is still working on it. */
  predicate Owns(pc: Pc, digest: string) {
    match pc
    case Permitted(_, _) => false
    case Over => false
    case _ => pc.digest == digest
  }

  predicate EntrySays(entry: Record, digest: string, outcome: Outcome) {
    Get(entry, ActionDigest) == Str(digest) && Get(entry, Field.Outcome) == Fixed(OutcomeName(outcome))
  }

  /** An adapter was called for the digest and returned a receipt with this outcome. */
  predicate Answered(calls: seq<AdapterCall>, digest: string, outcome: Outcome) {
    exists k :: 0 <= k < |calls| && calls[k].digest == digest && calls[k].reply.Some? && Reports(calls[k].reply.value, digest, outcome)
  }

  /** A finished row other than unknown rests on an adapter's receipt and points to its
      ledger entry. */
  predicate RowHolds(ledger: seq<Record>, calls: seq<AdapterCall>, digest: string, row: Row) {
    row.status.Done? && !row.status.outcome.Unknown? ==>
      && row.receipt.Some? && row.receipt.value in ledger && EntrySays(row.receipt.value, digest, row.status.outcome)
      && Answered(calls, digest, row.status.outcome)
  }

  predicate PcHolds(ledger: seq<Record>, calls: seq<AdapterCall>, pc: Pc) {
    && (pc.Appended? ==> pc.entry in ledger && EntrySays(pc.entry, pc.digest, pc.outcome))
    && (pc.Appended? || pc.Returned? ==> Answered(calls, pc.digest, pc.outcome))
  }

  ghost predicate OwnersHold(rows: map<string, Row>, runs: map<nat, Pc>) {
    && (forall r, d :: r in runs && Owns(runs[r], d) ==> d in rows && rows[d].status.Started?)
    && (forall q, r, d :: q in runs && r in runs && Owns(runs[q], d) && Owns(runs[r], d) ==> q == r)
  }

  ghost predicate CallsHold(rows: map<string, Row>, runs: map<nat, Pc>, calls: seq<AdapterCall>) {
    && (forall k :: 0 <= k < |calls| ==> calls[k].digest in rows)
    && (forall k, r :: 0 <= k < |calls| && r in runs ==> runs[r] != Claimed(calls[k].digest))
    && (forall k, l :: 0 <= k < l < |calls| ==> calls[k].digest != calls[l].digest)
  }

  ghost predicate Inv(s: Suite, w: World) {
    && WrittenChain(s, w.ledger)
    && (forall d :: d in w.rows ==> RowHolds(w.ledger, w.calls, d, w.rows[d]))
    && (forall r :: r in w.runs ==> PcHolds(w.ledger, w.calls, w.runs[r]))
    && OwnersHold(w.rows, w.runs)
    && CallsHold(w.rows, w.runs, w.calls)
  }

  lemma EntryIsSealed(s: Suite, ledger: seq<Record>, body: Record, digest: string, outcome: Outcome)
    requires WrittenChain(s, ledger)
    ensures
      var entry := Entry(s, ledger, body, digest, outcome);
      WrittenChain(s, ledger + [entry]) && EntrySays(entry, digest, outcome)
  {
    hide WrittenChain, ChainEntry;
    AppendKeepsChain(s, ledger, EntryBody(body, digest, outcome));
    ChainEntryFields(s, ledger, EntryBody(body, digest, outcome));
  }

  lemma AppendKeepsInv(s: Suite, w: World, r: nat, body: Record, outcome: Outcome, pc: Pc, written: bool)
    requires Inv(s, w) && r in w.runs && (w.runs[r].Returned? || w.runs[r].Faulted?)
    requires
      var entry := Entry(s, w.ledger, body, w.runs[r].digest, outcome);
      pc == Faulted(w.runs[r].digest) || (pc.Noted? && pc.digest == w.runs[r].digest)
      || (written && w.runs[r] == Returned(w.runs[r].digest, outcome) && pc == Appended(w.runs[r].digest, outcome, entry))
    ensures
      var entry := Entry(s, w.ledger, body, w.runs[r].digest, outcome);
      Inv(s, Step(w, r, pc).(ledger := if written then w.ledger + [entry] else w.ledger))
  {
    hide WrittenChain, Entry, EntrySays, Answered;
    EntryIsSealed(s, w.ledger, body, w.runs[r].digest, outcome);
    var after := if written then w.ledger + [Entry(s, w.ledger, body, w.runs[r].digest, outcome)] else w.ledger;
    assert forall x :: x in w.ledger ==> x in after;
    OwnerStays(w.rows, w.runs, r, pc);
    CallsStay(w.rows, w.runs, w.calls, r, pc);
  }

  lemma OwnerStays(rows: map<string, Row>, runs: map<nat, Pc>, r: nat, pc: Pc)
    requires OwnersHold(rows, runs) && r in runs
    requires forall d :: Owns(pc, d) ==> Owns(runs[r], d)
    ensures OwnersHold(rows, runs[r := pc])
  {
    hide Owns;
  }

  lemma CallsStay(rows: map<string, Row>, runs: map<nat, Pc>, calls: seq<AdapterCall>, r: nat, pc: Pc)
    requires CallsHold(rows, runs, calls) && !pc.Claimed?
    ensures CallsHold(rows, runs[r := pc], calls)
  {
  }

  lemma ClaimKeepsInv(s: Suite, w: World, r: nat)
    requires Inv(s, w) && r in w.runs && w.runs[r].Permitted?
    ensures Inv(s, ApplyTo(s, w, Claim(r), r, w.runs[r]))
  {
    hide WrittenChain, EntrySays, Answered;
    var digest := w.runs[r].digest;
    if digest in w.rows {
      OwnerStays(w.rows, w.runs, r, Over);
      CallsStay(w.rows, w.runs, w.calls, r, Over);
    }
  }

  lemma CallIsAnswered(calls: seq<AdapterCall>, r: nat, digest: string, reply: Option<Json>)
    ensures
      var more := calls + [AdapterCall(r, digest, reply)];
      && (forall d, o :: Answered(calls, d, o) ==> Answered(more, d, o))
      && (reply.Some? && AcceptReceipt(reply.value, digest).Some? ==> Answered(more, digest, AcceptReceipt(reply.value, digest).value))
  {
    hide AcceptReceipt, Reports;
    var more := calls + [AdapterCall(r, digest, reply)];
    assert forall k :: 0 <= k < |calls| ==> more[k] == calls[k];
    if reply.Some? && AcceptReceipt(reply.value, digest).Some? {
      AcceptsExactly(reply.value, digest, AcceptReceipt(reply.value, digest).value);
      assert more[|calls|] == AdapterCall(r, digest, reply);
    }
  }

  lemma CallKeepsInv(s: Suite, w: World, r: nat, reply: Option<Json>)
    requires Inv(s, w) && r in w.runs && w.runs[r].Claimed?
    ensures Inv(s, ApplyTo(s, w, Call(r, reply), r, w.runs[r]))
  {
    hide WrittenChain, EntrySays, AcceptReceipt, Reports;
    var digest := w.runs[r].digest;
    var after := ApplyTo(s, w, Call(r, reply), r, w.runs[r]);
    CallIsAnswered(w.calls, r, digest, reply);
    assert Owns(w.runs[r], digest);
    OwnerStays(w.rows, w.runs, r, after.runs[r]);
  }

  lemma CompleteKeepsInv(s: Suite, w: World, r: nat, works: bool)
    requires Inv(s, w) && r in w.runs && (w.runs[r].Appended? || w.runs[r].Noted?)
    ensures Inv(s, ApplyTo(s, w, Complete(r, works), r, w.runs[r]))
  {
    hide WrittenChain, EntrySays, Answered;
    var after := ApplyTo(s, w, Complete(r, works), r, w.runs[r]);
    assert Owns(w.runs[r], w.runs[r].digest);
    OwnerStays(w.rows, w.runs, r, after.runs[r]);
    CallsStay(w.rows, w.runs, w.calls, r, after.runs[r]);
  }

  lemma ApplyKeepsInv(s: Suite, w: World, e: Event)
    requires Inv(s, w)
    ensures Inv(s, Apply(s, w, e))
  {
    if e.Begin? {
      hide WrittenChain, EntrySays, Answered;
    } else if e.run in w.runs {
      hide WrittenChain, EntrySays, Entry, AcceptReceipt, Answered;
      match (e, w.runs[e.run]) {
        case (Claim(_), Permitted(_, _)) => ClaimKeepsInv(s, w, e.run);
        case (Call(_, reply), Claimed(_)) => CallKeepsInv(s, w, e.run, reply);
        case (Append(_, body, fault), Returned(digest, outcome)) =>
          AppendKeepsInv(s, w, e.run, body, outcome, Apply(s, w, e).runs[e.run], !fault.BeforeWrite?);
        case (Append(_, body, fault), Faulted(digest)) =>
          AppendKeepsInv(s, w, e.run, body, GitHubAdapter.Unknown, Apply(s, w, e).runs[e.run], !fault.BeforeWrite?);
        case (Complete(_, works), Appended(_, _, _)) => CompleteKeepsInv(s, w, e.run, works);
        case (Complete(_, works), Noted(_, _)) => CompleteKeepsInv(s, w, e.run, works);
        case (CutOff(_), _) =>
          OwnerStays(w.rows, w.runs, e.run, Over);
          CallsStay(w.rows, w.runs, w.calls, e.run, Over);
        case _ =>
      }
    }
  }

  /** An empty state table beside a ledger the program wrote. */
  ghost predicate Initial(s: Suite, w: World) {
    w.rows == map[] && w.runs == map[] && w.calls == [] && WrittenChain(s, w.ledger)
  }

  lemma {:induction false} RunKeepsInv(s: Suite, w: World, events: seq<Event>)
    requires Initial(s, w)
    ensures Inv(s, Run(s, w, events))
  {
    hide WrittenChain, Apply;
    if events != [] {
      RunKeepsInv(s, w, events[..|events| - 1]);
      ApplyKeepsInv(s, Run(s, w, events[..|events| - 1]), events[|events| - 1]);
    }
  }

  // ----- theorems

  /** For every interleaving of runs, with exceptions and cut-offs anywhere, the
      adapter is called at most once per action digest; every success or failed
      row holds a ledger entry with that digest and outcome, and its one call
      returned a receipt that reports that outcome for that digest; and the ledger
      verifies with sequence numbers 1 to n. */
  lemma AtMostOneCallPerDigest(s: Suite, w: World, events: seq<Event>)
    requires Initial(s, w)
    ensures
      var end := Run(s, w, events);
      && (forall k, l :: 0 <= k < l < |end.calls| ==> end.calls[k].digest != end.calls[l].digest)
      && (forall d :: d in end.rows ==> RowHolds(end.ledger, end.calls, d, end.rows[d]))
      && WrittenChain(s, end.ledger)
  {
    hide WrittenChain;
    RunKeepsInv(s, w, events);
  }

  predicate RowMoves(a: map<string, Row>, b: map<string, Row>, digest: string) {
    && (digest in a ==> digest in b && b[digest].actionId == a[digest].actionId)
    && (digest !in a && digest in b ==> b[digest].status.Started?)
    && (digest in a && a[digest].status.Done? ==> b[digest] == a[digest])
  }

  /** Each step moves a row only from absent to started, and from started to one
      final status. */
  lemma RowsMoveForward(s: Suite, w: World, events: seq<Event>, k: nat, digest: string)
    requires Initial(s, w) && k < |events|
    ensures RowMoves(Run(s, w, events[..k]).rows, Run(s, w, events[..k + 1]).rows, digest)
  {
    hide WrittenChain, Entry, AcceptReceipt;
    assert events[..k + 1][..k] == events[..k];
    RunKeepsInv(s, w, events[..k]);
    var before := Run(s, w, events[..k]);
    if events[k].run in before.runs && (before.runs[events[k].run].Appended? || before.runs[events[k].run].Noted?) {
      assert Owns(before.runs[events[k].run], before.runs[events[k].run].digest);
    }
  }

  /** After an exception the row of the digest can only become unknown. */
  predicate HeadsForUnknown(w: World, digest: string) {
    && digest in w.rows
    && (w.rows[digest].status.Started? || w.rows[digest].status == Done(GitHubAdapter.Unknown))
    && forall r :: r in w.runs && Owns(w.runs[r], digest) ==> w.runs[r].Faulted? || w.runs[r].Noted?
  }

  lemma UnknownStep(s: Suite, w: World, e: Event, digest: string)
    requires Inv(s, w) && HeadsForUnknown(w, digest)
    ensures HeadsForUnknown(Apply(s, w, e), digest)
  {
    hide WrittenChain, Entry, AcceptReceipt;
    if e.run in w.runs && (w.runs[e.run].Appended? || w.runs[e.run].Noted?) {
      assert Owns(w.runs[e.run], w.runs[e.run].digest);
    }
  }

  lemma {:induction false} UnknownLasts(s: Suite, w: World, events: seq<Event>, k: nat, digest: string)
    requires Initial(s, w) && k <= |events| && HeadsForUnknown(Run(s, w, events[..k]), digest)
    ensures HeadsForUnknown(Run(s, w, events), digest)
  {
    hide Initial, Apply, HeadsForUnknown;
    if k == |events| {
      assert events[..k] == events;
    } else {
      var front := events[..|events| - 1];
      assert front[..k] == events[..k];
      UnknownLasts(s, w, front, k, digest);
      RunKeepsInv(s, w, front);
      UnknownStep(s, Run(s, w, front), events[|events| - 1], digest);
    }
  }

  /** An exception from the adapter call onward (a raise, a receipt that is not
      accepted, a failed append or update) never ends as success or failed: in
      the rest of the run the row is started or unknown. */
  lemma ExceptionEndsUnknown(s: Suite, w: World, events: seq<Event>, k: nat, r: nat)
    requires Initial(s, w) && k <= |events|
    requires r in Run(s, w, events[..k]).runs && Run(s, w, events[..k]).runs[r].Faulted?
    ensures
      var digest, rows := Run(s, w, events[..k]).runs[r].digest, Run(s, w, events).rows;
      digest in rows && rows[digest].status in {Started, Done(GitHubAdapter.Unknown)}
  {
    hide Apply;
    RunKeepsInv(s, w, events[..k]);
    var mid := Run(s, w, events[..k]);
    assert Owns(mid.runs[r], mid.runs[r].digest);
    UnknownLasts(s, w, events, k, mid.runs[r].digest);
  }

  /** The run that saw the exception is on its way to, or has recorded, unknown. */
  predicate RecordsUnknown(w: World, r: nat, digest: string) {
    && r in w.runs && digest in w.rows
    && (w.runs[r] == Faulted(digest) || (w.runs[r].Noted? && w.runs[r].digest == digest)
        || (w.runs[r].Over? && w.rows[digest].status == Done(GitHubAdapter.Unknown)))
  }

  /** The run is not cut off, and the updates of its row succeed. */
  predicate Undisturbed(e: Event, r: nat) {
    e != CutOff(r) && e != Complete(r, false)
  }

  lemma RecordingStep(s: Suite, w: World, e: Event, r: nat, digest: string)
    requires Inv(s, w) && RecordsUnknown(w, r, digest) && Undisturbed(e, r)
    ensures RecordsUnknown(Apply(s, w, e), r, digest)
  {
    hide WrittenChain, Entry, AcceptReceipt;
    if e.run in w.runs && (w.runs[e.run].Appended? || w.runs[e.run].Noted?) {
      assert Owns(w.runs[e.run], w.runs[e.run].digest);
    }
  }

  lemma {:induction false} RecordingLasts(s: Suite, w: World, events: seq<Event>, k: nat, r: nat, digest: string)
    requires Initial(s, w) && k <= |events| && RecordsUnknown(Run(s, w, events[..k]), r, digest)
    requires forall i :: k <= i < |events| ==> Undisturbed(events[i], r)
    ensures RecordsUnknown(Run(s, w, events), r, digest)
  {
    hide Initial, Apply, RecordsUnknown, Undisturbed;
    if k == |events| {
      assert events[..k] == events;
    } else {
      var front := events[..|events| - 1];
      assert front[..k] == events[..k];
      RecordingLasts(s, w, front, k, r, digest);
      RunKeepsInv(s, w, front);
      RecordingStep(s, Run(s, w, front), events[|events| - 1], r, digest);
    }
  }

  /** With a working store it ends as unknown: a run that saw an exception, is not
      cut off and whose row updates succeed leaves the row unknown when it is over. */
  lemma ExceptionIsRecordedAsUnknown(s: Suite, w: World, events: seq<Event>, k: nat, r: nat)
    requires Initial(s, w) && k <= |events|
    requires r in Run(s, w, events[..k]).runs && Run(s, w, events[..k]).runs[r].Faulted?
    requires forall i :: k <= i < |events| ==> Undisturbed(events[i], r)
    ensures r in Run(s, w, events).runs
    ensures
      var digest, end := Run(s, w, events[..k]).runs[r].digest, Run(s, w, events);
      end.runs[r].Over? ==> digest in end.rows && end.rows[digest].status == Done(GitHubAdapter.Unknown)
  {
    hide Apply, Undisturbed;
    RunKeepsInv(s, w, events[..k]);
    var mid := Run(s, w, events[..k]);
    assert Owns(mid.runs[r], mid.runs[r].digest);
    RecordingLasts(s, w, events, k, r, mid.runs[r].digest);
  }

  // ----- one run as the program makes it

  datatype BridgeResult =
    | Denied
    | ReplayBlocked(prior: Row)
    | NoAdapter
    | Executed(outcome: Outcome, receipt: Record)
    | RaisedAfterCall

  /** What fails during one run: the adapter's reply (None: it raises), the ledger
      appends and the updates of the row, first and in the exception handler. */
  datatype Conditions = Conditions(known: bool, reply: Option<Json>, append: Fault, update: bool, note: Fault, noteUpdate: bool)

  function Accepted(w: Conditions, digest: string): Option<Outcome> {
    if w.reply.None? then None else AcceptReceipt(w.reply.value, digest)
  }

  /** The events of one run with nobody in between. */
  function Alone(digest: string, actionId: string, body: Record, w: Conditions): seq<Event> {
    var begun := [] + [Begin(0, digest, actionId)] + [Claim(0)];
    if !w.known then begun + [CutOff(0)]
    else
      var called := begun + [Call(0, w.reply)];
      var done := if Accepted(w, digest).Some? then called + [Append(0, body, w.append)] + [Complete(0, w.update)] else called;
      done + [Append(0, body, w.note)] + [Complete(0, w.noteUpdate)]
  }

  /** What one run of the machine leaves when nobody else is there. */
  function AloneEnd(s: Suite, rows: map<string, Row>, ledger: seq<Record>, digest: string, actionId: string, body: Record,
                    w: Conditions): World {
    Run(s, World(rows, ledger, map[], []), Alone(digest, actionId, body, w))
  }

  lemma RunOneMore(s: Suite, w: World, events: seq<Event>, e: Event)
    ensures Run(s, w, events + [e]) == Apply(s, Run(s, w, events), e)
  {
    assert (events + [e])[..|events|] == events;
  }

  /** The entry and the ledger after an append with this fault. */
  function Appending(s: Suite, ledger: seq<Record>, body: Record, digest: string, outcome: Outcome, fault: Fault): (seq<Record>, Option<Record>) {
    var entry := Entry(s, ledger, body, digest, outcome);
    (if fault.BeforeWrite? then ledger else ledger + [entry], if fault.NoFault? then Some(entry) else None)
  }

  lemma AppendStep(s: Suite, w: World, body: Record, fault: Fault)
    requires 0 in w.runs && (w.runs[0].Returned? || w.runs[0].Faulted?)
    ensures
      var pc := w.runs[0];
      var outcome := if pc.Returned? then pc.outcome else GitHubAdapter.Unknown;
      var done := Appending(s, w.ledger, body, pc.digest, outcome, fault);
      Apply(s, w, Append(0, body, fault)) ==
        Step(w, 0, if pc.Faulted? then Noted(pc.digest, done.1)
                   else if done.1.Some? then Appended(pc.digest, outcome, done.1.value) else Faulted(pc.digest)).(ledger := done.0)
  {
    hide Entry;
  }

  lemma CompleteStep(s: Suite, w: World, works: bool)
    requires 0 in w.runs
    ensures
      var after, pc := Apply(s, w, Complete(0, works)), w.runs[0];
      && after.ledger == w.ledger && after.calls == w.calls
      && (pc.Noted? && pc.digest in w.rows ==>
            after == if works then Step(w, 0, Over).(rows := w.rows[pc.digest := w.rows[pc.digest].(status := Done(GitHubAdapter.Unknown), receipt := pc.noted)])
                     else Step(w, 0, Over))
      && (pc.Appended? && pc.digest in w.rows ==>
            after == if works then Step(w, 0, Over).(rows := w.rows[pc.digest := w.rows[pc.digest].(status := Done(pc.outcome), receipt := Some(pc.entry))])
                     else Step(w, 0, Faulted(pc.digest)))
      && (pc.Over? || pc.Faulted? ==> after == w)
  {
  }

  /** The exception handler: note the outcome as unknown. */
  lemma NoteSteps(s: Suite, w: World, events: seq<Event>, body: Record, note: Fault, works: bool, digest: string)
    requires 0 in Run(s, w, events).runs && digest in Run(s, w, events).rows
    requires Run(s, w, events).runs[0] in {Faulted(digest), Over}
    ensures
      var before, after := Run(s, w, events), Run(s, w, events + [Append(0, body, note)] + [Complete(0, works)]);
      if before.runs[0].Over? then after == before
      else
        var done := Appending(s, before.ledger, body, digest, GitHubAdapter.Unknown, note);
        && after.ledger == done.0 && after.calls == before.calls
        && after.rows == if works then before.rows[digest := before.rows[digest].(status := Done(GitHubAdapter.Unknown), receipt := done.1)]
                         else before.rows
  {
    hide Run, Apply, Appending;
    var before := Run(s, w, events);
    RunOneMore(s, w, events, Append(0, body, note));
    RunOneMore(s, w, events + [Append(0, body, note)], Complete(0, works));
    if before.runs[0].Over? {
      OverStays(s, before, Append(0, body, note));
      OverStays(s, before, Complete(0, works));
    } else {
      AppendStep(s, before, body, note);
      CompleteStep(s, Apply(s, before, Append(0, body, note)), works);
    }
  }

  lemma OverStays(s: Suite, w: World, e: Event)
    requires 0 in w.runs && w.runs[0].Over? && e.run == 0 && !e.Begin?
    ensures Apply(s, w, e).rows == w.rows && Apply(s, w, e).ledger == w.ledger && Apply(s, w, e).calls == w.calls
    ensures !e.CutOff? ==> Apply(s, w, e) == w
  {
  }

  lemma BegunAlone(s: Suite, rows: map<string, Row>, ledger: seq<Record>, digest: string, actionId: string)
    ensures Run(s, World(rows, ledger, map[], []), [] + [Begin(0, digest, actionId)] + [Claim(0)]) ==
      if digest in rows then World(rows, ledger, map[0 := Over], [])
      else World(rows[digest := Row(actionId, Started, None)], ledger, map[0 := Claimed(digest)], [])
  {
    var start := World(rows, ledger, map[], []);
    RunOneMore(s, start, [], Begin(0, digest, actionId));
    RunOneMore(s, start, [] + [Begin(0, digest, actionId)], Claim(0));
  }

  /** A digest seen before: the run stops at its claim. */
  lemma BlockedAlone(s: Suite, rows: map<string, Row>, ledger: seq<Record>, digest: string, actionId: string, body: Record, w: Conditions)
    requires digest in rows
    ensures
      var end := AloneEnd(s, rows, ledger, digest, actionId, body, w);
      end.rows == rows && end.ledger == ledger && end.calls == []
  {
    hide Run, Apply, Accepted;
    var start := World(rows, ledger, map[], []);
    var begun := [] + [Begin(0, digest, actionId)] + [Claim(0)];
    BegunAlone(s, rows, ledger, digest, actionId);
    if !w.known {
      RunOneMore(s, start, begun, CutOff(0));
      OverStays(s, Run(s, start, begun), CutOff(0));
    } else {
      var called := begun + [Call(0, w.reply)];
      RunOneMore(s, start, begun, Call(0, w.reply));
      OverStays(s, Run(s, start, begun), Call(0, w.reply));
      RunOneMore(s, start, called, Append(0, body, w.append));
      OverStays(s, Run(s, start, called), Append(0, body, w.append));
      RunOneMore(s, start, called + [Append(0, body, w.append)], Complete(0, w.update));
      OverStays(s, Run(s, start, called), Complete(0, w.update));
      var done := if Accepted(w, digest).Some? then called + [Append(0, body, w.append)] + [Complete(0, w.update)] else called;
      NoteSteps(s, start, done, body, w.note, w.noteUpdate, digest);
    }
  }

  lemma UncalledAlone(s: Suite, rows: map<string, Row>, ledger: seq<Record>, digest: string, actionId: string, body: Record, w: Conditions)
    requires digest !in rows && !w.known
    ensures
      var end := AloneEnd(s, rows, ledger, digest, actionId, body, w);
      end.rows == rows[digest := Row(actionId, Started, None)] && end.ledger == ledger && end.calls == []
  {
    hide Run;
    var start := World(rows, ledger, map[], []);
    BegunAlone(s, rows, ledger, digest, actionId);
    RunOneMore(s, start, [] + [Begin(0, digest, actionId)] + [Claim(0)], CutOff(0));
  }

  lemma CalledAlone(s: Suite, rows: map<string, Row>, ledger: seq<Record>, digest: string, actionId: string, w: Conditions)
    requires digest !in rows
    ensures
      var outcome := Accepted(w, digest);
      Run(s, World(rows, ledger, map[], []), [] + [Begin(0, digest, actionId)] + [Claim(0)] + [Call(0, w.reply)]) ==
        World(rows[digest := Row(actionId, Started, None)], ledger,
              map[0 := if outcome.Some? then Returned(digest, outcome.value) else Faulted(digest)], [AdapterCall(0, digest, w.reply)])
  {
    hide Run, AcceptReceipt;
    var start := World(rows, ledger, map[], []);
    BegunAlone(s, rows, ledger, digest, actionId);
    RunOneMore(s, start, [] + [Begin(0, digest, actionId)] + [Claim(0)], Call(0, w.reply));
  }

  /** What the exception handler leaves. */
  predicate HandlerRan(s: Suite, rows: map<string, Row>, ledger: seq<Record>, digest: string, body: Record, w: Conditions, end: World)
    requires digest in rows
  {
    var noted := Appending(s, ledger, body, digest, GitHubAdapter.Unknown, w.note);
    && end.ledger == noted.0
    && end.rows == if w.noteUpdate then rows[digest := rows[digest].(status := Done(GitHubAdapter.Unknown), receipt := noted.1)] else rows
  }

  lemma RefusedAlone(s: Suite, rows: map<string, Row>, ledger: seq<Record>, digest: string, actionId: string, body: Record, w: Conditions)
    requires digest !in rows && w.known && Accepted(w, digest).None?
    ensures
      var end := AloneEnd(s, rows, ledger, digest, actionId, body, w);
      HandlerRan(s, rows[digest := Row(actionId, Started, None)], ledger, digest, body, w, end)
  {
    hide Run, Accepted, Appending;
    var start := World(rows, ledger, map[], []);
    CalledAlone(s, rows, ledger, digest, actionId, w);
    NoteSteps(s, start, [] + [Begin(0, digest, actionId)] + [Claim(0)] + [Call(0, w.reply)], body, w.note, w.noteUpdate, digest);
  }

  lemma AcceptedAlone(s: Suite, rows: map<string, Row>, ledger: seq<Record>, digest: string, actionId: string, body: Record, w: Conditions)
    requires digest !in rows && w.known && Accepted(w, digest).Some?
    ensures
      var end := AloneEnd(s, rows, ledger, digest, actionId, body, w);
      var started := rows[digest := Row(actionId, Started, None)];
      var outcome := Accepted(w, digest).value;
      var appended := Appending(s, ledger, body, digest, outcome, w.append);
      if appended.1.Some? && w.update then
        end.ledger == appended.0 && end.rows == rows[digest := Row(actionId, Done(outcome), appended.1)]
      else HandlerRan(s, started, appended.0, digest, body, w, end)
  {
    hide Run, Apply, Accepted, Appending;
    var start := World(rows, ledger, map[], []);
    var called := [] + [Begin(0, digest, actionId)] + [Claim(0)] + [Call(0, w.reply)];
    var done := called + [Append(0, body, w.append)] + [Complete(0, w.update)];
    CalledAlone(s, rows, ledger, digest, actionId, w);
    RunOneMore(s, start, called, Append(0, body, w.append));
    RunOneMore(s, start, called + [Append(0, body, w.append)], Complete(0, w.update));
    AppendStep(s, Run(s, start, called), body, w.append);
    CompleteStep(s, Run(s, start, called + [Append(0, body, w.append)]), w.update);
    NoteSteps(s, start, done, body, w.note, w.noteUpdate, digest);
  }

  class OpenClawProofRailBridge {
    var executions: map<string, Row>
    var ledger: seq<Record>
    var calls: seq<string>

    constructor (ledger: seq<Record>)
      ensures executions == map[] && this.ledger == ledger && calls == []
    {
      executions, this.ledger, calls := map[], ledger, [];
    }

    /** `Ledger.append`, which may raise before or after the line is written. */
    method AppendEntry(s: Suite, body: Record, digest: string, outcome: Outcome, fault: Fault) returns (entry: Option<Record>)
      requires WrittenChain(s, ledger)
      modifies this`ledger
      ensures WrittenChain(s, ledger) && old(ledger) <= ledger
      ensures entry.Some? <==> fault.NoFault?
      ensures (ledger, entry) == Appending(s, old(ledger), body, digest, outcome, fault)
      ensures entry.Some? ==> ledger == old(ledger) + [entry.value] && EntrySays(entry.value, digest, outcome)
    {
      if fault.BeforeWrite? {
        return None;
      }
      var line := Entry(s, ledger, body, digest, outcome);
      EntryIsSealed(s, ledger, body, digest, outcome);
      ledger := ledger + [line];
      entry := if fault.NoFault? then Some(line) else None;
    }

    /** `run`: nothing happens to a denied action or to a digest seen before;
        otherwise the adapter is called once, and the row ends as the accepted
        outcome with its ledger entry, or as unknown, or stays started. */
    method Run(s: Suite, allowed: bool, digest: string, actionId: string, body: Record, w: Conditions) returns (r: BridgeResult)
      requires WrittenChain(s, ledger)
      modifies this
      ensures WrittenChain(s, ledger) && old(ledger) <= ledger
      ensures r.Denied? <==> !allowed
      ensures r.ReplayBlocked? <==> allowed && digest in old(executions)
      ensures r.Denied? || r.ReplayBlocked? ==> executions == old(executions) && ledger == old(ledger) && calls == old(calls)
      ensures r.ReplayBlocked? ==> r.prior == old(executions)[digest]
      ensures r.NoAdapter? ==> calls == old(calls) && executions == old(executions)[digest := Row(actionId, Started, None)]
      ensures r.Executed? || r.RaisedAfterCall? ==>
        && calls == old(calls) + [digest] && digest in executions
        && executions == old(executions)[digest := executions[digest]] && executions[digest].actionId == actionId
      ensures r.Executed? <==>
        && allowed && digest !in old(executions) && w.known
        && Accepted(w, digest).Some? && w.append.NoFault? && w.update
      ensures r.Executed? ==>
        && r.outcome == Accepted(w, digest).value && executions[digest] == Row(actionId, Done(r.outcome), Some(r.receipt))
        && r.receipt in ledger && EntrySays(r.receipt, digest, r.outcome)
      ensures allowed ==>
        var end := AloneEnd(s, old(executions), old(ledger), digest, actionId, body, w);
        executions == end.rows && ledger == end.ledger
      ensures r.RaisedAfterCall? ==>
        executions[digest].status == (if w.noteUpdate then Done(GitHubAdapter.Unknown) else Started)
    {
      hide WrittenChain, EntrySays, AcceptReceipt, Accepted, Alone, Appending, AloneEnd;
      if !allowed {
        return Denied;
      }
      if digest in executions {
        BlockedAlone(s, executions, ledger, digest, actionId, body, w);
        return ReplayBlocked(executions[digest]);
      }
      executions := executions[digest := Row(actionId, Started, None)];
      if !w.known {
        UncalledAlone(s, old(executions), ledger, digest, actionId, body, w);
        return NoAdapter;
      }
      calls := calls + [digest];
      var outcome := Accepted(w, digest);
      if outcome.Some? {
        AcceptedAlone(s, old(executions), old(ledger), digest, actionId, body, w);
        var receipt := AppendEntry(s, body, digest, outcome.value, w.append);
        if receipt.Some? && w.update {
          executions := executions[digest := executions[digest].(status := Done(outcome.value), receipt := receipt)];
          return Executed(outcome.value, receipt.value);
        }
      } else {
        RefusedAlone(s, old(executions), old(ledger), digest, actionId, body, w);
      }
      var noted := AppendEntry(s, body, digest, GitHubAdapter.Unknown, w.note);
      if w.noteUpdate {
        executions := executions[digest := executions[digest].(status := Done(GitHubAdapter.Unknown), receipt := noted)];
      }
      r := RaisedAfterCall;
    }
  }
}
