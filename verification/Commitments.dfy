/**
 Signed commitments to one exact ledger: Merkle checkpoints of
 proofrail/checkpoint.py and external anchors of proofrail/anchor.py.
 */
module Commitments {
  import opened Hashing
  import opened Merkle
  import opened LedgerChain

  datatype CommitError = InvalidLedger(problems: seq<Problem>) | InvalidDigest | MissingProvider | MissingKeyId

  datatype CommitmentProblem =
    | InvalidSignature
    | InvalidKind
    | TrustCheckpointMismatch
    | TrustCheckpointMissing
    | LedgerProblem(problem: Problem)
    | CommitmentMissing
    | Mismatch(field: Field)

  function OptionalText(o: Option<string>): Json {
    if o.None? then Null else Str(o.value)
  }

  // ----- checkpoints

  /** What a checkpoint says about a ledger. */
  datatype Summary = Summary(entries: nat, firstHash: Option<string>, lastHash: Option<string>, root: Option<string>)

  function SummaryOf(s: Suite, records: seq<Record>): Summary {
    Summary(|records|, FirstClaim(records), LastClaim(records), Some(Root(s, records)))
  }

  function CheckpointBody(summary: Summary, id: string, createdAt: string): Record {
    map[
      Kind := Fixed(CheckpointKind),
      Field.CheckpointId := Str(id),
      Field.CreatedAt := Str(createdAt),
      Field.Ledger := Obj(map[
        Field.Format := Fixed(JsonlFormat),
        Field.EntryCount := Int(summary.entries),
        Field.FirstHash := OptionalText(summary.firstHash),
        Field.LastHash := OptionalText(summary.lastHash),
        Field.MerkleRoot := OptionalText(summary.root),
        Field.HashAlgorithm := Fixed(Sha256Algorithm),
        Field.TreeAlgorithm := Fixed(MerkleV1)])]
  }

  function Checkpoint(s: Suite, records: seq<Record>, key: Key, keyId: string, id: string, createdAt: string): Record {
    SignRecord(s, CheckpointBody(SummaryOf(s, records), id, createdAt), key, keyId)
  }

  /** The formats a checkpoint names. */
  predicate CheckpointFormats(checkpoint: Record) {
    && Get(checkpoint, Field.Ledger).Obj?
    && var ledger := Get(checkpoint, Field.Ledger).fields;
    && Get(ledger, Field.Format) == Fixed(JsonlFormat)
    && Get(ledger, Field.HashAlgorithm) == Fixed(Sha256Algorithm)
    && Get(ledger, Field.TreeAlgorithm) == Fixed(MerkleV1)
  }

  lemma CheckpointSays(s: Suite, records: seq<Record>, key: Key, keyId: string, id: string, createdAt: string)
    ensures
      var c := Checkpoint(s, records, key, keyId, id, createdAt);
      Get(c, Field.CheckpointId) == Str(id) && Get(c, Field.CreatedAt) == Str(createdAt) && CheckpointFormats(c)
  {
    hide SummaryOf, SignRecord;
    SignedKeeps(s, CheckpointBody(SummaryOf(s, records), id, createdAt), key, keyId);
  }

  /** `create_checkpoint`.  The identifier and the time are parameters. */
  method CreateCheckpoint(s: Suite, source: Result<seq<Record>, string>, key: Key, keyId: string,
                          id: string, createdAt: string)
    returns (r: Result<Record, CommitError>)
    requires s.Valid()
    ensures r.Ok? <==> source.Ok? && Linked(s, source.value) && !Blank(keyId)
    ensures r.Ok? ==> r.value == Checkpoint(s, source.value, key, keyId, id, createdAt)
    ensures r.Ok? ==> Get(r.value, Field.CheckpointId) == Str(id) && Get(r.value, Field.CreatedAt) == Str(createdAt)
    ensures r.Ok? ==> CheckpointFormats(r.value)
  {
    if source.Ok? { CheckpointSays(s, source.value, key, keyId, id, createdAt); }
    var verification := VerifyLedger(s, source);
    if !verification.Valid() {
      return Err(InvalidLedger(verification.errors));
    }
    if Blank(keyId) {
      return Err(MissingKeyId);
    }
    var summary := Summary(
      verification.entries, verification.firstHash, verification.lastHash, verification.merkleRoot);
    r := Ok(SignRecord(s, CheckpointBody(summary, id, createdAt), key, keyId));
  }

  /** The comparisons `verify_checkpoint` makes with a recomputed summary. */
  predicate CheckpointMatches(checkpoint: Record, summary: Summary) {
    && Get(checkpoint, Kind) == Fixed(CheckpointKind)
    && Get(checkpoint, Field.Ledger).Obj?
    && var c := Get(checkpoint, Field.Ledger).fields;
    && Get(c, Field.EntryCount) == Int(summary.entries)
    && Get(c, Field.FirstHash) == OptionalText(summary.firstHash)
    && Get(c, Field.LastHash) == OptionalText(summary.lastHash)
    && Get(c, Field.MerkleRoot) == OptionalText(summary.root)
  }

  predicate CheckpointAccepts(s: Suite, checkpoint: Record, records: seq<Record>, key: Key) {
    && VerifySignature(s, checkpoint, key)
    && Linked(s, records)
    && CheckpointMatches(checkpoint, SummaryOf(s, records))
  }

  /** The error a failed check appends. */
  function Unless(holds: bool, problem: CommitmentProblem): (errors: seq<CommitmentProblem>)
    ensures errors == [] <==> holds
  {
    if holds then [] else [problem]
  }

  function Wrapped(problems: seq<Problem>): (out: seq<CommitmentProblem>)
    ensures |out| == |problems|
  {
    seq(|problems|, i requires 0 <= i < |problems| => LedgerProblem(problems[i]))
  }

  /** `verify_checkpoint` */
  method VerifyCheckpoint(s: Suite, checkpoint: Record, source: Result<seq<Record>, string>, key: Key)
    returns (errors: seq<CommitmentProblem>)
    requires s.Valid()
    ensures errors == [] <==> source.Ok? && CheckpointAccepts(s, checkpoint, source.value, key)
  {
    errors := Unless(VerifySignature(s, checkpoint, key), InvalidSignature);
    errors := errors + Unless(Get(checkpoint, Kind) == Fixed(CheckpointKind), InvalidKind);
    var ledger := VerifyLedger(s, source);
    errors := errors + Wrapped(ledger.errors);
    if !Get(checkpoint, Field.Ledger).Obj? {
      errors := errors + [CommitmentMissing];
    } else {
      var commitment := Get(checkpoint, Field.Ledger).fields;
      errors := errors
        + Unless(Get(commitment, Field.EntryCount) == Int(ledger.entries), Mismatch(Field.EntryCount))
        + Unless(Get(commitment, Field.FirstHash) == OptionalText(ledger.firstHash), Mismatch(Field.FirstHash))
        + Unless(Get(commitment, Field.LastHash) == OptionalText(ledger.lastHash), Mismatch(Field.LastHash))
        + Unless(Get(commitment, Field.MerkleRoot) == OptionalText(ledger.merkleRoot), Mismatch(Field.MerkleRoot));
    }
  }

  lemma CheckpointBodyMatches(summary: Summary, other: Summary, id: string, createdAt: string)
    ensures CheckpointMatches(CheckpointBody(summary, id, createdAt), other) <==> summary == other
  {
  }

  lemma SignedCheckpointMatches(s: Suite, summary: Summary, other: Summary, key: Key, keyId: string,
                                id: string, createdAt: string)
    requires s.Valid()
    ensures
      var checkpoint := SignRecord(s, CheckpointBody(summary, id, createdAt), key, keyId);
      VerifySignature(s, checkpoint, key) && (CheckpointMatches(checkpoint, other) <==> summary == other)
  {
    var body := CheckpointBody(summary, id, createdAt);
    var checkpoint := SignRecord(s, body, key, keyId);
    SignThenVerify(s, body, key, keyId);
    CheckpointBodyMatches(summary, other, id, createdAt);
    assert Get(checkpoint, Kind) == Get(body, Kind) && Get(checkpoint, Field.Ledger) == Get(body, Field.Ledger);
  }

  lemma SummaryFixesLedger(s: Suite, a: seq<Record>, b: seq<Record>)
    requires s.Valid() && CollisionFree(s, MerkleInputs(s, a) + MerkleInputs(s, b))
    ensures SummaryOf(s, a) == SummaryOf(s, b) <==> a == b
  {
    RootAndCountFixList(s, a, b);
  }

  /** A checkpoint created from a ledger accepts that ledger and no other
      record list: truncation, extension, edits and reordering are all refused. */
  lemma CheckpointAcceptsOnlyItsLedger(s: Suite, records: seq<Record>, other: seq<Record>, key: Key, keyId: string,
                                       id: string, createdAt: string)
    requires s.Valid() && Linked(s, records)
    requires CollisionFree(s, MerkleInputs(s, records) + MerkleInputs(s, other))
    ensures CheckpointAccepts(s, Checkpoint(s, records, key, keyId, id, createdAt), other, key) <==> other == records
  {
    SignedCheckpointMatches(s, SummaryOf(s, records), SummaryOf(s, other), key, keyId, id, createdAt);
    SummaryFixesLedger(s, records, other);
  }

  /** Truncation is invisible to the chain and visible to the commitment, with
      no assumption on collisions. */
  lemma OnlyTheCommitmentSeesTruncation(s: Suite, records: seq<Record>, k: nat, key: Key, keyId: string,
                                        id: string, createdAt: string)
    requires s.Valid() && Linked(s, records) && k < |records|
    ensures Linked(s, records[..k])
    ensures !CheckpointAccepts(s, Checkpoint(s, records, key, keyId, id, createdAt), records[..k], key)
  {
    LinkedIsPrefixClosed(s, records, k);
    SignedCheckpointMatches(s, SummaryOf(s, records), SummaryOf(s, records[..k]), key, keyId, id, createdAt);
  }

  // ----- anchors

  /** The integers among the `sequence` fields (Python counts booleans). */
  function Sequences(records: seq<Record>): (out: seq<int>) {
    if records == [] then []
    else
      var front := Sequences(records[..|records| - 1]);
      match Get(records[|records| - 1], Field.Sequence)
      case Int(i) => front + [i]
      case Bool(b) => front + [if b then 1 else 0]
      case _ => front
  }

  function MinOf(l: seq<int>): (m: int)
    requires l != []
    ensures m in l && forall x :: x in l ==> m <= x
  {
    if |l| == 1 then l[0] else
      var rest := MinOf(l[1..]);
      assert forall x :: x in l ==> x == l[0] || x in l[1..];
      if l[0] <= rest then l[0] else rest
  }

  function MaxOf(l: seq<int>): (m: int)
    requires l != []
    ensures m in l && forall x :: x in l ==> x <= m
  {
    if |l| == 1 then l[0] else
      var rest := MaxOf(l[1..]);
      assert forall x :: x in l ==> x == l[0] || x in l[1..];
      if l[0] >= rest then l[0] else rest
  }

  /** `sequence_range` */
  datatype Range = Range(start: int, end: int, entryCount: nat)

  function RangeOf(records: seq<Record>): Range {
    var sequences := Sequences(records);
    Range(
      if sequences != [] then MinOf(sequences) else if records != [] then 1 else 0,
      if sequences != [] then MaxOf(sequences) else |records|,
      |records|)
  }

  datatype AnchorContext = AnchorContext(
    createdAt: string,
    provider: string,
    reference: string,
    trustCheckpointHash: string,
    trustCheckpointPresent: bool)

  function AnchorBody(summary: Summary, range: Range, context: AnchorContext): Record {
    map[
      Kind := Fixed(AnchorKind),
      Field.CreatedAt := Str(context.createdAt),
      Field.AnchorProvider := Str(context.provider),
      Field.AnchorReference := Str(context.reference),
      Field.LedgerMerkleRoot := OptionalText(summary.root),
      Field.LedgerFirstHash := OptionalText(summary.firstHash),
      Field.LedgerLastHash := OptionalText(summary.lastHash),
      Field.TrustCheckpointHash := Str(context.trustCheckpointHash),
      Field.TrustCheckpointPresent := Bool(context.trustCheckpointPresent),
      Field.SequenceRange := Obj(map[
        Field.Start := Int(range.start),
        Field.End := Int(range.end),
        Field.EntryCount := Int(range.entryCount)])]
  }

  /** `signed["anchor_signature"] = signed.pop("signature")` */
  function RenameSignature(signed: Record): Record {
    (signed - {Signature})[Field.AnchorSignature := Get(signed, Signature)]
  }

  function RestoreSignature(anchor: Record): Record {
    (anchor - {Field.AnchorSignature})[Signature := Get(anchor, Field.AnchorSignature)]
  }

  function Anchor(s: Suite, records: seq<Record>, context: AnchorContext, key: Key, keyId: string): Record {
    RenameSignature(SignRecord(s, AnchorBody(SummaryOf(s, records), RangeOf(records), context), key, keyId))
  }

  lemma AnchorSays(s: Suite, records: seq<Record>, context: AnchorContext, key: Key, keyId: string)
    ensures
      var a := Anchor(s, records, context, key, keyId);
      && Get(a, Field.CreatedAt) == Str(context.createdAt)
      && Get(a, Field.AnchorProvider) == Str(context.provider) && Get(a, Field.AnchorReference) == Str(context.reference)
      && Get(a, Field.TrustCheckpointHash) == Str(context.trustCheckpointHash)
      && Get(a, Field.TrustCheckpointPresent) == Bool(context.trustCheckpointPresent)
  {
    hide SummaryOf, RangeOf, SignRecord, RenameSignature, Get;
    var body := AnchorBody(SummaryOf(s, records), RangeOf(records), context);
    SignedKeeps(s, body, key, keyId);
    RenamedKeeps(SignRecord(s, body, key, keyId));
    AnchorBodySays(SummaryOf(s, records), RangeOf(records), context);
  }

  lemma RenamedKeeps(signed: Record)
    ensures forall f :: f != Signature && f != Field.AnchorSignature ==> Get(RenameSignature(signed), f) == Get(signed, f)
  {
  }

  lemma AnchorBodySays(summary: Summary, range: Range, context: AnchorContext)
    ensures
      var a := AnchorBody(summary, range, context);
      && Get(a, Field.CreatedAt) == Str(context.createdAt)
      && Get(a, Field.AnchorProvider) == Str(context.provider) && Get(a, Field.AnchorReference) == Str(context.reference)
      && Get(a, Field.TrustCheckpointHash) == Str(context.trustCheckpointHash)
      && Get(a, Field.TrustCheckpointPresent) == Bool(context.trustCheckpointPresent)
  {
  }

  /** `create_anchor`.  `hexInt` says which strings `int(value, 16)` parses. */
  method CreateAnchor(s: Suite, hexInt: string -> bool, source: Result<seq<Record>, string>, context: AnchorContext,
                      key: Key, keyId: string)
    returns (r: Result<Record, CommitError>)
    requires s.Valid()
    ensures r.Ok? <==>
      && source.Ok? && Linked(s, source.value)
      && |context.trustCheckpointHash| == 64 && hexInt(context.trustCheckpointHash)
      && !Blank(context.provider) && !Blank(context.reference) && !Blank(keyId)
    ensures r.Ok? ==> r.value == Anchor(s, source.value, context, key, keyId)
    ensures r.Ok? ==>
      && Get(r.value, Field.CreatedAt) == Str(context.createdAt)
      && Get(r.value, Field.AnchorProvider) == Str(context.provider) && Get(r.value, Field.AnchorReference) == Str(context.reference)
      && Get(r.value, Field.TrustCheckpointHash) == Str(context.trustCheckpointHash)
      && Get(r.value, Field.TrustCheckpointPresent) == Bool(context.trustCheckpointPresent)
  {
    if source.Ok? { AnchorSays(s, source.value, context, key, keyId); }
    var verification := VerifyLedger(s, source);
    if !verification.Valid() {
      return Err(InvalidLedger(verification.errors));
    }
    if |context.trustCheckpointHash| != 64 || !hexInt(context.trustCheckpointHash) {
      return Err(InvalidDigest);
    }
    if Blank(context.provider) || Blank(context.reference) {
      return Err(MissingProvider);
    }
    if Blank(keyId) {
      return Err(MissingKeyId);
    }
    var summary := Summary(
      verification.entries, verification.firstHash, verification.lastHash, verification.merkleRoot);
    var signed := SignRecord(s, AnchorBody(summary, RangeOf(source.value), context), key, keyId);
    r := Ok(RenameSignature(signed));
  }

  /** The comparisons `verify_anchor` makes with a recomputed summary and range. */
  predicate AnchorMatches(anchor: Record, summary: Summary, range: Range, expected: Option<string>) {
    && Get(anchor, Kind) == Fixed(AnchorKind)
    && (expected.Some? ==>
        && Get(anchor, Field.TrustCheckpointHash) == Str(expected.value)
        && Get(anchor, Field.TrustCheckpointPresent) == Bool(true))
    && Get(anchor, Field.LedgerMerkleRoot) == OptionalText(summary.root)
    && Get(anchor, Field.LedgerFirstHash) == OptionalText(summary.firstHash)
    && Get(anchor, Field.LedgerLastHash) == OptionalText(summary.lastHash)
    && Get(anchor, Field.SequenceRange).Obj?
    && var r := Get(anchor, Field.SequenceRange).fields;
    && Get(r, Field.EntryCount) == Int(summary.entries)
    && Get(r, Field.Start) == Int(range.start)
    && Get(r, Field.End) == Int(range.end)
  }

  predicate AnchorAccepts(s: Suite, anchor: Record, records: seq<Record>, key: Key, expected: Option<string>) {
    && VerifySignature(s, RestoreSignature(anchor), key)
    && Linked(s, records)
    && AnchorMatches(anchor, SummaryOf(s, records), RangeOf(records), expected)
  }

  /** `verify_anchor` */
  method VerifyAnchor(s: Suite, anchor: Record, source: Result<seq<Record>, string>, key: Key, expected: Option<string>)
    returns (errors: seq<CommitmentProblem>)
    requires s.Valid()
    ensures errors == [] <==> source.Ok? && AnchorAccepts(s, anchor, source.value, key, expected)
  {
    errors := Unless(VerifySignature(s, RestoreSignature(anchor), key), InvalidSignature);
    errors := errors + Unless(Get(anchor, Kind) == Fixed(AnchorKind), InvalidKind);
    if expected.Some? {
      errors := errors
        + Unless(Get(anchor, Field.TrustCheckpointHash) == Str(expected.value), TrustCheckpointMismatch)
        + Unless(Get(anchor, Field.TrustCheckpointPresent) == Bool(true), TrustCheckpointMissing);
    }
    var ledger := VerifyLedger(s, source);
    errors := errors + Wrapped(ledger.errors)
      + Unless(Get(anchor, Field.LedgerMerkleRoot) == OptionalText(ledger.merkleRoot), Mismatch(Field.LedgerMerkleRoot))
      + Unless(Get(anchor, Field.LedgerFirstHash) == OptionalText(ledger.firstHash), Mismatch(Field.LedgerFirstHash))
      + Unless(Get(anchor, Field.LedgerLastHash) == OptionalText(ledger.lastHash), Mismatch(Field.LedgerLastHash));
    if !Get(anchor, Field.SequenceRange).Obj? {
      errors := errors + [CommitmentMissing];
    } else {
      var range := Get(anchor, Field.SequenceRange).fields;
      var expectedRange := RangeOf(if ledger.Valid() then source.value else []);
      errors := errors
        + Unless(Get(range, Field.EntryCount) == Int(ledger.entries), Mismatch(Field.EntryCount))
        + Unless(Get(range, Field.Start) == Int(expectedRange.start), Mismatch(Field.Start))
        + Unless(Get(range, Field.End) == Int(expectedRange.end), Mismatch(Field.End));
    }
  }

  lemma AnchorBodyMatches(summary: Summary, range: Range, context: AnchorContext,
                          other: Summary, otherRange: Range, expected: Option<string>)
    requires summary.entries == range.entryCount && other.entries == otherRange.entryCount
    ensures AnchorMatches(AnchorBody(summary, range, context), other, otherRange, expected) <==>
      && summary == other && range == otherRange
      && (expected.Some? ==> expected.value == context.trustCheckpointHash && context.trustCheckpointPresent)
  {
  }

  lemma SignedAnchorKeepsBody(s: Suite, body: Record, key: Key, keyId: string)
    requires s.Valid() && Field.AnchorSignature !in body
    ensures
      var anchor := RenameSignature(SignRecord(s, body, key, keyId));
      && VerifySignature(s, RestoreSignature(anchor), key)
      && forall f :: f !in {RecordHash, Signature, Field.AnchorSignature} ==> Get(anchor, f) == Get(body, f)
  {
    var signed := SignRecord(s, body, key, keyId);
    SignThenVerify(s, body, key, keyId);
    assert RestoreSignature(RenameSignature(signed)) == signed;
  }

  lemma SameReadFields(anchor: Record, body: Record, summary: Summary, range: Range, expected: Option<string>)
    requires forall f :: f !in {RecordHash, Signature, Field.AnchorSignature} ==> Get(anchor, f) == Get(body, f)
    ensures AnchorMatches(anchor, summary, range, expected) <==> AnchorMatches(body, summary, range, expected)
  {
  }

  /** An anchor created from a ledger accepts that ledger and no other record
      list, and only under the trust checkpoint it was created with. */
  lemma AnchorAcceptsOnlyItsLedger(s: Suite, records: seq<Record>, other: seq<Record>, context: AnchorContext,
                                   key: Key, keyId: string, expected: Option<string>)
    requires s.Valid() && Linked(s, records)
    requires CollisionFree(s, MerkleInputs(s, records) + MerkleInputs(s, other))
    ensures AnchorAccepts(s, Anchor(s, records, context, key, keyId), other, key, expected) <==>
      && other == records
      && (expected.Some? ==> expected.value == context.trustCheckpointHash && context.trustCheckpointPresent)
  {
    var summary, range := SummaryOf(s, other), RangeOf(other);
    var body := AnchorBody(SummaryOf(s, records), RangeOf(records), context);
    SignedAnchorKeepsBody(s, body, key, keyId);
    SameReadFields(Anchor(s, records, context, key, keyId), body, summary, range, expected);
    AnchorBodyMatches(SummaryOf(s, records), RangeOf(records), context, summary, range, expected);
    SummaryFixesLedger(s, records, other);
  }
}
