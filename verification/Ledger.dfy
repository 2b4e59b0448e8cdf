/**
 Hash-chained JSONL ledgers: `verify_ledger` and `export_ledger` of
 proofrail/checkpoint.py, and the `Ledger` class of proofrail/core.py.
 A ledger file is the sequence of records its non-blank lines hold.
 */
module LedgerChain {
  import opened Hashing
  import opened Merkle

  // ----- what one line claims and what its digest covers

  function ClaimedHash(r: Record): Option<string> {
    Text(if EntryHash in r then r[EntryHash] else Get(r, RecordHash))
  }

  /** `digest_ledger_entry` drops `entry_hash` and, with it, `signature`. */
  function EntryInput(s: Suite, r: Record): Bytes {
    s.dumps(Unsigned(r - {EntryHash}))
  }

  function DigestEntry(s: Suite, r: Record): string {
    HexSha(s, EntryInput(s, r))
  }

  // ----- verify_ledger

  datatype Problem =
    | Unreadable(message: string)
    | InvalidEntryHash(line: nat)
    | BrokenPreviousHash(line: nat)
    | InvalidRecordHash(line: nat)
    | MissingContentHash(line: nat)

  function GenesisOr(previous: Option<string>): Json {
    Str(if previous.None? then GENESIS else previous.value)
  }

  function NullOr(previous: Option<string>): Json {
    if previous.None? then Null else Str(previous.value)
  }

  function LineProblems(s: Suite, previous: Option<string>, r: Record, line: nat): seq<Problem> {
    if EntryHash in r then
      (if ClaimedHash(r) != Some(DigestEntry(s, r)) then [InvalidEntryHash(line)] else [])
      + (if Get(r, PreviousHash) != GenesisOr(previous) then [BrokenPreviousHash(line)] else [])
    else if RecordHash in r then
      (if ClaimedHash(r) != Some(HashRecord(s, r)) then [InvalidRecordHash(line)] else [])
      + (if PreviousHash in r && r[PreviousHash] != NullOr(previous) then [BrokenPreviousHash(line)] else [])
    else
      [MissingContentHash(line)]
  }

  /** `previous_hash = claimed_hash or previous_hash` */
  function NextLink(previous: Option<string>, r: Record): Option<string> {
    var claimed := ClaimedHash(r);
    if claimed.Some? && claimed.value != "" then claimed else previous
  }

  function LinkAfter(records: seq<Record>): Option<string> {
    if records == [] then None
    else NextLink(LinkAfter(records[..|records| - 1]), records[|records| - 1])
  }

  function Problems(s: Suite, records: seq<Record>): seq<Problem> {
    if records == [] then []
    else
      var front := records[..|records| - 1];
      Problems(s, front) + LineProblems(s, LinkAfter(front), records[|records| - 1], |records|)
  }

  /** The hash a line must link to: its immediate predecessor's claim. */
  function PreviousClaim(records: seq<Record>, i: nat): Option<string>
    requires i < |records|
  {
    if i == 0 then None else ClaimedHash(records[i - 1])
  }

  predicate LineHolds(s: Suite, records: seq<Record>, i: nat)
    requires i < |records|
  {
    var r := records[i];
    if EntryHash in r then
      ClaimedHash(r) == Some(DigestEntry(s, r)) && Get(r, PreviousHash) == GenesisOr(PreviousClaim(records, i))
    else
      && ClaimedHash(r) == Some(HashRecord(s, r))
      && (PreviousHash in r ==> r[PreviousHash] == NullOr(PreviousClaim(records, i)))
  }

  /** Every line carries its own digest and links to the line before it. */
  predicate Linked(s: Suite, records: seq<Record>) {
    forall i :: 0 <= i < |records| ==> LineHolds(s, records, i)
  }

  lemma LinkedIsPrefixClosed(s: Suite, records: seq<Record>, k: nat)
    requires Linked(s, records) && k <= |records|
    ensures Linked(s, records[..k])
  {
    forall i | 0 <= i < k ensures LineHolds(s, records[..k], i) {
      assert LineHolds(s, records, i);
    }
  }

  lemma LinkedOneMore(s: Suite, records: seq<Record>)
    requires |records| > 0
    ensures Linked(s, records) <==> Linked(s, records[..|records| - 1]) && LineHolds(s, records, |records| - 1)
  {
    var front := records[..|records| - 1];
    forall i | 0 <= i < |front| ensures LineHolds(s, records, i) <==> LineHolds(s, front, i) {
    }
  }

  /** `verify_ledger` reports no problem exactly for linked ledgers. */
  lemma {:induction false} NoProblemIffLinked(s: Suite, records: seq<Record>)
    requires s.Valid()
    ensures Problems(s, records) == [] <==> Linked(s, records)
    ensures Linked(s, records) && records != [] ==> LinkAfter(records) == ClaimedHash(records[|records| - 1])
  {
    if records != [] {
      var front, last := records[..|records| - 1], records[|records| - 1];
      NoProblemIffLinked(s, front);
      LinkedOneMore(s, records);
      NoDigestIsGenesis(s, EntryInput(s, last));
      NoDigestIsGenesis(s, RecordInput(s, last));
    }
  }

  datatype LedgerReport = LedgerReport(
    entries: nat,
    firstHash: Option<string>,
    lastHash: Option<string>,
    merkleRoot: Option<string>,
    errors: seq<Problem>)
  {
    predicate Valid() { errors == [] }
  }

  function FirstClaim(records: seq<Record>): Option<string> {
    if records == [] then None else ClaimedHash(records[0])
  }

  function LastClaim(records: seq<Record>): Option<string> {
    if records == [] then None else ClaimedHash(records[|records| - 1])
  }

  /** `verify_ledger`.  `source` is what reading the file gave: its records, or
      the reason it could not be read. */
  method VerifyLedger(s: Suite, source: Result<seq<Record>, string>) returns (report: LedgerReport)
    requires s.Valid()
    ensures source.Err? ==> report == LedgerReport(0, None, None, None, [Unreadable(source.error)])
    ensures source.Ok? ==>
      var records := source.value;
      report == LedgerReport(|records|, FirstClaim(records), LastClaim(records), Some(Root(s, records)), Problems(s, records))
    ensures report.Valid() <==> source.Ok? && Linked(s, source.value)
  {
    if source.Err? {
      return LedgerReport(0, None, None, None, [Unreadable(source.error)]);
    }
    var records := source.value;
    var errors, previous := [], None;
    for i := 0 to |records|
      invariant errors == Problems(s, records[..i])
      invariant previous == LinkAfter(records[..i])
    {
      var record := records[i];
      assert records[..i + 1][..i] == records[..i];
      errors := errors + LineProblems(s, previous, record, i + 1);
      previous := NextLink(previous, record);
    }
    assert records[..|records|] == records;
    NoProblemIffLinked(s, records);
    var root, _, _ := ComputeMerkleRoot(s, records);
    report := LedgerReport(|records|, FirstClaim(records), LastClaim(records), Some(root), errors);
  }

  // ----- what the last hash fixes

  predicate EntryLedger(records: seq<Record>) {
    forall i :: 0 <= i < |records| ==> EntryHash in records[i]
  }

  function ChainInputs(s: Suite, records: seq<Record>): set<Bytes> {
    set r | r in records :: EntryInput(s, r)
  }

  predicate SameUpToSignatures(a: seq<Record>, b: seq<Record>) {
    |a| == |b| && forall i :: 0 <= i < |a| ==> Unsigned(a[i]) == Unsigned(b[i])
  }

  /** Two entries that claim the same hash agree on everything but `signature`. */
  lemma SameClaimSameEntry(s: Suite, inputs: set<Bytes>, a: Record, b: Record)
    requires CollisionFree(s, inputs) && EntryInput(s, a) in inputs && EntryInput(s, b) in inputs
    requires s.Valid() && EntryHash in a && EntryHash in b
    requires ClaimedHash(a) == ClaimedHash(b) == Some(DigestEntry(s, a))
    requires DigestEntry(s, a) == DigestEntry(s, b)
    ensures Unsigned(a) == Unsigned(b)
  {
    SameDigestSameInput(s, inputs, EntryInput(s, a), EntryInput(s, b));
    assert Unsigned(a - {EntryHash}) == Unsigned(b - {EntryHash});
    assert Unsigned(a) == Unsigned(a - {EntryHash})[EntryHash := a[EntryHash]];
    assert Unsigned(b) == Unsigned(b - {EntryHash})[EntryHash := b[EntryHash]];
  }

  lemma UnsignedKeepsFields(a: Record, b: Record)
    requires Unsigned(a) == Unsigned(b)
    ensures EntryHash in a <==> EntryHash in b
    ensures PreviousHash in a <==> PreviousHash in b
    ensures Get(a, PreviousHash) == Get(b, PreviousHash)
    ensures a - {EntryHash, Signature} == b - {EntryHash, Signature}
    ensures ClaimedHash(a) == ClaimedHash(b)
  {
    assert Get(a, PreviousHash) == Get(Unsigned(a), PreviousHash);
    assert Get(b, PreviousHash) == Get(Unsigned(b), PreviousHash);
    assert ClaimedHash(a) == ClaimedHash(Unsigned(a)) && ClaimedHash(b) == ClaimedHash(Unsigned(b));
    assert a - {EntryHash, Signature} == Unsigned(a) - {EntryHash};
    assert b - {EntryHash, Signature} == Unsigned(b) - {EntryHash};
    assert EntryHash in a <==> EntryHash in Unsigned(a);
    assert EntryHash in b <==> EntryHash in Unsigned(b);
    assert PreviousHash in a <==> PreviousHash in Unsigned(a);
    assert PreviousHash in b <==> PreviousHash in Unsigned(b);
  }

  /** In a linked ledger the previous hash of a last entry is GENESIS just when
      nothing precedes it. */
  lemma PreviousHashOfLast(s: Suite, records: seq<Record>)
    requires s.Valid() && Linked(s, records) && EntryLedger(records) && records != []
    ensures Get(records[|records| - 1], PreviousHash) == GenesisOr(LastClaim(records[..|records| - 1]))
    ensures GenesisOr(LastClaim(records[..|records| - 1])) == Str(GENESIS) <==> |records| == 1
  {
    var n := |records| - 1;
    assert LineHolds(s, records, n);
    if n > 0 {
      assert LineHolds(s, records, n - 1);
      NoDigestIsGenesis(s, EntryInput(s, records[n - 1]));
    }
  }

  /** One step back along two chains that end in the same hash. */
  lemma SameLastHashOneStepBack(s: Suite, a: seq<Record>, b: seq<Record>)
    requires s.Valid() && CollisionFree(s, ChainInputs(s, a) + ChainInputs(s, b))
    requires Linked(s, a) && Linked(s, b) && EntryLedger(a) && EntryLedger(b)
    requires a != [] && b != [] && LastClaim(a) == LastClaim(b)
    ensures Unsigned(a[|a| - 1]) == Unsigned(b[|b| - 1])
    ensures LastClaim(a[..|a| - 1]) == LastClaim(b[..|b| - 1]) && (|a| == 1 <==> |b| == 1)
  {
    var x, y := a[|a| - 1], b[|b| - 1];
    assert LineHolds(s, a, |a| - 1) && LineHolds(s, b, |b| - 1);
    SameClaimSameEntry(s, ChainInputs(s, a) + ChainInputs(s, b), x, y);
    UnsignedKeepsFields(x, y);
    PreviousHashOfLast(s, a);
    PreviousHashOfLast(s, b);
    if |a| > 1 && |b| > 1 {
      assert LineHolds(s, a, |a| - 2) && LineHolds(s, b, |b| - 2);
    }
  }

  lemma {:induction false} SameLastHashSameLedger(s: Suite, a: seq<Record>, b: seq<Record>)
    requires s.Valid() && CollisionFree(s, ChainInputs(s, a) + ChainInputs(s, b))
    requires Linked(s, a) && Linked(s, b) && EntryLedger(a) && EntryLedger(b)
    requires a != [] && b != [] && LastClaim(a) == LastClaim(b)
    ensures SameUpToSignatures(a, b)
    decreases |a|
  {
    var m, n := |a| - 1, |b| - 1;
    var front, back := a[..m], b[..n];
    SameLastHashOneStepBack(s, a, b);
    LinkedIsPrefixClosed(s, a, m);
    LinkedIsPrefixClosed(s, b, n);
    assert ChainInputs(s, front) + ChainInputs(s, back) <= ChainInputs(s, a) + ChainInputs(s, b);
    if m > 0 {
      SameLastHashSameLedger(s, front, back);
    }
    assert a == front + [a[m]] && b == back + [b[n]];
  }

  lemma LastHashIsClaimed(s: Suite, records: seq<Record>)
    requires Linked(s, records)
    ensures LastClaim(records).None? <==> records == []
  {
    if records != [] { assert LineHolds(s, records, |records| - 1); }
  }

  /** The last hash of a linked ledger of entries fixes its length and every
      entry up to `signature`. */
  lemma LastHashFixesLedger(s: Suite, a: seq<Record>, b: seq<Record>)
    requires s.Valid() && CollisionFree(s, ChainInputs(s, a) + ChainInputs(s, b))
    requires Linked(s, a) && Linked(s, b) && EntryLedger(a) && EntryLedger(b)
    ensures LastClaim(a) == LastClaim(b) <==> SameUpToSignatures(a, b)
  {
    LastHashIsClaimed(s, a);
    LastHashIsClaimed(s, b);
    if a != [] && b != [] {
      if LastClaim(a) == LastClaim(b) {
        SameLastHashSameLedger(s, a, b);
      }
      if SameUpToSignatures(a, b) {
        UnsignedKeepsFields(a[|a| - 1], b[|b| - 1]);
      }
    }
  }

  /** No entry of a linked ledger occurs twice, not even re-signed. */
  lemma NoEntryTwice(s: Suite, records: seq<Record>)
    requires s.Valid() && CollisionFree(s, ChainInputs(s, records))
    requires Linked(s, records) && EntryLedger(records)
    ensures forall i, j :: 0 <= i < j < |records| ==> Unsigned(records[i]) != Unsigned(records[j])
    ensures NoRepeats(records)
  {
    forall i, j | 0 <= i < j < |records| ensures Unsigned(records[i]) != Unsigned(records[j]) {
      var a, b := records[..i + 1], records[..j + 1];
      LinkedIsPrefixClosed(s, records, i + 1);
      LinkedIsPrefixClosed(s, records, j + 1);
      assert ChainInputs(s, a) + ChainInputs(s, b) <= ChainInputs(s, records);
      LastHashFixesLedger(s, a, b);
      if Unsigned(records[i]) == Unsigned(records[j]) {
        UnsignedKeepsFields(records[i], records[j]);
      }
    }
  }

  /** The Merkle root alone identifies a linked ledger of entries. */
  lemma RootIdentifiesLedger(s: Suite, a: seq<Record>, b: seq<Record>)
    requires s.Valid() && Linked(s, a) && Linked(s, b) && EntryLedger(a) && EntryLedger(b)
    requires CollisionFree(s, ChainInputs(s, a)) && CollisionFree(s, ChainInputs(s, b))
    requires CollisionFree(s, MerkleInputs(s, a) + MerkleInputs(s, b))
    ensures Root(s, a) == Root(s, b) <==> a == b
  {
    NoEntryTwice(s, a);
    NoEntryTwice(s, b);
    RootFixesRepeatFreeList(s, a, b);
  }

  lemma ResigningKeepsLinks(s: Suite, records: seq<Record>, i: nat, r: Record)
    requires Linked(s, records) && i < |records| && Unsigned(r) == Unsigned(records[i])
    requires EntryHash in r
    ensures Linked(s, records[i := r])
  {
    var changed := records[i := r];
    UnsignedKeepsFields(r, records[i]);
    assert Unsigned(r - {EntryHash}) == r - {EntryHash, Signature};
    assert Unsigned(records[i] - {EntryHash}) == records[i] - {EntryHash, Signature};
    assert LineHolds(s, records, i);
    forall k | 0 <= k < |changed| ensures LineHolds(s, changed, k) {
      assert LineHolds(s, records, k);
      assert PreviousClaim(changed, k) == PreviousClaim(records, k);
    }
  }

  /** An entry that is not the last can be replaced without breaking the chain
      exactly by a record that differs in nothing but `signature`. */
  lemma InnerEntryIsFixedUpToSignature(s: Suite, records: seq<Record>, i: nat, r: Record)
    requires s.Valid() && Linked(s, records) && EntryLedger(records) && i + 1 < |records| && EntryHash in r
    requires CollisionFree(s, {EntryInput(s, records[i]), EntryInput(s, r)})
    ensures Linked(s, records[i := r]) <==> Unsigned(r) == Unsigned(records[i])
  {
    var changed := records[i := r];
    if Linked(s, changed) {
      assert LineHolds(s, records, i) && LineHolds(s, records, i + 1);
      assert LineHolds(s, changed, i) && LineHolds(s, changed, i + 1);
      SameClaimSameEntry(s, {EntryInput(s, records[i]), EntryInput(s, r)}, r, records[i]);
    }
    if Unsigned(r) == Unsigned(records[i]) {
      ResigningKeepsLinks(s, records, i, r);
    }
  }

  // ----- appending

  /** `entry["entry_hash"] = digest_ledger_entry(entry)` */
  function Seal(s: Suite, body: Record): Record {
    body[EntryHash := Str(DigestEntry(s, body))]
  }

  lemma SealClaims(s: Suite, body: Record)
    requires EntryHash !in body
    ensures ClaimedHash(Seal(s, body)) == Some(DigestEntry(s, Seal(s, body)))
    ensures EntryHash in Seal(s, body)
    ensures forall f :: f != EntryHash ==> Get(Seal(s, body), f) == Get(body, f)
  {
    assert Seal(s, body) - {EntryHash} == body == body - {EntryHash};
  }

  /** A record with the chain fields that `Ledger.append`, `_audit` and the
      export fill in. */
  function ChainBody(sequence: nat, previous: Json, body: Record): Record {
    body[Field.Sequence := Int(sequence)][PreviousHash := previous] - {EntryHash}
  }

  function LastLink(entries: seq<Record>): Json {
    if entries == [] then Str(GENESIS) else Get(entries[|entries| - 1], EntryHash)
  }

  function ChainEntry(s: Suite, entries: seq<Record>, body: Record): Record {
    Seal(s, ChainBody(|entries| + 1, LastLink(entries), body))
  }

  lemma ChainEntryFields(s: Suite, entries: seq<Record>, body: Record)
    ensures
      var entry := ChainEntry(s, entries, body);
      && EntryHash in entry
      && ClaimedHash(entry) == Some(DigestEntry(s, entry))
      && Get(entry, PreviousHash) == LastLink(entries)
      && Get(entry, Field.Sequence) == Int(|entries| + 1)
      && forall f :: f !in {EntryHash, PreviousHash, Field.Sequence} ==> Get(entry, f) == Get(body, f)
  {
    hide DigestEntry, LastLink, Seal;
    ChainBodyFields(|entries| + 1, LastLink(entries), body);
    SealClaims(s, ChainBody(|entries| + 1, LastLink(entries), body));
  }

  lemma ChainBodyFields(sequence: nat, previous: Json, body: Record)
    ensures
      var b := ChainBody(sequence, previous, body);
      && EntryHash !in b
      && Get(b, PreviousHash) == previous
      && Get(b, Field.Sequence) == Int(sequence)
      && forall f :: f !in {EntryHash, PreviousHash, Field.Sequence} ==> Get(b, f) == Get(body, f)
  {
  }

  predicate Sequenced(entries: seq<Record>) {
    forall i :: 0 <= i < |entries| ==> Get(entries[i], Field.Sequence) == Int(i + 1)
  }

  /** A chain as the program writes it. */
  predicate WrittenChain(s: Suite, entries: seq<Record>) {
    Linked(s, entries) && EntryLedger(entries) && Sequenced(entries)
  }

  /** Appending a sealed entry that links to the last one. */
  lemma ExtendChain(s: Suite, entries: seq<Record>, entry: Record)
    requires WrittenChain(s, entries)
    requires EntryHash in entry && ClaimedHash(entry) == Some(DigestEntry(s, entry))
    requires Get(entry, PreviousHash) == LastLink(entries) && Get(entry, Field.Sequence) == Int(|entries| + 1)
    ensures WrittenChain(s, entries + [entry])
  {
    var longer := entries + [entry];
    if entries != [] { assert LineHolds(s, entries, |entries| - 1); }
    assert LineHolds(s, longer, |entries|);
    assert longer[..|entries|] == entries;
    LinkedOneMore(s, longer);
  }

  lemma AppendKeepsChain(s: Suite, entries: seq<Record>, body: Record)
    requires WrittenChain(s, entries)
    ensures WrittenChain(s, entries + [ChainEntry(s, entries, body)])
  {
    ChainEntryFields(s, entries, body);
    ExtendChain(s, entries, ChainEntry(s, entries, body));
  }

  datatype AppendError = DeniedAction | UnboundDecision | UnreadableLine | LastEntryUnhashed

  /** The fields of `GateDecision` an append reads. */
  datatype GateDecision = GateDecision(allowed: bool, actionDigest: string)

  /** The non-blank lines of a ledger file: a record, or None for a line that is
      not JSON. */
  type Lines = seq<Option<Record>>

  predicate AllParse(lines: Lines) {
    forall i :: 0 <= i < |lines| ==> lines[i].Some?
  }

  function Parsed(lines: Lines): (entries: seq<Record>)
    requires AllParse(lines)
    ensures |entries| == |lines|
  {
    seq(|lines|, i requires 0 <= i < |lines| => lines[i].value)
  }

  /** A file the program wrote. */
  predicate WrittenFile(s: Suite, lines: Lines) {
    AllParse(lines) && WrittenChain(s, Parsed(lines))
  }

  /** `Ledger` of proofrail/core.py, over the lines of its file. */
  class Ledger {
    var lines: Lines

    constructor ()
      ensures lines == []
    {
      lines := [];
    }

    /** `append`: `body` are the receipt fields besides the chain's.  An append that
        raises leaves the file alone. */
    method Append(s: Suite, action: Record, decision: GateDecision, body: Record) returns (r: Result<Record, AppendError>)
      requires s.Valid()
      modifies this
      ensures r.Ok? <==>
        && decision.allowed && decision.actionDigest == DigestDocument(s, action)
        && AllParse(old(lines)) && (old(lines) == [] || EntryHash in old(lines)[|old(lines)| - 1].value)
      ensures r.Ok? ==> r.value == ChainEntry(s, Parsed(old(lines)), body) && lines == old(lines) + [Some(r.value)]
      ensures r.Err? ==> lines == old(lines)
      ensures old(WrittenFile(s, lines)) ==> WrittenFile(s, lines)
    {
      hide WrittenChain, ChainEntry, DigestDocument;
      if !decision.allowed {
        return Err(DeniedAction);
      }
      if decision.actionDigest != DigestDocument(s, action) {
        return Err(UnboundDecision);
      }
      if !AllParse(lines) {
        return Err(UnreadableLine);
      }
      if lines != [] && EntryHash !in lines[|lines| - 1].value {
        return Err(LastEntryUnhashed);
      }
      if WrittenChain(s, Parsed(lines)) {
        AppendKeepsChain(s, Parsed(lines), body);
      }
      var entry := ChainEntry(s, Parsed(lines), body);
      assert Parsed(lines + [Some(entry)]) == Parsed(lines) + [entry];
      lines := lines + [Some(entry)];
      r := Ok(entry);
    }

    /** `verify` accepts exactly the files whose lines all parse to linked entries:
        it agrees with `verify_ledger` wherever every line has an `entry_hash`. */
    method Verify(s: Suite) returns (valid: bool, count: nat)
      requires s.Valid()
      ensures valid <==> AllParse(lines) && Linked(s, Parsed(lines)) && EntryLedger(Parsed(lines))
      ensures count == |lines|
    {
      valid, count := true, 0;
      var previous := Str(GENESIS);
      for i := 0 to |lines|
        invariant valid <==> FileVerifies(s, lines[..i])
        invariant valid ==> previous == GenesisOr(LastClaim(Parsed(lines[..i])))
        invariant count == i
      {
        hide FileVerifies, LastClaim, GenesisOr, DigestEntry;
        assert lines[..i + 1][..i] == lines[..i];
        count := count + 1;
        if lines[i].None? {
          GarbledLine(s, lines[..i + 1]);
          valid := false;
          continue;
        }
        var entry := lines[i].value;
        OneMoreLine(s, lines[..i + 1]);
        var claimed := Get(entry, EntryHash);
        if Get(entry, PreviousHash) != previous {
          valid := false;
        }
        if claimed != Str(DigestEntry(s, entry)) {
          valid := false;
        }
        previous := if Truthy(claimed) then claimed else previous;
      }
      assert lines[..|lines|] == lines;
    }
  }

  predicate FileVerifies(s: Suite, lines: Lines) {
    AllParse(lines) && VerifiedSoFar(s, Parsed(lines))
  }

  lemma GarbledLine(s: Suite, lines: Lines)
    requires lines != [] && lines[|lines| - 1].None?
    ensures !FileVerifies(s, lines)
  {
  }

  /** One iteration of `Ledger.verify` on a line that parses. */
  lemma OneMoreLine(s: Suite, lines: Lines)
    requires s.Valid() && lines != [] && lines[|lines| - 1].Some?
    ensures
      var n, entry := |lines| - 1, lines[|lines| - 1].value;
      FileVerifies(s, lines) <==>
        && FileVerifies(s, lines[..n])
        && Get(entry, EntryHash) == Str(DigestEntry(s, entry))
        && Get(entry, PreviousHash) == GenesisOr(LastClaim(Parsed(lines[..n])))
    ensures DigestEntry(s, lines[|lines| - 1].value) != ""
    ensures FileVerifies(s, lines) ==> GenesisOr(LastClaim(Parsed(lines))) == Get(lines[|lines| - 1].value, EntryHash)
  {
    hide VerifiedSoFar, LastClaim, GenesisOr, DigestEntry;
    var n := |lines| - 1;
    DigestIsText(s, lines[n].value);
    if AllParse(lines[..n]) {
      assert AllParse(lines) by {
        assert forall i :: 0 <= i < n ==> lines[i] == lines[..n][i];
      }
      assert Parsed(lines)[..n] == Parsed(lines[..n]);
      VerifyOneMore(s, Parsed(lines));
    } else {
      assert !AllParse(lines);
    }
  }

  lemma DigestIsText(s: Suite, r: Record)
    requires s.Valid()
    ensures DigestEntry(s, r) != ""
  {
    NoDigestIsGenesis(s, EntryInput(s, r));
  }

  predicate VerifiedSoFar(s: Suite, entries: seq<Record>) {
    Linked(s, entries) && EntryLedger(entries)
  }

  /** One iteration of `Ledger.verify` against one line of `verify_ledger`. */
  lemma VerifyOneMore(s: Suite, entries: seq<Record>)
    requires s.Valid() && entries != []
    ensures
      var n := |entries| - 1;
      VerifiedSoFar(s, entries) <==>
        && VerifiedSoFar(s, entries[..n])
        && Get(entries[n], EntryHash) == Str(DigestEntry(s, entries[n]))
        && Get(entries[n], PreviousHash) == GenesisOr(LastClaim(entries[..n]))
    ensures DigestEntry(s, entries[|entries| - 1]) != ""
    ensures VerifiedSoFar(s, entries) ==> GenesisOr(LastClaim(entries)) == Get(entries[|entries| - 1], EntryHash)
  {
    var n := |entries| - 1;
    LinkedOneMore(s, entries);
    NoDigestIsGenesis(s, EntryInput(s, entries[n]));
    assert EntryLedger(entries) <==> EntryLedger(entries[..n]) && EntryHash in entries[n] by {
      assert entries == entries[..n] + [entries[n]];
    }
    if VerifiedSoFar(s, entries) { assert LineHolds(s, entries, n); }
  }

  // ----- export_ledger

  predicate AllUnhashed(records: seq<Record>) {
    forall i :: 0 <= i < |records| ==> ClaimedHash(records[i]).None?
  }

  function EnvelopeBody(s: Suite, record: Record): Record {
    map[
      Kind := Fixed(EnvelopeKind),
      Field.SourceRecordHash := Str(HexSha(s, s.jcs(record))),
      Field.Payload := Obj(record)]
  }

  function Envelopes(s: Suite, records: seq<Record>): (out: seq<Record>)
    ensures |out| == |records|
  {
    if records == [] then []
    else
      var front := Envelopes(s, records[..|records| - 1]);
      front + [ChainEntry(s, front, EnvelopeBody(s, records[|records| - 1]))]
  }

  /** Reads the wrapped records back out of an exported ledger. */
  function Payloads(envelopes: seq<Record>): seq<Json> {
    seq(|envelopes|, i requires 0 <= i < |envelopes| => Get(envelopes[i], Field.Payload))
  }

  function AsJson(records: seq<Record>): seq<Json> {
    seq(|records|, i requires 0 <= i < |records| => Obj(records[i]))
  }

  /** Every envelope names the hash of the canonical bytes of the record it wraps. */
  predicate NamesSources(s: Suite, envelopes: seq<Record>, records: seq<Record>) {
    && |envelopes| == |records|
    && forall i :: 0 <= i < |records| ==> Get(envelopes[i], Field.SourceRecordHash) == Str(HexSha(s, s.jcs(records[i])))
  }

  /** Wrapping legacy records gives a chain from which they can be read back, with the
      hash of each record beside it. */
  lemma {:induction false} EnvelopesRoundTrip(s: Suite, records: seq<Record>)
    ensures WrittenChain(s, Envelopes(s, records))
    ensures Payloads(Envelopes(s, records)) == AsJson(records)
    ensures NamesSources(s, Envelopes(s, records), records)
  {
    if records != [] {
      var prefix, last := records[..|records| - 1], records[|records| - 1];
      EnvelopesRoundTrip(s, prefix);
      OneMoreEnvelope(s, Envelopes(s, prefix), prefix, last);
      assert records == prefix + [last];
    }
  }

  lemma OneMoreEnvelope(s: Suite, front: seq<Record>, prefix: seq<Record>, last: Record)
    requires WrittenChain(s, front) && Payloads(front) == AsJson(prefix) && NamesSources(s, front, prefix)
    ensures
      var out := front + [ChainEntry(s, front, EnvelopeBody(s, last))];
      WrittenChain(s, out) && Payloads(out) == AsJson(prefix + [last]) && NamesSources(s, out, prefix + [last])
  {
    var entry := ChainEntry(s, front, EnvelopeBody(s, last));
    ChainEntryFields(s, front, EnvelopeBody(s, last));
    ExtendChain(s, front, entry);
    assert Payloads(front + [entry]) == Payloads(front) + [Get(entry, Field.Payload)];
    assert AsJson(prefix + [last]) == AsJson(prefix) + [Obj(last)];
  }

  /** `_write_legacy_envelopes`: `previousHash` is threaded from line to line. */
  method WriteLegacyEnvelopes(s: Suite, records: seq<Record>) returns (envelopes: seq<Record>)
    ensures envelopes == Envelopes(s, records)
  {
    envelopes := [];
    var previousHash := GENESIS;
    for i := 0 to |records|
      invariant envelopes == Envelopes(s, records[..i])
      invariant Str(previousHash) == LastLink(envelopes)
    {
      var envelope := ChainBody(i + 1, Str(previousHash), EnvelopeBody(s, records[i]));
      assert records[..i + 1][..i] == records[..i];
      previousHash := DigestEntry(s, envelope);
      envelopes := envelopes + [envelope[EntryHash := Str(previousHash)]];
    }
    assert records[..|records|] == records;
  }

  datatype ExportError = RefusingInvalid(errors: seq<Problem>) | VerificationFailed(errors: seq<Problem>)

  /** `export_ledger` on a readable source: the records it leaves at the
      destination, or the reason it raised. */
  method ExportLedger(s: Suite, records: seq<Record>) returns (r: Result<seq<Record>, ExportError>)
    requires s.Valid()
    ensures r.Ok? <==> Linked(s, records) || (records != [] && AllUnhashed(records))
    ensures r.Ok? ==> Linked(s, r.value)
    ensures r.Ok? && Linked(s, records) ==> r.value == records
    ensures r.Ok? && !Linked(s, records) ==> Payloads(r.value) == AsJson(records)
    ensures r.Err? ==> r.error == RefusingInvalid(Problems(s, records))
  {
    var result := VerifyLedger(s, Ok(records));
    var legacy := records != [] && AllUnhashed(records);
    if !result.Valid() && !legacy {
      return Err(RefusingInvalid(result.errors));
    }
    var written := records;
    if legacy {
      assert !LineHolds(s, records, 0);
      EnvelopesRoundTrip(s, records);
      written := WriteLegacyEnvelopes(s, records);
    }
    var exported := VerifyLedger(s, Ok(written));
    if !exported.Valid() {
      return Err(VerificationFailed(exported.errors));
    }
    r := Ok(written);
  }
}
