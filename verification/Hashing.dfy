/**
 JSON records, canonical encodings, SHA-256 digests and Ed25519 signatures, as
 proofrail/crypto.py and proofrail/core.py use them.

 The cryptographic library is a parameter, `Suite`.  Nothing assumes that
 SHA-256 is injective on all inputs (no function of fixed width is): a theorem
 that needs it names the finite set of byte strings that were actually hashed
 and asks only that no two of those collide (`CollisionFree`).
 */
module Hashing {

  type Byte = b: int | 0 <= b < 256
  type Bytes = seq<Byte>

  datatype Option<+T> = None | Some(value: T)

  datatype Result<+T, +E> = Ok(value: T) | Err(error: E)

  /** The keys of JSON objects: one constructor for each key the kernel names
      (`EntryHash` is "entry_hash", and so on), `Other` for any further key. */
  datatype Field =
    | Kind | CreatedAt | Sequence | Payload
    | RecordHash | EntryHash | PreviousHash | SourceRecordHash
    | Signature | Algorithm | KeyId | Value
    | CheckpointId | Ledger | Format | EntryCount | FirstHash | LastHash | MerkleRoot | HashAlgorithm | TreeAlgorithm
    | AnchorProvider | AnchorReference | AnchorSignature | LedgerMerkleRoot | LedgerFirstHash | LedgerLastHash
    | TrustCheckpointHash | TrustCheckpointPresent | SequenceRange | Start | End
    | SubjectDigest | Statement | StatementHash | Signer | PrincipalId | Role | AttestationHashes | Threshold
    | Merged | HeadSha | MergeCommitSha | TenantId | PolicyName | Version | PolicyDigest | Action
    | PermitHash | Nonce | ExecutorId | ExecutingAt | ConsumedAt | Claims
    | Epoch | MonotonicCounter | Roots | ReplayRoot | LedgerCheckpoint | Observation | TrustRoot | PreviousCheckpointHash
    | PermitId | State | IssuedAt | ExpiresAt | Issuer | ApprovalDigest | Effect | Constraints | Trust
    | Identity | Evidence | Policy | ActionType | Repository | PullNumber | ExpectedHeadSha | MergeMethod
    | CheckpointRoot | ObservationRootField | MinimumCheckpointEpoch | EvaluationId
    | DatabaseId | DatabaseInstance | ExpectedSchemaRoot | ExpectedResultSchemaRoot | MigrationDigest | TargetVersion | Sql
    | Owner | Repo | Sha | CommitTitle | CommitMessage
    | ActionDigest | Outcome | EventId
    | Contract | IdempotencyKey | RemoteOperationId | ReceiptStatus | SideEffectConfirmed | RetrySafe | ReceiptEvidence
    | Other(name: string)

  /** Fixed strings of the records the kernel writes, named instead of spelled. */
  datatype Constant =
    | Ed25519Algorithm | HmacAlgorithm | Sha256Algorithm | JsonlFormat | MerkleV1
    | CheckpointKind | AnchorKind | EnvelopeKind
    | StatementKind | QuorumRootKind | ObservationKind | ObservationSubjectKind | PromotionKind | Promote | Rollback
    | RegistryRootKind | IdentityRootKind | TrustCheckpointKind | TrustRootKind | EmptyRootKind
    | PermitKind | MigrationPermitKind | MigrationSourceKind | PermittedState | GithubMerge | DatabaseMigration
    | Proposer | Verifier | Executor | Reconciler | Learner | Governor | Auditor | Admin | Approver | Operator
    | ReceiptContract | SuccessOutcome | FailedOutcome | UnknownOutcome

  /** A JSON value; `Fixed` holds one of the fixed strings, `Str` any other. */
  datatype Json =
    | Null
    | Bool(b: bool)
    | Int(i: int)
    | Str(s: string)
    | Fixed(c: Constant)
    | Arr(items: seq<Json>)
    | Obj(fields: map<Field, Json>)

  /** A JSON object: a ledger line, a permit, an attestation. */
  type Record = map<Field, Json>

  /** A key pair: signing uses its private half, checking its public half. */
  type Key = string

  /** The library functions the program calls. */
  datatype Suite = Suite(
    sha256: Bytes -> Bytes,
    jcs: Record -> Bytes,    // RFC 8785 canonical bytes
    dumps: Record -> Bytes,  // json.dumps with sorted keys
    sign: (Key, Bytes) -> string,
    check: (Key, Bytes, string) -> bool,
    mac: (Key, Bytes) -> string)  // HMAC-SHA256, in hexadecimal
  {
    /** What the library guarantees: fixed digest width, encodings that can be
        read back, and signatures that check. */
    ghost predicate Valid() {
      && (forall x :: |sha256(x)| == 32)
      && (forall a, b :: jcs(a) == jcs(b) ==> a == b)
      && (forall a, b :: dumps(a) == dumps(b) ==> a == b)
      && SignaturesCheck()
    }

    ghost predicate SignaturesCheck() {
      forall k, m :: check(k, m, sign(k, m))
    }
  }

  /** No two of these byte strings have the same SHA-256 digest. */
  ghost predicate CollisionFree(s: Suite, inputs: set<Bytes>) {
    forall x, y :: x in inputs && y in inputs && s.sha256(x) == s.sha256(y) ==> x == y
  }

  // ----- hexadecimal digests

  function HexDigit(n: int): (c: char)
    requires 0 <= n < 16
  {
    "0123456789abcdef"[n]
  }

  function Hex(b: Bytes): (h: string)
    ensures |h| == 2 * |b|
  {
    if b == [] then "" else [HexDigit(b[0] / 16), HexDigit(b[0] % 16)] + Hex(b[1..])
  }

  lemma HexDigitInjective(m: int, n: int)
    requires 0 <= m < 16 && 0 <= n < 16 && HexDigit(m) == HexDigit(n)
    ensures m == n
  {
  }

  lemma {:induction false} HexInjective(a: Bytes, b: Bytes)
    requires Hex(a) == Hex(b)
    ensures a == b
  {
    if a != [] {
      assert |a| == |b|;
      var x, y := Hex(a), Hex(b);
      assert x[0] == HexDigit(a[0] / 16) && x[1] == HexDigit(a[0] % 16);
      assert y[0] == HexDigit(b[0] / 16) && y[1] == HexDigit(b[0] % 16);
      HexDigitInjective(a[0] / 16, b[0] / 16);
      HexDigitInjective(a[0] % 16, b[0] % 16);
      assert x[2..] == Hex(a[1..]) && y[2..] == Hex(b[1..]);
      HexInjective(a[1..], b[1..]);
    }
  }

  function HexSha(s: Suite, input: Bytes): string {
    Hex(s.sha256(input))
  }

  const GENESIS := "GENESIS"

  /** The chain's first link is never the digest of anything. */
  lemma NoDigestIsGenesis(s: Suite, input: Bytes)
    requires s.Valid()
    ensures |HexSha(s, input)| == 64 && HexSha(s, input) != GENESIS
  {
  }

  lemma SameDigestSameInput(s: Suite, inputs: set<Bytes>, x: Bytes, y: Bytes)
    requires CollisionFree(s, inputs) && x in inputs && y in inputs
    requires HexSha(s, x) == HexSha(s, y)
    ensures x == y
  {
    HexInjective(s.sha256(x), s.sha256(y));
  }

  // ----- time

  /** Instants are counted in microseconds, the resolution of the program's clock. */
  const SECOND := 1000000

  // ----- record hashes (proofrail/crypto.py)

  /** What `hash_record` covers. */
  function Content(r: Record): Record {
    r - {RecordHash, Signature}
  }

  function RecordInput(s: Suite, r: Record): Bytes {
    s.jcs(Content(r))
  }

  function HashRecord(s: Suite, r: Record): string {
    HexSha(s, RecordInput(s, r))
  }

  function Get(r: Record, field: Field): (v: Json) {
    if field in r then r[field] else Null
  }

  /** Python's truth value of a JSON value. */
  predicate Truthy(j: Json) {
    match j
    case Null => false
    case Bool(b) => b
    case Int(i) => i != 0
    case Str(s) => s != ""
    case Fixed(_) => true
    case Arr(items) => items != []
    case Obj(fields) => fields != map[]
  }

  function FieldsOf(j: Json): Record {
    if j.Obj? then j.fields else map[]
  }

  function TextOf(j: Json): string {
    if j.Str? then j.s else ""
  }

  /** ASCII whitespace, as Python's `strip` removes it. */
  predicate IsBlank(c: char) {
    c == ' ' || '\t' <= c <= '\r'
  }

  /** What `strip` leaves empty. */
  predicate Blank(text: string) {
    forall i :: 0 <= i < |text| ==> IsBlank(text[i])
  }

  function Text(j: Json): Option<string> {
    if j.Str? then Some(j.s) else None
  }

  // ----- documents (proofrail/core.py)

  function DocumentInput(s: Suite, document: Record): Bytes {
    s.dumps(Unsigned(document))
  }

  /** `digest_document` */
  function DigestDocument(s: Suite, document: Record): string {
    HexSha(s, DocumentInput(s, document))
  }

  function SignDocument(s: Suite, document: Record, secret: Key, keyId: string): Record {
    document[Signature := Obj(map[
      Field.Algorithm := Fixed(HmacAlgorithm),
      Field.KeyId := Str(keyId),
      Field.Value := Str(s.mac(secret, DocumentInput(s, document)))])]
  }

  predicate VerifyDocument(s: Suite, document: Record, secret: Key) {
    && Get(document, Signature).Obj?
    && Get(Get(document, Signature).fields, Field.Algorithm) == Fixed(HmacAlgorithm)
    && Get(Get(document, Signature).fields, Field.Value) == Str(s.mac(secret, DocumentInput(s, document)))
  }

  /** The document carries the HMAC of its other fields under this secret. */
  predicate Sealed(s: Suite, document: Record, secret: Key) {
    && Signature in document && document[Signature].Obj?
    && var signature := document[Signature].fields;
    && Get(signature, Field.Value) == Str(s.mac(secret, s.dumps(document - {Signature})))
    && Get(signature, Field.Algorithm) == Fixed(HmacAlgorithm)
  }

  /** Verification accepts exactly the sealed documents. */
  lemma VerifiedIsSealed(s: Suite, document: Record, secret: Key)
    ensures VerifyDocument(s, document, secret) <==> Sealed(s, document, secret)
  {
  }

  /** A signed document verifies, with the same digest as before it was signed. */
  lemma SignedDocumentVerifies(s: Suite, document: Record, secret: Key, keyId: string)
    ensures VerifyDocument(s, SignDocument(s, document, secret, keyId), secret)
    ensures DigestDocument(s, SignDocument(s, document, secret, keyId)) == DigestDocument(s, document)
  {
    assert Unsigned(SignDocument(s, document, secret, keyId)) == Unsigned(document);
  }

  // ----- signed records (proofrail/crypto.py)

  function Unsigned(r: Record): Record {
    r - {Signature}
  }

  function SignRecord(s: Suite, r: Record, key: Key, keyId: string): Record {
    var body := Unsigned(r);
    var hashed := body[RecordHash := Str(HashRecord(s, body))];
    hashed[Signature := Obj(map[
      Field.Algorithm := Fixed(Ed25519Algorithm),
      Field.KeyId := Str(keyId),
      Field.Value := Str(s.sign(key, s.jcs(hashed)))])]
  }

  predicate VerifySignature(s: Suite, r: Record, key: Key) {
    && Get(r, Signature).Obj?
    && var signature := Get(r, Signature).fields;
    && Get(signature, Field.Algorithm) == Fixed(Ed25519Algorithm)
    && Get(r, RecordHash) == Str(HashRecord(s, r))
    && Get(signature, Field.Value).Str?
    && s.check(key, s.jcs(Unsigned(r)), Get(signature, Field.Value).s)
  }

  /** The content hash and the Ed25519 signature of a record check under this key. */
  predicate Genuine(s: Suite, r: Record, key: Key) {
    && Get(r, RecordHash) == Str(HashRecord(s, r))
    && Get(r, Signature).Obj?
    && var signature := Get(r, Signature).fields;
    && Get(signature, Field.Algorithm) == Fixed(Ed25519Algorithm)
    && Get(signature, Field.Value).Str?
    && s.check(key, s.jcs(Unsigned(r)), Get(signature, Field.Value).s)
  }

  /** Verification accepts exactly the genuine records. */
  lemma VerifiedIsGenuine(s: Suite, r: Record, key: Key)
    ensures VerifySignature(s, r, key) <==> Genuine(s, r, key)
  {
  }

  /** A signed record verifies under its own key, carries the hash of its
      content, and keeps every field of the record that was signed. */
  lemma SignThenVerify(s: Suite, r: Record, key: Key, keyId: string)
    requires s.SignaturesCheck()
    ensures VerifySignature(s, SignRecord(s, r, key, keyId), key)
    ensures Content(SignRecord(s, r, key, keyId)) == Content(r)
    ensures Get(SignRecord(s, r, key, keyId), RecordHash) == Str(HashRecord(s, r))
  {
    var body := Unsigned(r);
    var hashed := body[RecordHash := Str(HashRecord(s, body))];
    var signed := SignRecord(s, r, key, keyId);
    assert Content(body) == Content(r) == Content(signed);
    assert Unsigned(signed) == hashed;
  }

  lemma SignedKeeps(s: Suite, body: Record, key: Key, keyId: string)
    ensures forall f :: f != RecordHash && f != Signature ==> Get(SignRecord(s, body, key, keyId), f) == Get(body, f)
  {
  }

  /** Two verified records with the same record hash agree on everything but
      `signature`: re-signing a record does not make a new one. */
  lemma RecordHashFixesContent(s: Suite, a: Record, b: Record, ka: Key, kb: Key)
    requires s.Valid() && CollisionFree(s, {RecordInput(s, a), RecordInput(s, b)})
    requires VerifySignature(s, a, ka) && VerifySignature(s, b, kb)
    ensures Get(a, RecordHash) == Get(b, RecordHash) <==> Unsigned(a) == Unsigned(b)
  {
    if Get(a, RecordHash) == Get(b, RecordHash) {
      SameDigestSameInput(s, {RecordInput(s, a), RecordInput(s, b)}, RecordInput(s, a), RecordInput(s, b));
      assert Content(a) == Content(b);
      assert Unsigned(a) == Content(a)[RecordHash := a[RecordHash]];
      assert Unsigned(b) == Content(b)[RecordHash := b[RecordHash]];
    }
    if Unsigned(a) == Unsigned(b) {
      assert Content(a) == Unsigned(a) - {RecordHash};
      assert Content(b) == Unsigned(b) - {RecordHash};
    }
  }
}
