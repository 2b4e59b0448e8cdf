/**
 The replay registry's root and the signed trust checkpoints of
 proofrail/trust.py.
 */
module TrustState {
  import opened Hashing
  import opened Sorting

  // ----- the replay registry

  /** A row of `permit_claims`; its primary key, the permit hash, is the map key. */
  datatype Claim = Claim(nonce: string, executorId: string, at: string)

  /** The table `permit_claims`. */
  type Registry = map<string, Claim>

  predicate NoncesUnique(registry: Registry) {
    forall g, h :: g in registry && h in registry && registry[g].nonce == registry[h].nonce ==> g == h
  }

  predicate NonceFree(registry: Registry, nonce: string) {
    forall h :: h in registry ==> registry[h].nonce != nonce
  }

  function Row(permitHash: string, claim: Claim): Json {
    Obj(map[
      PermitHash := Str(permitHash),
      Nonce := Str(claim.nonce),
      ExecutorId := Str(claim.executorId),
      ExecutingAt := Str(claim.at),
      ConsumedAt := Str(claim.at)])
  }

  function Rows(registry: Registry): seq<Json> {
    var keys := InOrder(registry.Keys);
    seq(|keys|, i requires 0 <= i < |keys| =>
      assert keys[i] in Elements(keys);
      Row(keys[i], registry[keys[i]]))
  }

  function RegistryInput(s: Suite, registry: Registry): Bytes {
    RecordInput(s, map[Kind := Fixed(RegistryRootKind), Claims := Arr(Rows(registry))])
  }

  /** `replay_registry_root` */
  function RegistryRoot(s: Suite, registry: Registry): string {
    HexSha(s, RegistryInput(s, registry))
  }

  /** The rows list exactly the claims, in the order of their permit hashes, each with
      its nonce, executor and time, which the program writes as both timestamps. */
  lemma RowsListTheClaims(registry: Registry) returns (hashes: seq<string>)
    ensures Sorted(hashes) && Distinct(hashes) && Elements(hashes) == registry.Keys && |Rows(registry)| == |hashes|
    ensures forall i :: 0 <= i < |hashes| ==>
      && hashes[i] in registry
      && var claim := registry[hashes[i]];
      && Rows(registry)[i] == Obj(map[
           PermitHash := Str(hashes[i]), Nonce := Str(claim.nonce), ExecutorId := Str(claim.executorId),
           ExecutingAt := Str(claim.at), ConsumedAt := Str(claim.at)])
  {
    hashes := InOrder(registry.Keys);
    forall i | 0 <= i < |hashes| ensures hashes[i] in registry {
      assert hashes[i] in Elements(hashes);
    }
  }

  lemma RowInjective(h: string, c: Claim, g: string, d: Claim)
    requires Row(h, c) == Row(g, d)
    ensures h == g && c == d
  {
    assert Row(h, c).fields[PermitHash] == Row(g, d).fields[PermitHash];
    assert Row(h, c).fields[Nonce] == Row(g, d).fields[Nonce];
    assert Row(h, c).fields[ExecutorId] == Row(g, d).fields[ExecutorId];
    assert Row(h, c).fields[ConsumedAt] == Row(g, d).fields[ConsumedAt];
  }

  lemma RowsContain(registry: Registry, other: Registry, h: string)
    requires Rows(registry) == Rows(other) && h in registry
    ensures h in other && other[h] == registry[h]
  {
    var keys, others := InOrder(registry.Keys), InOrder(other.Keys);
    assert |keys| == |Rows(registry)| == |Rows(other)| == |others|;
    assert h in Elements(keys);
    var i :| 0 <= i < |keys| && keys[i] == h;
    assert others[i] in Elements(others);
    assert Rows(registry)[i] == Rows(other)[i];
    RowInjective(h, registry[h], others[i], other[others[i]]);
  }

  lemma SameRootSameRegistry(s: Suite, inputs: set<Bytes>, a: Registry, b: Registry)
    requires s.Valid() && CollisionFree(s, inputs) && RegistryInput(s, a) in inputs && RegistryInput(s, b) in inputs
    requires RegistryRoot(s, a) == RegistryRoot(s, b)
    ensures a == b
  {
    SameDigestSameInput(s, inputs, RegistryInput(s, a), RegistryInput(s, b));
    var x: Record := map[Kind := Fixed(RegistryRootKind), Claims := Arr(Rows(a))];
    var y: Record := map[Kind := Fixed(RegistryRootKind), Claims := Arr(Rows(b))];
    assert Content(x) == x && Content(y) == y;
    assert x[Claims] == y[Claims];
    forall h ensures h in a <==> h in b {
      if h in a { RowsContain(a, b, h); }
      if h in b { RowsContain(b, a, h); }
    }
    forall h | h in a ensures a[h] == b[h] {
      RowsContain(a, b, h);
    }
    assert a == b;
  }

  // ----- trust checkpoints

  function TrustRootOf(s: Suite, roots: Record): string {
    HashRecord(s, map[Kind := Fixed(TrustRootKind), Roots := Obj(roots)])
  }

  /** The roots a checkpoint commits to. */
  datatype CheckpointRoots = CheckpointRoots(replay: string, ledger: Json, observation: Json)

  function RootsRecord(roots: CheckpointRoots): Record {
    map[ReplayRoot := Str(roots.replay), LedgerCheckpoint := roots.ledger, Observation := roots.observation]
  }

  function TrustBody(roots: Record, trustRoot: string, epoch: int, counter: int, previous: Json): Record {
    map[
      Kind := Fixed(TrustCheckpointKind),
      Epoch := Int(epoch),
      MonotonicCounter := Int(counter),
      Roots := Obj(roots),
      TrustRoot := Str(trustRoot),
      PreviousCheckpointHash := previous]
  }

  /** The record `create_trust_checkpoint` signs, and its signature. */
  function TrustCheckpoint(s: Suite, roots: CheckpointRoots, epoch: int, counter: int, previous: Json, key: Key, keyId: string): Record {
    SignRecord(s, TrustBody(RootsRecord(roots), TrustRootOf(s, RootsRecord(roots)), epoch, counter, previous), key, keyId)
  }

  function RootField(checkpoint: Record, field: Field): Json {
    if Get(checkpoint, Roots).Obj? then Get(Get(checkpoint, Roots).fields, field) else Null
  }

  /** `verify_trust_checkpoint`: is the list of errors empty? */
  predicate TrustCheckpointValid(s: Suite, checkpoint: Record, registry: Registry, key: Key) {
    && VerifySignature(s, checkpoint, key)
    && Get(checkpoint, Kind) == Fixed(TrustCheckpointKind)
    && Get(checkpoint, Roots).Obj?
    && Get(checkpoint, TrustRoot) == Str(TrustRootOf(s, Get(checkpoint, Roots).fields))
    && RootField(checkpoint, ReplayRoot) == Str(RegistryRoot(s, registry))
  }

  /** Does the list of errors contain `replay_root_mismatch`? */
  predicate ReplayRootMismatch(s: Suite, checkpoint: Record, registry: Registry) {
    Get(checkpoint, Roots).Obj? && RootField(checkpoint, ReplayRoot) != Str(RegistryRoot(s, registry))
  }

  /** The fields of a created checkpoint. */
  lemma CheckpointFields(s: Suite, roots: CheckpointRoots, epoch: int, counter: int, previous: Json, key: Key, keyId: string)
    requires s.Valid()
    ensures
      var c := TrustCheckpoint(s, roots, epoch, counter, previous, key, keyId);
      && VerifySignature(s, c, key)
      && Get(c, Kind) == Fixed(TrustCheckpointKind)
      && Get(c, Epoch) == Int(epoch)
      && Get(c, MonotonicCounter) == Int(counter)
      && Get(c, Roots) == Obj(RootsRecord(roots))
      && Get(c, TrustRoot) == Str(TrustRootOf(s, RootsRecord(roots)))
      && Get(c, PreviousCheckpointHash) == previous
      && Get(c, RecordHash).Str?
  {
    var trustRoot := TrustRootOf(s, RootsRecord(roots));
    BodyFields(RootsRecord(roots), trustRoot, epoch, counter, previous);
    var body := TrustBody(RootsRecord(roots), trustRoot, epoch, counter, previous);
    SignThenVerify(s, body, key, keyId);
    SignedKeeps(s, body, key, keyId);
  }

  lemma BodyFields(roots: Record, trustRoot: string, epoch: int, counter: int, previous: Json)
    ensures
      var c := TrustBody(roots, trustRoot, epoch, counter, previous);
      && Get(c, Kind) == Fixed(TrustCheckpointKind)
      && Get(c, Epoch) == Int(epoch)
      && Get(c, MonotonicCounter) == Int(counter)
      && Get(c, Roots) == Obj(roots)
      && Get(c, TrustRoot) == Str(trustRoot)
      && Get(c, PreviousCheckpointHash) == previous
  {
  }

  /** A signed checkpoint with this replay root, epoch and counter. */
  predicate CheckpointIs(s: Suite, c: Record, replay: string, epoch: int, counter: int, key: Key) {
    && VerifySignature(s, c, key)
    && Get(c, Kind) == Fixed(TrustCheckpointKind)
    && Get(c, Epoch) == Int(epoch)
    && Get(c, MonotonicCounter) == Int(counter)
    && Get(c, Roots).Obj?
    && Get(c, TrustRoot) == Str(TrustRootOf(s, Get(c, Roots).fields))
    && RootField(c, ReplayRoot) == Str(replay)
  }

  lemma CreatedCheckpointIs(s: Suite, roots: CheckpointRoots, epoch: int, counter: int, previous: Json, key: Key, keyId: string)
    requires s.Valid()
    ensures
      var c := TrustCheckpoint(s, roots, epoch, counter, previous, key, keyId);
      CheckpointIs(s, c, roots.replay, epoch, counter, key) && Get(c, PreviousCheckpointHash) == previous
  {
    CheckpointFields(s, roots, epoch, counter, previous, key, keyId);
    assert Get(RootsRecord(roots), ReplayRoot) == Str(roots.replay);
  }

  datatype CheckpointError = InvalidDigest(field: Field) | NegativeEpoch | NegativeCounter

  predicate DigestJson(hexInt: string -> bool, j: Json) {
    j.Str? && |j.s| == 64 && hexInt(j.s)
  }

  /** `create_trust_checkpoint`, with its checks in order. */
  function CreateTrustCheckpoint(hexInt: string -> bool, s: Suite, roots: CheckpointRoots, epoch: int, counter: int, previous: Json,
                                 key: Key, keyId: string): Result<Record, CheckpointError> {
    if !DigestJson(hexInt, Str(roots.replay)) then Err(InvalidDigest(ReplayRoot))
    else if !DigestJson(hexInt, roots.ledger) then Err(InvalidDigest(LedgerCheckpoint))
    else if !DigestJson(hexInt, roots.observation) then Err(InvalidDigest(Observation))
    else if epoch < 0 then Err(NegativeEpoch)
    else if counter < 0 then Err(NegativeCounter)
    else if previous != Null && !DigestJson(hexInt, previous) then Err(InvalidDigest(PreviousCheckpointHash))
    else Ok(TrustCheckpoint(s, roots, epoch, counter, previous, key, keyId))
  }

  /** A trust checkpoint is created exactly from three digests, counts that are not
      negative, and no predecessor or the digest of one; it then verifies and
      carries them. */
  lemma TrustCheckpointIsCreated(hexInt: string -> bool, s: Suite, roots: CheckpointRoots, epoch: int, counter: int, previous: Json,
                                 key: Key, keyId: string)
    requires s.Valid()
    ensures
      var r := CreateTrustCheckpoint(hexInt, s, roots, epoch, counter, previous, key, keyId);
      && (r.Ok? <==>
            && |roots.replay| == 64 && hexInt(roots.replay)
            && roots.ledger.Str? && |roots.ledger.s| == 64 && hexInt(roots.ledger.s)
            && roots.observation.Str? && |roots.observation.s| == 64 && hexInt(roots.observation.s)
            && epoch >= 0 && counter >= 0
            && (previous == Null || (previous.Str? && |previous.s| == 64 && hexInt(previous.s))))
      && (r.Ok? ==>
            && CheckpointIs(s, r.value, roots.replay, epoch, counter, key)
            && RootField(r.value, LedgerCheckpoint) == roots.ledger && RootField(r.value, Observation) == roots.observation
            && Get(r.value, PreviousCheckpointHash) == previous)
  {
    hide TrustCheckpoint, TrustRootOf, VerifySignature;
    CreatedCheckpointIs(s, roots, epoch, counter, previous, key, keyId);
    CheckpointFields(s, roots, epoch, counter, previous, key, keyId);
  }

  /** A created checkpoint is valid for exactly one registry state. */
  lemma CheckpointFitsItsRegistryOnly(s: Suite, registry: Registry, other: Registry, ledger: Json, observation: Json,
                                      epoch: int, counter: int, previous: Json, key: Key, keyId: string)
    requires s.Valid() && CollisionFree(s, {RegistryInput(s, registry), RegistryInput(s, other)})
    ensures
      var roots := CheckpointRoots(RegistryRoot(s, registry), ledger, observation);
      TrustCheckpointValid(s, TrustCheckpoint(s, roots, epoch, counter, previous, key, keyId), other, key)
      <==> other == registry
  {
    var roots := CheckpointRoots(RegistryRoot(s, registry), ledger, observation);
    CheckpointFields(s, roots, epoch, counter, previous, key, keyId);
    if RegistryRoot(s, registry) == RegistryRoot(s, other) {
      SameRootSameRegistry(s, {RegistryInput(s, registry), RegistryInput(s, other)}, registry, other);
    }
  }
}
