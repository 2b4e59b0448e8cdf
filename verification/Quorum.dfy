/**
 `verify_quorum` of proofrail/quorum.py: M-of-N agreement among trusted signers
 with equivocation exclusion.
 */
module Quorum {
  import opened Hashing
  import opened Sorting

  datatype Trusted = Trusted(role: string, key: Key)

  /** The keyword arguments of `verify_quorum`; `show` is Python's `str`. */
  datatype Panel = Panel(
    signers: map<string, Trusted>,
    threshold: int,
    kind: Json,
    subject: Json,
    show: Json -> string)

  // ----- one attestation

  function SignerOf(p: Panel, a: Record): string {
    p.show(Get(FieldsOf(Get(a, Signer)), PrincipalId))
  }

  function HashOf(a: Record): string {
    TextOf(Get(a, StatementHash))
  }

  function StatementOf(a: Record): Record {
    FieldsOf(Get(a, Statement))
  }

  function StatementInput(s: Suite, statement: Record): Bytes {
    RecordInput(s, map[Kind := Fixed(StatementKind), Statement := Obj(statement)])
  }

  function StatementDigest(s: Suite, statement: Record): string {
    HexSha(s, StatementInput(s, statement))
  }

  function AttestationRecord(s: Suite, kind: Json, subject: Json, statement: Record, signerId: string, role: string): Record {
    map[
      Kind := kind,
      SubjectDigest := subject,
      Statement := Obj(statement),
      StatementHash := Str(StatementDigest(s, statement)),
      Signer := Obj(map[PrincipalId := Str(signerId), Role := Str(role)])]
  }

  /** `sign_attestation`, for a non-blank identity and a valid subject digest. */
  function SignAttestation(s: Suite, kind: Json, subject: Json, statement: Record, signerId: string, role: string,
                           key: Key, keyId: string): Record {
    SignRecord(s, AttestationRecord(s, kind, subject, statement, signerId, role), key, keyId)
  }

  /** The checks an attestation passes to be counted, in the loop's order. */
  predicate Counts(s: Suite, p: Panel, a: Record) {
    && Get(a, Signer).Obj?
    && SignerOf(p, a) in p.signers
    && var trusted := p.signers[SignerOf(p, a)];
    && Get(FieldsOf(Get(a, Signer)), Role) == Str(trusted.role)
    && Get(a, Kind) == p.kind
    && Get(a, SubjectDigest) == p.subject
    && VerifySignature(s, a, trusted.key)
    && Get(a, StatementHash).Str?
    && Get(a, Statement).Obj?
    && HashOf(a) == StatementDigest(s, StatementOf(a))
  }

  predicate AttestationIs(a: Record, kind: Json, subject: Json, statement: Record, digest: string, signerId: string, role: string) {
    && Get(a, Kind) == kind && Get(a, SubjectDigest) == subject && Get(a, Statement) == Obj(statement)
    && Get(a, StatementHash) == Str(digest)
    && Get(a, Signer) == Obj(map[PrincipalId := Str(signerId), Role := Str(role)])
  }

  lemma AttestationRecordIs(s: Suite, kind: Json, subject: Json, statement: Record, signerId: string, role: string)
    ensures AttestationIs(AttestationRecord(s, kind, subject, statement, signerId, role), kind, subject, statement,
                          StatementDigest(s, statement), signerId, role)
  {
    hide StatementDigest;
  }

  lemma SameAttestation(a: Record, b: Record, kind: Json, subject: Json, statement: Record, digest: string, signerId: string,
                        role: string)
    requires AttestationIs(b, kind, subject, statement, digest, signerId, role)
    requires forall f :: f != RecordHash && f != Signature ==> Get(a, f) == Get(b, f)
    ensures AttestationIs(a, kind, subject, statement, digest, signerId, role)
  {
    hide Get;
  }

  lemma AttestationCountsIff(s: Suite, p: Panel, a: Record, kind: Json, subject: Json, statement: Record, signerId: string, role: string)
    requires AttestationIs(a, kind, subject, statement, StatementDigest(s, statement), signerId, role)
    requires p.show(Str(signerId)) == signerId && signerId in p.signers && VerifySignature(s, a, p.signers[signerId].key)
    ensures Counts(s, p, a) <==> role == p.signers[signerId].role && kind == p.kind && subject == p.subject
    ensures SignerOf(p, a) == signerId && StatementOf(a) == statement && HashOf(a) == StatementDigest(s, statement)
  {
    hide VerifySignature, StatementDigest;
  }

  lemma SignedAttestationIs(s: Suite, kind: Json, subject: Json, statement: Record, signerId: string, role: string, key: Key,
                            keyId: string)
    requires s.SignaturesCheck()
    ensures
      var a := SignAttestation(s, kind, subject, statement, signerId, role, key, keyId);
      VerifySignature(s, a, key) && AttestationIs(a, kind, subject, statement, StatementDigest(s, statement), signerId, role)
  {
    hide VerifySignature, SignRecord, StatementDigest, AttestationRecord, AttestationIs;
    var body := AttestationRecord(s, kind, subject, statement, signerId, role);
    SignThenVerify(s, body, key, keyId);
    SignedKeeps(s, body, key, keyId);
    AttestationRecordIs(s, kind, subject, statement, signerId, role);
    SameAttestation(SignRecord(s, body, key, keyId), body, kind, subject, statement, StatementDigest(s, statement), signerId, role);
  }

  /** An attestation is counted for the signer it was made for and says the
      statement it was made of, exactly when that signer is trusted with that role
      and the panel asks for this kind and subject. */
  lemma SignedAttestationCounts(s: Suite, p: Panel, kind: Json, subject: Json, statement: Record, signerId: string, role: string,
                                keyId: string)
    requires s.SignaturesCheck() && p.show(Str(signerId)) == signerId && signerId in p.signers
    ensures
      var a := SignAttestation(s, kind, subject, statement, signerId, role, p.signers[signerId].key, keyId);
      && (Counts(s, p, a) <==> role == p.signers[signerId].role && kind == p.kind && subject == p.subject)
      && SignerOf(p, a) == signerId && StatementOf(a) == statement && HashOf(a) == StatementDigest(s, statement)
  {
    hide Counts, SignAttestation, VerifySignature, AttestationIs;
    var key := p.signers[signerId].key;
    SignedAttestationIs(s, kind, subject, statement, signerId, role, key, keyId);
    AttestationCountsIff(s, p, SignAttestation(s, kind, subject, statement, signerId, role, key, keyId),
                         kind, subject, statement, signerId, role);
  }

  // ----- the set-level specification

  function Counted(s: Suite, p: Panel, attestations: seq<Record>): set<Record> {
    set a | a in attestations && Counts(s, p, a)
  }

  function SaidBy(p: Panel, counted: set<Record>): set<(string, string)> {
    set a | a in counted :: (SignerOf(p, a), HashOf(a))
  }

  /** Who said what: all that the verdict depends on. */
  function Said(s: Suite, p: Panel, attestations: seq<Record>): set<(string, string)> {
    SaidBy(p, Counted(s, p, attestations))
  }

  function Hashes(said: set<(string, string)>, signer: string): set<string> {
    set x | x in said && x.0 == signer :: x.1
  }

  function Speakers(said: set<(string, string)>): set<string> {
    set x | x in said :: x.0
  }

  function Equivocal(said: set<(string, string)>): set<string> {
    set signer | signer in Speakers(said) && exists x, y :: x in said && y in said && x.0 == y.0 == signer && x.1 != y.1
  }

  /** The signers whose one and only statement has hash `h`. */
  function Voters(said: set<(string, string)>, h: string): set<string> {
    set signer | signer in Speakers(said) && signer !in Equivocal(said) && (signer, h) in said
  }

  function TextList(l: seq<string>): Json {
    Arr(seq(|l|, i requires 0 <= i < |l| => Str(l[i])))
  }

  lemma {:induction false} TextListInjective(a: seq<string>, b: seq<string>)
    requires TextList(a) == TextList(b)
    ensures a == b
  {
    assert |a| == |b|;
    assert forall i :: 0 <= i < |a| ==> TextList(a).items[i] == Str(a[i]) && TextList(b).items[i] == Str(b[i]);
  }

  function CountedHashes(s: Suite, p: Panel, attestations: seq<Record>): seq<string> {
    if attestations == [] then []
    else
      var a := attestations[|attestations| - 1];
      CountedHashes(s, p, attestations[..|attestations| - 1])
      + if Counts(s, p, a) then [TextOf(Get(a, RecordHash))] else []
  }

  function ObservationRoot(s: Suite, hashes: seq<string>, threshold: int): string {
    HashRecord(s, ObservationRecord(hashes, threshold))
  }

  function ObservationRecord(hashes: seq<string>, threshold: int): Record {
    map[
      Kind := Fixed(QuorumRootKind),
      AttestationHashes := TextList(Sort(hashes)),
      Threshold := Int(threshold)]
  }

  // ----- the order of equally large groups

  function RecordHashOf(a: Record): string {
    TextOf(Get(a, RecordHash))
  }

  predicate CountsFor(s: Suite, p: Panel, a: Record, signer: string) {
    Counts(s, p, a) && SignerOf(p, a) == signer
  }

  /** `signer_attestations[0]`: the signer's first counted attestation. */
  function FirstOf(s: Suite, p: Panel, attestations: seq<Record>, signer: string): (r: Option<Record>)
    ensures r.Some? <==> exists a :: a in attestations && CountsFor(s, p, a, signer)
    ensures r.Some? ==> r.value in attestations && CountsFor(s, p, r.value, signer)
  {
    if attestations == [] then None
    else
      var m := |attestations| - 1;
      assert attestations == attestations[..m] + [attestations[m]];
      var front := FirstOf(s, p, attestations[..m], signer);
      if front.Some? then front
      else if CountsFor(s, p, attestations[m], signer) then Some(attestations[m]) else None
  }

  /** For each signer the record hash of the attestation that joins a group. */
  function Chosen(s: Suite, p: Panel, attestations: seq<Record>): map<string, string> {
    map signer | signer in Speakers(Said(s, p, attestations)) ::
      var first := FirstOf(s, p, attestations, signer);
      if first.Some? then RecordHashOf(first.value) else ""
  }

  function Lookup(choice: map<string, string>, signer: string): string {
    if signer in choice then choice[signer] else ""
  }

  function HashList(signers: seq<string>, choice: map<string, string>): (l: seq<string>)
    ensures |l| == |signers|
  {
    seq(|signers|, i requires 0 <= i < |signers| => Lookup(choice, signers[i]))
  }

  /** The second part of the key that ranks groups: their sorted record hashes. */
  function Rank(voters: set<string>, choice: map<string, string>): (k: seq<string>)
    ensures |k| == |voters|
  {
    DistinctMultiset(InOrder(voters));
    Sort(HashList(InOrder(voters), choice))
  }

  /** No group of the same size ranks above that of `h`. */
  ghost predicate Leads(said: set<(string, string)>, choice: map<string, string>, h: string) {
    forall g :: |Voters(said, g)| == |Voters(said, h)| ==>
      !ListLess(Rank(Voters(said, h), choice), Rank(Voters(said, g), choice))
  }

  datatype Verdict = Verdict(
    met: bool,
    threshold: int,
    accepted: nat,
    signers: seq<string>,
    statement: Option<Record>,
    observationRoot: string,
    conflict: bool,
    equivocal: seq<string>)

  /** The verdict reports the voters of `h`, the leading group of its size, and
      their statement when met. */
  ghost predicate ReportsGroup(s: Suite, p: Panel, attestations: seq<Record>, v: Verdict, h: string) {
    && Elements(v.signers) == Voters(Said(s, p, attestations), h)
    && Leads(Said(s, p, attestations), Chosen(s, p, attestations), h)
    && (v.met ==> v.statement.Some? && CarriesStatement(s, p, attestations, h, v.statement.value))
  }

  /** What a verdict on a list of attestations says.  The reported group is one of
      the largest and, among these, has the greatest list of record hashes. */
  ghost predicate IsVerdict(s: Suite, p: Panel, attestations: seq<Record>, v: Verdict) {
    var said := Said(s, p, attestations);
    && v.threshold == p.threshold
    && (v.conflict <==> exists h, g :: h != g && |Voters(said, h)| >= p.threshold && |Voters(said, g)| >= p.threshold)
    && (forall h :: |Voters(said, h)| <= v.accepted)
    && v.accepted == |v.signers| && Distinct(v.signers) && Sorted(v.signers)
    && (exists h :: ReportsGroup(s, p, attestations, v, h))
    && (v.met <==> v.accepted >= p.threshold && !v.conflict)
    && (!v.met ==> v.statement == None)
    && v.observationRoot == ObservationRoot(s, CountedHashes(s, p, attestations), p.threshold)
    && Elements(v.equivocal) == Equivocal(said) && Distinct(v.equivocal) && Sorted(v.equivocal)
  }

  /** Some counted attestation carries this statement under this hash. */
  ghost predicate CarriesStatement(s: Suite, p: Panel, attestations: seq<Record>, h: string, statement: Record) {
    exists a :: a in attestations && Counts(s, p, a) && HashOf(a) == h && StatementOf(a) == statement
  }

  // ----- counting facts

  lemma VotersAreTrusted(s: Suite, p: Panel, attestations: seq<Record>, h: string)
    ensures Voters(Said(s, p, attestations), h) <= p.signers.Keys
  {
  }

  lemma SubsetCardinality<T>(a: set<T>, b: set<T>)
    requires a <= b
    ensures |a| <= |b|
  {
    assert b == a + (b - a);
  }

  /** Different statements have disjoint voters. */
  lemma VotersAreDisjoint(said: set<(string, string)>, h: string, g: string)
    requires h != g
    ensures Voters(said, h) !! Voters(said, g)
  {
    forall signer | signer in Voters(said, h) && signer in Voters(said, g) ensures false {
      assert (signer, h) in said && (signer, g) in said;
    }
  }

  /** Two statements can both reach the threshold only below a majority. */
  lemma ConflictNeedsLowThreshold(s: Suite, p: Panel, attestations: seq<Record>, v: Verdict)
    requires IsVerdict(s, p, attestations, v) && v.conflict
    ensures 2 * p.threshold <= |p.signers|
  {
    var said := Said(s, p, attestations);
    var h, g :| h != g && |Voters(said, h)| >= p.threshold && |Voters(said, g)| >= p.threshold;
    VotersAreDisjoint(said, h, g);
    VotersAreTrusted(s, p, attestations, h);
    VotersAreTrusted(s, p, attestations, g);
    SubsetCardinality(Voters(said, h) + Voters(said, g), p.signers.Keys);
    assert |Voters(said, h) + Voters(said, g)| == |Voters(said, h)| + |Voters(said, g)|;
  }

  /** This signer has a counted attestation carrying this statement. */
  ghost predicate Signed(s: Suite, p: Panel, attestations: seq<Record>, signer: string, statement: Record) {
    exists a :: a in attestations && Counts(s, p, a) && SignerOf(p, a) == signer && StatementOf(a) == statement
  }

  /** A met quorum is at least `threshold` distinct trusted signers, each with a
      counted attestation that carries the reported statement itself. */
  lemma MetSignersSignedTheStatement(s: Suite, p: Panel, attestations: seq<Record>, v: Verdict)
    requires s.Valid() && CollisionFree(s, StatementInputs(s, attestations))
    requires IsVerdict(s, p, attestations, v) && v.met
    ensures |Elements(v.signers)| == v.accepted >= p.threshold && Elements(v.signers) <= p.signers.Keys
    ensures v.statement.Some?
    ensures forall signer :: signer in v.signers ==> Signed(s, p, attestations, signer, v.statement.value)
  {
    var h :| ReportsGroup(s, p, attestations, v, h);
    DistinctMultiset(v.signers);
    VotersAreTrusted(s, p, attestations, h);
    forall signer | signer in v.signers ensures Signed(s, p, attestations, signer, v.statement.value) {
      assert signer in Elements(v.signers);
      SignerOfGroup(s, p, attestations, signer, h, v.statement.value);
    }
  }

  lemma SignerOfGroup(s: Suite, p: Panel, attestations: seq<Record>, signer: string, h: string, statement: Record)
    requires s.Valid() && CollisionFree(s, StatementInputs(s, attestations))
    requires signer in Voters(Said(s, p, attestations), h) && CarriesStatement(s, p, attestations, h, statement)
    ensures Signed(s, p, attestations, signer, statement)
  {
    var a :| a in Counted(s, p, attestations) && (SignerOf(p, a), HashOf(a)) == (signer, h);
    var b :| b in attestations && Counts(s, p, b) && HashOf(b) == h && StatementOf(b) == statement;
    SameHashSameStatement(s, StatementInputs(s, attestations), StatementOf(a), StatementOf(b));
  }

  // ----- the verdict does not depend on order or repetition

  /** The statement hashes of these attestations, as byte strings hashed. */
  function StatementInputs(s: Suite, attestations: seq<Record>): set<Bytes> {
    set a | a in attestations :: StatementInput(s, StatementOf(a))
  }

  lemma SameHashSameStatement(s: Suite, inputs: set<Bytes>, a: Record, b: Record)
    requires s.Valid() && CollisionFree(s, inputs)
    requires StatementInput(s, a) in inputs && StatementInput(s, b) in inputs
    requires StatementDigest(s, a) == StatementDigest(s, b)
    ensures a == b
  {
    SameDigestSameInput(s, inputs, StatementInput(s, a), StatementInput(s, b));
    var x: Record := map[Kind := Fixed(StatementKind), Statement := Obj(a)];
    var y: Record := map[Kind := Fixed(StatementKind), Statement := Obj(b)];
    assert Content(x) == x && Content(y) == y;
    assert x[Statement] == y[Statement];
  }

  /** A met verdict reports the only group that reaches the threshold. */
  lemma MetGroupIsUnique(s: Suite, p: Panel, attestations: seq<Record>, v: Verdict, h: string, g: string)
    requires IsVerdict(s, p, attestations, v) && v.met
    requires |Voters(Said(s, p, attestations), h)| >= p.threshold && |Voters(Said(s, p, attestations), g)| >= p.threshold
    ensures h == g
  {
  }

  lemma GroupSize(s: Suite, p: Panel, attestations: seq<Record>, v: Verdict, h: string)
    requires IsVerdict(s, p, attestations, v) && ReportsGroup(s, p, attestations, v, h)
    ensures |Voters(Said(s, p, attestations), h)| == v.accepted
  {
    DistinctMultiset(v.signers);
  }

  lemma SameSaidSameMeasures(s: Suite, p: Panel, a: seq<Record>, b: seq<Record>, va: Verdict, vb: Verdict)
    requires Said(s, p, a) == Said(s, p, b) && IsVerdict(s, p, a, va) && IsVerdict(s, p, b, vb)
    ensures va.conflict == vb.conflict && va.accepted == vb.accepted && va.met == vb.met
    ensures va.equivocal == vb.equivocal
  {
    hide Leads, CarriesStatement, Said, Chosen, Equivocal, ObservationRoot, CountedHashes;
    var h :| ReportsGroup(s, p, a, va, h);
    var g :| ReportsGroup(s, p, b, vb, g);
    GroupSize(s, p, a, va, h);
    GroupSize(s, p, b, vb, g);
    SortedSetIsUnique(va.equivocal, vb.equivocal);
  }

  lemma SameMembersSaySame(s: Suite, p: Panel, a: seq<Record>, b: seq<Record>)
    requires Elements(a) == Elements(b)
    ensures Said(s, p, a) == Said(s, p, b) && StatementInputs(s, a) == StatementInputs(s, b)
  {
    forall x ensures x in a <==> x in b {
      assert x in Elements(a) <==> x in Elements(b);
    }
    assert Counted(s, p, a) == Counted(s, p, b);
  }

  /** Met verdicts on the same statements report the same group. */
  lemma MetReport(s: Suite, p: Panel, attestations: seq<Record>, v: Verdict) returns (h: string)
    requires IsVerdict(s, p, attestations, v) && v.met
    ensures ReportsGroup(s, p, attestations, v, h) && |Voters(Said(s, p, attestations), h)| >= p.threshold
    ensures Distinct(v.signers) && Sorted(v.signers)
  {
    h :| ReportsGroup(s, p, attestations, v, h);
    GroupSize(s, p, attestations, v, h);
  }

  lemma MetVerdictsAgree(s: Suite, p: Panel, a: seq<Record>, b: seq<Record>, va: Verdict, vb: Verdict)
    requires IsVerdict(s, p, a, va) && IsVerdict(s, p, b, vb) && va.met && vb.met
    requires Said(s, p, a) == Said(s, p, b)
    ensures va.signers == vb.signers
    ensures exists h :: ReportsGroup(s, p, a, va, h) && ReportsGroup(s, p, b, vb, h)
  {
    hide IsVerdict, Distinct, Sorted, Said, Leads, CarriesStatement;
    var h := MetReport(s, p, a, va);
    var g := MetReport(s, p, b, vb);
    MetGroupIsUnique(s, p, a, va, h, g);
    SortedSetIsUnique(va.signers, vb.signers);
  }

  /** Attestation lists with the same members get the same verdict, whatever
      their order and however often a member is repeated. */
  lemma VerdictIgnoresOrderAndRepetition(s: Suite, p: Panel, a: seq<Record>, b: seq<Record>, va: Verdict, vb: Verdict)
    requires s.Valid() && CollisionFree(s, StatementInputs(s, a)) && Elements(a) == Elements(b)
    requires IsVerdict(s, p, a, va) && IsVerdict(s, p, b, vb)
    ensures va.conflict == vb.conflict && va.accepted == vb.accepted && va.met == vb.met
    ensures va.equivocal == vb.equivocal
    ensures va.met ==> va.signers == vb.signers && va.statement == vb.statement
  {
    SameMembersSaySame(s, p, a, b);
    SameSaidSameMeasures(s, p, a, b, va, vb);
    if va.met {
      MetVerdictsAgree(s, p, a, b, va, vb);
      var h :| ReportsGroup(s, p, a, va, h) && ReportsGroup(s, p, b, vb, h);
      SameHashSameStatement(s, StatementInputs(s, a), va.statement.value, vb.statement.value);
    }
  }

  lemma {:induction false} CountedHashesOfConcat(s: Suite, p: Panel, a: seq<Record>, b: seq<Record>)
    ensures CountedHashes(s, p, a + b) == CountedHashes(s, p, a) + CountedHashes(s, p, b)
  {
    if b == [] {
      assert a + b == a;
    } else {
      assert (a + b)[..|a + b| - 1] == a + b[..|b| - 1];
      CountedHashesOfConcat(s, p, a, b[..|b| - 1]);
    }
  }

  lemma DropFromPermutation<T>(front: seq<T>, last: T, before: seq<T>, after: seq<T>)
    requires multiset(front + [last]) == multiset(before + [last] + after)
    ensures multiset(front) == multiset(before + after)
  {
    assert multiset(front) == multiset(front + [last]) - multiset{last};
    assert multiset(before + after) == multiset(before + [last] + after) - multiset{last};
  }

  lemma CountedHashesWithout(s: Suite, p: Panel, before: seq<Record>, x: Record, after: seq<Record>)
    ensures multiset(CountedHashes(s, p, before + [x] + after))
         == multiset(CountedHashes(s, p, before + after)) + multiset(CountedHashes(s, p, [x]))
  {
    CountedHashesOfConcat(s, p, before, [x]);
    CountedHashesOfConcat(s, p, before + [x], after);
    CountedHashesOfConcat(s, p, before, after);
  }

  lemma {:induction false} CountedHashesOfPermutation(s: Suite, p: Panel, a: seq<Record>, b: seq<Record>)
    requires multiset(a) == multiset(b)
    ensures multiset(CountedHashes(s, p, a)) == multiset(CountedHashes(s, p, b))
  {
    assert |multiset(a)| == |a| && |multiset(b)| == |b|;
    if a != [] {
      var front, last := a[..|a| - 1], a[|a| - 1];
      assert a == front + [last] + [] && front + [] == front;
      assert last in multiset(b);
      var i :| 0 <= i < |b| && b[i] == last;
      var before, after := b[..i], b[i + 1..];
      assert b == before + [last] + after;
      DropFromPermutation(front, last, before, after);
      CountedHashesOfPermutation(s, p, front, before + after);
      CountedHashesWithout(s, p, before, last, after);
      CountedHashesWithout(s, p, front, last, []);
    }
  }

  /** A permutation of the input changes nothing but, when the quorum is not
      met, which of several largest groups is listed. */
  lemma VerdictIgnoresOrder(s: Suite, p: Panel, a: seq<Record>, b: seq<Record>, va: Verdict, vb: Verdict)
    requires s.Valid() && CollisionFree(s, StatementInputs(s, a)) && multiset(a) == multiset(b)
    requires IsVerdict(s, p, a, va) && IsVerdict(s, p, b, vb)
    ensures va.(signers := []) == vb.(signers := [])
    ensures va.met ==> va == vb
  {
    forall x ensures x in Elements(a) <==> x in Elements(b) {
      assert x in multiset(a) <==> x in multiset(b);
    }
    VerdictIgnoresOrderAndRepetition(s, p, a, b, va, vb);
    CountedHashesOfPermutation(s, p, a, b);
    SortIgnoresOrder(CountedHashes(s, p, a), CountedHashes(s, p, b));
  }

  // ----- across views

  lemma TwoStatementsEquivocate(said: set<(string, string)>, signer: string, h: string, g: string)
    requires (signer, h) in said && (signer, g) in said && h != g
    ensures signer in Equivocal(said)
  {
    var x, y := (signer, h), (signer, g);
    assert x.0 == y.0 == signer && x.1 != y.1;
    assert x.0 in Speakers(said);
  }

  lemma SharedVotersEquivocate(a: set<(string, string)>, b: set<(string, string)>, h: string, g: string)
    requires h != g
    ensures Voters(a, h) * Voters(b, g) <= Equivocal(a + b)
  {
    forall signer | signer in Voters(a, h) && signer in Voters(b, g) ensures signer in Equivocal(a + b) {
      TwoStatementsEquivocate(a + b, signer, h, g);
    }
  }

  lemma Overlap(x: set<string>, y: set<string>, all: set<string>, t: int)
    requires x <= all && y <= all && |x| >= t && |y| >= t
    ensures |x * y| >= 2 * t - |all|
  {
    SubsetCardinality(x + y, all);
    assert |x + y| == |x| + |y| - |x * y|;
  }

  /** Two quorums for different statements share at least 2t - n signers, and
      putting their attestations together exposes every one of them. */
  lemma QuorumsIntersect(s: Suite, p: Panel, a: seq<Record>, b: seq<Record>, va: Verdict, vb: Verdict, vu: Verdict)
    requires s.Valid() && CollisionFree(s, StatementInputs(s, a) + StatementInputs(s, b))
    requires IsVerdict(s, p, a, va) && IsVerdict(s, p, b, vb) && IsVerdict(s, p, a + b, vu)
    requires va.met && vb.met && va.statement != vb.statement
    ensures
      var both := Elements(va.signers) * Elements(vb.signers);
      |both| >= 2 * p.threshold - |p.signers| && both <= Elements(vu.equivocal)
  {
    hide IsVerdict, Counted, SaidBy, Voters, Equivocal, CarriesStatement;
    var h := MetGroup(s, p, a, va);
    var g := MetGroup(s, p, b, vb);
    if h == g {
      SameGroupSameStatement(s, p, a, b, h, va.statement.value, vb.statement.value);
    }
    VotersAreTrusted(s, p, a, h);
    VotersAreTrusted(s, p, b, g);
    Overlap(Elements(va.signers), Elements(vb.signers), p.signers.Keys, p.threshold);
    SaidOfUnion(s, p, a, b);
    SharedVotersEquivocate(Said(s, p, a), Said(s, p, b), h, g);
    EquivocalOf(s, p, a + b, vu);
  }

  lemma EquivocalOf(s: Suite, p: Panel, attestations: seq<Record>, v: Verdict)
    requires IsVerdict(s, p, attestations, v)
    ensures Elements(v.equivocal) == Equivocal(Said(s, p, attestations))
  {
  }

  /** The group of a met quorum. */
  lemma MetGroup(s: Suite, p: Panel, attestations: seq<Record>, v: Verdict) returns (h: string)
    requires IsVerdict(s, p, attestations, v) && v.met
    ensures Elements(v.signers) == Voters(Said(s, p, attestations), h) && |Elements(v.signers)| == v.accepted >= p.threshold
    ensures v.statement.Some? && CarriesStatement(s, p, attestations, h, v.statement.value)
  {
    hide Leads, Counted, SaidBy, Voters, Equivocal, CarriesStatement;
    h :| ReportsGroup(s, p, attestations, v, h);
    GroupSize(s, p, attestations, v, h);
  }

  lemma SameGroupSameStatement(s: Suite, p: Panel, a: seq<Record>, b: seq<Record>, h: string, x: Record, y: Record)
    requires s.Valid() && CollisionFree(s, StatementInputs(s, a) + StatementInputs(s, b))
    requires CarriesStatement(s, p, a, h, x) && CarriesStatement(s, p, b, h, y)
    ensures x == y
  {
    SameHashSameStatement(s, StatementInputs(s, a) + StatementInputs(s, b), x, y);
  }

  lemma SaidOfUnion(s: Suite, p: Panel, a: seq<Record>, b: seq<Record>)
    ensures Said(s, p, a + b) == Said(s, p, a) + Said(s, p, b)
  {
    assert Counted(s, p, a + b) == Counted(s, p, a) + Counted(s, p, b);
  }

  // ----- honest signers

  /** Ideal signatures: an attestation that verifies under a signer's key has a
      content which that key signed. */
  ghost predicate Unforgeable(s: Suite, p: Panel, attestations: seq<Record>, signed: set<(Key, Record)>) {
    forall a, signer :: a in attestations && signer in p.signers && VerifySignature(s, a, p.signers[signer].key)
      ==> (p.signers[signer].key, Content(a)) in signed
  }

  /** The keys of these signers signed nothing on this subject but `statement`. */
  ghost predicate SignedOnly(s: Suite, p: Panel, signed: set<(Key, Record)>, honest: set<string>, statement: Record) {
    forall x, signer :: x in signed && signer in honest && signer in p.signers && x.0 == p.signers[signer].key
      && Get(x.1, Kind) == p.kind && Get(x.1, SubjectDigest) == p.subject
      ==> Get(x.1, StatementHash) == Str(StatementDigest(s, statement))
  }

  lemma HonestVote(s: Suite, p: Panel, attestations: seq<Record>, signed: set<(Key, Record)>, honest: set<string>,
                   statement: Record, h: string, signer: string)
    requires Unforgeable(s, p, attestations, signed) && SignedOnly(s, p, signed, honest, statement)
    requires signer in honest && (signer, h) in Said(s, p, attestations)
    ensures h == StatementDigest(s, statement)
  {
    var a :| a in Counted(s, p, attestations) && (SignerOf(p, a), HashOf(a)) == (signer, h);
    var x := (p.signers[signer].key, Content(a));
    assert VerifySignature(s, a, p.signers[signer].key);
    assert x in signed;
    ContentKeeps(a, Kind);
    ContentKeeps(a, SubjectDigest);
    ContentKeeps(a, StatementHash);
  }

  lemma ContentKeeps(a: Record, field: Field)
    requires field != RecordHash && field != Signature
    ensures Get(Content(a), field) == Get(a, field)
  {
  }

  lemma LargeGroupIsHonest(s: Suite, p: Panel, attestations: seq<Record>, signed: set<(Key, Record)>, honest: set<string>,
                           statement: Record, h: string)
    requires Unforgeable(s, p, attestations, signed) && SignedOnly(s, p, signed, honest, statement)
    requires |p.signers.Keys - honest| < p.threshold <= |Voters(Said(s, p, attestations), h)|
    ensures h == StatementDigest(s, statement)
  {
    var voters := Voters(Said(s, p, attestations), h);
    VotersAreTrusted(s, p, attestations, h);
    if voters <= p.signers.Keys - honest {
      SubsetCardinality(voters, p.signers.Keys - honest);
    }
    var signer :| signer in voters && signer in honest;
    HonestVote(s, p, attestations, signed, honest, statement, h, signer);
  }

  /** With at most t - 1 dishonest signers there is never a conflict, a quorum
      is met exactly when t undivided voters back the honest statement, and a
      met quorum reports that statement. */
  lemma HonestQuorum(s: Suite, p: Panel, attestations: seq<Record>, v: Verdict, signed: set<(Key, Record)>,
                     honest: set<string>, statement: Record)
    requires s.Valid() && IsVerdict(s, p, attestations, v)
    requires CollisionFree(s, StatementInputs(s, attestations) + {StatementInput(s, statement)})
    requires Unforgeable(s, p, attestations, signed) && SignedOnly(s, p, signed, honest, statement)
    requires |p.signers.Keys - honest| < p.threshold
    ensures !v.conflict
    ensures v.met <==> |Voters(Said(s, p, attestations), StatementDigest(s, statement))| >= p.threshold
    ensures v.met ==> v.statement == Some(statement)
  {
    var said, right := Said(s, p, attestations), StatementDigest(s, statement);
    forall h | |Voters(said, h)| >= p.threshold ensures h == right {
      LargeGroupIsHonest(s, p, attestations, signed, honest, statement, h);
    }
    var h :| ReportsGroup(s, p, attestations, v, h);
    GroupSize(s, p, attestations, v, h);
    if v.met {
      SameHashSameStatement(s, StatementInputs(s, attestations) + {StatementInput(s, statement)},
                            v.statement.value, statement);
    }
  }

  // ----- the observation root

  /** Two verdicts report one observation root exactly when they count the same
      attestation hashes, each as often, against the same threshold. */
  lemma ObservationRootFixesAttestations(s: Suite, p: Panel, q: Panel, attestations: seq<Record>, others: seq<Record>,
                                         v: Verdict, w: Verdict)
    requires s.Valid() && IsVerdict(s, p, attestations, v) && IsVerdict(s, q, others, w)
    requires CollisionFree(s, {RecordInput(s, ObservationRecord(CountedHashes(s, p, attestations), p.threshold)),
                               RecordInput(s, ObservationRecord(CountedHashes(s, q, others), q.threshold))})
    ensures v.observationRoot == w.observationRoot <==>
      p.threshold == q.threshold && multiset(CountedHashes(s, p, attestations)) == multiset(CountedHashes(s, q, others))
  {
    hide CountedHashes, RecordInput, ObservationRecord, Said, ReportsGroup, Voters, Equivocal;
    var a, b := CountedHashes(s, p, attestations), CountedHashes(s, q, others);
    var x, y := ObservationRecord(a, p.threshold), ObservationRecord(b, q.threshold);
    if v.observationRoot == w.observationRoot {
      SameDigestSameInput(s, {RecordInput(s, x), RecordInput(s, y)}, RecordInput(s, x), RecordInput(s, y));
      SameObservationRecord(s, a, b, p.threshold, q.threshold);
    }
    if p.threshold == q.threshold && multiset(a) == multiset(b) {
      SameHashesSameRecord(a, b, p.threshold);
    }
  }

  lemma SameObservationRecord(s: Suite, a: seq<string>, b: seq<string>, m: int, n: int)
    requires s.Valid() && RecordInput(s, ObservationRecord(a, m)) == RecordInput(s, ObservationRecord(b, n))
    ensures m == n && multiset(a) == multiset(b)
  {
    hide TextList;
    var x, y := ObservationRecord(a, m), ObservationRecord(b, n);
    assert Content(x) == x && Content(y) == y;
    assert x[AttestationHashes] == y[AttestationHashes] && x[Threshold] == y[Threshold];
    TextListInjective(Sort(a), Sort(b));
    assert multiset(Sort(a)) == multiset(a) && multiset(Sort(b)) == multiset(b);
  }

  lemma SameHashesSameRecord(a: seq<string>, b: seq<string>, n: int)
    requires multiset(a) == multiset(b)
    ensures ObservationRecord(a, n) == ObservationRecord(b, n)
  {
    SortIgnoresOrder(a, b);
  }
}
