/**
 `merkle_root` of proofrail/checkpoint.py: the level-by-level loop with odd-node
 duplication, its top-down meaning, and exactly which record lists share a root.
 */
module Merkle {
  import opened Hashing

  function Pow2(n: nat): (p: nat)
    ensures p >= 1
  {
    if n == 0 then 1 else 2 * Pow2(n - 1)
  }

  /** The hash tree of a list. */
  datatype Tree = Leaf(record: Record) | Node(left: Tree, right: Tree)

  /** The byte string whose SHA-256 is a tree's digest: leaves are prefixed with
      0x00 and inner nodes with 0x01 (section 2.1 of RFC 6962). */
  function Preimage(s: Suite, t: Tree): Bytes
    decreases t, 0
  {
    match t
    case Leaf(r) => [0] + s.jcs(r)
    case Node(l, r) => [1] + Digest(s, l) + Digest(s, r)
  }

  function Digest(s: Suite, t: Tree): Bytes
    decreases t, 1
  {
    s.sha256(Preimage(s, t))
  }

  /** Every byte string hashed on the way to a tree's digest. */
  function TreeInputs(s: Suite, t: Tree): (inputs: set<Bytes>)
    ensures Preimage(s, t) in inputs
  {
    {Preimage(s, t)} + if t.Leaf? then {} else TreeInputs(s, t.left) + TreeInputs(s, t.right)
  }

  /** Among byte strings that do not collide, a digest determines its tree. */
  lemma {:induction false} DigestFixesTree(s: Suite, t: Tree, u: Tree)
    requires s.Valid() && CollisionFree(s, TreeInputs(s, t) + TreeInputs(s, u))
    requires Digest(s, t) == Digest(s, u)
    ensures t == u
  {
    var p, q := Preimage(s, t), Preimage(s, u);
    assert p == q;
    assert p[0] == (if t.Leaf? then 0 else 1) && q[0] == (if u.Leaf? then 0 else 1);
    if t.Leaf? {
      assert p[1..] == s.jcs(t.record) && q[1..] == s.jcs(u.record);
    } else {
      assert |Digest(s, t.left)| == |Digest(s, u.left)| == 32;
      assert p[1..33] == Digest(s, t.left) && p[33..] == Digest(s, t.right);
      assert q[1..33] == Digest(s, u.left) && q[33..] == Digest(s, u.right);
      DigestFixesTree(s, t.left, u.left);
      DigestFixesTree(s, t.right, u.right);
    }
  }

  // ----- one round of the loop

  /** `if len(level) % 2: level.append(level[-1])` */
  function EvenOut<T>(level: seq<T>): (even: seq<T>)
    requires |level| > 0
    ensures |even| % 2 == 0 && |even| == |level| + |level| % 2
  {
    if |level| % 2 == 1 then level + [level[|level| - 1]] else level
  }

  function PairUp(level: seq<Tree>): (pairs: seq<Tree>)
    requires |level| % 2 == 0
    ensures |pairs| == |level| / 2
  {
    seq(|level| / 2, i requires 0 <= i < |level| / 2 => Node(level[2 * i], level[2 * i + 1]))
  }

  function Round(level: seq<Tree>): (next: seq<Tree>)
    requires |level| > 0
    ensures |next| == (|level| + 1) / 2
  {
    PairUp(EvenOut(level))
  }

  // ----- the meaning: a recursive, top-down tree

  /** The tree of height `d` over a level: split at 2^(d-1) leaves, and where the
      level does not reach the right half, the left half stands in for it. */
  function TopDown(level: seq<Tree>, d: nat): (t: Tree)
    requires 0 < |level| <= Pow2(d)
    decreases d
  {
    if d == 0 then level[0]
    else
      var half := Pow2(d - 1);
      if |level| > half then Node(TopDown(level[..half], d - 1), TopDown(level[half..], d - 1))
      else var t := TopDown(level, d - 1); Node(t, t)
  }

  function Leaves(records: seq<Record>): (level: seq<Tree>)
    ensures |level| == |records|
  {
    seq(|records|, i requires 0 <= i < |records| => Leaf(records[i]))
  }

  /** The least d with n <= 2^d. */
  function CeilLog2(n: nat): (d: nat)
    requires n > 0
    ensures n <= Pow2(d) && (d > 0 ==> Pow2(d - 1) < n)
  {
    if n == 1 then 0 else 1 + CeilLog2((n + 1) / 2)
  }

  lemma {:induction false} Pow2Increasing(a: nat, b: nat)
    requires a < b
    ensures Pow2(a) < Pow2(b)
  {
    if a + 1 < b {
      Pow2Increasing(a, b - 1);
    }
  }

  lemma CeilLog2Unique(n: nat, d: nat)
    requires 0 < n <= Pow2(d) && (d > 0 ==> Pow2(d - 1) < n)
    ensures d == CeilLog2(n)
  {
    var e := CeilLog2(n);
    if d < e - 1 { Pow2Increasing(d, e - 1); }
    if e < d - 1 { Pow2Increasing(e, d - 1); }
  }

  /** A round treats the two sides of an even split separately. */
  lemma RoundSplits(level: seq<Tree>, half: nat)
    requires 0 < half < |level| && half % 2 == 0
    ensures Round(level) == Round(level[..half]) + Round(level[half..])
  {
    var front, back := level[..half], level[half..];
    var even := EvenOut(level);
    assert even == front + EvenOut(back) && EvenOut(front) == front;
    var l, r := Round(level), Round(front) + Round(back);
    assert |l| == |r|;
    forall i | 0 <= i < |l| ensures l[i] == r[i] {
      if i >= half / 2 {
        assert even[2 * i] == EvenOut(back)[2 * (i - half / 2)];
      }
    }
  }

  /** One round of the loop takes one level off the top-down tree. */
  lemma {:induction false} RoundIsOneLevel(level: seq<Tree>, d: nat)
    requires 0 < |level| <= Pow2(d + 1)
    ensures TopDown(level, d + 1) == TopDown(Round(level), d)
    decreases d
  {
    var half := Pow2(d);
    if d == 0 {
      if |level| == 1 {
        assert Round(level) == [Node(level[0], level[0])];
        assert TopDown(level, 0) == level[0];
      } else {
        assert Round(level) == [Node(level[0], level[1])];
        assert TopDown(level[..1], 0) == level[0] && TopDown(level[1..], 0) == level[1];
      }
    } else if |level| > half {
      var front, back := level[..half], level[half..];
      RoundSplits(level, half);
      assert Round(level)[..half / 2] == Round(front) && Round(level)[half / 2..] == Round(back);
      RoundIsOneLevel(front, d - 1);
      RoundIsOneLevel(back, d - 1);
    } else {
      RoundIsOneLevel(level, d - 1);
    }
  }

  // ----- the source's loop

  function MerkleTree(records: seq<Record>): Tree
    requires |records| > 0
  {
    TopDown(Leaves(records), CeilLog2(|records|))
  }

  function Root(s: Suite, records: seq<Record>): string {
    if records == [] then HexSha(s, []) else Hex(Digest(s, MerkleTree(records)))
  }

  predicate Digests(s: Suite, level: seq<Bytes>, forest: seq<Tree>) {
    |level| == |forest| && forall i :: 0 <= i < |level| ==> level[i] == Digest(s, forest[i])
  }

  function HashLeaves(s: Suite, records: seq<Record>): (level: seq<Bytes>)
    ensures Digests(s, level, Leaves(records))
  {
    seq(|records|, i requires 0 <= i < |records| => s.sha256([0] + s.jcs(records[i])))
  }

  function HashPairs(s: Suite, level: seq<Bytes>): (next: seq<Bytes>)
    requires |level| % 2 == 0
    ensures |next| == |level| / 2
  {
    seq(|level| / 2, i requires 0 <= i < |level| / 2 => s.sha256([1] + level[2 * i] + level[2 * i + 1]))
  }

  lemma PairsKeepDigests(s: Suite, level: seq<Bytes>, forest: seq<Tree>)
    requires |level| % 2 == 0 && Digests(s, level, forest)
    ensures Digests(s, HashPairs(s, level), PairUp(forest))
  {
    var next, pairs := HashPairs(s, level), PairUp(forest);
    forall i | 0 <= i < |next| ensures next[i] == Digest(s, pairs[i]) {
      assert level[2 * i] == Digest(s, forest[2 * i]) && level[2 * i + 1] == Digest(s, forest[2 * i + 1]);
    }
  }

  /** What the loop keeps: the level holds the digests of a forest whose
      top-down tree, of the remaining height, is the whole tree. */
  ghost predicate Progress(records: seq<Record>, forest: seq<Tree>, rounds: nat, nodes: nat)
    requires |records| > 0
  {
    var depth := CeilLog2(|records|);
    && rounds <= depth
    && 0 < |forest| <= Pow2(depth - rounds)
    && (rounds < depth ==> Pow2(depth - rounds - 1) < |forest|)
    && TopDown(forest, depth - rounds) == MerkleTree(records)
    && |records| <= nodes + |forest| <= |records| + rounds
  }

  lemma RoundProgresses(records: seq<Record>, forest: seq<Tree>, rounds: nat, nodes: nat)
    requires |records| > 0 && Progress(records, forest, rounds, nodes) && |forest| > 1
    ensures Progress(records, Round(forest), rounds + 1, nodes + |Round(forest)|)
  {
    RoundIsOneLevel(forest, CeilLog2(|records|) - rounds - 1);
  }

  /** `merkle_root`.  The ghost results count the rounds of the loop and the
      inner nodes it hashes. */
  method ComputeMerkleRoot(s: Suite, records: seq<Record>) returns (root: string, ghost rounds: nat, ghost nodes: nat)
    ensures root == Root(s, records)
    ensures records != [] ==> rounds == CeilLog2(|records|)
    ensures records != [] ==> |records| - 1 <= nodes <= |records| - 1 + rounds
  {
    rounds, nodes := 0, 0;
    if records == [] {
      return HexSha(s, []), 0, 0;
    }
    var level := HashLeaves(s, records);
    ghost var forest := Leaves(records);
    while |level| > 1
      invariant Digests(s, level, forest)
      invariant Progress(records, forest, rounds, nodes)
      decreases |level|
    {
      RoundProgresses(records, forest, rounds, nodes);
      forest := EvenOut(forest);
      if |level| % 2 == 1 {
        level := level + [level[|level| - 1]];
      }
      PairsKeepDigests(s, level, forest);
      level, forest := HashPairs(s, level), PairUp(forest);
      rounds, nodes := rounds + 1, nodes + |level|;
    }
    root := Hex(level[0]);
  }

  // ----- the exact collision condition

  /** The padded leaf sequence: the right half of a block that the list does not
      reach repeats its left half. */
  function Pad<T>(l: seq<T>, d: nat): (p: seq<T>)
    requires 0 < |l| <= Pow2(d)
    ensures |p| == Pow2(d) && l <= p
    decreases d
  {
    if d == 0 then l
    else
      var half := Pow2(d - 1);
      if |l| > half then l[..half] + Pad(l[half..], d - 1)
      else var p := Pad(l, d - 1); p + p
  }

  function Padded(records: seq<Record>): (p: seq<Record>)
    requires |records| > 0
    ensures records <= p
  {
    Pad(records, CeilLog2(|records|))
  }

  lemma {:induction false} PadAddsNothingNew<T>(l: seq<T>, d: nat, x: T)
    requires 0 < |l| <= Pow2(d) && x in Pad(l, d)
    ensures x in l
    decreases d
  {
    if d > 0 {
      var half := Pow2(d - 1);
      if |l| > half {
        if x in Pad(l[half..], d - 1) { PadAddsNothingNew(l[half..], d - 1, x); }
      } else {
        PadAddsNothingNew(l, d - 1, x);
      }
    }
  }

  function Frontier(t: Tree): (l: seq<Record>)
    ensures |l| > 0
  {
    match t
    case Leaf(r) => [r]
    case Node(l, r) => Frontier(l) + Frontier(r)
  }

  predicate Perfect(t: Tree, d: nat) {
    if d == 0 then t.Leaf? else t.Node? && Perfect(t.left, d - 1) && Perfect(t.right, d - 1)
  }

  lemma {:induction false} TopDownFrontier(records: seq<Record>, d: nat)
    requires 0 < |records| <= Pow2(d)
    ensures Perfect(TopDown(Leaves(records), d), d)
    ensures Frontier(TopDown(Leaves(records), d)) == Pad(records, d)
    decreases d
  {
    if d > 0 {
      var half := Pow2(d - 1);
      if |records| > half {
        assert Leaves(records)[..half] == Leaves(records[..half]);
        assert Leaves(records)[half..] == Leaves(records[half..]);
        TopDownFrontier(records[..half], d - 1);
        TopDownFrontier(records[half..], d - 1);
        assert Pad(records[..half], d - 1) == records[..half];
      } else {
        TopDownFrontier(records, d - 1);
      }
    }
  }

  lemma {:induction false} PerfectFrontierLength(t: Tree, d: nat)
    requires Perfect(t, d)
    ensures |Frontier(t)| == Pow2(d)
  {
    if d > 0 {
      PerfectFrontierLength(t.left, d - 1);
      PerfectFrontierLength(t.right, d - 1);
    }
  }

  lemma {:induction false} FrontierFixesPerfectTree(t: Tree, u: Tree, d: nat)
    requires Perfect(t, d) && Perfect(u, d) && Frontier(t) == Frontier(u)
    ensures t == u
  {
    if d > 0 {
      PerfectFrontierLength(t.left, d - 1);
      PerfectFrontierLength(u.left, d - 1);
      assert Frontier(t)[..Pow2(d - 1)] == Frontier(t.left) && Frontier(u)[..Pow2(d - 1)] == Frontier(u.left);
      assert Frontier(t)[Pow2(d - 1)..] == Frontier(t.right) && Frontier(u)[Pow2(d - 1)..] == Frontier(u.right);
      FrontierFixesPerfectTree(t.left, u.left, d - 1);
      FrontierFixesPerfectTree(t.right, u.right, d - 1);
    }
  }

  lemma SamePaddingSameTree(a: seq<Record>, b: seq<Record>)
    requires |a| > 0 && |b| > 0
    ensures MerkleTree(a) == MerkleTree(b) <==> Padded(a) == Padded(b)
  {
    var d, e := CeilLog2(|a|), CeilLog2(|b|);
    TopDownFrontier(a, d);
    TopDownFrontier(b, e);
    if Padded(a) == Padded(b) {
      if d < e { Pow2Increasing(d, e); }
      if e < d { Pow2Increasing(e, d); }
      FrontierFixesPerfectTree(MerkleTree(a), MerkleTree(b), d);
    }
  }

  /** The byte strings `merkle_root` hashes. */
  function MerkleInputs(s: Suite, records: seq<Record>): set<Bytes> {
    if records == [] then {[]} else TreeInputs(s, MerkleTree(records))
  }

  /** The exact collision condition: two non-empty lists have the same root if
      and only if they pad to the same leaves. */
  lemma RootCollisionCondition(s: Suite, a: seq<Record>, b: seq<Record>)
    requires s.Valid() && CollisionFree(s, MerkleInputs(s, a) + MerkleInputs(s, b))
    requires |a| > 0 && |b| > 0
    ensures Root(s, a) == Root(s, b) <==> Padded(a) == Padded(b)
  {
    SamePaddingSameTree(a, b);
    if Root(s, a) == Root(s, b) {
      HexInjective(Digest(s, MerkleTree(a)), Digest(s, MerkleTree(b)));
      DigestFixesTree(s, MerkleTree(a), MerkleTree(b));
    }
  }

  /** No list shares the root of the empty one. */
  lemma EmptyRootIsUnique(s: Suite, a: seq<Record>)
    requires s.Valid() && CollisionFree(s, MerkleInputs(s, a) + MerkleInputs(s, []))
    ensures Root(s, a) == Root(s, []) <==> a == []
  {
    if a != [] && Root(s, a) == Root(s, []) {
      var t := MerkleTree(a);
      assert Preimage(s, t) in MerkleInputs(s, a) && Preimage(s, t) != [];
      var nothing: Bytes := [];
      assert nothing in MerkleInputs(s, []);
      HexInjective(Digest(s, t), s.sha256([]));
    }
  }

  /** The root together with the entry count determines the list. */
  lemma RootAndCountFixList(s: Suite, a: seq<Record>, b: seq<Record>)
    requires s.Valid() && CollisionFree(s, MerkleInputs(s, a) + MerkleInputs(s, b))
    ensures Root(s, a) == Root(s, b) && |a| == |b| <==> a == b
  {
    if Root(s, a) == Root(s, b) && |a| == |b| && |a| > 0 {
      RootCollisionCondition(s, a, b);
      assert a == Padded(a)[..|a|] && b == Padded(b)[..|b|];
    }
  }

  predicate NoRepeats<T(==)>(l: seq<T>) {
    forall i, j :: 0 <= i < j < |l| ==> l[i] != l[j]
  }

  lemma LongerListRepeats(a: seq<Record>, b: seq<Record>)
    requires 0 < |a| < |b| && Padded(a) == Padded(b)
    ensures !NoRepeats(b)
  {
    var p := Padded(a);
    PadAddsNothingNew(a, CeilLog2(|a|), p[|a|]);
    var i :| 0 <= i < |a| && a[i] == p[|a|];
    assert b[i] == b[|a|];
  }

  lemma PaddingFixesRepeatFreeLists(a: seq<Record>, b: seq<Record>)
    requires 0 < |a| <= |b| && NoRepeats(a) && NoRepeats(b) && Padded(a) == Padded(b)
    ensures a == b
  {
    if |a| < |b| {
      LongerListRepeats(a, b);
    }
    assert a == Padded(a)[..|a|] && b == Padded(b)[..|b|];
  }

  /** For lists without repeats the root alone determines the list. */
  lemma RootFixesRepeatFreeList(s: Suite, a: seq<Record>, b: seq<Record>)
    requires s.Valid() && CollisionFree(s, MerkleInputs(s, a) + MerkleInputs(s, b))
    requires NoRepeats(a) && NoRepeats(b)
    ensures Root(s, a) == Root(s, b) <==> a == b
  {
    if Root(s, a) == Root(s, b) {
      if a == [] {
        EmptyRootIsUnique(s, b);
      } else if b == [] {
        EmptyRootIsUnique(s, a);
      } else {
        RootCollisionCondition(s, a, b);
        if |a| <= |b| {
          PaddingFixesRepeatFreeLists(a, b);
        } else {
          PaddingFixesRepeatFreeLists(b, a);
        }
      }
    }
  }

  lemma SameRoundSameTree(a: seq<Tree>, b: seq<Tree>, d: nat)
    requires 0 < |a| <= Pow2(d + 1) && 0 < |b| <= Pow2(d + 1) && Round(a) == Round(b)
    ensures TopDown(a, d + 1) == TopDown(b, d + 1)
  {
    RoundIsOneLevel(a, d);
    RoundIsOneLevel(b, d);
  }

  lemma OddLevelEvenedOut(records: seq<Record>)
    requires |records| % 2 == 1
    ensures EvenOut(Leaves(records)) == Leaves(records + [records[|records| - 1]])
  {
    hide CeilLog2, Pow2;
    var longer := records + [records[|records| - 1]];
    assert EvenOut(Leaves(records)) == Leaves(longer);
  }

  lemma EvenLevelIsKept(records: seq<Record>)
    requires |records| > 0 && |records| % 2 == 0
    ensures EvenOut(Leaves(records)) == Leaves(records)
  {
  }

  lemma OddCountSameHeight(n: nat)
    requires n > 1 && n % 2 == 1
    ensures CeilLog2(n) > 0 && CeilLog2(n + 1) == CeilLog2(n)
  {
    var d := CeilLog2(n);
    assert d > 0;
    assert Pow2(d) == 2 * Pow2(d - 1);
    CeilLog2Unique(n + 1, d);
  }

  lemma OddListSameTree(records: seq<Record>)
    requires |records| > 1 && |records| % 2 == 1
    ensures MerkleTree(records) == MerkleTree(records + [records[|records| - 1]])
  {
    hide EvenOut, PairUp, Leaves, TopDown, CeilLog2, Pow2;
    var longer := records + [records[|records| - 1]];
    OddCountSameHeight(|records|);
    OddLevelEvenedOut(records);
    EvenLevelIsKept(longer);
    SameRoundSameTree(Leaves(records), Leaves(longer), CeilLog2(|records|) - 1);
  }

  /** Repeats do matter: for every odd list longer than one record, appending
      its last record again leaves the root unchanged. */
  lemma RepeatingTheLastRecordKeepsTheRoot(s: Suite, records: seq<Record>)
    requires |records| > 1 && |records| % 2 == 1
    ensures Root(s, records) == Root(s, records + [records[|records| - 1]])
  {
    hide MerkleTree, Digest;
    OddListSameTree(records);
  }
}
