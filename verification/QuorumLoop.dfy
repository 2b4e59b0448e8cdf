/**
 The loops of `verify_quorum` (proofrail/quorum.py), proved against the
 set-level specification of `Quorum`.
 */
module QuorumLoop {
  import opened Hashing
  import opened Sorting
  import opened Quorum

  /** A dictionary of lists that remembers the order of its keys. */
  datatype ListDict = ListDict(keys: seq<string>, lists: map<string, seq<Record>>) {
    predicate Valid() {
      && Distinct(keys)
      && Elements(keys) == lists.Keys
      && forall k :: k in lists ==> lists[k] != []
    }

    /** `d[key].append(a)` on a `defaultdict(list)` */
    function Append(key: string, a: Record): (d: ListDict)
      requires Valid()
      ensures d.Valid()
      ensures d.lists == lists[key := (if key in lists then lists[key] else []) + [a]]
    {
      if key in lists then
        var longer := lists[key := lists[key] + [a]];
        assert longer.Keys == lists.Keys;
        ListDict(keys, longer)
      else
        assert key !in Elements(keys);
        assert Elements(keys + [key]) == Elements(keys) + {key};
        assert lists[key := [a]].Keys == lists.Keys + {key} && [] + [a] == [a];
        ListDict(keys + [key], lists[key := [a]])
    }
  }

  function HashSet(group: seq<Record>): set<string> {
    set a | a in group :: HashOf(a)
  }

  function SignersIn(p: Panel, group: seq<Record>): (l: seq<string>)
    ensures |l| == |group|
  {
    seq(|group|, i requires 0 <= i < |group| => SignerOf(p, group[i]))
  }

  function RecordHashes(attestations: seq<Record>): seq<string> {
    seq(|attestations|, i requires 0 <= i < |attestations| => TextOf(Get(attestations[i], RecordHash)))
  }

  // ----- the first loop: verified attestations by signer

  /** `verified_by_signer` holds exactly the counted attestations, by signer. */
  ghost predicate BySigner(p: Panel, counted: set<Record>, d: ListDict) {
    && d.Valid()
    && (forall k, a :: k in d.lists && a in d.lists[k] ==> a in counted && SignerOf(p, a) == k)
    && (forall a :: a in counted ==> SignerOf(p, a) in d.lists && a in d.lists[SignerOf(p, a)])
  }

  /** The first attestation of each signer's list is the one chosen. */
  ghost predicate Heads(d: ListDict, choice: map<string, string>) {
    forall k :: k in d.lists ==> d.lists[k] != [] && RecordHashOf(d.lists[k][0]) == Lookup(choice, k)
  }

  /** The first attestation of each signer's list is the signer's first. */
  ghost predicate FirstsSoFar(s: Suite, p: Panel, attestations: seq<Record>, d: ListDict) {
    forall k :: k in d.lists ==> d.lists[k] != [] && FirstOf(s, p, attestations, k) == Some(d.lists[k][0])
  }

  lemma FirstsOneMore(s: Suite, p: Panel, attestations: seq<Record>, i: nat, counted: set<Record>, d: ListDict)
    requires i < |attestations| && BySigner(p, counted, d) && counted == Counted(s, p, attestations[..i])
    requires FirstsSoFar(s, p, attestations[..i], d)
    ensures
      var a := attestations[i];
      FirstsSoFar(s, p, attestations[..i + 1], if Counts(s, p, a) then d.Append(SignerOf(p, a), a) else d)
  {
    hide Counts;
    var a := attestations[i];
    assert attestations[..i + 1][..i] == attestations[..i];
    if Counts(s, p, a) && SignerOf(p, a) !in d.lists {
      forall x | x in attestations[..i] ensures !CountsFor(s, p, x, SignerOf(p, a)) {
        assert Counts(s, p, x) ==> x in counted;
      }
    }
  }

  lemma FirstsAreHeads(s: Suite, p: Panel, attestations: seq<Record>, d: ListDict)
    requires BySigner(p, Counted(s, p, attestations), d) && FirstsSoFar(s, p, attestations, d)
    ensures Heads(d, Chosen(s, p, attestations))
  {
    forall k | k in d.lists ensures RecordHashOf(d.lists[k][0]) == Lookup(Chosen(s, p, attestations), k) {
      BySignerHashes(p, Counted(s, p, attestations), d, k);
    }
  }

  lemma BySignerOneMore(p: Panel, counted: set<Record>, d: ListDict, a: Record)
    requires BySigner(p, counted, d)
    ensures BySigner(p, counted + {a}, d.Append(SignerOf(p, a), a))
  {
    var more := d.Append(SignerOf(p, a), a);
    assert a in more.lists[SignerOf(p, a)];
  }

  lemma SaidHashInList(p: Panel, counted: set<Record>, d: ListDict, k: string, h: string)
    requires BySigner(p, counted, d)
    ensures (k, h) in SaidBy(p, counted) <==> k in d.lists && h in HashSet(d.lists[k])
  {
    if k in d.lists && h in HashSet(d.lists[k]) {
      var a :| a in d.lists[k] && HashOf(a) == h;
      assert a in counted;
    }
  }

  lemma HashesAreSaid(said: set<(string, string)>, signer: string, h: string)
    ensures h in Hashes(said, signer) <==> (signer, h) in said
    ensures (signer, h) in said ==> signer in Speakers(said)
  {
    if h in Hashes(said, signer) {
      var y :| y in said && y.0 == signer && y.1 == h;
      assert y == (signer, h);
    }
    if (signer, h) in said {
      var y := (signer, h);
      assert y.0 == signer && y.1 == h;
    }
  }

  lemma BySignerHashes(p: Panel, counted: set<Record>, d: ListDict, k: string)
    requires BySigner(p, counted, d)
    ensures k in Speakers(SaidBy(p, counted)) <==> k in d.lists
    ensures k in d.lists ==> Hashes(SaidBy(p, counted), k) == HashSet(d.lists[k])
  {
    var said := SaidBy(p, counted);
    forall h ensures h in Hashes(said, k) <==> k in d.lists && h in HashSet(d.lists[k]) {
      HashesAreSaid(said, k, h);
      SaidHashInList(p, counted, d, k, h);
    }
    if k in d.lists {
      assert HashOf(d.lists[k][0]) in Hashes(said, k);
      HashesAreSaid(said, k, HashOf(d.lists[k][0]));
    }
    if k in Speakers(said) {
      var x :| x in said && x.0 == k;
      assert x == (k, x.1);
      SaidHashInList(p, counted, d, k, x.1);
    }
  }

  // ----- the second loop: equivocal signers, and groups by statement

  lemma SingletonSet(x: set<string>)
    requires x != {}
    ensures |x| == 1 <==> forall g, h :: g in x && h in x ==> g == h
  {
    var h :| h in x;
    if |x| == 1 {
      assert |x - {h}| == 0;
      assert x == {h} + (x - {h}) == {h};
    }
    if forall g, h :: g in x && h in x ==> g == h {
      assert x == {h};
    }
  }

  /** A speaker is undivided exactly when one hash remains of what they said. */
  lemma UndividedSpeaker(said: set<(string, string)>, signer: string)
    requires signer in Speakers(said)
    ensures Hashes(said, signer) != {}
    ensures signer in Equivocal(said) <==> |Hashes(said, signer)| != 1
  {
    var x :| x in said && x.0 == signer;
    var own := Hashes(said, signer);
    assert x.1 in own;
    SingletonSet(own);
    forall g, h | g in own && h in own && g != h ensures signer in Equivocal(said) {
      HashesAreSaid(said, signer, g);
      HashesAreSaid(said, signer, h);
      TwoStatementsEquivocate(said, signer, g, h);
    }
    if signer in Equivocal(said) {
      var y, z :| y in said && z in said && y.0 == z.0 == signer && y.1 != z.1;
      assert y.1 in own && z.1 in own;
    }
  }

  lemma VoterHasOneHash(said: set<(string, string)>, signer: string, h: string)
    requires signer in Speakers(said)
    ensures signer in Voters(said, h) <==> |Hashes(said, signer)| == 1 && h in Hashes(said, signer)
  {
    UndividedSpeaker(said, signer);
    HashesAreSaid(said, signer, h);
  }

  /** `groups[h]`: of each of some voters for `h` the counted attestation chosen. */
  ghost predicate GroupOf(p: Panel, counted: set<Record>, choice: map<string, string>, group: seq<Record>, h: string,
                          voters: set<string>) {
    && (forall a :: a in group ==> a in counted && HashOf(a) == h && RecordHashOf(a) == Lookup(choice, SignerOf(p, a)))
    && Distinct(SignersIn(p, group))
    && Elements(SignersIn(p, group)) == voters
  }

  lemma GroupOneMore(p: Panel, counted: set<Record>, choice: map<string, string>, group: seq<Record>, h: string, voters: set<string>, a: Record)
    requires GroupOf(p, counted, choice, group, h, voters)
    requires a in counted && HashOf(a) == h && SignerOf(p, a) !in voters && RecordHashOf(a) == Lookup(choice, SignerOf(p, a))
    ensures GroupOf(p, counted, choice, group + [a], h, voters + {SignerOf(p, a)})
  {
    var signers, signer := SignersIn(p, group), SignerOf(p, a);
    assert SignersIn(p, group + [a]) == signers + [signer];
    assert Elements(signers + [signer]) == Elements(signers) + {signer};
    assert signer !in Elements(signers);
  }

  function Group(groups: ListDict, h: string): seq<Record> {
    if h in groups.lists then groups.lists[h] else []
  }

  /** `groups` after the signers in `done`. */
  ghost predicate Grouped(p: Panel, counted: set<Record>, choice: map<string, string>, groups: ListDict, done: set<string>) {
    groups.Valid() && forall h :: GroupOf(p, counted, choice, Group(groups, h), h, Voters(SaidBy(p, counted), h) * done)
  }

  lemma SkipEquivocal(p: Panel, counted: set<Record>, choice: map<string, string>, groups: ListDict, done: set<string>, signer: string)
    requires Grouped(p, counted, choice, groups, done) && signer in Equivocal(SaidBy(p, counted))
    ensures Grouped(p, counted, choice, groups, done + {signer})
  {
    var said := SaidBy(p, counted);
    forall h ensures GroupOf(p, counted, choice, Group(groups, h), h, Voters(said, h) * (done + {signer})) {
      assert Voters(said, h) * (done + {signer}) == Voters(said, h) * done;
    }
  }

  lemma AddVoter(p: Panel, counted: set<Record>, choice: map<string, string>, groups: ListDict, done: set<string>, a: Record)
    requires Grouped(p, counted, choice, groups, done) && a in counted && RecordHashOf(a) == Lookup(choice, SignerOf(p, a))
    requires SignerOf(p, a) !in done && SignerOf(p, a) in Voters(SaidBy(p, counted), HashOf(a))
    ensures Grouped(p, counted, choice, groups.Append(HashOf(a), a), done + {SignerOf(p, a)})
  {
    var said, signer, more := SaidBy(p, counted), SignerOf(p, a), groups.Append(HashOf(a), a);
    forall h ensures GroupOf(p, counted, choice, Group(more, h), h, Voters(said, h) * (done + {signer})) {
      if h == HashOf(a) {
        GroupOneMore(p, counted, choice, Group(groups, h), h, Voters(said, h) * done, a);
        assert Voters(said, h) * (done + {signer}) == Voters(said, h) * done + {signer};
      } else {
        VotersAreDisjoint(said, h, HashOf(a));
        assert Voters(said, h) * (done + {signer}) == Voters(said, h) * done;
      }
    }
  }

  lemma AppendDistinct(l: seq<string>, x: string)
    requires Distinct(l) && x !in Elements(l)
    ensures Distinct(l + [x]) && Elements(l + [x]) == Elements(l) + {x}
  {
  }

  lemma NextKey(keys: seq<string>, i: nat)
    requires Distinct(keys) && i < |keys|
    ensures Elements(keys[..i + 1]) == Elements(keys[..i]) + {keys[i]} && keys[i] !in Elements(keys[..i])
    ensures keys[i] in Elements(keys)
  {
  }

  lemma KeysAreSpeakers(p: Panel, counted: set<Record>, d: ListDict)
    requires BySigner(p, counted, d)
    ensures Speakers(SaidBy(p, counted)) == Elements(d.keys)
    ensures Equivocal(SaidBy(p, counted)) * Elements(d.keys) == Equivocal(SaidBy(p, counted))
  {
    forall k ensures k in Speakers(SaidBy(p, counted)) <==> k in Elements(d.keys) {
      BySignerHashes(p, counted, d, k);
    }
  }

  /** The first attestation of an undivided signer joins that signer's group. */
  lemma AddUndivided(p: Panel, counted: set<Record>, choice: map<string, string>, d: ListDict, groups: ListDict, done: set<string>, signer: string)
    requires BySigner(p, counted, d) && Heads(d, choice) && signer in d.lists && signer !in done
    requires Grouped(p, counted, choice, groups, done) && |HashSet(d.lists[signer])| == 1
    ensures
      var first := d.lists[signer][0];
      Grouped(p, counted, choice, groups.Append(HashOf(first), first), done + {signer})
    ensures signer !in Equivocal(SaidBy(p, counted))
  {
    var first := d.lists[signer][0];
    assert HashOf(first) in HashSet(d.lists[signer]);
    BySignerHashes(p, counted, d, signer);
    VoterHasOneHash(SaidBy(p, counted), signer, HashOf(first));
    AddVoter(p, counted, choice, groups, done, first);
  }

  lemma SkipDivided(p: Panel, counted: set<Record>, choice: map<string, string>, d: ListDict, groups: ListDict, done: set<string>, signer: string)
    requires BySigner(p, counted, d) && signer in d.lists
    requires Grouped(p, counted, choice, groups, done) && |HashSet(d.lists[signer])| != 1
    ensures Grouped(p, counted, choice, groups, done + {signer})
    ensures signer in Equivocal(SaidBy(p, counted))
  {
    BySignerHashes(p, counted, d, signer);
    UndividedSpeaker(SaidBy(p, counted), signer);
    SkipEquivocal(p, counted, choice, groups, done, signer);
  }

  method GroupByStatement(p: Panel, ghost counted: set<Record>, ghost choice: map<string, string>, bySigner: ListDict)
    returns (groups: ListDict, equivocal: seq<string>)
    requires BySigner(p, counted, bySigner) && Heads(bySigner, choice)
    ensures Grouped(p, counted, choice, groups, Speakers(SaidBy(p, counted)))
    ensures Distinct(equivocal) && Elements(equivocal) == Equivocal(SaidBy(p, counted))
  {
    groups, equivocal := ListDict([], map[]), [];
    var keys := bySigner.keys;
    for i := 0 to |keys|
      invariant Grouped(p, counted, choice, groups, Elements(keys[..i]))
      invariant Distinct(equivocal) && Elements(equivocal) == Equivocal(SaidBy(p, counted)) * Elements(keys[..i])
    {
      var signer := keys[i];
      NextKey(keys, i);
      var hashes := HashSet(bySigner.lists[signer]);
      if |hashes| != 1 {
        SkipDivided(p, counted, choice, bySigner, groups, Elements(keys[..i]), signer);
        AppendDistinct(equivocal, signer);
        equivocal := equivocal + [signer];
      } else {
        AddUndivided(p, counted, choice, bySigner, groups, Elements(keys[..i]), signer);
        var first := bySigner.lists[signer][0];
        groups := groups.Append(HashOf(first), first);
      }
    }
    assert keys[..|keys|] == keys;
    KeysAreSpeakers(p, counted, bySigner);
  }

  // ----- the maximum, and the whole function

  /** `key=lambda group: (len(group), sorted(record hashes))` */
  predicate KeyLess(a: seq<Record>, b: seq<Record>) {
    |a| < |b| || (|a| == |b| && ListLess(Sort(RecordHashes(a)), Sort(RecordHashes(b))))
  }

  lemma NotLessThenLess(a: seq<Record>, b: seq<Record>, c: seq<Record>)
    requires !KeyLess(b, a) && KeyLess(b, c)
    ensures !KeyLess(c, a)
  {
    var x, y, z := Sort(RecordHashes(a)), Sort(RecordHashes(b)), Sort(RecordHashes(c));
    if |a| == |b| == |c| {
      NotAboveThenBelow(x, y, z);
      ListLessAsymmetric(x, z);
    }
  }

  lemma KeyLessIrreflexive(a: seq<Record>)
    ensures !KeyLess(a, a)
  {
    ListLessAsymmetric(Sort(RecordHashes(a)), Sort(RecordHashes(a)));
  }

  /** `max(groups.values(), key=..., default=[])` */
  method Largest(groups: ListDict) returns (accepted: seq<Record>)
    requires groups.Valid()
    ensures groups.keys == [] ==> accepted == []
    ensures groups.keys != [] ==> exists h :: h in groups.lists && accepted == groups.lists[h]
    ensures forall h :: h in groups.lists ==> !KeyLess(accepted, groups.lists[h])
  {
    hide KeyLess;
    accepted := [];
    var keys := groups.keys;
    for i := 0 to |keys|
      invariant i == 0 ==> accepted == []
      invariant i > 0 ==> exists h :: h in groups.lists && accepted == groups.lists[h]
      invariant forall j :: 0 <= j < i ==> keys[j] in groups.lists && !KeyLess(accepted, groups.lists[keys[j]])
    {
      assert keys[i] in Elements(keys);
      var group := groups.lists[keys[i]];
      KeyLessIrreflexive(group);
      if i == 0 || KeyLess(accepted, group) {
        forall j | 0 <= j < i ensures !KeyLess(group, groups.lists[keys[j]]) {
          NotLessThenLess(groups.lists[keys[j]], accepted, group);
        }
        accepted := group;
      }
    }
    forall h | h in groups.lists ensures !KeyLess(accepted, groups.lists[h]) {
      assert h in Elements(keys);
      var j :| 0 <= j < |keys| && keys[j] == h;
    }
  }

  method Qualifying(groups: ListDict, threshold: int) returns (qualifying: seq<string>)
    requires groups.Valid()
    ensures Distinct(qualifying)
    ensures forall h :: h in qualifying <==> h in groups.lists && |groups.lists[h]| >= threshold
  {
    qualifying := [];
    var keys := groups.keys;
    for i := 0 to |keys|
      invariant Distinct(qualifying)
      invariant forall h :: h in qualifying <==> h in groups.lists && |groups.lists[h]| >= threshold && h in keys[..i]
    {
      NextKey(keys, i);
      assert forall h :: h in keys[..i + 1] <==> h in keys[..i] || h == keys[i];
      if |groups.lists[keys[i]]| >= threshold {
        qualifying := qualifying + [keys[i]];
      }
    }
    forall h | h in groups.lists ensures h in keys[..|keys|] {
      assert h in Elements(keys);
    }
  }

  datatype QuorumError = ThresholdNotPositive | ThresholdExceedsSigners

  lemma FullGroups(p: Panel, counted: set<Record>, choice: map<string, string>, groups: ListDict, h: string)
    requires Grouped(p, counted, choice, groups, Speakers(SaidBy(p, counted)))
    ensures GroupOf(p, counted, choice, Group(groups, h), h, Voters(SaidBy(p, counted), h))
    ensures |Group(groups, h)| == |Voters(SaidBy(p, counted), h)|
    ensures Sort(RecordHashes(Group(groups, h))) == Rank(Voters(SaidBy(p, counted), h), choice)
  {
    var said := SaidBy(p, counted);
    assert Voters(said, h) * Speakers(said) == Voters(said, h);
    DistinctMultiset(SignersIn(p, Group(groups, h)));
    GroupKey(p, counted, choice, Group(groups, h), h, Voters(said, h));
  }

  /** A group's key does not depend on the order of its members. */
  lemma GroupKey(p: Panel, counted: set<Record>, choice: map<string, string>, group: seq<Record>, h: string, voters: set<string>)
    requires GroupOf(p, counted, choice, group, h, voters)
    ensures Sort(RecordHashes(group)) == Rank(voters, choice)
  {
    var signers, ordered := SignersIn(p, group), InOrder(voters);
    assert RecordHashes(group) == HashList(signers, choice) by {
      forall i | 0 <= i < |group| ensures RecordHashes(group)[i] == HashList(signers, choice)[i] {
        assert group[i] in group;
      }
    }
    DistinctMultiset(signers);
    DistinctMultiset(ordered);
    HashListOfPermutation(signers, ordered, choice);
    SortIgnoresOrder(HashList(signers, choice), HashList(ordered, choice));
  }

  lemma HashListConcat(a: seq<string>, b: seq<string>, choice: map<string, string>)
    ensures HashList(a + b, choice) == HashList(a, choice) + HashList(b, choice)
  {
  }

  lemma HashListWithout(before: seq<string>, x: string, after: seq<string>, choice: map<string, string>)
    ensures multiset(HashList(before + [x] + after, choice))
         == multiset(HashList(before + after, choice)) + multiset(HashList([x], choice))
  {
    HashListConcat(before, [x], choice);
    HashListConcat(before + [x], after, choice);
    HashListConcat(before, after, choice);
  }

  lemma {:induction false} HashListOfPermutation(a: seq<string>, b: seq<string>, choice: map<string, string>)
    requires multiset(a) == multiset(b)
    ensures multiset(HashList(a, choice)) == multiset(HashList(b, choice))
  {
    assert |multiset(a)| == |a| && |multiset(b)| == |b|;
    if a != [] {
      var front, last := a[..|a| - 1], a[|a| - 1];
      assert a == front + [last];
      assert last in multiset(b);
      var i :| 0 <= i < |b| && b[i] == last;
      var before, after := b[..i], b[i + 1..];
      assert b == before + [last] + after;
      DropFromPermutation(front, last, before, after);
      HashListOfPermutation(front, before + after, choice);
      HashListWithout(before, last, after, choice);
      HashListWithout(front, last, [], choice);
      assert front + [last] + [] == a && front + [] == front;
    }
  }

  method CountVerified(s: Suite, p: Panel, attestations: seq<Record>) returns (verified: seq<Record>, bySigner: ListDict)
    ensures BySigner(p, Counted(s, p, attestations), bySigner) && Heads(bySigner, Chosen(s, p, attestations))
    ensures RecordHashes(verified) == CountedHashes(s, p, attestations)
  {
    verified, bySigner := [], ListDict([], map[]);
    ghost var counted: set<Record> := {};
    for i := 0 to |attestations|
      invariant counted == Counted(s, p, attestations[..i]) && BySigner(p, counted, bySigner)
      invariant FirstsSoFar(s, p, attestations[..i], bySigner)
      invariant RecordHashes(verified) == CountedHashes(s, p, attestations[..i])
    {
      var a := attestations[i];
      CountOneMore(s, p, attestations, i);
      FirstsOneMore(s, p, attestations, i, counted, bySigner);
      if !Counts(s, p, a) {
        continue;
      }
      BySignerOneMore(p, counted, bySigner, a);
      OneMoreRecordHash(verified, a);
      counted := counted + {a};
      bySigner := bySigner.Append(SignerOf(p, a), a);
      verified := verified + [a];
    }
    assert attestations[..|attestations|] == attestations;
    FirstsAreHeads(s, p, attestations, bySigner);
  }

  lemma OneMoreRecordHash(verified: seq<Record>, a: Record)
    ensures RecordHashes(verified + [a]) == RecordHashes(verified) + [TextOf(Get(a, RecordHash))]
  {
  }

  lemma CountOneMore(s: Suite, p: Panel, attestations: seq<Record>, i: nat)
    requires i < |attestations|
    ensures
      var a := attestations[i];
      && Counted(s, p, attestations[..i + 1]) == Counted(s, p, attestations[..i]) + (if Counts(s, p, a) then {a} else {})
      && CountedHashes(s, p, attestations[..i + 1])
         == CountedHashes(s, p, attestations[..i]) + (if Counts(s, p, a) then [TextOf(Get(a, RecordHash))] else [])
  {
    assert attestations[..i + 1][..i] == attestations[..i];
    assert attestations[..i + 1] == attestations[..i] + [attestations[i]];
  }

  /** `verify_quorum` */
  method VerifyQuorum(s: Suite, p: Panel, attestations: seq<Record>) returns (r: Result<Verdict, QuorumError>)
    ensures r.Ok? <==> 1 <= p.threshold <= |p.signers|
    ensures p.threshold < 1 ==> r == Err(ThresholdNotPositive)
    ensures r.Ok? ==> IsVerdict(s, p, attestations, r.value)
  {
    if p.threshold < 1 {
      return Err(ThresholdNotPositive);
    }
    if p.threshold > |p.signers| {
      return Err(ThresholdExceedsSigners);
    }
    var verified, bySigner := CountVerified(s, p, attestations);
    ghost var counted := Counted(s, p, attestations);
    var groups, equivocal := GroupByStatement(p, counted, Chosen(s, p, attestations), bySigner);
    var qualifying := Qualifying(groups, p.threshold);
    var conflict := |qualifying| > 1;
    var accepted := Largest(groups);
    var met := |accepted| >= p.threshold && !conflict;
    var verdict := Verdict(
      met,
      p.threshold,
      |accepted|,
      Sort(SignersIn(p, accepted)),
      if met then Some(StatementOf(accepted[0])) else None,
      ObservationRoot(s, RecordHashes(verified), p.threshold),
      conflict,
      Sort(equivocal));
    VerdictHolds(s, p, attestations, groups, equivocal, qualifying, accepted, verdict);
    r := Ok(verdict);
  }

  lemma ConflictMeansTwo(s: Suite, p: Panel, attestations: seq<Record>, groups: ListDict, qualifying: seq<string>)
    requires p.threshold >= 1
    requires Grouped(p, Counted(s, p, attestations), Chosen(s, p, attestations), groups, Speakers(Said(s, p, attestations)))
    requires Distinct(qualifying)
    requires forall h :: h in qualifying <==> h in groups.lists && |groups.lists[h]| >= p.threshold
    ensures |qualifying| > 1 <==>
      exists h, g :: h != g && |Voters(Said(s, p, attestations), h)| >= p.threshold && |Voters(Said(s, p, attestations), g)| >= p.threshold
  {
    forall h ensures h in qualifying <==> |Voters(Said(s, p, attestations), h)| >= p.threshold {
      FullGroups(p, Counted(s, p, attestations), Chosen(s, p, attestations), groups, h);
    }
    if |qualifying| > 1 {
      assert qualifying[0] in qualifying && qualifying[1] in qualifying && qualifying[0] != qualifying[1];
    }
    if exists h, g :: h != g && h in qualifying && g in qualifying {
      var h, g :| h != g && h in qualifying && g in qualifying;
      var i :| 0 <= i < |qualifying| && qualifying[i] == h;
      var j :| 0 <= j < |qualifying| && qualifying[j] == g;
      assert i != j;
    }
  }

  lemma MemberCarriesStatement(s: Suite, p: Panel, attestations: seq<Record>, accepted: seq<Record>, h: string)
    requires accepted != []
    requires
      GroupOf(p, Counted(s, p, attestations), Chosen(s, p, attestations), accepted, h, Voters(Said(s, p, attestations), h))
    ensures CarriesStatement(s, p, attestations, h, StatementOf(accepted[0]))
  {
    hide Counts, Chosen, Voters;
    assert accepted[0] in accepted;
  }

  lemma LargestLeads(p: Panel, counted: set<Record>, choice: map<string, string>, groups: ListDict, h: string)
    requires Grouped(p, counted, choice, groups, Speakers(SaidBy(p, counted)))
    requires forall g :: g in groups.lists ==> !KeyLess(Group(groups, h), groups.lists[g])
    ensures Leads(SaidBy(p, counted), choice, h)
    ensures forall g :: |Voters(SaidBy(p, counted), g)| <= |Group(groups, h)|
  {
    hide Grouped, Voters, SaidBy, Rank, GroupOf;
    FullGroups(p, counted, choice, groups, h);
    forall g
      ensures |Voters(SaidBy(p, counted), g)| <= |Group(groups, h)|
      ensures |Voters(SaidBy(p, counted), g)| == |Voters(SaidBy(p, counted), h)| ==>
        !ListLess(Rank(Voters(SaidBy(p, counted), h), choice), Rank(Voters(SaidBy(p, counted), g), choice))
    {
      FullGroups(p, counted, choice, groups, g);
      ListLessAsymmetric([], []);
    }
  }

  lemma VerdictHolds(s: Suite, p: Panel, attestations: seq<Record>, groups: ListDict, equivocal: seq<string>,
                     qualifying: seq<string>, accepted: seq<Record>, v: Verdict)
    requires p.threshold >= 1
    requires Grouped(p, Counted(s, p, attestations), Chosen(s, p, attestations), groups, Speakers(Said(s, p, attestations)))
    requires Distinct(equivocal) && Elements(equivocal) == Equivocal(Said(s, p, attestations))
    requires Distinct(qualifying)
    requires forall h :: h in qualifying <==> h in groups.lists && |groups.lists[h]| >= p.threshold
    requires groups.keys == [] ==> accepted == []
    requires groups.keys != [] ==> exists h :: h in groups.lists && accepted == groups.lists[h]
    requires forall h :: h in groups.lists ==> !KeyLess(accepted, groups.lists[h])
    requires v.met == (|accepted| >= p.threshold && !v.conflict) && v.conflict == (|qualifying| > 1)
    requires v.threshold == p.threshold && v.accepted == |accepted|
    requires v.signers == Sort(SignersIn(p, accepted)) && v.equivocal == Sort(equivocal)
    requires v.statement == if v.met then Some(StatementOf(accepted[0])) else None
    requires v.observationRoot == ObservationRoot(s, CountedHashes(s, p, attestations), p.threshold)
    ensures IsVerdict(s, p, attestations, v)
  {
    hide Grouped, KeyLess, Chosen, Counted, SaidBy, Voters, Equivocal, Counts, GroupOf, Leads, Rank,
      SignersIn, StatementOf, ReportsGroup, ObservationRoot, CountedHashes;
    ConflictMeansTwo(s, p, attestations, groups, qualifying);
    var h := AcceptedGroup(p, Counted(s, p, attestations), Chosen(s, p, attestations), groups, accepted);
    FullGroups(p, Counted(s, p, attestations), Chosen(s, p, attestations), groups, h);
    LargestLeads(p, Counted(s, p, attestations), Chosen(s, p, attestations), groups, h);
    SortedDistinct(equivocal);
    GroupIsReported(s, p, attestations, accepted, h, v);
  }

  lemma AcceptedGroup(p: Panel, counted: set<Record>, choice: map<string, string>, groups: ListDict, accepted: seq<Record>)
    returns (h: string)
    requires Grouped(p, counted, choice, groups, Speakers(SaidBy(p, counted)))
    requires groups.keys == [] ==> accepted == []
    requires groups.keys != [] ==> exists h :: h in groups.lists && accepted == groups.lists[h]
    ensures accepted == Group(groups, h)
  {
    hide GroupOf, SaidBy, Voters;
    if groups.keys == [] {
      h := "";
      assert groups.lists.Keys == Elements(groups.keys) == {};
    } else {
      h :| h in groups.lists && accepted == groups.lists[h];
    }
  }

  lemma GroupIsReported(s: Suite, p: Panel, attestations: seq<Record>, accepted: seq<Record>, h: string, v: Verdict)
    requires p.threshold >= 1
    requires
      GroupOf(p, Counted(s, p, attestations), Chosen(s, p, attestations), accepted, h, Voters(Said(s, p, attestations), h))
    requires Leads(Said(s, p, attestations), Chosen(s, p, attestations), h)
    requires v.met ==> |accepted| >= p.threshold
    requires v.signers == Sort(SignersIn(p, accepted))
    requires v.statement == if v.met then Some(StatementOf(accepted[0])) else None
    ensures ReportsGroup(s, p, attestations, v, h)
    ensures Distinct(v.signers) && Sorted(v.signers) && |v.signers| == |accepted|
  {
    hide Chosen, Counted, SaidBy, Voters, Leads, CarriesStatement;
    SortedDistinct(SignersIn(p, accepted));
    if v.met { MemberCarriesStatement(s, p, attestations, accepted, h); }
  }

  lemma SortedDistinct(l: seq<string>)
    requires Distinct(l)
    ensures Distinct(Sort(l)) && Elements(Sort(l)) == Elements(l)
  {
    SortKeepsElements(l);
    DistinctMultiset(l);
    DistinctIfSmall(Sort(l));
  }

  lemma RepeatedElement(l: seq<string>, i: nat, j: nat)
    requires i < j < |l| && l[i] == l[j]
    ensures multiset(l)[l[i]] >= 2
  {
    assert l == l[..j] + [l[j]] + l[j + 1..];
    assert l[i] in l[..j];
  }

  lemma DistinctIfSmall(l: seq<string>)
    requires multiset(l) == multiset(Elements(l))
    ensures Distinct(l)
  {
    forall i, j | 0 <= i < j < |l| ensures l[i] != l[j] {
      if l[i] == l[j] {
        RepeatedElement(l, i, j);
      }
    }
  }
}
