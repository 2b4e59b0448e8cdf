/**
 When the signers of a verdict depend on the order of the attestations
 (proofrail/quorum.py): only through `signer_attestations[0]`, which decides the
 record hash a signer brings to the rank of a group.
 */
module QuorumOrder {
  import opened Hashing
  import opened Sorting
  import opened Quorum
  import QuorumLoop

  // ----- which record hashes a signer can bring

  /** The record hashes of a signer's counted attestations. */
  function HashesBy(s: Suite, p: Panel, attestations: seq<Record>, signer: string): set<string> {
    set a | a in attestations && CountsFor(s, p, a, signer) :: RecordHashOf(a)
  }

  function LeastHashes(s: Suite, p: Panel, attestations: seq<Record>): map<string, string> {
    map signer | signer in Speakers(Said(s, p, attestations)) ::
      var own := HashesBy(s, p, attestations, signer);
      if own == {} then "" else Least(own)
  }

  function GreatestHashes(s: Suite, p: Panel, attestations: seq<Record>): map<string, string> {
    map signer | signer in Speakers(Said(s, p, attestations)) ::
      var own := HashesBy(s, p, attestations, signer);
      if own == {} then "" else Greatest(own)
  }

  /** No group holds more signers than that of `h`. */
  ghost predicate Largest(said: set<(string, string)>, h: string) {
    forall g :: |Voters(said, g)| <= |Voters(said, h)|
  }

  /** The group of `h` outranks every other group of its size, however the
      attestations are ordered: even with its voters' least record hashes against
      the others' greatest. */
  ghost predicate Outranks(s: Suite, p: Panel, attestations: seq<Record>, h: string) {
    var said := Said(s, p, attestations);
    forall g :: g != h && |Voters(said, g)| == |Voters(said, h)| ==>
      ListLess(Rank(Voters(said, g), GreatestHashes(s, p, attestations)), Rank(Voters(said, h), LeastHashes(s, p, attestations)))
  }

  /** One largest group outranks the others in every order, or nobody votes. */
  ghost predicate Decided(s: Suite, p: Panel, attestations: seq<Record>) {
    var said := Said(s, p, attestations);
    || (forall h :: Voters(said, h) == {})
    || exists h :: Largest(said, h) && Outranks(s, p, attestations, h)
  }

  /** A verdict on the attestations in some order. */
  ghost predicate IsVerdictOf(s: Suite, p: Panel, attestations: seq<Record>, b: seq<Record>, v: Verdict) {
    multiset(b) == multiset(attestations) && IsVerdict(s, p, b, v)
  }

  /** Every order of the attestations gets the same signers. */
  ghost predicate OrderFree(s: Suite, p: Panel, attestations: seq<Record>) {
    forall b, c, vb, vc :: IsVerdictOf(s, p, attestations, b, vb) && IsVerdictOf(s, p, attestations, c, vc) ==> vb.signers == vc.signers
  }

  // ----- every choice lies between the least and the greatest hashes

  lemma SpeakerHasHash(s: Suite, p: Panel, attestations: seq<Record>, signer: string)
    requires signer in Speakers(Said(s, p, attestations))
    ensures FirstOf(s, p, attestations, signer).Some?
    ensures RecordHashOf(FirstOf(s, p, attestations, signer).value) in HashesBy(s, p, attestations, signer)
  {
    var x :| x in Said(s, p, attestations) && x.0 == signer;
    var a :| a in Counted(s, p, attestations) && (SignerOf(p, a), HashOf(a)) == x;
    assert CountsFor(s, p, a, signer);
  }

  lemma ChoiceIsBetween(s: Suite, p: Panel, attestations: seq<Record>, signer: string)
    requires signer in Speakers(Said(s, p, attestations))
    ensures
      var chosen := Lookup(Chosen(s, p, attestations), signer);
      && TextLe(Lookup(LeastHashes(s, p, attestations), signer), chosen)
      && TextLe(chosen, Lookup(GreatestHashes(s, p, attestations), signer))
  {
    SpeakerHasHash(s, p, attestations, signer);
  }

  lemma RankIsMonotone(voters: set<string>, low: map<string, string>, high: map<string, string>)
    requires forall v :: v in voters ==> TextLe(Lookup(low, v), Lookup(high, v))
    ensures !ListLess(Rank(voters, high), Rank(voters, low))
  {
    var names := InOrder(voters);
    forall i | 0 <= i < |names| ensures TextLe(HashList(names, low)[i], HashList(names, high)[i]) {
      assert names[i] in Elements(names);
    }
    SortKeepsPointwise(HashList(names, low), HashList(names, high));
    PointwiseIsNotAbove(Rank(voters, low), Rank(voters, high));
  }

  lemma RankDependsOnVoters(voters: set<string>, a: map<string, string>, b: map<string, string>)
    requires forall v :: v in voters ==> Lookup(a, v) == Lookup(b, v)
    ensures Rank(voters, a) == Rank(voters, b)
  {
    var names := InOrder(voters);
    assert HashList(names, a) == HashList(names, b) by {
      forall i | 0 <= i < |names| ensures HashList(names, a)[i] == HashList(names, b)[i] {
        assert names[i] in Elements(names);
      }
    }
  }

  lemma RankIsBetween(s: Suite, p: Panel, attestations: seq<Record>, h: string)
    ensures
      var voters := Voters(Said(s, p, attestations), h);
      var rank := Rank(voters, Chosen(s, p, attestations));
      && !ListLess(rank, Rank(voters, LeastHashes(s, p, attestations)))
      && !ListLess(Rank(voters, GreatestHashes(s, p, attestations)), rank)
  {
    hide Rank, Lookup, Chosen, LeastHashes, GreatestHashes, Said;
    var voters := Voters(Said(s, p, attestations), h);
    forall v | v in voters
      ensures TextLe(Lookup(LeastHashes(s, p, attestations), v), Lookup(Chosen(s, p, attestations), v))
      ensures TextLe(Lookup(Chosen(s, p, attestations), v), Lookup(GreatestHashes(s, p, attestations), v))
    {
      ChoiceIsBetween(s, p, attestations, v);
    }
    RankIsMonotone(voters, LeastHashes(s, p, attestations), Chosen(s, p, attestations));
    RankIsMonotone(voters, Chosen(s, p, attestations), GreatestHashes(s, p, attestations));
  }

  lemma SameMembersSameBounds(s: Suite, p: Panel, a: seq<Record>, b: seq<Record>)
    requires Elements(a) == Elements(b)
    ensures Said(s, p, a) == Said(s, p, b)
    ensures LeastHashes(s, p, a) == LeastHashes(s, p, b) && GreatestHashes(s, p, a) == GreatestHashes(s, p, b)
  {
    hide Counts, Said;
    SameMembersSaySame(s, p, a, b);
    forall signer ensures HashesBy(s, p, a, signer) == HashesBy(s, p, b, signer) {
      forall x ensures x in a <==> x in b {
        assert x in Elements(a) <==> x in Elements(b);
      }
    }
  }

  lemma PermutedMembers(a: seq<Record>, b: seq<Record>)
    requires multiset(a) == multiset(b)
    ensures Elements(a) == Elements(b)
  {
    forall x ensures x in a <==> x in b {
      assert x in multiset(a) <==> x in multiset(b);
    }
  }

  // ----- decided, then order-free

  lemma ReportedGroup(s: Suite, p: Panel, attestations: seq<Record>, v: Verdict) returns (h: string)
    requires IsVerdict(s, p, attestations, v)
    ensures Elements(v.signers) == Voters(Said(s, p, attestations), h) && Largest(Said(s, p, attestations), h)
    ensures Leads(Said(s, p, attestations), Chosen(s, p, attestations), h)
    ensures Sorted(v.signers) && Distinct(v.signers)
  {
    hide Leads, Counted, SaidBy, Voters, Equivocal;
    h :| ReportsGroup(s, p, attestations, v, h);
    GroupSize(s, p, attestations, v, h);
  }

  lemma OutrankingGroupIsReported(s: Suite, p: Panel, a: seq<Record>, b: seq<Record>, vb: Verdict, h: string)
    requires multiset(a) == multiset(b) && IsVerdict(s, p, b, vb)
    requires Largest(Said(s, p, a), h) && Outranks(s, p, a, h)
    ensures Elements(vb.signers) == Voters(Said(s, p, a), h) && Sorted(vb.signers) && Distinct(vb.signers)
  {
    hide IsVerdict, Said, Voters, Rank, Chosen, LeastHashes, GreatestHashes;
    PermutedMembers(a, b);
    SameMembersSameBounds(s, p, a, b);
    var g := ReportedGroup(s, p, b, vb);
    if g != h {
      RankIsBetween(s, p, b, g);
      RankIsBetween(s, p, b, h);
      var said := Said(s, p, b);
      NotAboveThenBelow(Rank(Voters(said, g), Chosen(s, p, b)), Rank(Voters(said, g), GreatestHashes(s, p, b)),
                        Rank(Voters(said, h), LeastHashes(s, p, b)));
      BelowThenNotAbove(Rank(Voters(said, g), Chosen(s, p, b)), Rank(Voters(said, h), LeastHashes(s, p, b)),
                        Rank(Voters(said, h), Chosen(s, p, b)));
    }
  }

  lemma DecidedIsOrderFree(s: Suite, p: Panel, a: seq<Record>, b: seq<Record>, c: seq<Record>, vb: Verdict, vc: Verdict)
    requires Decided(s, p, a) && multiset(b) == multiset(a) && multiset(c) == multiset(a)
    requires IsVerdict(s, p, b, vb) && IsVerdict(s, p, c, vc)
    ensures vb.signers == vc.signers
  {
    hide IsVerdict, Said, Voters, Outranks;
    var said := Said(s, p, a);
    if h :| Largest(said, h) && Outranks(s, p, a, h) {
      OutrankingGroupIsReported(s, p, a, b, vb, h);
      OutrankingGroupIsReported(s, p, a, c, vc, h);
    } else {
      PermutedMembers(a, b);
      PermutedMembers(a, c);
      SameMembersSaySame(s, p, a, b);
      SameMembersSaySame(s, p, a, c);
      var g := ReportedGroup(s, p, b, vb);
      var k := ReportedGroup(s, p, c, vc);
    }
    SortedSetIsUnique(vb.signers, vc.signers);
  }

  // ----- every list has a verdict

  predicate Below(said: set<(string, string)>, choice: map<string, string>, h: string, g: string) {
    || |Voters(said, h)| < |Voters(said, g)|
    || (|Voters(said, h)| == |Voters(said, g)| && ListLess(Rank(Voters(said, h), choice), Rank(Voters(said, g), choice)))
  }

  lemma BelowIsTransitive(said: set<(string, string)>, choice: map<string, string>, f: string, g: string, h: string)
    requires !Below(said, choice, g, f) && Below(said, choice, g, h)
    ensures !Below(said, choice, h, f)
  {
    hide Voters, Rank;
    var x, y, z := Rank(Voters(said, f), choice), Rank(Voters(said, g), choice), Rank(Voters(said, h), choice);
    if |x| == |y| == |z| {
      NotAboveThenBelow(x, y, z);
      ListLessAsymmetric(x, z);
    }
  }

  lemma {:induction false} TopExists(said: set<(string, string)>, choice: map<string, string>, hashes: set<string>) returns (top: string)
    requires hashes != {}
    ensures top in hashes && forall h :: h in hashes ==> !Below(said, choice, top, h)
  {
    hide Below;
    var some :| some in hashes;
    NotBelowItself(said, choice, some);
    top := some;
    if hashes - {some} != {} {
      var best := TopExists(said, choice, hashes - {some});
      if Below(said, choice, best, some) {
        forall h | h in hashes ensures !Below(said, choice, some, h) {
          if h != some { BelowIsTransitive(said, choice, h, best, some); }
        }
      } else {
        top := best;
      }
    }
  }

  lemma NotBelowItself(said: set<(string, string)>, choice: map<string, string>, h: string)
    ensures !Below(said, choice, h, h)
  {
    ListLessAsymmetric(Rank(Voters(said, h), choice), Rank(Voters(said, h), choice));
  }

  lemma LeaderExists(said: set<(string, string)>, choice: map<string, string>) returns (h: string)
    ensures Largest(said, h) && Leads(said, choice, h)
  {
    var hashes := set x | x in said :: x.1;
    if hashes == {} {
      h := "";
    } else {
      h := TopExists(said, choice, hashes);
    }
    hide Below;
    forall g ensures !Below(said, choice, h, g) {
      if g !in hashes { NotBelowNobody(said, choice, hashes, h, g); }
    }
    TopLeads(said, choice, h);
  }

  lemma NotBelowNobody(said: set<(string, string)>, choice: map<string, string>, hashes: set<string>, h: string, g: string)
    requires hashes == (set x | x in said :: x.1) && g !in hashes
    ensures !Below(said, choice, h, g)
  {
    NobodyVotes(said, hashes, g);
    if Voters(said, h) == {} {
      ListLessAsymmetric([], []);
    }
  }

  lemma TopLeads(said: set<(string, string)>, choice: map<string, string>, h: string)
    requires forall g :: !Below(said, choice, h, g)
    ensures Largest(said, h) && Leads(said, choice, h)
  {
    hide Voters, Rank;
    forall g ensures |Voters(said, g)| <= |Voters(said, h)| {
      assert !Below(said, choice, h, g);
    }
    forall g | |Voters(said, g)| == |Voters(said, h)|
      ensures !ListLess(Rank(Voters(said, h), choice), Rank(Voters(said, g), choice))
    {
      assert !Below(said, choice, h, g);
    }
  }

  lemma NobodyVotes(said: set<(string, string)>, hashes: set<string>, g: string)
    requires hashes == (set x | x in said :: x.1) && g !in hashes
    ensures Voters(said, g) == {}
  {
    forall v ensures v !in Voters(said, g) {
      assert (v, g) in said ==> (v, g).1 in hashes;
    }
  }

  /** The specification of `verify_quorum` can be met for every list. */
  lemma VerdictExists(s: Suite, p: Panel, attestations: seq<Record>) returns (v: Verdict)
    requires p.threshold >= 1
    ensures IsVerdict(s, p, attestations, v)
  {
    hide Chosen, Counted, SaidBy, Voters, Equivocal, Leads, CarriesStatement, ObservationRoot, CountedHashes;
    var said := Said(s, p, attestations);
    var h := LeaderExists(said, Chosen(s, p, attestations));
    var voters := Voters(said, h);
    var conflict := exists h, g :: h != g && |Voters(said, h)| >= p.threshold && |Voters(said, g)| >= p.threshold;
    var met := |voters| >= p.threshold && !conflict;
    DistinctMultiset(InOrder(voters));
    var statement := None;
    if met {
      var stated := VoterStates(s, p, attestations, h);
      statement := Some(stated);
    }
    v := Verdict(met, p.threshold, |voters|, InOrder(voters), statement,
                 ObservationRoot(s, CountedHashes(s, p, attestations), p.threshold), conflict, InOrder(Equivocal(said)));
    assert ReportsGroup(s, p, attestations, v, h);
  }

  lemma VoterStates(s: Suite, p: Panel, attestations: seq<Record>, h: string) returns (statement: Record)
    requires Voters(Said(s, p, attestations), h) != {}
    ensures CarriesStatement(s, p, attestations, h, statement)
  {
    var v :| v in Voters(Said(s, p, attestations), h);
    var a :| a in Counted(s, p, attestations) && (SignerOf(p, a), HashOf(a)) == (v, h);
    statement := StatementOf(a);
  }

  // ----- an order that gives chosen signers chosen attestations

  function Those(l: seq<Record>, picks: set<Record>): seq<Record> {
    if l == [] then []
    else Those(l[..|l| - 1], picks) + if l[|l| - 1] in picks then [l[|l| - 1]] else []
  }

  function Others(l: seq<Record>, picks: set<Record>): seq<Record> {
    if l == [] then []
    else Others(l[..|l| - 1], picks) + if l[|l| - 1] in picks then [] else [l[|l| - 1]]
  }

  lemma {:induction false} ThoseFirst(l: seq<Record>, picks: set<Record>)
    ensures multiset(Those(l, picks) + Others(l, picks)) == multiset(l)
    ensures forall a :: a in Those(l, picks) <==> a in l && a in picks
  {
    if l != [] {
      ThoseFirst(l[..|l| - 1], picks);
      assert l == l[..|l| - 1] + [l[|l| - 1]];
    }
  }

  lemma {:induction false} FirstOfConcat(s: Suite, p: Panel, a: seq<Record>, b: seq<Record>, signer: string)
    ensures FirstOf(s, p, a + b, signer)
         == if FirstOf(s, p, a, signer).Some? then FirstOf(s, p, a, signer) else FirstOf(s, p, b, signer)
  {
    if b == [] {
      assert a + b == a;
    } else {
      assert (a + b)[..|a + b| - 1] == a + b[..|b| - 1];
      FirstOfConcat(s, p, a, b[..|b| - 1], signer);
    }
  }

  /** The attestations that bring these record hashes for these signers. */
  function Picks(s: Suite, p: Panel, attestations: seq<Record>, wanted: map<string, string>): set<Record> {
    set a | a in attestations && Counts(s, p, a) && SignerOf(p, a) in wanted && RecordHashOf(a) == wanted[SignerOf(p, a)]
  }

  function PicksFirst(s: Suite, p: Panel, attestations: seq<Record>, wanted: map<string, string>): seq<Record> {
    Those(attestations, Picks(s, p, attestations, wanted)) + Others(attestations, Picks(s, p, attestations, wanted))
  }

  lemma PicksAreChosen(s: Suite, p: Panel, attestations: seq<Record>, wanted: map<string, string>, signer: string)
    requires signer in wanted && wanted[signer] in HashesBy(s, p, attestations, signer)
    ensures Lookup(Chosen(s, p, PicksFirst(s, p, attestations, wanted)), signer) == wanted[signer]
    ensures multiset(PicksFirst(s, p, attestations, wanted)) == multiset(attestations)
  {
    hide Counts;
    var picks := Picks(s, p, attestations, wanted);
    var front, back := Those(attestations, picks), Others(attestations, picks);
    ThoseFirst(attestations, picks);
    var a :| a in attestations && CountsFor(s, p, a, signer) && RecordHashOf(a) == wanted[signer];
    assert a in front && FirstOf(s, p, front, signer).Some?;
    FirstOfConcat(s, p, front, back, signer);
    CountedSpeaks(s, p, front + back, a);
  }

  lemma CountedSpeaks(s: Suite, p: Panel, attestations: seq<Record>, a: Record)
    requires a in attestations && Counts(s, p, a)
    ensures SignerOf(p, a) in Speakers(Said(s, p, attestations))
  {
    assert a in Counted(s, p, attestations);
    var x := (SignerOf(p, a), HashOf(a));
    assert x in Said(s, p, attestations) && x.0 == SignerOf(p, a);
  }

  // ----- different groups never have the same rank

  function RecordInputs(s: Suite, attestations: seq<Record>): set<Bytes> {
    set a | a in attestations :: RecordInput(s, a)
  }

  lemma SameRecordHashSameStatement(s: Suite, p: Panel, attestations: seq<Record>, a: Record, b: Record)
    requires CollisionFree(s, RecordInputs(s, attestations)) && s.Valid()
    requires a in attestations && b in attestations && Counts(s, p, a) && Counts(s, p, b)
    requires RecordHashOf(a) == RecordHashOf(b)
    ensures HashOf(a) == HashOf(b)
  {
    SameDigestSameInput(s, RecordInputs(s, attestations), RecordInput(s, a), RecordInput(s, b));
    ContentKeeps(a, StatementHash);
    ContentKeeps(b, StatementHash);
  }

  lemma RankMember(voters: set<string>, choice: map<string, string>, x: string) returns (v: string)
    requires x in Rank(voters, choice)
    ensures v in voters && Lookup(choice, v) == x
  {
    var names := InOrder(voters);
    assert x in multiset(Rank(voters, choice));
    assert x in multiset(HashList(names, choice));
    var i :| 0 <= i < |names| && HashList(names, choice)[i] == x;
    v := names[i];
    assert v in Elements(names);
  }

  lemma VoterChoice(s: Suite, p: Panel, attestations: seq<Record>, h: string, v: string) returns (a: Record)
    requires v in Voters(Said(s, p, attestations), h)
    ensures a in attestations && Counts(s, p, a) && HashOf(a) == h
    ensures RecordHashOf(a) == Lookup(Chosen(s, p, attestations), v)
  {
    SpeakerHasHash(s, p, attestations, v);
    a := FirstOf(s, p, attestations, v).value;
    VoterStatesOnly(s, p, attestations, h, v, a);
  }

  lemma VoterStatesOnly(s: Suite, p: Panel, attestations: seq<Record>, h: string, v: string, a: Record)
    requires v in Voters(Said(s, p, attestations), h) && a in attestations && CountsFor(s, p, a, v)
    ensures HashOf(a) == h
  {
    hide Counts;
    assert a in Counted(s, p, attestations);
    VoterSaysOnly(Said(s, p, attestations), h, v, HashOf(a));
  }

  lemma VoterSaysOnly(said: set<(string, string)>, h: string, v: string, g: string)
    requires v in Voters(said, h) && (v, g) in said
    ensures g == h
  {
    var x, y := (v, h), (v, g);
    assert x in said && y in said;
  }

  lemma RanksDiffer(s: Suite, p: Panel, attestations: seq<Record>, g: string, h: string)
    requires s.Valid() && CollisionFree(s, RecordInputs(s, attestations))
    requires g != h && Voters(Said(s, p, attestations), g) != {}
    ensures
      var said, choice := Said(s, p, attestations), Chosen(s, p, attestations);
      Rank(Voters(said, g), choice) != Rank(Voters(said, h), choice)
  {
    hide Counts, Said, Voters, Rank, Chosen;
    var said, choice := Said(s, p, attestations), Chosen(s, p, attestations);
    if Rank(Voters(said, g), choice) == Rank(Voters(said, h), choice) {
      var x := Rank(Voters(said, g), choice)[0];
      var v := RankMember(Voters(said, g), choice, x);
      var w := RankMember(Voters(said, h), choice, x);
      var a := VoterChoice(s, p, attestations, g, v);
      var b := VoterChoice(s, p, attestations, h, w);
      SameRecordHashSameStatement(s, p, attestations, a, b);
    }
  }

  // ----- undecided, then not order-free

  /** The voters of `h` bring their least hashes, those of `g` their greatest. */
  function Against(s: Suite, p: Panel, attestations: seq<Record>, h: string, g: string): map<string, string> {
    var said := Said(s, p, attestations);
    map v | v in Voters(said, h) + Voters(said, g) ::
      Lookup(if v in Voters(said, h) then LeastHashes(s, p, attestations) else GreatestHashes(s, p, attestations), v)
  }

  lemma AgainstIsPossible(s: Suite, p: Panel, attestations: seq<Record>, h: string, g: string, v: string)
    requires v in Against(s, p, attestations, h, g)
    ensures Against(s, p, attestations, h, g)[v] in HashesBy(s, p, attestations, v)
  {
    hide LeastHashes, GreatestHashes, HashesBy, Said, Lookup;
    BoundsAreHashes(s, p, attestations, v);
  }

  lemma BoundsAreHashes(s: Suite, p: Panel, attestations: seq<Record>, v: string)
    requires v in Speakers(Said(s, p, attestations))
    ensures Lookup(LeastHashes(s, p, attestations), v) in HashesBy(s, p, attestations, v)
    ensures Lookup(GreatestHashes(s, p, attestations), v) in HashesBy(s, p, attestations, v)
  {
    hide Counts, Said, HashesBy, FirstOf, RecordHashOf;
    SpeakerHasHash(s, p, attestations, v);
  }

  lemma AgainstRanks(s: Suite, p: Panel, a: seq<Record>, h: string, g: string)
    requires g != h
    ensures
      var said, b := Said(s, p, a), PicksFirst(s, p, a, Against(s, p, a, h, g));
      && multiset(b) == multiset(a)
      && Rank(Voters(said, h), Chosen(s, p, b)) == Rank(Voters(said, h), LeastHashes(s, p, a))
      && Rank(Voters(said, g), Chosen(s, p, b)) == Rank(Voters(said, g), GreatestHashes(s, p, a))
  {
    hide Said, Voters, Rank, Chosen, LeastHashes, GreatestHashes, PicksFirst, HashesBy;
    var said, wanted := Said(s, p, a), Against(s, p, a, h, g);
    var b := PicksFirst(s, p, a, wanted);
    VotersAreDisjoint(said, h, g);
    PicksFirstPermutes(s, p, a, wanted);
    forall v | v in wanted ensures Lookup(Chosen(s, p, b), v) == wanted[v] {
      AgainstIsPossible(s, p, a, h, g, v);
      PicksAreChosen(s, p, a, wanted, v);
    }
    RankDependsOnVoters(Voters(said, h), Chosen(s, p, b), LeastHashes(s, p, a));
    RankDependsOnVoters(Voters(said, g), Chosen(s, p, b), GreatestHashes(s, p, a));
  }

  lemma PicksFirstPermutes(s: Suite, p: Panel, a: seq<Record>, wanted: map<string, string>)
    ensures multiset(PicksFirst(s, p, a, wanted)) == multiset(a)
  {
    ThoseFirst(a, Picks(s, p, a, wanted));
  }

  /** An order in which the group of `h` does not lead. */
  lemma CanBeOutranked(s: Suite, p: Panel, a: seq<Record>, h: string) returns (b: seq<Record>)
    requires s.Valid() && CollisionFree(s, RecordInputs(s, a))
    requires Voters(Said(s, p, a), h) != {} && !Outranks(s, p, a, h)
    ensures multiset(b) == multiset(a) && !Leads(Said(s, p, b), Chosen(s, p, b), h)
  {
    hide Said, Voters, Rank, Chosen, LeastHashes, GreatestHashes, PicksFirst, Against, RecordInputs;
    var said := Said(s, p, a);
    var g :| g != h && |Voters(said, g)| == |Voters(said, h)|
      && !ListLess(Rank(Voters(said, g), GreatestHashes(s, p, a)), Rank(Voters(said, h), LeastHashes(s, p, a)));
    b := PicksFirst(s, p, a, Against(s, p, a, h, g));
    AgainstRanks(s, p, a, h, g);
    PermutedMembers(a, b);
    SameMembersSameBounds(s, p, a, b);
    SameInputs(s, a, b);
    RanksDiffer(s, p, b, h, g);
    ListLessTotal(Rank(Voters(said, h), Chosen(s, p, b)), Rank(Voters(said, g), Chosen(s, p, b)));
  }

  lemma SameInputs(s: Suite, a: seq<Record>, b: seq<Record>)
    requires Elements(a) == Elements(b)
    ensures RecordInputs(s, a) == RecordInputs(s, b)
  {
    forall x ensures x in a <==> x in b {
      assert x in Elements(a) <==> x in Elements(b);
    }
  }

  lemma UndecidedDependsOnOrder(s: Suite, p: Panel, a: seq<Record>)
    returns (b: seq<Record>, va: Verdict, vb: Verdict)
    requires s.Valid() && CollisionFree(s, RecordInputs(s, a)) && p.threshold >= 1 && !Decided(s, p, a)
    ensures IsVerdictOf(s, p, a, a, va) && IsVerdictOf(s, p, a, b, vb) && va.signers != vb.signers
  {
    hide IsVerdict, Said, Voters, Outranks, Leads, RecordInputs;
    va := VerdictExists(s, p, a);
    var h := ReportedGroup(s, p, a, va);
    var said := Said(s, p, a);
    b := CanBeOutranked(s, p, a, h);
    vb := VerdictExists(s, p, b);
    var g := ReportedGroup(s, p, b, vb);
    PermutedMembers(a, b);
    SameMembersSaySame(s, p, a, b);
    VotersAreDisjoint(said, h, g);
  }

  /** The exact condition under which the `signers` of a verdict do not depend on
      the order of the attestations. */
  lemma OrderFreeExactlyWhenDecided(s: Suite, p: Panel, attestations: seq<Record>)
    requires s.Valid() && CollisionFree(s, RecordInputs(s, attestations)) && p.threshold >= 1
    ensures OrderFree(s, p, attestations) <==> Decided(s, p, attestations)
  {
    hide IsVerdict, Decided;
    if Decided(s, p, attestations) {
      forall b, c, vb, vc | IsVerdictOf(s, p, attestations, b, vb) && IsVerdictOf(s, p, attestations, c, vc)
        ensures vb.signers == vc.signers
      {
        DecidedIsOrderFree(s, p, attestations, b, c, vb, vc);
      }
    } else {
      var b, va, vb := UndecidedDependsOnOrder(s, p, attestations);
    }
  }

  // ----- the ordinary case

  /** No signer has two counted attestations of one statement with different
      record hashes. */
  ghost predicate NoDoubles(s: Suite, p: Panel, attestations: seq<Record>) {
    forall a, b, signer ::
      a in attestations && b in attestations && CountsFor(s, p, a, signer) && CountsFor(s, p, b, signer) && HashOf(a) == HashOf(b)
      ==> RecordHashOf(a) == RecordHashOf(b)
  }

  lemma VoterHasOneRecordHash(s: Suite, p: Panel, attestations: seq<Record>, h: string, v: string)
    requires NoDoubles(s, p, attestations) && v in Voters(Said(s, p, attestations), h)
    ensures Lookup(LeastHashes(s, p, attestations), v) == Lookup(Chosen(s, p, attestations), v)
    ensures Lookup(GreatestHashes(s, p, attestations), v) == Lookup(Chosen(s, p, attestations), v)
  {
    hide LeastHashes, GreatestHashes, Chosen, Counts, Said;
    SpeakerHasHash(s, p, attestations, v);
    var first := FirstOf(s, p, attestations, v).value;
    VoterStatesOnly(s, p, attestations, h, v, first);
    forall x | x in HashesBy(s, p, attestations, v) ensures x == RecordHashOf(first) {
      var a :| a in attestations && CountsFor(s, p, a, v) && RecordHashOf(a) == x;
      VoterStatesOnly(s, p, attestations, h, v, a);
    }
    BoundsAreHashes(s, p, attestations, v);
    ChosenIsFirst(s, p, attestations, v);
  }

  lemma ChosenIsFirst(s: Suite, p: Panel, attestations: seq<Record>, v: string)
    requires v in Speakers(Said(s, p, attestations)) && FirstOf(s, p, attestations, v).Some?
    ensures Lookup(Chosen(s, p, attestations), v) == RecordHashOf(FirstOf(s, p, attestations, v).value)
  {
  }

  lemma NoDoublesDecides(s: Suite, p: Panel, attestations: seq<Record>)
    requires s.Valid() && CollisionFree(s, RecordInputs(s, attestations)) && NoDoubles(s, p, attestations)
    ensures Decided(s, p, attestations)
  {
    hide Said, Voters, Rank, Chosen, LeastHashes, GreatestHashes, NoDoubles, RecordInputs;
    var said, choice := Said(s, p, attestations), Chosen(s, p, attestations);
    var h := LeaderExists(said, choice);
    if Voters(said, h) != {} {
      forall g | g != h && |Voters(said, g)| == |Voters(said, h)|
        ensures ListLess(Rank(Voters(said, g), GreatestHashes(s, p, attestations)), Rank(Voters(said, h), LeastHashes(s, p, attestations)))
      {
        forall v | v in Voters(said, g) { VoterHasOneRecordHash(s, p, attestations, g, v); }
        forall v | v in Voters(said, h) { VoterHasOneRecordHash(s, p, attestations, h, v); }
        RankDependsOnVoters(Voters(said, g), GreatestHashes(s, p, attestations), choice);
        RankDependsOnVoters(Voters(said, h), LeastHashes(s, p, attestations), choice);
        RanksDiffer(s, p, attestations, h, g);
        ListLessTotal(Rank(Voters(said, g), choice), Rank(Voters(said, h), choice));
      }
      assert Outranks(s, p, attestations, h);
    }
  }

  /** In the ordinary case the whole verdict is the same for every permutation of
      the input. */
  lemma VerdictIgnoresOrderWithoutDoubles(s: Suite, p: Panel, a: seq<Record>, b: seq<Record>, va: Verdict, vb: Verdict)
    requires s.Valid() && CollisionFree(s, RecordInputs(s, a)) && CollisionFree(s, StatementInputs(s, a))
    requires NoDoubles(s, p, a) && multiset(a) == multiset(b) && IsVerdict(s, p, a, va) && IsVerdict(s, p, b, vb)
    ensures va == vb
  {
    hide IsVerdict, Decided, NoDoubles;
    NoDoublesDecides(s, p, a);
    DecidedIsOrderFree(s, p, a, a, b, va, vb);
    VerdictIgnoresOrder(s, p, a, b, va, vb);
  }

  // ----- an input on which the order matters

  /** Two signers, one statement each, the quorum out of reach: the signer with
      the greater record hash is reported. */
  lemma GreaterHashIsReported(s: Suite, p: Panel, l: seq<Record>, v: Verdict, a: string, x: string, b: string, y: string)
    requires a != b && x != y && Said(s, p, l) == {(a, x), (b, y)} && IsVerdict(s, p, l, v)
    requires ListLess([Lookup(Chosen(s, p, l), a)], [Lookup(Chosen(s, p, l), b)])
    ensures v.signers == [b]
  {
    hide IsVerdict, Said, Chosen, Lookup, Rank;
    var said := Said(s, p, l);
    var h := ReportedGroup(s, p, l, v);
    OneVoterEach(said, a, x, b, y);
    RankOfOne(a, Chosen(s, p, l));
    RankOfOne(b, Chosen(s, p, l));
    assert |Voters(said, y)| == 1 && |Voters(said, x)| == 1;
    SortedSetIsUnique(v.signers, [b]);
  }

  lemma OneVoterEach(said: set<(string, string)>, a: string, x: string, b: string, y: string)
    requires a != b && x != y && said == {(a, x), (b, y)}
    ensures Voters(said, x) == {a} && Voters(said, y) == {b}
    ensures forall h :: h != x && h != y ==> Voters(said, h) == {}
  {
    assert (a, x).0 in Speakers(said) && (b, y).0 in Speakers(said);
  }

  lemma RankOfOne(v: string, choice: map<string, string>)
    ensures Rank({v}, choice) == [Lookup(choice, v)]
  {
    var names := InOrder({v});
    DistinctMultiset(names);
    assert names[0] in Elements(names);
    assert names == [v] && HashList(names, choice) == [Lookup(choice, v)];
    assert multiset(Rank({v}, choice)) == multiset(HashList(names, choice));
    assert Rank({v}, choice)[0] in multiset(HashList(names, choice));
  }

  lemma ThreeSay(s: Suite, p: Panel, x: Record, b: Record, y: Record)
    requires Counts(s, p, x) && Counts(s, p, b) && Counts(s, p, y)
    requires SignerOf(p, x) == SignerOf(p, y) != SignerOf(p, b) && HashOf(x) == HashOf(y)
    ensures Said(s, p, [x, b, y]) == {(SignerOf(p, x), HashOf(x)), (SignerOf(p, b), HashOf(b))}
    ensures Lookup(Chosen(s, p, [x, b, y]), SignerOf(p, x)) == RecordHashOf(x)
    ensures Lookup(Chosen(s, p, [x, b, y]), SignerOf(p, b)) == RecordHashOf(b)
  {
    hide Counts, Said, FirstOf, HashOf, SignerOf;
    var l := [x, b, y];
    assert l == [x, b] + [y] && [x, b] == [x] + [b];
    FirstOfConcat(s, p, [x, b], [y], SignerOf(p, x));
    FirstOfConcat(s, p, [x], [b], SignerOf(p, x));
    FirstOfConcat(s, p, [x, b], [y], SignerOf(p, b));
    FirstOfConcat(s, p, [x], [b], SignerOf(p, b));
    FirstOfOne(s, p, x, SignerOf(p, x));
    FirstOfOne(s, p, x, SignerOf(p, b));
    FirstOfOne(s, p, b, SignerOf(p, b));
    SaidInThree(s, p, x, b, y);
  }

  lemma SaidInThree(s: Suite, p: Panel, x: Record, b: Record, y: Record)
    requires Counts(s, p, x) && Counts(s, p, b) && Counts(s, p, y)
    requires SignerOf(p, x) == SignerOf(p, y) && HashOf(x) == HashOf(y)
    ensures Said(s, p, [x, b, y]) == {(SignerOf(p, x), HashOf(x)), (SignerOf(p, b), HashOf(b))}
    ensures SignerOf(p, x) in Speakers(Said(s, p, [x, b, y])) && SignerOf(p, b) in Speakers(Said(s, p, [x, b, y]))
  {
    hide Counts, HashOf, SignerOf;
    var l := [x, b, y];
    assert Counted(s, p, l) == {x, b, y};
    CountedSpeaks(s, p, l, x);
    CountedSpeaks(s, p, l, b);
  }

  lemma FirstOfOne(s: Suite, p: Panel, a: Record, signer: string)
    ensures FirstOf(s, p, [a], signer) == if CountsFor(s, p, a, signer) then Some(a) else None
  {
    assert [a][..0] == [];
  }

  /** A signer attests one statement twice, with record hashes on either side of
      another signer's: swapping the two attestations changes who is reported. */
  lemma SwappingChangesTheSigners(s: Suite, p: Panel, low: Record, b: Record, high: Record, v: Verdict, w: Verdict)
    requires Counts(s, p, low) && Counts(s, p, b) && Counts(s, p, high)
    requires SignerOf(p, low) == SignerOf(p, high) != SignerOf(p, b)
    requires HashOf(low) == HashOf(high) != HashOf(b)
    requires ListLess([RecordHashOf(low)], [RecordHashOf(b)]) && ListLess([RecordHashOf(b)], [RecordHashOf(high)])
    requires IsVerdict(s, p, [low, b, high], v) && IsVerdict(s, p, [high, b, low], w)
    ensures v.signers == [SignerOf(p, b)] && w.signers == [SignerOf(p, low)]
  {
    hide IsVerdict, Counts, Chosen, Said;
    ThreeSay(s, p, low, b, high);
    ThreeSay(s, p, high, b, low);
    GreaterHashIsReported(s, p, [low, b, high], v, SignerOf(p, low), HashOf(low), SignerOf(p, b), HashOf(b));
    GreaterHashIsReported(s, p, [high, b, low], w, SignerOf(p, b), HashOf(b), SignerOf(p, high), HashOf(high));
  }

  /** A toy library on which the example can be computed: a record's hash is 32
      times the number it carries. */
  const TOY := Suite(
    (x: Bytes) => seq(32, _ => if x == [] then 0 else x[0]),
    (r: Record) => [NumberOf(r)],
    (r: Record) => [NumberOf(r)],
    (k, m) => "",
    (k, m, signature) => true,
    (k, m) => "")

  function NumberOf(r: Record): Byte {
    var j := if Get(r, Kind) == Fixed(StatementKind) then Get(FieldsOf(Get(r, Statement)), Version) else Get(r, Version);
    if j.Int? && 0 <= j.i < 256 then j.i else 0
  }

  /** `signer`, whose role is "r", attests statement number `statement`. */
  function Attestation(signer: string, statement: int, number: int): Record {
    SignRecord(TOY, ToyRecord(signer, statement, number), "", "")
  }

  function ToyRecord(signer: string, statement: int, number: int): Record {
    AttestationRecord(TOY, Fixed(ObservationKind), Null, map[Version := Int(statement)], signer, "r")[Version := Int(number)]
  }

  const TWO := Panel(map["A" := Trusted("r", ""), "B" := Trusted("r", "")], 2, Fixed(ObservationKind), Null, (j: Json) => TextOf(j))

  lemma ToyDigest(r: Record)
    ensures |HexSha(TOY, TOY.jcs(r))| == 64
    ensures HexSha(TOY, TOY.jcs(r))[1] == HexDigit(NumberOf(r) % 16) && HexSha(TOY, TOY.jcs(r))[0] == HexDigit(NumberOf(r) / 16)
  {
    var b := TOY.sha256(TOY.jcs(r));
    assert |b| == 32 && b[0] == NumberOf(r);
  }

  lemma ToyRecordIs(signer: string, statement: int, number: int)
    ensures
      var state, body := map[Version := Int(statement)], ToyRecord(signer, statement, number);
      && AttestationIs(body, Fixed(ObservationKind), Null, state, StatementDigest(TOY, state), signer, "r")
      && Get(body, Version) == Int(number) && Content(body) == body && Get(body, Kind) == Fixed(ObservationKind)
  {
    hide StatementDigest;
  }

  lemma ToyAttestationIs(signer: string, statement: int, number: int)
    ensures
      var state, a := map[Version := Int(statement)], Attestation(signer, statement, number);
      && VerifySignature(TOY, a, "")
      && AttestationIs(a, Fixed(ObservationKind), Null, state, StatementDigest(TOY, state), signer, "r")
      && Get(a, RecordHash) == Str(HashRecord(TOY, ToyRecord(signer, statement, number)))
  {
    hide StatementDigest, HashRecord, SignRecord, VerifySignature, ToyRecord, AttestationIs;
    var state, body := map[Version := Int(statement)], ToyRecord(signer, statement, number);
    ToyRecordIs(signer, statement, number);
    SignThenVerify(TOY, body, "", "");
    SignedKeeps(TOY, body, "", "");
    SameAttestation(SignRecord(TOY, body, "", ""), body, Fixed(ObservationKind), Null, state, StatementDigest(TOY, state), signer, "r");
  }

  lemma AttestationCounts(signer: string, statement: int, number: int)
    requires signer in TWO.signers && 0 <= number < 16
    ensures
      var a := Attestation(signer, statement, number);
      && Counts(TOY, TWO, a) && SignerOf(TWO, a) == signer
      && HashOf(a) == StatementDigest(TOY, map[Version := Int(statement)])
      && |RecordHashOf(a)| == 64 && RecordHashOf(a)[0] == HexDigit(0) && RecordHashOf(a)[1] == HexDigit(number)
  {
    hide StatementDigest, HashRecord, Attestation, VerifySignature, ToyRecord, AttestationIs, Counts, HashOf, SignerOf;
    ToyAttestationIs(signer, statement, number);
    AttestationCountsIff(TOY, TWO, Attestation(signer, statement, number), Fixed(ObservationKind), Null,
                         map[Version := Int(statement)], signer, "r");
    ToyRecordIs(signer, statement, number);
    ToyHash(ToyRecord(signer, statement, number), number);
  }

  lemma ToyHash(body: Record, number: int)
    requires Get(body, Version) == Int(number) && 0 <= number < 16 && Content(body) == body && Get(body, Kind) == Fixed(ObservationKind)
    ensures |HashRecord(TOY, body)| == 64 && HashRecord(TOY, body)[0] == HexDigit(0) && HashRecord(TOY, body)[1] == HexDigit(number)
  {
    hide HexSha;
    ToyDigest(body);
  }

  lemma ToyStatement(statement: int)
    requires 0 <= statement < 16
    ensures
      var digest := StatementDigest(TOY, map[Version := Int(statement)]);
      |digest| == 64 && digest[1] == HexDigit(statement)
  {
    var state: Record := map[Version := Int(statement)];
    var r: Record := map[Kind := Fixed(StatementKind), Statement := Obj(state)];
    assert Content(r) == r;
    ToyDigest(r);
  }

  lemma HexBelow(a: string, b: string)
    requires |a| == |b| == 64 && a[0] == b[0] && a[1] < b[1]
    ensures ListLess([a], [b])
  {
    assert a[1..][0] == a[1] && b[1..][0] == b[1];
  }

  /** A concrete input: A signs statement 1 twice, B signs statement 2, and two of
      two are needed.  The two orders of A's attestations report different signers. */
  lemma OrderMattersHere() returns (v: Verdict, w: Verdict)
    ensures IsVerdict(TOY, TWO, [Attestation("A", 1, 1), Attestation("B", 2, 2), Attestation("A", 1, 3)], v)
    ensures IsVerdict(TOY, TWO, [Attestation("A", 1, 3), Attestation("B", 2, 2), Attestation("A", 1, 1)], w)
    ensures v.signers == ["B"] && w.signers == ["A"]
  {
    hide IsVerdict, Counts, Attestation, StatementDigest;
    v := VerdictExists(TOY, TWO, [Attestation("A", 1, 1), Attestation("B", 2, 2), Attestation("A", 1, 3)]);
    w := VerdictExists(TOY, TWO, [Attestation("A", 1, 3), Attestation("B", 2, 2), Attestation("A", 1, 1)]);
    AttestationCounts("A", 1, 1);
    AttestationCounts("B", 2, 2);
    AttestationCounts("A", 1, 3);
    ToyStatement(1);
    ToyStatement(2);
    HexBelow(RecordHashOf(Attestation("A", 1, 1)), RecordHashOf(Attestation("B", 2, 2)));
    HexBelow(RecordHashOf(Attestation("B", 2, 2)), RecordHashOf(Attestation("A", 1, 3)));
    SwappingChangesTheSigners(TOY, TWO, Attestation("A", 1, 1), Attestation("B", 2, 2), Attestation("A", 1, 3), v, w);
  }
}
