/**
 One tenant's audit trail: `_audit` and `_audit_events` of `PilotControlPlane` in
 proofrail/server.py.

 A call appends to the tenant's ledger under the ledger lock, and only after
 leaving it inserts the row into `pilot_audit_events`.  Calls interleave, and one
 may be cut off between the two.
 */
module Audit {
  import opened Hashing
  import opened LedgerChain

  function SequenceOf(r: Record): int {
    if Get(r, Field.Sequence).Int? then Get(r, Field.Sequence).i else 0
  }

  /** `lost` are the entries whose row was never inserted. */
  datatype Trail = Trail(ledger: seq<Record>, rows: seq<Record>, pending: seq<Record>, lost: seq<Record>)

  datatype Event =
    | AppendLine(event: Record)  // the locked section of one call
    | InsertRow(call: nat)       // the statement after it, of a pending call
    | CutOff(call: nat)

  /** The primary key and the uniqueness constraint of the table. */
  predicate Clashes(rows: seq<Record>, r: Record) {
    exists i :: 0 <= i < |rows| && (Get(rows[i], EventId) == Get(r, EventId) || SequenceOf(rows[i]) == SequenceOf(r))
  }

  function Without(l: seq<Record>, i: nat): (rest: seq<Record>)
    requires i < |l|
    ensures multiset(l) == multiset(rest) + multiset{l[i]}
  {
    assert l == l[..i] + [l[i]] + l[i + 1..];
    l[..i] + l[i + 1..]
  }

  function Apply(s: Suite, t: Trail, e: Event): Trail {
    match e
    case AppendLine(event) =>
      var entry := ChainEntry(s, t.ledger, event);
      t.(ledger := t.ledger + [entry], pending := t.pending + [entry])
    case InsertRow(i) =>
      if i >= |t.pending| then t
      else if Clashes(t.rows, t.pending[i]) then t.(pending := Without(t.pending, i), lost := t.lost + [t.pending[i]])
      else t.(pending := Without(t.pending, i), rows := t.rows + [t.pending[i]])
    case CutOff(i) =>
      if i >= |t.pending| then t else t.(pending := Without(t.pending, i), lost := t.lost + [t.pending[i]])
  }

  function Run(s: Suite, t: Trail, events: seq<Event>): Trail {
    if events == [] then t else Apply(s, Run(s, t, events[..|events| - 1]), events[|events| - 1])
  }

  // ----- reading the rows back in order

  function InsertBySequence(l: seq<Record>, r: Record): seq<Record> {
    if l == [] || SequenceOf(l[|l| - 1]) <= SequenceOf(r) then l + [r]
    else InsertBySequence(l[..|l| - 1], r) + [l[|l| - 1]]
  }

  /** `ORDER BY sequence` */
  function BySequence(rows: seq<Record>): seq<Record> {
    if rows == [] then [] else InsertBySequence(BySequence(rows[..|rows| - 1]), rows[|rows| - 1])
  }

  predicate Increasing(l: seq<Record>) {
    forall i, j :: 0 <= i < j < |l| ==> SequenceOf(l[i]) < SequenceOf(l[j])
  }

  /** The entries of a ledger that have a row, in ledger order. */
  function WithRow(ledger: seq<Record>, rows: seq<Record>): seq<Record> {
    if ledger == [] then []
    else
      var last := ledger[|ledger| - 1];
      WithRow(ledger[..|ledger| - 1], rows) + if last in rows then [last] else []
  }

  lemma OneMoreIncreases(l: seq<Record>, r: Record)
    requires Increasing(l) && forall x :: x in l ==> SequenceOf(x) < SequenceOf(r)
    ensures Increasing(l + [r])
  {
    hide SequenceOf;
  }

  /** The last record of an increasing list is its only largest. */
  lemma LastIsLargest(l: seq<Record>)
    requires Increasing(l) && l != []
    ensures forall x :: x in l && x != l[|l| - 1] ==> SequenceOf(x) < SequenceOf(l[|l| - 1])
    ensures forall x :: x in l[..|l| - 1] <==> x in l && x != l[|l| - 1]
  {
    hide SequenceOf;
    var m := |l| - 1;
    assert l == l[..m] + [l[m]];
  }

  lemma {:induction false} InsertKeepsOrder(l: seq<Record>, r: Record)
    requires Increasing(l) && forall x :: x in l ==> SequenceOf(x) != SequenceOf(r)
    ensures Increasing(InsertBySequence(l, r))
    ensures forall x :: x in InsertBySequence(l, r) <==> x in l || x == r
  {
    hide SequenceOf, Increasing;
    if l != [] && SequenceOf(l[|l| - 1]) > SequenceOf(r) {
      var front := l[..|l| - 1];
      LastIsLargest(l);
      FrontIncreases(l);
      InsertKeepsOrder(front, r);
      OneMoreIncreases(InsertBySequence(front, r), l[|l| - 1]);
    } else {
      if l != [] { LastIsLargest(l); }
      OneMoreIncreases(l, r);
    }
  }

  predicate DistinctSequences(rows: seq<Record>) {
    forall i, j :: 0 <= i < j < |rows| ==> SequenceOf(rows[i]) != SequenceOf(rows[j])
  }

  lemma {:induction false} BySequenceOrders(rows: seq<Record>)
    requires DistinctSequences(rows)
    ensures Increasing(BySequence(rows)) && forall x :: x in BySequence(rows) <==> x in rows
  {
    if rows != [] {
      var front, last := rows[..|rows| - 1], rows[|rows| - 1];
      assert rows == front + [last];
      BySequenceOrders(front);
      InsertKeepsOrder(BySequence(front), last);
    }
  }

  lemma {:induction false} WithRowSelects(ledger: seq<Record>, rows: seq<Record>)
    requires Increasing(ledger)
    ensures Increasing(WithRow(ledger, rows)) && forall x :: x in WithRow(ledger, rows) <==> x in ledger && x in rows
  {
    if ledger != [] {
      hide SequenceOf;
      var front, last := ledger[..|ledger| - 1], ledger[|ledger| - 1];
      LastIsLargest(ledger);
      WithRowSelects(front, rows);
      OneMoreIncreases(WithRow(front, rows), last);
    }
  }

  /** Increasing lists with the same members are equal. */
  lemma {:induction false} SameIncreasing(a: seq<Record>, b: seq<Record>)
    requires Increasing(a) && Increasing(b) && forall x :: x in a <==> x in b
    ensures a == b
  {
    hide SequenceOf, Increasing;
    HasMember(a, b);
    HasMember(b, a);
    if a != [] {
      var m, n := |a| - 1, |b| - 1;
      assert a[m] in b && b[n] in a;
      LastIsLargest(a);
      LastIsLargest(b);
      FrontIncreases(a);
      FrontIncreases(b);
      assert a[m] == b[n];
      forall x ensures x in a[..m] <==> x in b[..n] {
        assert x in a <==> x in b;
      }
      SameIncreasing(a[..m], b[..n]);
      assert a == a[..m] + [a[m]] && b == b[..n] + [b[n]];
    }
  }

  lemma HasMember(a: seq<Record>, b: seq<Record>)
    requires forall x :: x in a ==> x in b
    ensures a != [] ==> b != []
  {
    if a != [] {
      var x := a[0];
      assert x in a;
    }
  }

  lemma FrontIncreases(l: seq<Record>)
    requires Increasing(l) && l != []
    ensures Increasing(l[..|l| - 1])
  {
    hide SequenceOf;
  }

  // ----- what every step keeps

  ghost predicate Inv(s: Suite, t: Trail) {
    && WrittenChain(s, t.ledger)
    && multiset(t.ledger) == multiset(t.rows) + multiset(t.pending) + multiset(t.lost)
    && DistinctSequences(t.rows)
  }

  lemma ApplyKeepsInv(s: Suite, t: Trail, e: Event)
    requires Inv(s, t)
    ensures Inv(s, Apply(s, t, e))
  {
    hide WrittenChain, ChainEntry, SequenceOf, Without;
    match e {
      case AppendLine(event) => AppendKeepsChain(s, t.ledger, event);
      case InsertRow(i) =>
        if i < |t.pending| && !Clashes(t.rows, t.pending[i]) { OneMoreRow(t.rows, t.pending[i]); }
      case CutOff(_) =>
    }
  }

  lemma OneMoreRow(rows: seq<Record>, r: Record)
    requires DistinctSequences(rows) && !Clashes(rows, r)
    ensures DistinctSequences(rows + [r])
  {
    hide SequenceOf, Get;
  }

  lemma {:induction false} RunKeepsInv(s: Suite, t: Trail, events: seq<Event>)
    requires Inv(s, t)
    ensures Inv(s, Run(s, t, events))
  {
    hide Inv, Apply;
    if events != [] {
      RunKeepsInv(s, t, events[..|events| - 1]);
      ApplyKeepsInv(s, Run(s, t, events[..|events| - 1]), events[|events| - 1]);
    }
  }

  const FRESH := Trail([], [], [], [])

  lemma FreshInv(s: Suite)
    ensures Inv(s, FRESH)
  {
  }

  lemma LedgerIncreases(s: Suite, ledger: seq<Record>)
    requires WrittenChain(s, ledger)
    ensures Increasing(ledger)
  {
    hide Linked, EntryLedger;
  }

  lemma RowsAreLedgerEntries(t: Trail)
    requires multiset(t.ledger) == multiset(t.rows) + multiset(t.pending) + multiset(t.lost)
    ensures forall r :: r in t.rows ==> r in t.ledger
  {
    forall r | r in t.rows ensures r in t.ledger {
      assert r in multiset(t.rows);
      assert r in multiset(t.ledger);
    }
  }

  /** For any interleaving of calls, cut off anywhere, the ledger is a valid hash
      chain with sequence numbers 1 to n, and the rows read back in sequence order
      are exactly the ledger's entries that have a row, in ledger order. */
  lemma RowsFollowLedger(s: Suite, events: seq<Event>)
    ensures
      var t := Run(s, FRESH, events);
      && WrittenChain(s, t.ledger)
      && (forall r :: r in t.rows ==> r in t.ledger)
      && BySequence(t.rows) == WithRow(t.ledger, t.rows)
  {
    hide WrittenChain, Apply;
    FreshInv(s);
    RunKeepsInv(s, FRESH, events);
    var t := Run(s, FRESH, events);
    RowsAreLedgerEntries(t);
    LedgerIncreases(s, t.ledger);
    BySequenceOrders(t.rows);
    WithRowSelects(t.ledger, t.rows);
    SameIncreasing(BySequence(t.rows), WithRow(t.ledger, t.rows));
  }

  lemma {:induction false} BySequenceLength(rows: seq<Record>)
    ensures |BySequence(rows)| == |rows|
  {
    if rows != [] {
      BySequenceLength(rows[..|rows| - 1]);
      InsertLength(BySequence(rows[..|rows| - 1]), rows[|rows| - 1]);
    }
  }

  lemma {:induction false} InsertLength(l: seq<Record>, r: Record)
    ensures |InsertBySequence(l, r)| == |l| + 1
  {
    if l != [] && SequenceOf(l[|l| - 1]) > SequenceOf(r) {
      InsertLength(l[..|l| - 1], r);
    }
  }

  lemma SameMembers(t: Trail)
    requires multiset(t.ledger) == multiset(t.rows)
    ensures forall r :: r in t.rows <==> r in t.ledger
  {
    forall r ensures r in t.rows <==> r in t.ledger {
      assert r in multiset(t.ledger) <==> r in multiset(t.rows);
    }
  }

  /** The rows in sequence order are the whole ledger exactly when every call has
      finished and none of them lost its row. */
  lemma RowsEqualLedgerWhenAllFinish(s: Suite, events: seq<Event>)
    ensures
      var t := Run(s, FRESH, events);
      BySequence(t.rows) == t.ledger <==> t.pending == [] && t.lost == []
  {
    hide WrittenChain, Apply;
    FreshInv(s);
    RunKeepsInv(s, FRESH, events);
    var t := Run(s, FRESH, events);
    BySequenceLength(t.rows);
    assert |multiset(t.ledger)| == |multiset(t.rows)| + |multiset(t.pending)| + |multiset(t.lost)|;
    if t.pending == [] && t.lost == [] {
      SameMembers(t);
      LedgerIncreases(s, t.ledger);
      BySequenceOrders(t.rows);
      SameIncreasing(BySequence(t.rows), t.ledger);
    }
  }

  lemma PendingSequenceIsFree(s: Suite, t: Trail, i: nat)
    requires Inv(s, t) && i < |t.pending|
    ensures forall k :: 0 <= k < |t.rows| ==> SequenceOf(t.rows[k]) != SequenceOf(t.pending[i])
  {
    hide WrittenChain;
    LedgerIncreases(s, t.ledger);
    forall k | 0 <= k < |t.rows| ensures SequenceOf(t.rows[k]) != SequenceOf(t.pending[i]) {
      var a, b := t.rows[k], t.pending[i];
      assert a in multiset(t.rows) && b in multiset(t.pending);
      assert multiset(t.ledger)[a] >= 1 && multiset(t.ledger)[b] >= 1;
      if a == b {
        assert multiset(t.ledger)[a] >= 2;
        NoDoubles(t.ledger, a);
      }
      var m :| 0 <= m < |t.ledger| && t.ledger[m] == a;
      var n :| 0 <= n < |t.ledger| && t.ledger[n] == b;
    }
  }

  lemma {:induction false} NoDoubles(l: seq<Record>, r: Record)
    requires Increasing(l)
    ensures multiset(l)[r] <= 1
  {
    if l != [] {
      var front, last := l[..|l| - 1], l[|l| - 1];
      assert l == front + [last];
      NoDoubles(front, r);
      if r == last { assert last !in front; }
    }
  }

  /** An insert that is reached fails only on an event id that is already used:
      sequence numbers, taken under the lock, never clash. */
  lemma OnlyEventIdsClash(s: Suite, events: seq<Event>, i: nat)
    requires i < |Run(s, FRESH, events).pending|
    ensures
      var t := Run(s, FRESH, events);
      Clashes(t.rows, t.pending[i]) <==>
        exists k :: 0 <= k < |t.rows| && Get(t.rows[k], EventId) == Get(t.pending[i], EventId)
  {
    hide WrittenChain, Apply;
    FreshInv(s);
    RunKeepsInv(s, FRESH, events);
    PendingSequenceIsFree(s, Run(s, FRESH, events), i);
  }

  // ----- the calls as the program makes them, one at a time

  class AuditTrail {
    var ledger: seq<Record>
    var rows: seq<Record>

    constructor ()
      ensures ledger == [] && rows == []
    {
      ledger, rows := [], [];
    }

    /** `_audit` */
    method Audit(s: Suite, event: Record) returns (r: Option<Record>)
      requires WrittenChain(s, ledger)
      modifies this
      ensures WrittenChain(s, ledger)
      ensures
        var t := Apply(s, Apply(s, Trail(old(ledger), old(rows), [], []), AppendLine(event)), InsertRow(0));
        ledger == t.ledger && rows == t.rows
      ensures r.Some? ==> ledger == old(ledger) + [r.value] && rows == old(rows) + [r.value]
      ensures r.None? ==> rows == old(rows)
    {
      hide WrittenChain;
      AppendKeepsChain(s, ledger, event);
      var entry := ChainEntry(s, ledger, event);
      ledger := ledger + [entry];
      if Clashes(rows, entry) {
        return None;
      }
      rows := rows + [entry];
      r := Some(entry);
    }

    /** `_audit_events`, on rows that belong to a ledger the program wrote. */
    method AuditEvents(s: Suite) returns (events: seq<Record>)
      requires WrittenChain(s, ledger) && DistinctSequences(rows) && forall r :: r in rows ==> r in ledger
      ensures events == WithRow(ledger, rows)
    {
      LedgerIncreases(s, ledger);
      BySequenceOrders(rows);
      WithRowSelects(ledger, rows);
      SameIncreasing(BySequence(rows), WithRow(ledger, rows));
      events := BySequence(rows);
    }
  }
}
