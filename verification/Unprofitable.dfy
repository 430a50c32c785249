/** The table of messages kept for a later retry. Rows are read without duplicates, deleted by row
    id and stored in batches; each batch is one transaction. */
module Unprofitable {
  import opened Prelude
  import opened Ismp
  import opened Grouping

  datatype Row = Row(id: nat, dest: StateMachine, encoded: Bytes)

  /** The codec messages are stored with. */
  datatype Codec = Codec(encode: Message -> Bytes, decode: Bytes -> Option<Message>) {
    ghost predicate Valid() { forall m :: decode(encode(m)) == Some(m) }
  }

  function For(rows: seq<Row>, dest: StateMachine): seq<Row> {
    Filter((row: Row) => row.dest == dest, rows)
  }

  function NotFor(rows: seq<Row>, dest: StateMachine): seq<Row> {
    Filter((row: Row) => row.dest != dest, rows)
  }

  function Ids(rows: seq<Row>): set<nat> { set row | row in rows :: row.id }

  function Elements<T>(s: seq<T>): set<T> { set x | x in s }

  ghost predicate DistinctIds(rows: seq<Row>, nextId: nat) {
    && (forall i, j :: 0 <= i < j < |rows| ==> rows[i].id != rows[j].id)
    && (forall i :: 0 <= i < |rows| ==> rows[i].id < nextId)
  }

  function Removed(rows: seq<Row>, ids: set<nat>): seq<Row> {
    Filter((row: Row) => row.id !in ids, rows)
  }

  /** Deleting these ids is one transaction, which fails when an id is missing or named twice. */
  function DeleteIds(rows: seq<Row>, ids: seq<nat>, ok: bool): seq<Row> {
    if ok && NoDuplicates(ids) && Elements(ids) <= Ids(rows) then Removed(rows, Elements(ids)) else rows
  }

  function NewRows(encodings: seq<Bytes>, dest: StateMachine, from: nat): (rows: seq<Row>)
    ensures |rows| == |encodings|
    ensures forall i :: 0 <= i < |rows| ==> rows[i] == Row(from + i, dest, encodings[i])
  {
    seq(|encodings|, i requires 0 <= i < |encodings| => Row(from + i, dest, encodings[i]))
  }

  function Encodings(codec: Codec, messages: seq<Message>): seq<Bytes> { Map(codec.encode, messages) }

  /** The table: its rows, and the id the next row is going to get. */
  datatype Table = Table(rows: seq<Row>, nextId: nat)

  function Deleted(t: Table, ids: seq<nat>, ok: bool): Table { t.(rows := DeleteIds(t.rows, ids, ok)) }

  /** Storing is one transaction too. */
  function Added(t: Table, encodings: seq<Bytes>, dest: StateMachine, ok: bool): Table {
    if ok then Table(t.rows + NewRows(encodings, dest, t.nextId), t.nextId + |encodings|) else t
  }

  /** Lexicographic order on byte strings, the order of the set the reader collects into. */
  predicate Less(a: Bytes, b: Bytes) {
    b != [] && (a == [] || a[0] < b[0] || (a[0] == b[0] && Less(a[1..], b[1..])))
  }

  /** Where two byte strings part: `a` ends there, or has the smaller byte. */
  predicate Parts(a: Bytes, b: Bytes, k: nat) {
    k <= |a| && k < |b| && a[..k] == b[..k] && (k == |a| || a[k] < b[k])
  }

  lemma {:induction false} LessIff(a: Bytes, b: Bytes)
    ensures Less(a, b) <==> exists k: nat :: Parts(a, b, k)
  {
    if a == [] || b == [] || a[0] != b[0] {
      assert Less(a, b) ==> Parts(a, b, 0);
    } else {
      LessIff(a[1..], b[1..]);
      if k: nat :| Parts(a[1..], b[1..], k) {
        assert a[..k + 1] == [a[0]] + a[1..][..k] && b[..k + 1] == [b[0]] + b[1..][..k];
        assert Parts(a, b, k + 1);
      }
      if k: nat :| Parts(a, b, k) {
        assert k > 0;
        assert a[1..][..k - 1] == a[..k][1..] && b[1..][..k - 1] == b[..k][1..];
        assert Parts(a[1..], b[1..], k - 1);
      }
    }
  }

  lemma {:induction false} LessTransitive(a: Bytes, b: Bytes, c: Bytes)
    requires Less(a, b) && Less(b, c)
    ensures Less(a, c)
  {
    if a != [] && a[0] == b[0] == c[0] { LessTransitive(a[1..], b[1..], c[1..]); }
  }

  lemma {:induction false} LessTotal(a: Bytes, b: Bytes)
    ensures a == b || Less(a, b) || Less(b, a)
  {
    if a == [] || b == [] || a[0] != b[0] {
    } else {
      LessTotal(a[1..], b[1..]);
      assert a == [a[0]] + a[1..] && b == [b[0]] + b[1..];
    }
  }

  ghost predicate Ascending(s: seq<Bytes>) { forall i, j :: 0 <= i < j < |s| ==> Less(s[i], s[j]) }

  lemma {:induction false} InsertAscending(s: seq<Bytes>, x: Bytes)
    requires Ascending(s) && x !in s
    ensures Ascending(InsertSorted(s, x))
  {
    if s == [] {
    } else if Less(x, s[0]) {
      forall i | 0 <= i < |s| ensures Less(x, s[i]) { if i > 0 { LessTransitive(x, s[0], s[i]); } }
    } else {
      InsertAscending(s[1..], x);
      LessTotal(x, s[0]);
      var rest := InsertSorted(s[1..], x);
      forall i | 0 <= i < |rest| ensures Less(s[0], rest[i]) {
        assert rest[i] in rest;
        if rest[i] != x {
          var j :| 0 <= j < |s[1..]| && s[1..][j] == rest[i];
          assert Less(s[0], s[j + 1]);
        }
      }
    }
  }

  function InsertSorted(s: seq<Bytes>, x: Bytes): (r: seq<Bytes>)
    ensures |r| == |s| + 1
    ensures multiset(r) == multiset(s) + multiset{x}
    ensures forall y :: y in r <==> y in s || y == x
  {
    if s == [] || Less(x, s[0]) then [x] + s
    else
      assert s == [s[0]] + s[1..];
      [s[0]] + InsertSorted(s[1..], x)
  }

  /** No encoding twice. */
  ghost predicate Unique(s: seq<Bytes>) { forall x :: multiset(s)[x] <= 1 }

  datatype Deduplicated = Deduplicated(distinct: seq<Bytes>, ids: seq<nat>, duplicates: seq<nat>)

  function AddRow(d: Deduplicated, row: Row): Deduplicated {
    if row.encoded in d.distinct then d.(duplicates := d.duplicates + [row.id])
    else d.(distinct := InsertSorted(d.distinct, row.encoded), ids := d.ids + [row.id])
  }

  function Deduplicate(data: seq<Row>): Deduplicated {
    if data == [] then Deduplicated([], [], [])
    else AddRow(Deduplicate(data[..|data| - 1]), data[|data| - 1])
  }

  ghost predicate DistinctOk(d: Deduplicated, encodings: set<Bytes>) {
    Elements(d.distinct) == encodings && Unique(d.distinct) && |d.ids| == |d.distinct| && Ascending(d.distinct)
  }

  ghost predicate IdsOk(d: Deduplicated, ids: set<nat>) {
    && NoDuplicates(d.ids) && NoDuplicates(d.duplicates)
    && Elements(d.ids) !! Elements(d.duplicates)
    && Elements(d.ids) + Elements(d.duplicates) == ids
  }

  function EncodingSet(rows: seq<Row>): set<Bytes> { set row | row in rows :: row.encoded }

  lemma {:induction false} DeduplicateDistinct(data: seq<Row>)
    ensures DistinctOk(Deduplicate(data), EncodingSet(data))
  {
    if data == [] {
    } else {
      var before, row := data[..|data| - 1], data[|data| - 1];
      DeduplicateDistinct(before);
      assert data == before + [row];
      assert EncodingSet(data) == EncodingSet(before) + {row.encoded};
      AddDistinct(Deduplicate(before), row, EncodingSet(before));
    }
  }

  lemma AddDistinct(d: Deduplicated, row: Row, encodings: set<Bytes>)
    requires DistinctOk(d, encodings)
    ensures DistinctOk(AddRow(d, row), encodings + {row.encoded})
  {
    if row.encoded !in d.distinct { InsertAscending(d.distinct, row.encoded); }
  }

  lemma {:induction false} DeduplicateIds(data: seq<Row>, nextId: nat)
    requires DistinctIds(data, nextId)
    ensures IdsOk(Deduplicate(data), Ids(data))
  {
    if data == [] {
    } else {
      var before, row := data[..|data| - 1], data[|data| - 1];
      DeduplicateIds(before, nextId);
      assert data == before + [row];
      assert Ids(data) == Ids(before) + {row.id};
      assert row.id !in Ids(before);
      AddId(Deduplicate(before), row, Ids(before));
    }
  }

  lemma AddId(d: Deduplicated, row: Row, ids: set<nat>)
    requires IdsOk(d, ids) && row.id !in ids
    ensures IdsOk(AddRow(d, row), ids + {row.id})
  {
  }

  /** The id kept for an encoding is that of its first row, and the ids kept are in the order of the rows. */
  function FirstIds(data: seq<Row>): seq<nat> {
    if data == [] then []
    else
      var n := |data| - 1;
      FirstIds(data[..n]) + if data[n].encoded in EncodingSet(data[..n]) then [] else [data[n].id]
  }

  function LaterIds(data: seq<Row>): seq<nat> {
    if data == [] then []
    else
      var n := |data| - 1;
      LaterIds(data[..n]) + if data[n].encoded in EncodingSet(data[..n]) then [data[n].id] else []
  }

  lemma {:induction false} DeduplicateKeepsFirst(data: seq<Row>)
    ensures Deduplicate(data).ids == FirstIds(data) && Deduplicate(data).duplicates == LaterIds(data)
  {
    if data == [] {
    } else {
      var n := |data| - 1;
      DeduplicateKeepsFirst(data[..n]);
      DeduplicateDistinct(data[..n]);
      assert data[n].encoded in Deduplicate(data[..n]).distinct <==> data[n].encoded in EncodingSet(data[..n]);
    }
  }

  method CollectRows(data: seq<Row>) returns (d: Deduplicated)
    ensures d == Deduplicate(data)
  {
    d := Deduplicated([], [], []);
    var i := 0;
    while i < |data|
      invariant 0 <= i <= |data|
      invariant d == Deduplicate(data[..i])
    {
      assert data[..i + 1][..i] == data[..i];
      d := AddRow(d, data[i]);
      i := i + 1;
    }
    assert data[..|data|] == data;
  }

  class UnprofitableTable {
    var rows: seq<Row>
    var nextId: nat

    ghost predicate Valid()
      reads this
    {
      DistinctIds(rows, nextId)
    }

    function View(): Table
      reads this
    {
      Table(rows, nextId)
    }

    constructor ()
      ensures Valid() && rows == []
    {
      rows, nextId := [], 0;
    }

    /** The deduplication of `unprofitable_messages`: the distinct encodings in sorted order, as many
        row ids in table order, and the ids of the duplicates. Id and encoding at the same position
        need not belong together. */
    method ReadDistinct(dest: StateMachine) returns (d: Deduplicated)
      requires Valid()
      ensures d == Deduplicate(For(rows, dest))
      ensures DistinctOk(d, EncodingSet(For(rows, dest)))
      ensures IdsOk(d, Ids(For(rows, dest)))
      ensures d.ids == FirstIds(For(rows, dest)) && d.duplicates == LaterIds(For(rows, dest))
    {
      var data := For(rows, dest);
      d := CollectRows(data);
      FilterDistinct(rows, nextId, (row: Row) => row.dest == dest);
      DeduplicateDistinct(data);
      DeduplicateIds(data, nextId);
      DeduplicateKeepsFirst(data);
    }

    /** Deletes the rows with these ids in one transaction, which fails as a whole when an id is
        missing or named twice. */
    method Delete(ids: seq<nat>, available: bool) returns (ok: bool)
      requires Valid()
      modifies this
      ensures Valid() && View() == Deleted(old(View()), ids, available)
      ensures ok <==> available && NoDuplicates(ids) && Elements(ids) <= Ids(old(rows))
    {
      var remaining := rows;
      var i := 0;
      RemovedNothing(rows);
      while i < |ids|
        invariant 0 <= i <= |ids|
        invariant rows == old(rows) && nextId == old(nextId)
        invariant NoDuplicates(ids[..i]) && Elements(ids[..i]) <= Ids(rows)
        invariant remaining == Removed(rows, Elements(ids[..i]))
      {
        assert ids[..i + 1] == ids[..i] + [ids[i]];
        if ids[i] !in Ids(remaining) {
          MissingOrRepeated(rows, ids, i);
          return false;
        }
        RemoveNext(rows, ids, i);
        remaining := Removed(remaining, {ids[i]});
        i := i + 1;
      }
      assert ids[..|ids|] == ids;
      if !available {
        return false;
      }
      FilterDistinct(rows, nextId, (row: Row) => row.id !in Elements(ids));
      rows := remaining;
      ok := true;
    }

    /** `store_unprofitable_messages`. */
    method Store(codec: Codec, messages: seq<Message>, dest: StateMachine, available: bool) returns (ok: bool)
      requires Valid()
      modifies this
      ensures Valid() && ok == available
      ensures View() == Added(old(View()), Encodings(codec, messages), dest, available)
    {
      if available {
        rows := rows + NewRows(Encodings(codec, messages), dest, nextId);
        nextId := nextId + |messages|;
      }
      ok := available;
    }
  }

  ghost predicate IsEncoding(codec: Codec, e: Bytes) { exists m :: codec.encode(m) == e }

  /** Every row holds the encoding of some message. */
  ghost predicate AllEncoded(codec: Codec, rows: seq<Row>) {
    forall i :: 0 <= i < |rows| ==> IsEncoding(codec, rows[i].encoded)
  }

  lemma {:induction false} FilterDistinct(rows: seq<Row>, nextId: nat, p: Row -> bool)
    requires DistinctIds(rows, nextId)
    ensures DistinctIds(Filter(p, rows), nextId)
  {
    if rows == [] {
    } else {
      FilterDistinct(rows[1..], nextId, p);
    }
  }

  lemma {:induction false} RemovedNothing(rows: seq<Row>)
    ensures Removed(rows, Elements<nat>([])) == rows
  {
    if rows == [] {
    } else {
      RemovedNothing(rows[1..]);
      assert rows == [rows[0]] + rows[1..];
    }
  }

  /** An id not found among the remaining rows was never there or is named twice. */
  lemma MissingOrRepeated(rows: seq<Row>, ids: seq<nat>, i: nat)
    requires i < |ids| && ids[i] !in Ids(Removed(rows, Elements(ids[..i])))
    ensures !(NoDuplicates(ids) && Elements(ids) <= Ids(rows))
  {
    var removed := Elements(ids[..i]);
    if ids[i] in removed {
      var j :| 0 <= j < i && ids[..i][j] == ids[i];
      assert ids[j] == ids[i];
    } else {
      assert forall row :: row in rows && row.id !in removed ==> row in Removed(rows, removed);
      assert ids[i] in Elements(ids);
    }
  }

  lemma RemoveNext(rows: seq<Row>, ids: seq<nat>, i: nat)
    requires i < |ids|
    ensures Removed(Removed(rows, Elements(ids[..i])), {ids[i]}) == Removed(rows, Elements(ids[..i + 1]))
    ensures Elements(ids[..i + 1]) == Elements(ids[..i]) + {ids[i]}
  {
    assert ids[..i + 1] == ids[..i] + [ids[i]];
    assert Elements(ids[..i + 1]) == Elements(ids[..i]) + {ids[i]};
    RemovedTwice(rows, Elements(ids[..i]), {ids[i]});
  }

  lemma {:induction false} RemovedTwice(rows: seq<Row>, first: set<nat>, second: set<nat>)
    ensures Removed(Removed(rows, first), second) == Removed(rows, first + second)
  {
    if rows == [] {
    } else {
      RemovedTwice(rows[1..], first, second);
      if rows[0].id !in first {
        assert Removed(rows, first)[1..] == Removed(rows[1..], first);
      }
    }
  }

  // ----- what deleting and storing does to the rows of each destination -----

  /** Rows of other destinations have other ids. */
  lemma OtherIds(rows: seq<Row>, nextId: nat, dest: StateMachine)
    requires DistinctIds(rows, nextId)
    ensures forall i :: 0 <= i < |rows| && rows[i].dest != dest ==> rows[i].id !in Ids(For(rows, dest))
  {
    forall i | 0 <= i < |rows| && rows[i].dest != dest
      ensures rows[i].id !in Ids(For(rows, dest))
    {
      forall row | row in For(rows, dest) ensures row.id != rows[i].id {
        var j :| 0 <= j < |rows| && rows[j] == row;
      }
    }
  }

  /** Deleting rows of one destination leaves the others' rows alone. */
  lemma OthersKept(rows: seq<Row>, ids: set<nat>, dest: StateMachine)
    requires forall i :: 0 <= i < |rows| && rows[i].dest != dest ==> rows[i].id !in ids
    ensures NotFor(Removed(rows, ids), dest) == NotFor(rows, dest)
  {
    FilterThrough((row: Row) => row.dest != dest, (row: Row) => row.id !in ids, rows);
  }

  lemma EncodingsShrink(rows: seq<Row>, ids: set<nat>, dest: StateMachine)
    ensures EncodingSet(For(Removed(rows, ids), dest)) <= EncodingSet(For(rows, dest))
  {
    forall row | row in For(Removed(rows, ids), dest)
      ensures row in For(rows, dest)
    {
      assert row in Removed(rows, ids) && row in rows;
    }
  }

  lemma SplitRows(a: seq<Row>, b: seq<Row>, dest: StateMachine)
    ensures For(a + b, dest) == For(a, dest) + For(b, dest)
    ensures NotFor(a + b, dest) == NotFor(a, dest) + NotFor(b, dest)
    ensures EncodingSet(For(a + b, dest)) == EncodingSet(For(a, dest)) + EncodingSet(For(b, dest))
  {
    FilterConcat((row: Row) => row.dest == dest, a, b);
    FilterConcat((row: Row) => row.dest != dest, a, b);
    assert EncodingSet(For(a, dest) + For(b, dest)) == EncodingSet(For(a, dest)) + EncodingSet(For(b, dest));
  }

  lemma RemovedConcat(a: seq<Row>, b: seq<Row>, ids: set<nat>)
    requires forall i :: 0 <= i < |b| ==> b[i].id !in ids
    ensures Removed(a + b, ids) == Removed(a, ids) + b
  {
    FilterConcat((row: Row) => row.id !in ids, a, b);
    FilterAll((row: Row) => row.id !in ids, b);
  }

  // ----- the table before and after any number of deletions and stores -----

  /** The rows `recent`, all of one destination and none older than `nextId`, hold `encodings` in order. */
  ghost predicate Hold(recent: seq<Row>, nextId: nat, dest: StateMachine, encodings: seq<Bytes>) {
    && |recent| == |encodings|
    && forall i :: 0 <= i < |recent| ==>
         recent[i].id >= nextId && recent[i].dest == dest && recent[i].encoded == encodings[i]
  }

  /** Rows `removed` are gone, `added` came in behind the others, and nothing else happened. */
  ghost predicate Changed(before: seq<Row>, nextId: nat, dest: StateMachine, removed: set<nat>, added: seq<Bytes>,
                          after: seq<Row>) {
    var kept := Removed(before, removed);
    |kept| <= |after| && after[..|kept|] == kept && Hold(after[|kept|..], nextId, dest, added)
  }

  lemma ChangedDelete(before: seq<Row>, nextId: nat, dest: StateMachine, removed: set<nat>, added: seq<Bytes>,
                      rows: seq<Row>, gone: set<nat>)
    requires Changed(before, nextId, dest, removed, added, rows) && forall id :: id in gone ==> id < nextId
    ensures Changed(before, nextId, dest, removed + gone, added, Removed(rows, gone))
  {
    var kept := Removed(before, removed);
    assert rows == kept + rows[|kept|..];
    RemovedConcat(kept, rows[|kept|..], gone);
    RemovedTwice(before, removed, gone);
  }

  lemma ChangedStore(before: seq<Row>, nextId: nat, dest: StateMachine, removed: set<nat>, added: seq<Bytes>,
                     rows: seq<Row>, encodings: seq<Bytes>, from: nat)
    requires Changed(before, nextId, dest, removed, added, rows) && from >= nextId
    ensures Changed(before, nextId, dest, removed, added + encodings, rows + NewRows(encodings, dest, from))
  {
    var k := |Removed(before, removed)|;
    assert (rows + NewRows(encodings, dest, from))[k..] == rows[k..] + NewRows(encodings, dest, from);
  }

  /** Rows that were there and are not removed are still there. */
  lemma ChangedKeeps(before: seq<Row>, nextId: nat, dest: StateMachine, removed: set<nat>, added: seq<Bytes>,
                     rows: seq<Row>, ids: set<nat>)
    requires Changed(before, nextId, dest, removed, added, rows) && ids <= Ids(before) && ids !! removed
    ensures ids <= Ids(rows)
  {
    forall id | id in ids
      ensures id in Ids(rows)
    {
      var row :| row in before && row.id == id;
      assert row in Removed(before, removed);
      assert row in rows[..|Removed(before, removed)|];
    }
  }

  /** What such a change means for the rows of its destination and of the others. */
  lemma ChangeEffect(before: seq<Row>, nextId: nat, dest: StateMachine, removed: set<nat>, added: seq<Bytes>,
                     after: seq<Row>)
    requires DistinctIds(before, nextId) && removed <= Ids(For(before, dest))
    requires Changed(before, nextId, dest, removed, added, after)
    ensures NotFor(after, dest) == NotFor(before, dest)
    ensures EncodingSet(For(after, dest)) <= EncodingSet(For(before, dest)) + Elements(added)
    ensures Elements(added) <= EncodingSet(For(after, dest))
    ensures removed == Ids(For(before, dest)) ==>
              Hold(For(after, dest), nextId, dest, added) && EncodingSet(For(after, dest)) == Elements(added)
  {
    var kept := Removed(before, removed);
    var recent := after[|kept|..];
    assert after == kept + recent;
    RecentEffect(kept, recent, nextId, dest, added);
    OtherIds(before, nextId, dest);
    OthersKept(before, removed, dest);
    EncodingsShrink(before, removed, dest);
    if removed == Ids(For(before, dest)) {
      NoneLeft(before, removed, dest);
      assert For(after, dest) == [] + recent;
    }
  }

  lemma RecentEffect(kept: seq<Row>, recent: seq<Row>, nextId: nat, dest: StateMachine, added: seq<Bytes>)
    requires Hold(recent, nextId, dest, added)
    ensures For(kept + recent, dest) == For(kept, dest) + recent
    ensures NotFor(kept + recent, dest) == NotFor(kept, dest)
    ensures EncodingSet(recent) == Elements(added)
    ensures EncodingSet(For(kept + recent, dest)) == EncodingSet(For(kept, dest)) + Elements(added)
  {
    SplitRows(kept, recent, dest);
    FilterAll((row: Row) => row.dest == dest, recent);
    FilterNone((row: Row) => row.dest != dest, recent);
    HeldEncodings(recent, nextId, dest, added);
  }

  /** Once all ids of a destination are deleted, no row of it is left. */
  lemma NoneLeft(rows: seq<Row>, ids: set<nat>, dest: StateMachine)
    requires Ids(For(rows, dest)) <= ids
    ensures For(Removed(rows, ids), dest) == []
  {
    forall row | row in Removed(rows, ids)
      ensures row.dest != dest
    {
      assert row in rows && row.id !in ids;
      assert row.id !in Ids(For(rows, dest));
    }
    FilterNone((row: Row) => row.dest == dest, Removed(rows, ids));
  }

  lemma HeldEncodings(recent: seq<Row>, nextId: nat, dest: StateMachine, encodings: seq<Bytes>)
    requires Hold(recent, nextId, dest, encodings)
    ensures EncodingSet(recent) == Elements(encodings)
  {
    forall x | x in Elements(encodings)
      ensures x in EncodingSet(recent)
    {
      var i :| 0 <= i < |encodings| && encodings[i] == x;
      assert recent[i] in recent;
    }
    forall x | x in EncodingSet(recent)
      ensures x in Elements(encodings)
    {
      var row :| row in recent && row.encoded == x;
      var i :| 0 <= i < |recent| && recent[i] == row;
      assert encodings[i] in encodings;
    }
  }

  lemma {:induction false} SubsetSize<T>(a: set<T>, b: set<T>)
    requires a <= b
    ensures |a| <= |b|
  {
    if a != {} {
      var x :| x in a;
      SubsetSize(a - {x}, b - {x});
    }
  }
}
