/** The deliveries table of the relayer's local database: rows accumulate, possibly with
    duplicates, and are deleted by name. Each batch of statements is one transaction. */
module Deliveries {
  import opened Prelude
  import opened Ismp
  import opened DeliveryKeys

  datatype Row = Row(hash: string, source: StateMachine, dest: StateMachine, kind: DeliveryType, height: nat)

  function RowOf(r: TxReceipt): Row {
    Row(StoredHash(r), r.query.source, r.query.dest, TypeOf(r), r.height)
  }

  /** The rows left after deleting every row with one of the names. */
  function Without(rows: seq<Row>, hashes: set<string>): seq<Row> {
    Filter((row: Row) => row.hash !in hashes, rows)
  }

  function Names(hashes: seq<string>): set<string> { set i | 0 <= i < |hashes| :: hashes[i] }

  function Hashes(keys: seq<Key>): set<string> { set k | k in keys :: KeyHash(k) }

  /** The receipt's row, or a duplicate of it, is in the table. */
  predicate Stored(rows: seq<Row>, key: Key) {
    exists i :: 0 <= i < |rows| && rows[i].hash == KeyHash(key)
  }

  class DeliveryTable {
    var rows: seq<Row>

    constructor ()
      ensures rows == []
    {
      rows := [];
    }

    /** `store_messages`: one transaction that either appends a row per receipt or does nothing. */
    method StoreMessages(receipts: seq<TxReceipt>, available: bool) returns (ok: bool)
      modifies this
      ensures ok == available
      ensures rows == if ok then old(rows) + Map(RowOf, receipts) else old(rows)
    {
      var actions := [];
      var i := 0;
      while i < |receipts|
        invariant 0 <= i <= |receipts|
        invariant rows == old(rows)
        invariant actions == Map(RowOf, receipts[..i])
      {
        assert receipts[..i + 1] == receipts[..i] + [receipts[i]];
        MapConcat(RowOf, receipts[..i], [receipts[i]]);
        actions := actions + [RowOf(receipts[i])];
        i := i + 1;
      }
      assert receipts[..|receipts|] == receipts;
      if available {
        rows := rows + actions;
      }
      ok := available;
    }

    /** `delete_entries`: one delete-by-name statement per hash, in one transaction. */
    method DeleteEntries(hashes: seq<string>, available: bool) returns (ok: bool)
      modifies this
      ensures ok == available
      ensures rows == if ok then Without(old(rows), Names(hashes)) else old(rows)
    {
      var remaining := rows;
      var i := 0;
      WithoutNothing(rows);
      assert Names(hashes[..0]) == {};
      while i < |hashes|
        invariant 0 <= i <= |hashes|
        invariant rows == old(rows)
        invariant remaining == Without(rows, Names(hashes[..i]))
      {
        WithoutTwice(rows, Names(hashes[..i]), hashes[i]);
        NamesSnoc(hashes, i);
        remaining := Without(remaining, {hashes[i]});
        i := i + 1;
      }
      assert hashes[..|hashes|] == hashes;
      if available {
        rows := remaining;
      }
      ok := available;
    }

    /** `delete_claimed_entries`: does not touch the database when there is nothing to delete. */
    method DeleteClaimedEntries(keys: seq<Key>, available: bool) returns (ok: bool)
      modifies this
      ensures ok == (available || keys == [])
      ensures rows == if ok then Without(old(rows), Hashes(keys)) else old(rows)
    {
      if keys == [] {
        WithoutNothing(rows);
        assert Hashes(keys) == {};
        return true;
      }
      var entries := Map(KeyHash, keys);
      assert Names(entries) == Hashes(keys) by {
        forall k | k in keys ensures KeyHash(k) in entries {
          var i :| 0 <= i < |keys| && keys[i] == k;
          assert entries[i] == KeyHash(k);
        }
      }
      ok := DeleteEntries(entries, available);
    }
  }

  lemma NamesSnoc(hashes: seq<string>, i: nat)
    requires i < |hashes|
    ensures Names(hashes[..i + 1]) == Names(hashes[..i]) + {hashes[i]}
  {
    forall h | h in Names(hashes[..i]) + {hashes[i]}
      ensures h in Names(hashes[..i + 1])
    {
      if h != hashes[i] {
        var j :| 0 <= j < i && hashes[..i][j] == h;
        assert hashes[..i + 1][j] == h;
      } else {
        assert hashes[..i + 1][i] == h;
      }
    }
  }

  lemma {:induction false} WithoutNothing(rows: seq<Row>)
    ensures Without(rows, {}) == rows
  {
    if rows == [] {
    } else {
      WithoutNothing(rows[1..]);
      assert rows == [rows[0]] + rows[1..];
    }
  }

  lemma {:induction false} WithoutTwice(rows: seq<Row>, hashes: set<string>, hash: string)
    ensures Without(Without(rows, hashes), {hash}) == Without(rows, hashes + {hash})
  {
    if rows == [] {
    } else {
      WithoutTwice(rows[1..], hashes, hash);
      if rows[0].hash !in hashes {
        assert Without(rows, hashes)[1..] == Without(rows[1..], hashes);
      }
    }
  }

  /** Deleting a list of keys removes every row of those keys, duplicates included, and keeps the
      rows of every other key. */
  lemma DeleteExact(rows: seq<Row>, keys: seq<Key>, key: Key)
    ensures Stored(Without(rows, Hashes(keys)), key) <==> Stored(rows, key) && key !in keys
  {
    var left := Without(rows, Hashes(keys));
    if Stored(left, key) {
      var i :| 0 <= i < |left| && left[i].hash == KeyHash(key);
      assert left[i] in rows;
    }
    if Stored(rows, key) && key !in keys {
      var i :| 0 <= i < |rows| && rows[i].hash == KeyHash(key);
      if rows[i].hash in Hashes(keys) {
        var k :| k in keys && KeyHash(k) == KeyHash(key);
        KeyHashInjective(k, key);
      }
      assert rows[i] in left;
    }
  }

  /** Storing receipts makes exactly their keys stored, besides those already there. */
  lemma StoreExact(rows: seq<Row>, receipts: seq<TxReceipt>, key: Key)
    ensures Stored(rows + Map(RowOf, receipts), key) <==>
            Stored(rows, key) || exists i :: 0 <= i < |receipts| && KeyOf(receipts[i]) == key
  {
    var all := rows + Map(RowOf, receipts);
    if Stored(all, key) && !Stored(rows, key) {
      var i :| 0 <= i < |all| && all[i].hash == KeyHash(key);
      StoredRoundTrip(receipts[i - |rows|]);
      KeyHashInjective(KeyOf(receipts[i - |rows|]), key);
    }
    forall i | 0 <= i < |receipts| && KeyOf(receipts[i]) == key
      ensures Stored(all, key)
    {
      StoredRoundTrip(receipts[i]);
      assert all[|rows| + i].hash == KeyHash(key);
    }
    if Stored(rows, key) {
      var i :| 0 <= i < |rows| && rows[i].hash == KeyHash(key);
      assert all[i] == rows[i];
    }
  }

  /** The table holds the delivery of this message from `source` to `dest`, made at that height. */
  predicate Holds(rows: seq<Row>, key: Key, source: StateMachine, dest: StateMachine, height: nat) {
    exists i :: 0 <= i < |rows| && rows[i].hash == KeyHash(key) && rows[i].source == source && rows[i].dest == dest
                && rows[i].height == height
                && rows[i].kind == if key.RequestKey? then PostRequestDelivery else PostResponseDelivery
  }

  /** And each is stored with the chains, the kind and the height of its receipt. */
  lemma StoreRowIff(
    rows: seq<Row>, receipts: seq<TxReceipt>, key: Key, source: StateMachine, dest: StateMachine, height: nat)
    ensures Holds(rows + Map(RowOf, receipts), key, source, dest, height) <==>
            || Holds(rows, key, source, dest, height)
            || exists i :: 0 <= i < |receipts| && KeyOf(receipts[i]) == key && receipts[i].query.source == source
                           && receipts[i].query.dest == dest && receipts[i].height == height
  {
    var all := rows + Map(RowOf, receipts);
    forall i | 0 <= i < |receipts|
      ensures all[|rows| + i].hash == KeyHash(key) <==> KeyOf(receipts[i]) == key
    {
      StoredRoundTrip(receipts[i]);
      if KeyHash(KeyOf(receipts[i])) == KeyHash(key) { KeyHashInjective(KeyOf(receipts[i]), key); }
    }
    forall i | 0 <= i < |rows| ensures all[i] == rows[i] {}
  }
}
