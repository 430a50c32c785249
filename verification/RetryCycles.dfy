/** One cycle of the retry task against the table of unprofitable messages: what is read, what is deleted and
    what is stored again, with the other tasks taking their turns at the table whenever the cycle awaits. */
module RetryCycles {
  import opened Prelude
  import opened Ismp
  import opened Grouping
  import opened Translate
  import opened Unprofitable
  import opened Retry

  // ----- the cycle against the table -----

  /** Which of the cycle's own database calls succeed. */
  datatype Database = Database(delete: bool, store: bool)

  /** What may happen to the table while the cycle awaits something: the task spawned by the read gets to
      deleting the duplicates, and the messaging task stores messages for the same destination. */
  datatype Meanwhile = Meanwhile(cleanup: bool, arrivals: seq<Message>)

  datatype Status = Idle | Panicked | ClockFailed | Completed

  datatype Report = Report(
    status: Status,
    read: seq<Message>,
    outgoing: seq<Message>,
    retriable: seq<Message>,
    stored: seq<Message>)

  function Encoded(codec: Codec, messages: seq<Message>): set<Bytes> { Elements(Encodings(codec, messages)) }

  /** Decoding cannot fail on rows that were written by this codec, and keeps distinct encodings apart. */
  method DecodeAll(codec: Codec, encodings: seq<Bytes>, ghost rows: seq<Row>, ghost dest: StateMachine)
    returns (messages: seq<Message>)
    requires codec.Valid() && AllEncoded(codec, rows)
    requires Elements(encodings) == EncodingSet(For(rows, dest)) && Unique(encodings)
    ensures Encodings(codec, messages) == encodings
    ensures NoDuplicates(messages)
  {
    messages := [];
    var i := 0;
    while i < |encodings|
      invariant 0 <= i == |messages| <= |encodings|
      invariant forall j :: 0 <= j < i ==> codec.encode(messages[j]) == encodings[j]
    {
      WasEncoded(codec, rows, dest, encodings, i);
      messages := messages + [codec.decode(encodings[i]).value];
      i := i + 1;
    }
    UniqueIndices(encodings);
  }

  lemma UniqueIndices(s: seq<Bytes>)
    requires Unique(s)
    ensures NoDuplicates(s)
  {
    forall i, j | 0 <= i < j < |s|
      ensures s[i] != s[j]
    {
      assert s == s[..i] + [s[i]] + s[i + 1..];
      assert s[j] == s[i + 1..][j - i - 1];
      assert multiset(s)[s[i]] <= 1;
    }
  }

  lemma WasEncoded(codec: Codec, rows: seq<Row>, dest: StateMachine, encodings: seq<Bytes>, i: nat)
    requires codec.Valid() && AllEncoded(codec, rows) && i < |encodings|
    requires Elements(encodings) == EncodingSet(For(rows, dest))
    ensures codec.decode(encodings[i]).Some? && codec.encode(codec.decode(encodings[i]).value) == encodings[i]
  {
    assert encodings[i] in Elements(encodings);
    var row :| row in For(rows, dest) && row.encoded == encodings[i];
    var j :| 0 <= j < |rows| && rows[j] == row;
    assert IsEncoding(codec, rows[j].encoded);
    var m :| codec.encode(m) == rows[j].encoded;
  }

  lemma StoredWereRead(codec: Codec, s: Setting, reqSide: Side<PostRequest>, respSide: Side<PostResponse>,
                       clock: Option<nat>, r: Report)
    requires Reported(s, reqSide, respSide, clock, r)
    ensures Encoded(codec, r.stored) <= Encoded(codec, r.retriable) <= Encoded(codec, r.read)
  {
    if Decided(s, reqSide, respSide, clock, r) {
      forall m | m in r.retriable ensures m in r.read {
        RetriableWereRead(s, reqSide, respSide, r.read, r.outgoing, r.retriable, m);
      }
      EncodedShrink(codec, r.retriable, r.read);
      EncodedShrink(codec, r.stored, r.retriable);
    }
  }

  lemma EncodedShrink(codec: Codec, some: seq<Message>, all: seq<Message>)
    requires forall m :: m in some ==> m in all
    ensures Encoded(codec, some) <= Encoded(codec, all)
  {
    forall x | x in Encoded(codec, some)
      ensures x in Encoded(codec, all)
    {
      var i :| 0 <= i < |some| && Encodings(codec, some)[i] == x;
      EncodedMember(codec, all, some[i]);
    }
  }

  /** A message is among others iff its encoding is among theirs. */
  lemma EncodedMember(codec: Codec, all: seq<Message>, m: Message)
    ensures m in all ==> codec.encode(m) in Encoded(codec, all)
    ensures codec.Valid() && codec.encode(m) in Encoded(codec, all) ==> m in all
  {
    if m in all {
      var i :| 0 <= i < |all| && all[i] == m;
      assert Encodings(codec, all)[i] == codec.encode(m);
    }
    if codec.Valid() && codec.encode(m) in Encoded(codec, all) {
      var i :| 0 <= i < |all| && Encodings(codec, all)[i] == codec.encode(m);
      assert codec.decode(codec.encode(all[i])) == Some(all[i]);
    }
  }

  /** What a cycle does to the table, whatever fails: other destinations keep their rows, messages that
      arrived meanwhile stay, and no message appears that was not there before. */
  ghost predicate TableKept(before: seq<Row>, after: seq<Row>, dest: StateMachine, arrivals: set<Bytes>) {
    && NotFor(after, dest) == NotFor(before, dest)
    && EncodingSet(For(after, dest)) <= EncodingSet(For(before, dest)) + arrivals
    && arrivals <= EncodingSet(For(after, dest))
  }

  /** The others' turn at the table. */
  function Turn(codec: Codec, dest: StateMachine, duplicates: seq<nat>, w: Meanwhile, t: Table): Table {
    Added(Deleted(t, duplicates, w.cleanup), Encodings(codec, w.arrivals), dest, true)
  }

  /** What a cycle that read `d` makes of the table, the others taking their turns at every await. */
  function CycleTable(codec: Codec, dest: StateMachine, d: Deduplicated, stored: seq<Message>, db: Database,
                      w0: Meanwhile, w1: Meanwhile, w2: Meanwhile, t: Table): Table
  {
    Refilled(codec, dest, d.duplicates, stored, db.store, w1, w2, Cleared(codec, dest, d, db.delete, w0, t))
  }

  function Cleared(codec: Codec, dest: StateMachine, d: Deduplicated, delete: bool, w: Meanwhile, t: Table): Table {
    Deleted(Turn(codec, dest, d.duplicates, w, t), d.ids, delete)
  }

  function Refilled(codec: Codec, dest: StateMachine, duplicates: seq<nat>, stored: seq<Message>, store: bool,
                    w1: Meanwhile, w2: Meanwhile, t: Table): Table
  {
    Turn(codec, dest, duplicates, w2,
         Added(Turn(codec, dest, duplicates, w1, t), Encodings(codec, stored), dest, store))
  }

  method Interfere(table: UnprofitableTable, codec: Codec, dest: StateMachine, duplicates: seq<nat>, w: Meanwhile)
    requires table.Valid()
    modifies table
    ensures table.Valid() && table.View() == Turn(codec, dest, duplicates, w, old(table.View()))
  {
    var deleted := table.Delete(duplicates, w.cleanup);
    var stored := table.Store(codec, w.arrivals, dest, true);
  }

  /** The cycle's dealings with the table after the read. */
  method Finish(table: UnprofitableTable, codec: Codec, dest: StateMachine, d: Deduplicated, stored: seq<Message>,
                db: Database, w0: Meanwhile, w1: Meanwhile, w2: Meanwhile)
    requires table.Valid()
    modifies table
    ensures table.Valid()
    ensures table.View() == CycleTable(codec, dest, d, stored, db, w0, w1, w2, old(table.View()))
  {
    Interfere(table, codec, dest, d.duplicates, w0);
    var deleted := table.Delete(d.ids, db.delete);
    Interfere(table, codec, dest, d.duplicates, w1);
    var kept := table.Store(codec, stored, dest, db.store);
    Interfere(table, codec, dest, d.duplicates, w2);
  }

  /** How a table got to where it is since it was `before`: which rows are gone and what came in. */
  ghost predicate Since(before: Table, t: Table, dest: StateMachine, removed: set<nat>, added: seq<Bytes>) {
    t.nextId >= before.nextId && Changed(before.rows, before.nextId, dest, removed, added, t.rows)
  }

  function Gone(removed: set<nat>, ids: seq<nat>, deleted: bool): set<nat> {
    if deleted then removed + Elements(ids) else removed
  }

  ghost predicate AllOrNone(ids: seq<nat>, removed: set<nat>) { Elements(ids) <= removed || Elements(ids) !! removed }

  /** Deleting ids that are either all there or all gone. */
  lemma DeleteSome(before: Table, t: Table, dest: StateMachine, removed: set<nat>, added: seq<Bytes>,
                   ids: seq<nat>, ok: bool)
    requires Since(before, t, dest, removed, added) && DistinctIds(before.rows, before.nextId)
    requires NoDuplicates(ids) && Elements(ids) <= Ids(before.rows) && AllOrNone(ids, removed)
    ensures Since(before, Deleted(t, ids, ok), dest, Gone(removed, ids, ok), added)
    ensures AllOrNone(ids, Gone(removed, ids, ok))
  {
    if ok && Elements(ids) !! removed {
      ChangedKeeps(before.rows, before.nextId, dest, removed, added, t.rows, Elements(ids));
      ChangedDelete(before.rows, before.nextId, dest, removed, added, t.rows, Elements(ids));
    } else if ok && Elements(ids) <= Ids(t.rows) {
      ChangedDelete(before.rows, before.nextId, dest, removed, added, t.rows, Elements(ids));
    } else {
      assert ok ==> removed + Elements(ids) == removed;
    }
  }

  lemma StoreSome(before: Table, t: Table, dest: StateMachine, removed: set<nat>, added: seq<Bytes>,
                  encodings: seq<Bytes>, ok: bool)
    requires Since(before, t, dest, removed, added)
    ensures Since(before, Added(t, encodings, dest, ok), dest, removed, added + if ok then encodings else [])
  {
    ChangedStore(before.rows, before.nextId, dest, removed, added, t.rows, encodings, t.nextId);
    assert added + [] == added;
  }

  lemma TurnSince(before: Table, t: Table, codec: Codec, dest: StateMachine, removed: set<nat>, added: seq<Bytes>,
                  duplicates: seq<nat>, w: Meanwhile)
    requires Since(before, t, dest, removed, added) && DistinctIds(before.rows, before.nextId)
    requires NoDuplicates(duplicates) && Elements(duplicates) <= Ids(before.rows) && AllOrNone(duplicates, removed)
    ensures var gone := Gone(removed, duplicates, w.cleanup);
            && Since(before, Turn(codec, dest, duplicates, w, t), dest, gone, added + Encodings(codec, w.arrivals))
            && AllOrNone(duplicates, gone)
  {
    DeleteSome(before, t, dest, removed, added, duplicates, w.cleanup);
    StoreSome(before, Deleted(t, duplicates, w.cleanup), dest, Gone(removed, duplicates, w.cleanup), added,
              Encodings(codec, w.arrivals), true);
  }

  lemma ClearedSince(codec: Codec, dest: StateMachine, d: Deduplicated, delete: bool, w: Meanwhile, t: Table)
    requires DistinctIds(t.rows, t.nextId) && IdsOk(d, Ids(For(t.rows, dest)))
    ensures var gone := Gone(Gone({}, d.duplicates, w.cleanup), d.ids, delete);
            && Since(t, Cleared(codec, dest, d, delete, w, t), dest, gone, Encodings(codec, w.arrivals))
            && AllOrNone(d.duplicates, gone)
  {
    RemovedNothing(t.rows);
    assert Elements<nat>([]) == {} && t.rows[..|t.rows|] == t.rows;
    OwnIds(t.rows, dest, d);
    TurnSince(t, t, codec, dest, {}, [], d.duplicates, w);
    var came := Encodings(codec, w.arrivals);
    assert [] + came == came;
    DeleteSome(t, Turn(codec, dest, d.duplicates, w, t), dest, Gone({}, d.duplicates, w.cleanup), came, d.ids, delete);
  }

  lemma RefilledSince(codec: Codec, dest: StateMachine, duplicates: seq<nat>, stored: seq<Message>, store: bool,
                      w1: Meanwhile, w2: Meanwhile, before: Table, t: Table, removed: set<nat>, added: seq<Bytes>)
    requires Since(before, t, dest, removed, added) && DistinctIds(before.rows, before.nextId)
    requires NoDuplicates(duplicates) && Elements(duplicates) <= Ids(before.rows) && AllOrNone(duplicates, removed)
    ensures Since(before, Refilled(codec, dest, duplicates, stored, store, w1, w2, t), dest,
                  Gone(Gone(removed, duplicates, w1.cleanup), duplicates, w2.cleanup),
                  added + Encodings(codec, w1.arrivals) + (if store then Encodings(codec, stored) else [])
                  + Encodings(codec, w2.arrivals))
  {
    TurnSince(before, t, codec, dest, removed, added, duplicates, w1);
    var t1, gone := Turn(codec, dest, duplicates, w1, t), Gone(removed, duplicates, w1.cleanup);
    var came := added + Encodings(codec, w1.arrivals);
    StoreSome(before, t1, dest, gone, came, Encodings(codec, stored), store);
    TurnSince(before, Added(t1, Encodings(codec, stored), dest, store), codec, dest, gone,
              came + (if store then Encodings(codec, stored) else []), duplicates, w2);
  }

  lemma GoneOnce(a: seq<nat>, b: seq<nat>, first: bool, between: bool, second: bool, third: bool)
    ensures Gone(Gone(Gone(Gone({}, a, first), b, between), a, second), a, third)
         == Gone(Gone({}, a, first || second || third), b, between)
  {
  }

  /** A whole cycle takes away what its deletions succeed in taking, and brings what is stored. */
  lemma CycleSince(codec: Codec, dest: StateMachine, d: Deduplicated, stored: seq<Message>, db: Database,
                   w0: Meanwhile, w1: Meanwhile, w2: Meanwhile, t: Table)
    requires DistinctIds(t.rows, t.nextId) && IdsOk(d, Ids(For(t.rows, dest)))
    ensures Since(t, CycleTable(codec, dest, d, stored, db, w0, w1, w2, t), dest,
                  Gone(Gone({}, d.duplicates, w0.cleanup || w1.cleanup || w2.cleanup), d.ids, db.delete),
                  Encodings(codec, Brought(db, stored, w0, w1, w2)))
  {
    OwnIds(t.rows, dest, d);
    ClearedSince(codec, dest, d, db.delete, w0, t);
    var gone := Gone(Gone({}, d.duplicates, w0.cleanup), d.ids, db.delete);
    RefilledSince(codec, dest, d.duplicates, stored, db.store, w1, w2, t, Cleared(codec, dest, d, db.delete, w0, t),
                  gone, Encodings(codec, w0.arrivals));
    BroughtEncodings(codec, db, stored, w0, w1, w2);
    GoneOnce(d.duplicates, d.ids, w0.cleanup, db.delete, w1.cleanup, w2.cleanup);
  }

  /** All that was stored for the destination, in order. */
  function Brought(db: Database, stored: seq<Message>, w0: Meanwhile, w1: Meanwhile, w2: Meanwhile): seq<Message> {
    w0.arrivals + w1.arrivals + (if db.store then stored else []) + w2.arrivals
  }

  lemma BroughtEncodings(codec: Codec, db: Database, stored: seq<Message>, w0: Meanwhile, w1: Meanwhile, w2: Meanwhile)
    ensures Encodings(codec, Brought(db, stored, w0, w1, w2))
         == Encodings(codec, w0.arrivals) + Encodings(codec, w1.arrivals)
            + (if db.store then Encodings(codec, stored) else []) + Encodings(codec, w2.arrivals)
  {
    var mine := if db.store then stored else [];
    MapConcat(codec.encode, w0.arrivals, w1.arrivals);
    MapConcat(codec.encode, w0.arrivals + w1.arrivals, mine);
    MapConcat(codec.encode, w0.arrivals + w1.arrivals + mine, w2.arrivals);
  }

  lemma OwnIds(rows: seq<Row>, dest: StateMachine, d: Deduplicated)
    requires IdsOk(d, Ids(For(rows, dest)))
    ensures Elements(d.ids) <= Ids(rows) && Elements(d.duplicates) <= Ids(rows)
  {
    forall id | id in Ids(For(rows, dest))
      ensures id in Ids(rows)
    {
      var row :| row in For(rows, dest) && row.id == id;
      assert row in rows;
    }
  }

  /** A run of the cycle that could not have gone better as far as the table is concerned. */
  predicate Unhindered(db: Database, w0: Meanwhile, w1: Meanwhile, w2: Meanwhile) {
    db == Database(true, true) && (w0.cleanup || w1.cleanup || w2.cleanup)
  }

  function Arrivals(w0: Meanwhile, w1: Meanwhile, w2: Meanwhile): seq<Message> {
    w0.arrivals + w1.arrivals + w2.arrivals
  }

  /** Whatever the deletions and stores of a cycle come to, it leaves other destinations' rows and newly
      arrived ones alone and adds no message that was not there; and if none of them fails, what remains of
      the destination's rows are the arrivals and the messages stored again, in the order they came. */
  lemma CycleEffect(codec: Codec, t: Table, dest: StateMachine, d: Deduplicated, stored: seq<Message>, db: Database,
                    w0: Meanwhile, w1: Meanwhile, w2: Meanwhile)
    requires DistinctIds(t.rows, t.nextId) && IdsOk(d, Ids(For(t.rows, dest))) && AllEncoded(codec, t.rows)
    requires Encoded(codec, stored) <= EncodingSet(For(t.rows, dest))
    ensures var after := CycleTable(codec, dest, d, stored, db, w0, w1, w2, t).rows;
            && AllEncoded(codec, after)
            && TableKept(t.rows, after, dest, Encoded(codec, Arrivals(w0, w1, w2)))
            && (Unhindered(db, w0, w1, w2) ==>
                  Hold(For(after, dest), t.nextId, dest,
                       Encodings(codec, w0.arrivals + w1.arrivals + stored + w2.arrivals)))
  {
    var after := CycleTable(codec, dest, d, stored, db, w0, w1, w2, t).rows;
    var removed := Gone(Gone({}, d.duplicates, w0.cleanup || w1.cleanup || w2.cleanup), d.ids, db.delete);
    CycleSince(codec, dest, d, stored, db, w0, w1, w2, t);
    ChangeEffect(t.rows, t.nextId, dest, removed, Encodings(codec, Brought(db, stored, w0, w1, w2)), after);
    BroughtElements(codec, db, stored, w0, w1, w2);
    StillEncoded(codec, t.rows, t.nextId, dest, removed, Brought(db, stored, w0, w1, w2), after);
  }

  lemma BroughtElements(codec: Codec, db: Database, stored: seq<Message>, w0: Meanwhile, w1: Meanwhile, w2: Meanwhile)
    ensures Encoded(codec, Arrivals(w0, w1, w2)) <= Encoded(codec, Brought(db, stored, w0, w1, w2))
    ensures Encoded(codec, Brought(db, stored, w0, w1, w2))
         <= Encoded(codec, stored) + Encoded(codec, Arrivals(w0, w1, w2))
  {
    var none := Database(false, false);
    BroughtEncodings(codec, db, stored, w0, w1, w2);
    BroughtEncodings(codec, none, stored, w0, w1, w2);
    assert w0.arrivals + w1.arrivals + [] == w0.arrivals + w1.arrivals;
    assert Brought(none, stored, w0, w1, w2) == Arrivals(w0, w1, w2);
  }

  lemma StillEncoded(codec: Codec, rows: seq<Row>, nextId: nat, dest: StateMachine, removed: set<nat>,
                     all: seq<Message>, after: seq<Row>)
    requires AllEncoded(codec, rows) && Changed(rows, nextId, dest, removed, Encodings(codec, all), after)
    ensures AllEncoded(codec, after)
  {
    var k := |Removed(rows, removed)|;
    forall i | 0 <= i < |after|
      ensures IsEncoding(codec, after[i].encoded)
    {
      if i < k {
        assert after[i] == after[..k][i] == Removed(rows, removed)[i];
        var j :| 0 <= j < |rows| && rows[j] == after[i];
      } else {
        assert after[i] == after[k..][i - k];
        assert after[i].encoded == codec.encode(all[i - k]);
      }
    }
  }

  /** A panic ends the cycle before it deletes anything. */
  function Mine(ok: bool, db: Database): Database { if ok then db else Database(false, false) }

  /** The cycle got past its judgement. */
  ghost predicate Decided(s: Setting, reqSide: Side<PostRequest>, respSide: Side<PostResponse>,
                          clock: Option<nat>, r: Report) {
    && r.read != [] && Handled(s, reqSide, respSide, r.read, r.outgoing, r.retriable)
    && r.stored == Kept(r.retriable, clock)
    && r.status == if clock.None? && r.retriable != [] then ClockFailed else Completed
  }

  /** What is left to retry is stored as long as it lasts. */
  ghost predicate StoresWhatLasts(clock: Option<nat>, r: Report) {
    clock.Some? ==>
      forall m :: m in r.retriable ==> WellFormed(m) && (m in r.stored <==> Lasts(m, clock.value))
  }

  lemma StoredIff(s: Setting, reqSide: Side<PostRequest>, respSide: Side<PostResponse>, clock: Option<nat>, r: Report)
    requires Decided(s, reqSide, respSide, clock, r)
    ensures StoresWhatLasts(clock, r)
  {
    if clock.Some? {
      forall m | m in r.retriable
        ensures WellFormed(m) && (m in r.stored <==> Lasts(m, clock.value))
      {
        RetriableWereRead(s, reqSide, respSide, r.read, r.outgoing, r.retriable, m);
        KeptIff(r.retriable, clock.value, m);
      }
    }
  }

  /** What a cycle reports, judging at this setting: nothing was read; it panicked on a malformed message or
      an overflow; or it judged what it read, and went on to store what is left to retry unless it could not
      read the clock. */
  ghost predicate Reported(s: Setting, reqSide: Side<PostRequest>, respSide: Side<PostResponse>,
                           clock: Option<nat>, r: Report) {
    match r.status
    case Idle => r == Report(Idle, [], [], [], [])
    case Panicked =>
      && r.read != [] && r == Report(Panicked, r.read, [], [], [])
      && (AllWellFormed(r.read) ==> AnyOverflow(s, reqSide, respSide, r.read))
    case _ => Decided(s, reqSide, respSide, clock, r)
  }

  /** One retry cycle, the others taking their turns between the read and the deletion, between the
      deletion and the store, and after the store; `submit` says whether the submission succeeds. */
  method RetryCycle(table: UnprofitableTable, codec: Codec, s: Setting, reqSide: Side<PostRequest>,
                    respSide: Side<PostResponse>, submit: bool, clock: Option<nat>, db: Database,
                    w0: Meanwhile, w1: Meanwhile, w2: Meanwhile)
    returns (r: Report)
    requires table.Valid() && codec.Valid() && AllEncoded(codec, table.rows) && s.terms.batchSize > 0
    modifies table
    ensures table.Valid() && AllEncoded(codec, table.rows)
    ensures Encoded(codec, r.read) == EncodingSet(For(old(table.rows), s.sink)) && NoDuplicates(r.read)
    ensures Reported(AtHighest(s, r.read), reqSide, respSide, clock, r) && StoresWhatLasts(clock, r)
    ensures table.View() == CycleTable(codec, s.sink, Deduplicate(For(old(table.rows), s.sink)), r.stored,
                                       Mine(!r.status.Panicked?, db), w0, w1, w2, old(table.View()))
    ensures TableKept(old(table.rows), table.rows, s.sink, Encoded(codec, Arrivals(w0, w1, w2)))
    ensures (r.status.Completed? || r.status.ClockFailed?) && Genuine(reqSide, respSide) ==>
              var t := AtHighest(s, r.read);
              && OneFateEach(t, reqSide, respSide, r.read, r.outgoing, submit, clock)
              && (Lost(SortAll(t, reqSide, respSide, r.read), submit, clock) == [] <==>
                  && Answered(t, reqSide, respSide, r.read)
                  && (submit || r.outgoing == []) && r.status.Completed?)
    ensures !r.status.Panicked? && Unhindered(db, w0, w1, w2) ==>
              Hold(For(table.rows, s.sink), old(table.nextId), s.sink,
                   Encodings(codec, w0.arrivals + w1.arrivals + r.stored + w2.arrivals))
  {
    ghost var before := table.View();
    var dest := s.sink;
    var d := table.ReadDistinct(dest);
    var read := DecodeAll(codec, d.distinct, before.rows, dest);
    r := Decide(s, reqSide, respSide, read, submit, clock);
    StoredWereRead(codec, AtHighest(s, read), reqSide, respSide, clock, r);
    if Decided(AtHighest(s, read), reqSide, respSide, clock, r) {
      StoredIff(AtHighest(s, read), reqSide, respSide, clock, r);
    }
    var mine := Mine(!r.status.Panicked?, db);
    Finish(table, codec, dest, d, r.stored, mine, w0, w1, w2);
    CycleEffect(codec, before, dest, d, r.stored, mine, w0, w1, w2);
  }

  /** The cycle but for its dealings with the table. */
  method Decide(s: Setting, reqSide: Side<PostRequest>, respSide: Side<PostResponse>, read: seq<Message>,
                submit: bool, clock: Option<nat>)
    returns (r: Report)
    requires NoDuplicates(read) && s.terms.batchSize > 0
    ensures r.read == read && Reported(AtHighest(s, read), reqSide, respSide, clock, r)
    ensures (r.status.Completed? || r.status.ClockFailed?) && Genuine(reqSide, respSide) ==>
              var t := AtHighest(s, read);
              && OneFateEach(t, reqSide, respSide, read, r.outgoing, submit, clock)
              && (Lost(SortAll(t, reqSide, respSide, read), submit, clock) == [] <==>
                  && Answered(t, reqSide, respSide, read)
                  && (submit || r.outgoing == []) && r.status.Completed?)
  {
    if read == [] {
      return Report(Idle, [], [], [], []);
    }
    var ok, outgoing, retriable := Handle(s, reqSide, respSide, read);
    if !ok {
      return Report(Panicked, read, [], [], []);
    }
    if Genuine(reqSide, respSide) {
      RetryFates(AtHighest(s, read), reqSide, respSide, read, outgoing, retriable, submit, clock);
    }
    if retriable != [] && clock.None? {
      return Report(ClockFailed, read, outgoing, retriable, []);
    }
    r := Report(Completed, read, outgoing, retriable, Kept(retriable, clock));
  }

  /** After a cycle that nothing hindered, a message that did not arrive again is in the table iff it was
      stored: what the cycle lost is gone for good. */
  lemma GoneUnlessStored(codec: Codec, rows: seq<Row>, nextId: nat, dest: StateMachine, stored: seq<Message>,
                         w0: Meanwhile, w1: Meanwhile, w2: Meanwhile, m: Message)
    requires codec.Valid() && codec.encode(m) !in Encoded(codec, Arrivals(w0, w1, w2))
    requires Hold(For(rows, dest), nextId, dest, Encodings(codec, w0.arrivals + w1.arrivals + stored + w2.arrivals))
    ensures codec.encode(m) in EncodingSet(For(rows, dest)) <==> m in stored
  {
    var all := w0.arrivals + w1.arrivals + stored + w2.arrivals;
    HeldEncodings(For(rows, dest), nextId, dest, Encodings(codec, all));
    EncodedMember(codec, all, m);
    EncodedMember(codec, Arrivals(w0, w1, w2), m);
  }

  /** Without newcomers, the number of distinct messages of a destination never grows, even when
      deletions fail and messages are stored twice. */
  lemma DistinctNeverGrow(before: seq<Row>, after: seq<Row>, dest: StateMachine)
    requires TableKept(before, after, dest, {})
    ensures |EncodingSet(For(after, dest))| <= |EncodingSet(For(before, dest))|
  {
    SubsetSize(EncodingSet(For(after, dest)), EncodingSet(For(before, dest)));
  }
}
