/** A retry cycle as a path of the whole-run machine: what `RetryCycle` reports and makes of the table is what
    the machine comes to by a read, a judgement and a store with the others' steps in between. */
module RetryRefinement {
  import opened Prelude
  import opened Ismp
  import opened Grouping
  import opened Translate
  import opened Unprofitable
  import opened Retry
  import opened RetryCycles
  import opened RetryRuns

  // ----- the script of a cycle -----

  /** The others' turn, as steps of the machine; `own` is the number of the cycle's own background deletion. */
  function Others(codec: Codec, dest: StateMachine, w: Meanwhile, own: nat): seq<Action> {
    (if w.cleanup then [Cleanup(own, true)] else []) + [Arrive(dest, Encodings(codec, w.arrivals))]
  }

  function Decision(codec: Codec, dest: StateMachine, r: Report, settled: seq<Bytes>, delete: bool): Action {
    if r.status.Panicked? then Abort(dest) else Judge(dest, settled, Encodings(codec, r.retriable), delete)
  }

  /** How a cycle ends; after a panic it has ended already. */
  function Ending(codec: Codec, dest: StateMachine, r: Report, store: bool): Action {
    if r.status.Panicked? || r.status.ClockFailed? then Abort(dest)
    else Keep(dest, Encodings(codec, r.stored), store)
  }

  /** A cycle, as steps of the machine. */
  function Script(codec: Codec, dest: StateMachine, r: Report, settled: seq<Bytes>, db: Database,
                  w0: Meanwhile, w1: Meanwhile, w2: Meanwhile, own: nat): seq<Action>
  {
    [Read(dest)] + Others(codec, dest, w0, own) + [Decision(codec, dest, r, settled, db.delete)]
    + Others(codec, dest, w1, own) + [Ending(codec, dest, r, db.store)] + Others(codec, dest, w2, own)
  }

  /** What the cycle is rightly rid of, by its report; nothing if it was idle or panicked. */
  ghost function SettledBy(codec: Codec, s: Setting, reqSide: Side<PostRequest>, respSide: Side<PostResponse>,
                           submit: bool, r: Report): seq<Bytes>
  {
    if !r.status.Idle? && !r.status.Panicked? && AllWellFormed(r.read)
    then Encodings(codec, Settled(SortAll(s, reqSide, respSide, r.read), submit))
    else []
  }

  /** What is owed after the cycle: what was owed and what arrived, less what was settled before or timed out. */
  function CycleOwed(codec: Codec, dest: StateMachine, owed: set<Item>, settled: seq<Bytes>, r: Report,
                     w0: Meanwhile, w1: Meanwhile, w2: Meanwhile): set<Item>
  {
    var late := if r.status.Completed?
                then Expired(dest, Encodings(codec, r.retriable), Encodings(codec, r.stored)) else {};
    owed + ItemsOf(dest, Encodings(codec, w0.arrivals)) - ItemsOf(dest, settled)
    + ItemsOf(dest, Encodings(codec, w1.arrivals)) - late + ItemsOf(dest, Encodings(codec, w2.arrivals))
  }

  lemma {:induction false} RunIsFold(s: State, actions: seq<Action>)
    ensures Run(s, actions) == Fold(Step, s, actions)
  {
    if actions == [] {
    } else {
      RunIsFold(s, actions[..|actions| - 1]);
    }
  }

  lemma RunConcat(s: State, a: seq<Action>, b: seq<Action>)
    ensures Run(s, a + b) == Run(Run(s, a), b)
  {
    RunIsFold(s, a + b);
    RunIsFold(s, a);
    RunIsFold(Run(s, a), b);
    FoldConcat(Step, s, a, b);
  }

  lemma RunOne(s: State, a: Action)
    ensures Run(s, [a]) == Step(s, a)
  {
    assert [a][..0] == [];
  }

  lemma RunThen(s: State, a: seq<Action>, b: Action, c: seq<Action>)
    ensures Run(s, a + [b] + c) == Run(Step(Run(s, a), b), c)
  {
    RunConcat(s, a + [b], c);
    RunConcat(s, a, [b]);
    RunOne(Run(s, a), b);
  }

  // ----- the background deletion of the duplicates -----

  ghost predicate Spent(rows: seq<Row>, duplicates: seq<nat>) {
    duplicates == [] || !(Elements(duplicates) <= Ids(rows))
  }

  /** The deletion of these duplicates is still to come, or would find nothing to delete any more. */
  ghost predicate Pending(s: State, others: seq<seq<nat>>, duplicates: seq<nat>) {
    && (forall id :: id in duplicates ==> id < s.nextId)
    && (s.cleanups == others + [duplicates] || (s.cleanups == others && Spent(s.rows, duplicates)))
  }

  lemma SpentDeletesNothing(rows: seq<Row>, duplicates: seq<nat>, ok: bool)
    requires Spent(rows, duplicates)
    ensures DeleteIds(rows, duplicates, ok) == rows
  {
    RemovedNothing(rows);
  }

  lemma DeletedIsSpent(rows: seq<Row>, duplicates: seq<nat>)
    requires NoDuplicates(duplicates)
    ensures Spent(DeleteIds(rows, duplicates, true), duplicates)
  {
    if duplicates != [] && Elements(duplicates) <= Ids(rows) {
      var left := Removed(rows, Elements(duplicates));
      assert duplicates[0] in Elements(duplicates);
      forall row | row in left ensures row.id != duplicates[0] {
        var i :| 0 <= i < |left| && left[i] == row;
      }
    }
  }

  lemma SpentStays(rows: seq<Row>, duplicates: seq<nat>, ids: seq<nat>, ok: bool)
    requires Spent(rows, duplicates)
    ensures Spent(DeleteIds(rows, ids, ok), duplicates)
  {
    forall row | row in DeleteIds(rows, ids, ok) ensures row in rows {}
  }

  lemma SpentAfterStore(t: Table, duplicates: seq<nat>, encodings: seq<Bytes>, dest: StateMachine)
    requires Spent(t.rows, duplicates) && forall id :: id in duplicates ==> id < t.nextId
    ensures Spent(Added(t, encodings, dest, true).rows, duplicates)
  {
    var after := Added(t, encodings, dest, true).rows;
    if duplicates != [] {
      var id :| id in Elements(duplicates) && id !in Ids(t.rows);
      forall row | row in after ensures row.id != id {
        var i :| 0 <= i < |after| && after[i] == row;
        if i < |t.rows| { assert row in t.rows; }
      }
    }
  }

  // ----- step by step -----

  /** Along a cycle that began in `base` the machine has come to this table, cycle and debt, all else alike. */
  ghost predicate At(s: State, base: State, dest: StateMachine, duplicates: seq<nat>, t: Table, c: Option<Cycle>,
                     owed: set<Item>)
  {
    var cycles := if c.Some? then base.cycles[dest := c.value] else base.cycles;
    s == State(t.rows, t.nextId, s.cleanups, cycles, owed) && Pending(s, base.cleanups, duplicates)
  }

  lemma ArriveAt(s: State, base: State, dest: StateMachine, duplicates: seq<nat>, t: Table, c: Option<Cycle>,
                 owed: set<Item>, encodings: seq<Bytes>)
    requires At(s, base, dest, duplicates, t, c, owed)
    ensures At(Step(s, Arrive(dest, encodings)), base, dest, duplicates, Added(t, encodings, dest, true), c,
               owed + ItemsOf(dest, encodings))
  {
    if s.cleanups == base.cleanups {
      SpentAfterStore(t, duplicates, encodings, dest);
    }
  }

  lemma CleanupAt(s: State, base: State, dest: StateMachine, duplicates: seq<nat>, t: Table, c: Option<Cycle>,
                  owed: set<Item>)
    requires At(s, base, dest, duplicates, t, c, owed) && NoDuplicates(duplicates)
    ensures At(Step(s, Cleanup(|base.cleanups|, true)), base, dest, duplicates, Deleted(t, duplicates, true), c, owed)
  {
    var own := |base.cleanups|;
    if s.cleanups == base.cleanups {
      SpentDeletesNothing(s.rows, duplicates, true);
    } else {
      DeletedIsSpent(s.rows, duplicates);
      assert s.cleanups[..own] + s.cleanups[own + 1..] == base.cleanups;
    }
  }

  lemma OthersAt(s: State, base: State, codec: Codec, dest: StateMachine, duplicates: seq<nat>, t: Table,
                 c: Option<Cycle>, owed: set<Item>, w: Meanwhile)
    requires At(s, base, dest, duplicates, t, c, owed) && NoDuplicates(duplicates)
    ensures At(Run(s, Others(codec, dest, w, |base.cleanups|)), base, dest, duplicates,
               Turn(codec, dest, duplicates, w, t), c, owed + ItemsOf(dest, Encodings(codec, w.arrivals)))
  {
    var arrive, cleanup := Arrive(dest, Encodings(codec, w.arrivals)), Cleanup(|base.cleanups|, true);
    var m := if w.cleanup then Step(s, cleanup) else s;
    if w.cleanup {
      CleanupAt(s, base, dest, duplicates, t, c, owed);
      RunOne(s, cleanup);
      RunConcat(s, [cleanup], [arrive]);
    } else {
      assert Others(codec, dest, w, |base.cleanups|) == [arrive];
    }
    RunOne(m, arrive);
    ArriveAt(m, base, dest, duplicates, Deleted(t, duplicates, w.cleanup), c, owed, Encodings(codec, w.arrivals));
  }

  /** A cycle begins if there is anything to read. */
  function Begun(d: Deduplicated): Option<Cycle> {
    if d.ids == [] then None else Some(Judging(d.ids, d.distinct))
  }

  /** Where it stands after its decision. */
  function Halfway(codec: Codec, d: Deduplicated, r: Report): Option<Cycle> {
    if d.ids == [] || r.status.Panicked? then None else Some(Storing(Encodings(codec, r.retriable)))
  }

  lemma ReadAt(base: State, dest: StateMachine, d: Deduplicated)
    requires Fits(base) && dest !in base.cycles && d == Deduplicate(For(base.rows, dest))
    ensures At(Step(base, Read(dest)), base, dest, d.duplicates, TableOf(base), Begun(d), base.owed)
    ensures NoDuplicates(d.duplicates)
  {
    var data := For(base.rows, dest);
    ReadFinds(base, dest, d);
    FilterDistinct(base.rows, base.nextId, (row: Row) => row.dest == dest);
    DeduplicateIds(data, base.nextId);
    if d.ids == [] {
      NothingRead(data);
    }
  }

  lemma NothingRead(data: seq<Row>)
    ensures Deduplicate(data).ids == [] <==> data == []
    ensures Deduplicate(data).distinct == [] <==> data == []
  {
    DeduplicateDistinct(data);
    if data != [] {
      assert data[0].encoded in EncodingSet(data);
    }
  }

  lemma DecisionAt(s: State, base: State, codec: Codec, dest: StateMachine, d: Deduplicated, t: Table,
                   owed: set<Item>, r: Report, settled: seq<Bytes>, delete: bool)
    requires At(s, base, dest, d.duplicates, t, Begun(d), owed) && dest !in base.cycles
    requires Elements(settled) + Encoded(codec, r.retriable) <= Elements(d.distinct)
    requires r.status.Panicked? || d.ids == [] ==> settled == []
    ensures At(Step(s, Decision(codec, dest, r, settled, delete)), base, dest, d.duplicates,
               Deleted(t, d.ids, !r.status.Panicked? && delete), Halfway(codec, d, r), owed - ItemsOf(dest, settled))
  {
    if r.status.Panicked? {
      assert s.cycles - {dest} == base.cycles;
    } else if d.ids == [] {
      SpentDeletesNothing(s.rows, [], delete);
    } else {
      assert CanJudge(s, dest, settled, Encodings(codec, r.retriable));
      if s.cleanups == base.cleanups {
        SpentStays(s.rows, d.duplicates, d.ids, delete);
      }
    }
  }

  lemma AddedNothing(t: Table, dest: StateMachine, ok: bool)
    ensures Added(t, [], dest, ok) == t
  {
    assert t.rows + [] == t.rows;
  }

  lemma EndingAt(s: State, base: State, codec: Codec, dest: StateMachine, d: Deduplicated, t: Table,
                 owed: set<Item>, r: Report, store: bool)
    requires At(s, base, dest, d.duplicates, t, Halfway(codec, d, r), owed) && dest !in base.cycles
    requires Encoded(codec, r.stored) <= Encoded(codec, r.retriable)
    requires d.ids == [] ==> r.retriable == [] && r.stored == []
    requires r.status.Panicked? || r.status.ClockFailed? ==> r.stored == []
    ensures At(Step(s, Ending(codec, dest, r, store)), base, dest, d.duplicates,
               Added(t, Encodings(codec, r.stored), dest, !r.status.Panicked? && store), None,
               if r.status.Panicked? || r.status.ClockFailed? then owed
               else owed - Expired(dest, Encodings(codec, r.retriable), Encodings(codec, r.stored)))
  {
    assert s.cycles - {dest} == base.cycles;
    if Halfway(codec, d, r).None? || r.stored == [] {
      AddedNothing(t, dest, store);
    }
    if Halfway(codec, d, r).Some? && s.cleanups == base.cleanups {
      SpentAfterStore(t, d.duplicates, Encodings(codec, r.stored), dest);
    }
  }

  // ----- the whole cycle -----

  /** The facts about a report that the machine's steps ask for. */
  ghost predicate Sensible(codec: Codec, d: Deduplicated, r: Report, settled: seq<Bytes>) {
    && Elements(settled) + Encoded(codec, r.retriable) <= Elements(d.distinct)
    && Encoded(codec, r.stored) <= Encoded(codec, r.retriable)
    && (r.status.Panicked? || d.ids == [] ==> settled == [] && r.retriable == [] && r.stored == [])
    && (r.status.ClockFailed? ==> r.stored == [])
    && (r.status.Idle? ==> r.retriable == [] && r.stored == [])
  }

  lemma ReportSensible(codec: Codec, s: Setting, reqSide: Side<PostRequest>, respSide: Side<PostResponse>,
                       submit: bool, clock: Option<nat>, r: Report, rows: seq<Row>)
    requires Genuine(reqSide, respSide) && Reported(s, reqSide, respSide, clock, r)
    requires Encoded(codec, r.read) == EncodingSet(For(rows, s.sink))
    ensures Sensible(codec, Deduplicate(For(rows, s.sink)), r, SettledBy(codec, s, reqSide, respSide, submit, r))
  {
    var data := For(rows, s.sink);
    DeduplicateDistinct(data);
    NothingRead(data);
    StoredWereRead(codec, s, reqSide, respSide, clock, r);
    if Decided(s, reqSide, respSide, clock, r) {
      SettledWereRead(codec, s, reqSide, respSide, submit, r.read);
      EncodedMember(codec, r.read, r.read[0]);
    }
  }

  lemma SettledWereRead(codec: Codec, s: Setting, reqSide: Side<PostRequest>, respSide: Side<PostResponse>,
                        submit: bool, read: seq<Message>)
    requires Genuine(reqSide, respSide) && AllWellFormed(read)
    ensures Encoded(codec, Settled(SortAll(s, reqSide, respSide, read), submit)) <= Encoded(codec, read)
  {
    var o := SortAll(s, reqSide, respSide, read);
    ReadPartition(s, reqSide, respSide, read);
    SettledAmong(o, submit, read);
    EncodedShrink(codec, Settled(o, submit), read);
  }

  lemma SettledAmong(o: Sorted, submit: bool, read: seq<Message>)
    requires multiset(read) == All(o)
    ensures forall m :: m in Settled(o, submit) ==> m in read
  {
    forall m | m in Settled(o, submit) ensures m in read {
      assert m in multiset(read);
    }
  }

  lemma FirstHalf(base: State, codec: Codec, dest: StateMachine, d: Deduplicated, r: Report, settled: seq<Bytes>,
                  db: Database, w: Meanwhile)
    requires Fits(base) && dest !in base.cycles && d == Deduplicate(For(base.rows, dest))
    requires Sensible(codec, d, r, settled)
    ensures var u := Run(Step(base, Read(dest)), Others(codec, dest, w, |base.cleanups|));
            At(Step(u, Decision(codec, dest, r, settled, db.delete)), base, dest, d.duplicates,
               Cleared(codec, dest, d, Mine(!r.status.Panicked?, db).delete, w, TableOf(base)), Halfway(codec, d, r),
               base.owed + ItemsOf(dest, Encodings(codec, w.arrivals)) - ItemsOf(dest, settled))
    ensures NoDuplicates(d.duplicates)
  {
    ReadAt(base, dest, d);
    OthersAt(Step(base, Read(dest)), base, codec, dest, d.duplicates, TableOf(base), Begun(d), base.owed, w);
    DecisionAt(Run(Step(base, Read(dest)), Others(codec, dest, w, |base.cleanups|)), base, codec, dest, d,
               Turn(codec, dest, d.duplicates, w, TableOf(base)),
               base.owed + ItemsOf(dest, Encodings(codec, w.arrivals)), r, settled, db.delete);
  }

  lemma SecondHalf(s: State, base: State, codec: Codec, dest: StateMachine, d: Deduplicated, t: Table,
                   owed: set<Item>, r: Report, settled: seq<Bytes>, db: Database, w1: Meanwhile, w2: Meanwhile)
    requires At(s, base, dest, d.duplicates, t, Halfway(codec, d, r), owed) && dest !in base.cycles
    requires Sensible(codec, d, r, settled) && NoDuplicates(d.duplicates)
    ensures var u := Run(s, Others(codec, dest, w1, |base.cleanups|));
            var late := if r.status.Completed?
                        then Expired(dest, Encodings(codec, r.retriable), Encodings(codec, r.stored)) else {};
            At(Run(Step(u, Ending(codec, dest, r, db.store)), Others(codec, dest, w2, |base.cleanups|)), base, dest,
               d.duplicates,
               Refilled(codec, dest, d.duplicates, r.stored, Mine(!r.status.Panicked?, db).store, w1, w2, t), None,
               owed + ItemsOf(dest, Encodings(codec, w1.arrivals)) - late
               + ItemsOf(dest, Encodings(codec, w2.arrivals)))
  {
    var o1 := owed + ItemsOf(dest, Encodings(codec, w1.arrivals));
    var t1 := Turn(codec, dest, d.duplicates, w1, t);
    var u := Run(s, Others(codec, dest, w1, |base.cleanups|));
    OthersAt(s, base, codec, dest, d.duplicates, t, Halfway(codec, d, r), owed, w1);
    EndingAt(u, base, codec, dest, d, t1, o1, r, db.store);
    var v := Step(u, Ending(codec, dest, r, db.store));
    NothingLate(codec, dest, r, o1);
    OthersAt(v, base, codec, dest, d.duplicates, TableOf(v), None, v.owed, w2);
  }

  lemma NothingLate(codec: Codec, dest: StateMachine, r: Report, owed: set<Item>)
    requires r.status.Idle? ==> r.retriable == []
    ensures r.status.Idle? ==> owed - Expired(dest, Encodings(codec, r.retriable), Encodings(codec, r.stored)) == owed
    ensures owed - {} == owed
  {
  }

  /** From any reachable state in which the destination has no cycle under way, whatever else is: what a cycle
      makes of the table, under any answers and with the others cutting in anywhere, is what the machine makes
      of it along the cycle's script, and what is owed then is told by the cycle's report. */
  lemma CycleIsRun(base: State, codec: Codec, s: Setting, reqSide: Side<PostRequest>, respSide: Side<PostResponse>,
                   submit: bool, clock: Option<nat>, r: Report, db: Database,
                   w0: Meanwhile, w1: Meanwhile, w2: Meanwhile)
    requires Fits(base) && s.sink !in base.cycles && Genuine(reqSide, respSide)
    requires Reported(s, reqSide, respSide, clock, r) && Encoded(codec, r.read) == EncodingSet(For(base.rows, s.sink))
    ensures var d := Deduplicate(For(base.rows, s.sink));
            var settled := SettledBy(codec, s, reqSide, respSide, submit, r);
            At(Run(base, Script(codec, s.sink, r, settled, db, w0, w1, w2, |base.cleanups|)), base, s.sink,
               d.duplicates,
               CycleTable(codec, s.sink, d, r.stored, Mine(!r.status.Panicked?, db), w0, w1, w2, TableOf(base)), None,
               CycleOwed(codec, s.sink, base.owed, settled, r, w0, w1, w2))
  {
    var d, dest := Deduplicate(For(base.rows, s.sink)), s.sink;
    var settled := SettledBy(codec, s, reqSide, respSide, submit, r);
    ReportSensible(codec, s, reqSide, respSide, submit, clock, r, base.rows);
    FirstHalf(base, codec, dest, d, r, settled, db, w0);
    var u := Step(Run(Step(base, Read(dest)), Others(codec, dest, w0, |base.cleanups|)),
                  Decision(codec, dest, r, settled, db.delete));
    SecondHalf(u, base, codec, dest, d, TableOf(u), u.owed, r, settled, db, w1, w2);
    ScriptUnfolds(base, codec, dest, r, settled, db, w0, w1, w2, |base.cleanups|);
  }

  lemma ScriptUnfolds(s: State, codec: Codec, dest: StateMachine, r: Report, settled: seq<Bytes>, db: Database,
                      w0: Meanwhile, w1: Meanwhile, w2: Meanwhile, own: nat)
    ensures var u2 := Run(Step(s, Read(dest)), Others(codec, dest, w0, own));
            var u4 := Run(Step(u2, Decision(codec, dest, r, settled, db.delete)), Others(codec, dest, w1, own));
            Run(s, Script(codec, dest, r, settled, db, w0, w1, w2, own))
            == Run(Step(u4, Ending(codec, dest, r, db.store)), Others(codec, dest, w2, own))
  {
    var decide, end := Decision(codec, dest, r, settled, db.delete), Ending(codec, dest, r, db.store);
    var o0, o1, o2 := Others(codec, dest, w0, own), Others(codec, dest, w1, own), Others(codec, dest, w2, own);
    RunOne(s, Read(dest));
    RunConcat(s, [Read(dest)], o0);
    RunThen(s, [Read(dest)] + o0, decide, o1);
    RunThen(s, [Read(dest)] + o0 + [decide] + o1, end, o2);
  }

  // ----- what a cycle loses, over whole runs -----

  /** Of the messages read, the machine still owes exactly those stored again and those lost. */
  lemma OwedAfterCycle(owed: set<Item>, codec: Codec, s: Setting, reqSide: Side<PostRequest>,
                       respSide: Side<PostResponse>, submit: bool, clock: Option<nat>, r: Report,
                       w0: Meanwhile, w1: Meanwhile, w2: Meanwhile, m: Message)
    requires codec.Valid() && Genuine(reqSide, respSide) && NoDuplicates(r.read)
    requires Decided(s, reqSide, respSide, clock, r)
    requires m in r.read && (s.sink, codec.encode(m)) in owed
    requires codec.encode(m) !in Encoded(codec, Arrivals(w0, w1, w2))
    ensures var settled := SettledBy(codec, s, reqSide, respSide, submit, r);
            (s.sink, codec.encode(m)) in CycleOwed(codec, s.sink, owed, settled, r, w0, w1, w2) <==>
            m in r.stored || m in Lost(SortAll(s, reqSide, respSide, r.read), submit, clock)
  {
    var o := SortAll(s, reqSide, respSide, r.read);
    RetryFates(s, reqSide, respSide, r.read, r.outgoing, r.retriable, submit, clock);
    OutgoingCarries(s, reqSide, respSide, r.read, r.outgoing, r.retriable);
    StillOwed(owed, codec, s.sink, Settled(o, submit), r, w0, w1, w2, m);
    FateOwed(o, submit, clock, m);
  }

  lemma StillOwed(owed: set<Item>, codec: Codec, dest: StateMachine, settled: seq<Message>, r: Report,
                  w0: Meanwhile, w1: Meanwhile, w2: Meanwhile, m: Message)
    requires codec.Valid() && (dest, codec.encode(m)) in owed
    requires codec.encode(m) !in Encoded(codec, Arrivals(w0, w1, w2))
    ensures (dest, codec.encode(m)) in CycleOwed(codec, dest, owed, Encodings(codec, settled), r, w0, w1, w2) <==>
            m !in settled && (r.status.Completed? && m in r.retriable ==> m in r.stored)
  {
    NotArrived(codec, dest, w0, w1, w2, m);
    ItemOf(codec, dest, settled, m);
    ItemOf(codec, dest, r.retriable, m);
    ItemOf(codec, dest, r.stored, m);
  }

  /** A message with one fate is neither settled nor timed out iff it is kept or lost. */
  lemma FateOwed(o: Sorted, submit: bool, clock: Option<nat>, m: Message)
    requires OneOf(m in Settled(o, submit), m in Kept(o.retriable, clock), m in Late(o.retriable, clock),
                   m in Lost(o, submit, clock))
    ensures m !in Settled(o, submit)
            && ((clock.Some? || o.retriable == []) && m in o.retriable ==> m in Kept(o.retriable, clock)) <==>
            m in Kept(o.retriable, clock) || m in Lost(o, submit, clock)
  {
    if clock.Some? {
      assert m in o.retriable <==> m in Kept(o.retriable, clock) || m in Late(o.retriable, clock);
    }
  }

  lemma ItemOf(codec: Codec, dest: StateMachine, messages: seq<Message>, m: Message)
    requires codec.Valid()
    ensures (dest, codec.encode(m)) in ItemsOf(dest, Encodings(codec, messages)) <==> m in messages
  {
    EncodedMember(codec, messages, m);
  }

  lemma NotArrived(codec: Codec, dest: StateMachine, w0: Meanwhile, w1: Meanwhile, w2: Meanwhile, m: Message)
    requires codec.Valid() && codec.encode(m) !in Encoded(codec, Arrivals(w0, w1, w2))
    ensures (dest, codec.encode(m)) !in ItemsOf(dest, Encodings(codec, w0.arrivals))
    ensures (dest, codec.encode(m)) !in ItemsOf(dest, Encodings(codec, w1.arrivals))
    ensures (dest, codec.encode(m)) !in ItemsOf(dest, Encodings(codec, w2.arrivals))
  {
    EncodedMember(codec, Arrivals(w0, w1, w2), m);
    ItemOf(codec, dest, w0.arrivals, m);
    ItemOf(codec, dest, w1.arrivals, m);
    ItemOf(codec, dest, w2.arrivals, m);
  }

  /** The background deletions left after a cycle: those there were, and perhaps the cycle's own. */
  predicate CleanupsLeft(cleanups: seq<seq<nat>>, others: seq<seq<nat>>, duplicates: seq<nat>) {
    cleanups == others || cleanups == others + [duplicates]
  }

  lemma ScheduledAfter(cleanups: seq<seq<nat>>, others: seq<seq<nat>>, duplicates: seq<nat>, id: nat)
    requires CleanupsLeft(cleanups, others, duplicates)
    ensures Scheduled(cleanups, id) ==> Scheduled(others, id) || id in duplicates
  {
    if i :| 0 <= i < |cleanups| && id in cleanups[i] {
      if i < |others| {
        assert id in others[i];
      }
    }
  }

  /** Rows that came during the cycle are out of reach of every scheduled deletion. */
  lemma RecentSecure(base: State, t: State, dest: StateMachine, duplicates: seq<nat>, encodings: seq<Bytes>, e: Bytes)
    requires Fits(base) && CleanupsLeft(t.cleanups, base.cleanups, duplicates)
    requires forall id :: id in duplicates ==> id < base.nextId
    requires Hold(For(t.rows, dest), base.nextId, dest, encodings) && e in encodings
    ensures Secure(t, (dest, e))
  {
    var i :| 0 <= i < |encodings| && encodings[i] == e;
    var row := For(t.rows, dest)[i];
    ScheduledAfter(t.cleanups, base.cleanups, duplicates, row.id);
    RowSecures(t, row, (dest, e));
  }

  lemma OtherSecure(base: State, t: State, dest: StateMachine, duplicates: seq<nat>, x: Item)
    requires CleanupsLeft(t.cleanups, base.cleanups, duplicates)
    requires forall i :: 0 <= i < |base.rows| && base.rows[i].id in duplicates ==> base.rows[i].dest == dest
    requires NotFor(t.rows, dest) == NotFor(base.rows, dest) && x.0 != dest && Secure(base, x)
    ensures Secure(t, x)
  {
    var i :| 0 <= i < |base.rows| && IsRow(base.rows[i], x) && !Scheduled(base.cleanups, base.rows[i].id);
    var row := base.rows[i];
    ScheduledAfter(t.cleanups, base.cleanups, duplicates, row.id);
    assert row in NotFor(base.rows, dest);
    RowSecures(t, row, x);
  }

  /** What a cycle that nothing hindered has come to: no cycle under way, and for its destination just the rows
      of the messages that arrived or were stored. */
  ghost predicate Unwound(base: State, t: State, dest: StateMachine, d: Deduplicated, encodings: seq<Bytes>) {
    && t.cycles == base.cycles && dest !in base.cycles && CleanupsLeft(t.cleanups, base.cleanups, d.duplicates)
    && NotFor(t.rows, dest) == NotFor(base.rows, dest) && d == Deduplicate(For(base.rows, dest))
    && Hold(For(t.rows, dest), base.nextId, dest, encodings)
  }

  lemma CycleUnwinds(base: State, codec: Codec, s: Setting, reqSide: Side<PostRequest>, respSide: Side<PostResponse>,
                     submit: bool, clock: Option<nat>, r: Report, db: Database,
                     w0: Meanwhile, w1: Meanwhile, w2: Meanwhile)
    requires Fits(base) && s.sink !in base.cycles && Genuine(reqSide, respSide) && AllEncoded(codec, base.rows)
    requires Decided(s, reqSide, respSide, clock, r) && Encoded(codec, r.read) == EncodingSet(For(base.rows, s.sink))
    requires Unhindered(db, w0, w1, w2)
    ensures var settled := SettledBy(codec, s, reqSide, respSide, submit, r);
            var t := Run(base, Script(codec, s.sink, r, settled, db, w0, w1, w2, |base.cleanups|));
            && Unwound(base, t, s.sink, Deduplicate(For(base.rows, s.sink)),
                       Encodings(codec, w0.arrivals + w1.arrivals + r.stored + w2.arrivals))
            && t.owed == CycleOwed(codec, s.sink, base.owed, settled, r, w0, w1, w2)
  {
    var dest, data := s.sink, For(base.rows, s.sink);
    var d := Deduplicate(data);
    CycleIsRun(base, codec, s, reqSide, respSide, submit, clock, r, db, w0, w1, w2);
    FilterDistinct(base.rows, base.nextId, (row: Row) => row.dest == dest);
    DeduplicateIds(data, base.nextId);
    StoredWereRead(codec, s, reqSide, respSide, clock, r);
    CycleEffect(codec, TableOf(base), dest, d, r.stored, db, w0, w1, w2);
  }

  /** A cycle that nothing hindered at the table leaves everything owed in safe hands if and only if every
      message it lost, for want of some answer, arrived again in the meantime. */
  lemma CycleConservesIff(base: State, codec: Codec, s: Setting, reqSide: Side<PostRequest>,
                          respSide: Side<PostResponse>, submit: bool, clock: Option<nat>, r: Report, db: Database,
                          w0: Meanwhile, w1: Meanwhile, w2: Meanwhile)
    requires Fits(base) && Conserved(base) && s.sink !in base.cycles && AllEncoded(codec, base.rows)
    requires codec.Valid() && Genuine(reqSide, respSide) && NoDuplicates(r.read)
    requires Decided(s, reqSide, respSide, clock, r) && Encoded(codec, r.read) == EncodingSet(For(base.rows, s.sink))
    requires Unhindered(db, w0, w1, w2)
    requires forall m :: m in r.read ==> (s.sink, codec.encode(m)) in base.owed
    ensures var settled := SettledBy(codec, s, reqSide, respSide, submit, r);
            Conserved(Run(base, Script(codec, s.sink, r, settled, db, w0, w1, w2, |base.cleanups|))) <==>
            forall m :: m in Lost(SortAll(s, reqSide, respSide, r.read), submit, clock) ==>
              codec.encode(m) in Encoded(codec, Arrivals(w0, w1, w2))
  {
    var dest := s.sink;
    var settled := SettledBy(codec, s, reqSide, respSide, submit, r);
    var t := Run(base, Script(codec, dest, r, settled, db, w0, w1, w2, |base.cleanups|));
    var lost := Lost(SortAll(s, reqSide, respSide, r.read), submit, clock);
    CycleUnwinds(base, codec, s, reqSide, respSide, submit, clock, r, db, w0, w1, w2);
    forall m | m in r.read && codec.encode(m) !in Encoded(codec, Arrivals(w0, w1, w2))
      ensures (dest, codec.encode(m)) in t.owed <==> m in r.stored || m in lost
    {
      OwedAfterCycle(base.owed, codec, s, reqSide, respSide, submit, clock, r, w0, w1, w2, m);
    }
    LostWereRead(s, reqSide, respSide, r, submit, clock);
    OwedByRead(base, t, codec, dest, r, settled, w0, w1, w2);
    ConservedUnlessLost(base, t, codec, dest, r, lost, w0, w1, w2);
  }

  /** No message is lost that was not read, and none that is stored. */
  lemma LostWereRead(s: Setting, reqSide: Side<PostRequest>, respSide: Side<PostResponse>, r: Report, submit: bool,
                     clock: Option<nat>)
    requires Genuine(reqSide, respSide) && NoDuplicates(r.read)
    requires Decided(s, reqSide, respSide, clock, r)
    ensures forall m :: m in Lost(SortAll(s, reqSide, respSide, r.read), submit, clock) ==>
              m in r.read && m !in r.stored
  {
    var o := SortAll(s, reqSide, respSide, r.read);
    ReadPartition(s, reqSide, respSide, r.read);
    LostAmong(o, submit, clock, r.read);
    RetryFates(s, reqSide, respSide, r.read, r.outgoing, r.retriable, submit, clock);
    OutgoingCarries(s, reqSide, respSide, r.read, r.outgoing, r.retriable);
    forall m | m in Lost(o, submit, clock) ensures m !in r.stored {
      assert OneOf(m in Settled(o, submit), m in Kept(o.retriable, clock), m in Late(o.retriable, clock),
                   m in Lost(o, submit, clock));
    }
  }

  lemma LostAmong(o: Sorted, submit: bool, clock: Option<nat>, read: seq<Message>)
    requires multiset(read) == All(o)
    ensures forall m :: m in Lost(o, submit, clock) ==> m in read
  {
    forall m | m in Lost(o, submit, clock) ensures m in read {
      assert m in multiset(read);
    }
  }

  /** What is owed to the destination after the cycle arrived in the meantime or was owed, and so read, before. */
  lemma OwedByRead(base: State, t: State, codec: Codec, dest: StateMachine, r: Report, settled: seq<Bytes>,
                   w0: Meanwhile, w1: Meanwhile, w2: Meanwhile)
    requires Conserved(base) && dest !in base.cycles && Encoded(codec, r.read) == EncodingSet(For(base.rows, dest))
    requires t.owed == CycleOwed(codec, dest, base.owed, settled, r, w0, w1, w2)
    ensures forall x :: x in t.owed && x.0 != dest ==> x in base.owed
    ensures forall x :: x in t.owed && x.0 == dest ==>
              x.1 in Encoded(codec, Arrivals(w0, w1, w2)) + Encoded(codec, r.read)
  {
    forall x | x in t.owed && x.0 == dest
      ensures x.1 in Encoded(codec, Arrivals(w0, w1, w2)) + Encoded(codec, r.read)
    {
      ArrivalItems(codec, dest, w0, w1, w2);
      if x in base.owed {
        var i :| 0 <= i < |base.rows| && IsRow(base.rows[i], x) && !Scheduled(base.cleanups, base.rows[i].id);
        assert base.rows[i] in For(base.rows, dest);
      }
    }
  }

  lemma ArrivalItems(codec: Codec, dest: StateMachine, w0: Meanwhile, w1: Meanwhile, w2: Meanwhile)
    ensures forall x :: x in ItemsOf(dest, Encodings(codec, w0.arrivals)) + ItemsOf(dest, Encodings(codec, w1.arrivals))
                             + ItemsOf(dest, Encodings(codec, w2.arrivals)) ==>
              x.1 in Encoded(codec, Arrivals(w0, w1, w2))
  {
    MapConcat(codec.encode, w0.arrivals, w1.arrivals);
    MapConcat(codec.encode, w0.arrivals + w1.arrivals, w2.arrivals);
  }

  lemma ConservedUnlessLost(base: State, t: State, codec: Codec, dest: StateMachine, r: Report, lost: seq<Message>,
                            w0: Meanwhile, w1: Meanwhile, w2: Meanwhile)
    requires codec.Valid() && Fits(base) && Conserved(base)
    requires Unwound(base, t, dest, Deduplicate(For(base.rows, dest)),
                     Encodings(codec, w0.arrivals + w1.arrivals + r.stored + w2.arrivals))
    requires forall x :: x in t.owed && x.0 != dest ==> x in base.owed
    requires forall x :: x in t.owed && x.0 == dest ==>
               x.1 in Encoded(codec, Arrivals(w0, w1, w2)) + Encoded(codec, r.read)
    requires forall m :: m in lost ==> m in r.read && m !in r.stored
    requires forall m :: m in r.read && codec.encode(m) !in Encoded(codec, Arrivals(w0, w1, w2)) ==>
               ((dest, codec.encode(m)) in t.owed <==> m in r.stored || m in lost)
    ensures Conserved(t) <==> forall m :: m in lost ==> codec.encode(m) in Encoded(codec, Arrivals(w0, w1, w2))
  {
    var arrived := Encoded(codec, Arrivals(w0, w1, w2));
    if m :| m in lost && codec.encode(m) !in arrived {
      LostBreaks(base, t, codec, dest, r.stored, w0, w1, w2, m);
    } else {
      forall x | x in t.owed
        ensures Held(t, x) || Secure(t, x)
      {
        if x.0 != dest {
          if !Held(base, x) {
            ReadFinds(base, dest, Deduplicate(For(base.rows, dest)));
            OtherSecure(base, t, dest, Deduplicate(For(base.rows, dest)).duplicates, x);
          }
        } else {
          OwnSecure(base, t, codec, dest, r, lost, w0, w1, w2, x.1);
        }
      }
    }
  }

  lemma LostBreaks(base: State, t: State, codec: Codec, dest: StateMachine, stored: seq<Message>,
                   w0: Meanwhile, w1: Meanwhile, w2: Meanwhile, m: Message)
    requires codec.Valid() && m !in stored && codec.encode(m) !in Encoded(codec, Arrivals(w0, w1, w2))
    requires Unwound(base, t, dest, Deduplicate(For(base.rows, dest)),
                     Encodings(codec, w0.arrivals + w1.arrivals + stored + w2.arrivals))
    ensures !Held(t, (dest, codec.encode(m))) && !Secure(t, (dest, codec.encode(m)))
  {
    GoneUnlessStored(codec, t.rows, base.nextId, dest, stored, w0, w1, w2, m);
    forall i | 0 <= i < |t.rows| ensures !IsRow(t.rows[i], (dest, codec.encode(m))) {
      if t.rows[i].dest == dest {
        assert t.rows[i] in For(t.rows, dest);
      }
    }
  }

  lemma OwnSecure(base: State, t: State, codec: Codec, dest: StateMachine, r: Report, lost: seq<Message>,
                  w0: Meanwhile, w1: Meanwhile, w2: Meanwhile, e: Bytes)
    requires Fits(base)
    requires Unwound(base, t, dest, Deduplicate(For(base.rows, dest)),
                     Encodings(codec, w0.arrivals + w1.arrivals + r.stored + w2.arrivals))
    requires e in Encoded(codec, Arrivals(w0, w1, w2)) + Encoded(codec, r.read) && (dest, e) in t.owed
    requires forall m :: m in r.read && codec.encode(m) !in Encoded(codec, Arrivals(w0, w1, w2)) ==>
               ((dest, codec.encode(m)) in t.owed <==> m in r.stored || m in lost)
    requires forall m :: m in lost ==> codec.encode(m) in Encoded(codec, Arrivals(w0, w1, w2))
    ensures Secure(t, (dest, e))
  {
    var all := w0.arrivals + w1.arrivals + r.stored + w2.arrivals;
    ReadFinds(base, dest, Deduplicate(For(base.rows, dest)));
    if e !in Encoded(codec, Arrivals(w0, w1, w2)) {
      var i :| 0 <= i < |r.read| && Encodings(codec, r.read)[i] == e;
      assert r.read[i] in r.stored;
      EncodedMember(codec, all, r.read[i]);
    } else {
      EncodedShrink(codec, Arrivals(w0, w1, w2), all);
    }
    RecentSecure(base, t, dest, Deduplicate(For(base.rows, dest)).duplicates, Encodings(codec, all), e);
  }
}
