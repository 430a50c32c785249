/** The retry table over whole runs: the retry tasks of all destinations, the messaging tasks that store
    new messages, and the deletions of duplicates left running in the background, interleaved in any way,
    with failing database calls and crashes. A background deletion may outlive the cycle that started it. */
module RetryRuns {
  import opened Prelude
  import opened Ismp
  import opened Unprofitable

  /** A message for a destination, by its encoding. */
  type Item = (StateMachine, Bytes)

  /** Where a destination's cycle stands: it has read and is judging, or it has sent and deleted what it
      read and is about to store what is left to retry. */
  datatype Cycle = Judging(ids: seq<nat>, read: seq<Bytes>) | Storing(retriable: seq<Bytes>)

  /** `owed` is history: messages stored at some time that no cycle is rightly rid of since. A cycle is rightly
      rid of what it submits, drops on the estimator's word, or finds timed out. */
  datatype State = State(
    rows: seq<Row>,
    nextId: nat,
    cleanups: seq<seq<nat>>,
    cycles: map<StateMachine, Cycle>,
    owed: set<Item>)

  /** `Judge` settles some messages and finds others retriable, and deletes what was read. `Keep` stores those
      not timed out. `Abort` ends a cycle early: a panic while judging, or a clock that cannot be read. */
  datatype Action =
    | Arrive(dest: StateMachine, encodings: seq<Bytes>)
    | Read(dest: StateMachine)
    | Cleanup(index: nat, ok: bool)
    | Judge(dest: StateMachine, settled: seq<Bytes>, retriable: seq<Bytes>, ok: bool)
    | Keep(dest: StateMachine, kept: seq<Bytes>, ok: bool)
    | Abort(dest: StateMachine)
    | Crash

  function ItemsOf(dest: StateMachine, encodings: seq<Bytes>): set<Item> { set e | e in encodings :: (dest, e) }

  /** The encodings a cycle has in hand. */
  function InHand(c: Cycle): seq<Bytes> { if c.Judging? then c.read else c.retriable }

  function TableOf(s: State): Table { Table(s.rows, s.nextId) }

  function StoreAll(s: State, dest: StateMachine, encodings: seq<Bytes>): State {
    var t := Added(TableOf(s), encodings, dest, true);
    s.(rows := t.rows, nextId := t.nextId)
  }

  function Delete(s: State, ids: seq<nat>, ok: bool): State { s.(rows := DeleteIds(s.rows, ids, ok)) }

  predicate CanJudge(s: State, dest: StateMachine, settled: seq<Bytes>, retriable: seq<Bytes>) {
    && dest in s.cycles && s.cycles[dest].Judging?
    && Elements(settled) + Elements(retriable) <= Elements(s.cycles[dest].read)
  }

  predicate CanKeep(s: State, dest: StateMachine, kept: seq<Bytes>) {
    dest in s.cycles && s.cycles[dest].Storing? && Elements(kept) <= Elements(s.cycles[dest].retriable)
  }

  /** The messages that are in a cycle's hands to retry and not kept, because they timed out. */
  function Expired(dest: StateMachine, retriable: seq<Bytes>, kept: seq<Bytes>): set<Item> {
    ItemsOf(dest, retriable) - ItemsOf(dest, kept)
  }

  function Step(s: State, a: Action): State {
    match a
    case Arrive(dest, encodings) =>
      StoreAll(s, dest, encodings).(owed := s.owed + ItemsOf(dest, encodings))
    case Read(dest) =>
      var d := Deduplicate(For(s.rows, dest));
      if dest in s.cycles || d.ids == [] then s
      else s.(cleanups := s.cleanups + [d.duplicates], cycles := s.cycles[dest := Judging(d.ids, d.distinct)])
    case Cleanup(i, ok) =>
      if i < |s.cleanups|
      then Delete(s, s.cleanups[i], ok).(cleanups := s.cleanups[..i] + s.cleanups[i + 1..])
      else s
    case Judge(dest, settled, retriable, ok) =>
      if CanJudge(s, dest, settled, retriable)
      then Delete(s, s.cycles[dest].ids, ok).(cycles := s.cycles[dest := Storing(retriable)],
                                              owed := s.owed - ItemsOf(dest, settled))
      else s
    case Keep(dest, kept, ok) =>
      if CanKeep(s, dest, kept)
      then (if ok then StoreAll(s, dest, kept) else s).(cycles := s.cycles - {dest},
                                                       owed := s.owed - Expired(dest, s.cycles[dest].retriable, kept))
      else s
    case Abort(dest) => s.(cycles := s.cycles - {dest})
    case Crash => s.(cleanups := [], cycles := map[])
  }

  function Start(): State { State([], 0, [], map[], {}) }

  function Run(s: State, actions: seq<Action>): State {
    if actions == [] then s else Step(Run(s, actions[..|actions| - 1]), actions[|actions| - 1])
  }

  // ----- rows, scheduled deletions and cycles fit together -----

  /** A background deletion is still going to ask for this id. */
  predicate Scheduled(cleanups: seq<seq<nat>>, id: nat) { exists i :: 0 <= i < |cleanups| && id in cleanups[i] }

  /** The rows a judging cycle is going to delete are of its destination, and it has them in hand. */
  ghost predicate CycleOk(rows: seq<Row>, nextId: nat, dest: StateMachine, c: Cycle) {
    c.Judging? ==>
      && (forall id :: id in c.ids ==> id < nextId)
      && (forall i :: 0 <= i < |rows| && rows[i].id in c.ids ==> rows[i].dest == dest && rows[i].encoded in c.read)
  }

  ghost predicate Fits(s: State) {
    && DistinctIds(s.rows, s.nextId)
    && (forall id: nat :: Scheduled(s.cleanups, id) ==> id < s.nextId)
    && (forall dest :: dest in s.cycles ==> CycleOk(s.rows, s.nextId, dest, s.cycles[dest]))
  }

  /** The change to the rows leaves every judging cycle's rows as they are, or deletes some. */
  lemma FitsAfterDelete(s: State, ids: seq<nat>, ok: bool)
    requires Fits(s)
    ensures Fits(Delete(s, ids, ok))
  {
    var t := Delete(s, ids, ok);
    FilterDistinct(s.rows, s.nextId, (row: Row) => row.id !in Elements(ids));
    forall i | 0 <= i < |t.rows| ensures t.rows[i] in s.rows {}
    forall dest | dest in t.cycles
      ensures CycleOk(t.rows, t.nextId, dest, t.cycles[dest])
    {
      assert CycleOk(s.rows, s.nextId, dest, s.cycles[dest]);
    }
  }

  lemma FitsAfterStore(s: State, dest: StateMachine, encodings: seq<Bytes>)
    requires Fits(s)
    ensures Fits(StoreAll(s, dest, encodings))
  {
    var t := StoreAll(s, dest, encodings);
    forall d | d in t.cycles
      ensures CycleOk(t.rows, t.nextId, d, t.cycles[d])
    {
      assert CycleOk(s.rows, s.nextId, d, s.cycles[d]);
    }
  }

  /** A cycle may end or get to storing at any time. */
  lemma FitsAfterCycle(s: State, cycles: map<StateMachine, Cycle>, owed: set<Item>)
    requires Fits(s)
    requires forall dest :: dest in cycles ==>
               cycles[dest].Storing? || (dest in s.cycles && cycles[dest] == s.cycles[dest])
    ensures Fits(s.(cycles := cycles, owed := owed))
  {
  }

  /** What a read finds: the ids it is going to delete and those it schedules are of its rows. */
  lemma ReadFinds(s: State, dest: StateMachine, d: Deduplicated)
    requires Fits(s) && d == Deduplicate(For(s.rows, dest))
    ensures forall i :: 0 <= i < |s.rows| && s.rows[i].dest == dest ==> s.rows[i].encoded in d.distinct
    ensures forall id :: id in d.ids || id in d.duplicates ==> id < s.nextId
    ensures forall i :: 0 <= i < |s.rows| && (s.rows[i].id in d.ids || s.rows[i].id in d.duplicates) ==>
              s.rows[i].dest == dest
  {
    var data := For(s.rows, dest);
    FilterDistinct(s.rows, s.nextId, (row: Row) => row.dest == dest);
    DeduplicateDistinct(data);
    DeduplicateIds(data, s.nextId);
    OtherIds(s.rows, s.nextId, dest);
    forall id | id in d.ids || id in d.duplicates
      ensures id in Ids(data) && id < s.nextId
    {
      assert id in Elements(d.ids) + Elements(d.duplicates);
      var row :| row in data && row.id == id;
      assert row in s.rows;
    }
    forall i | 0 <= i < |s.rows| && s.rows[i].dest == dest
      ensures s.rows[i].encoded in d.distinct
    {
      assert s.rows[i] in data;
      assert s.rows[i].encoded in EncodingSet(data);
    }
  }

  lemma FitsAfterRead(s: State, dest: StateMachine)
    requires Fits(s)
    ensures Fits(Step(s, Read(dest)))
  {
    var d, t := Deduplicate(For(s.rows, dest)), Step(s, Read(dest));
    ReadFinds(s, dest, d);
    if t != s {
      forall id: nat | Scheduled(t.cleanups, id)
        ensures id < t.nextId
      {
        var i :| 0 <= i < |t.cleanups| && id in t.cleanups[i];
        if i < |s.cleanups| { assert id in s.cleanups[i] && Scheduled(s.cleanups, id); }
      }
      forall e | e in t.cycles
        ensures CycleOk(t.rows, t.nextId, e, t.cycles[e])
      {
        if e != dest { assert CycleOk(s.rows, s.nextId, e, s.cycles[e]); }
      }
    }
  }

  lemma ScheduledBefore(cleanups: seq<seq<nat>>, i: nat, id: nat)
    requires i < |cleanups|
    ensures Scheduled(cleanups[..i] + cleanups[i + 1..], id) ==> Scheduled(cleanups, id)
  {
    var rest := cleanups[..i] + cleanups[i + 1..];
    if j :| 0 <= j < |rest| && id in rest[j] {
      assert id in cleanups[if j < i then j else j + 1];
    }
  }

  lemma FitsAfterCleanup(s: State, i: nat, ok: bool)
    requires Fits(s)
    ensures Fits(Step(s, Cleanup(i, ok)))
  {
    if i < |s.cleanups| {
      FitsAfterDelete(s, s.cleanups[i], ok);
      forall id: nat | Scheduled(Step(s, Cleanup(i, ok)).cleanups, id) ensures id < s.nextId {
        ScheduledBefore(s.cleanups, i, id);
      }
    }
  }

  lemma StepFits(s: State, a: Action)
    requires Fits(s)
    ensures Fits(Step(s, a))
  {
    var t := Step(s, a);
    match a
    case Arrive(dest, encodings) =>
      FitsAfterStore(s, dest, encodings);
      FitsAfterCycle(StoreAll(s, dest, encodings), t.cycles, t.owed);
    case Read(dest) => FitsAfterRead(s, dest);
    case Cleanup(i, ok) => FitsAfterCleanup(s, i, ok);
    case Judge(dest, settled, retriable, ok) =>
      if CanJudge(s, dest, settled, retriable) {
        FitsAfterDelete(s, s.cycles[dest].ids, ok);
        FitsAfterCycle(Delete(s, s.cycles[dest].ids, ok), t.cycles, t.owed);
      }
    case Keep(dest, kept, ok) =>
      FitsAfterStore(s, dest, kept);
      FitsAfterCycle(if ok then StoreAll(s, dest, kept) else s, t.cycles, t.owed);
    case Abort(dest) => FitsAfterCycle(s, t.cycles, t.owed);
    case Crash =>
  }

  // ----- what is owed is never lost -----

  predicate Held(s: State, x: Item) { x.0 in s.cycles && x.1 in InHand(s.cycles[x.0]) }

  predicate IsRow(row: Row, x: Item) { row.dest == x.0 && row.encoded == x.1 }

  predicate InTable(s: State, x: Item) { exists i :: 0 <= i < |s.rows| && IsRow(s.rows[i], x) }

  /** In the table, in a row that nobody is going to delete as a duplicate. */
  predicate Secure(s: State, x: Item) {
    exists i :: 0 <= i < |s.rows| && IsRow(s.rows[i], x) && !Scheduled(s.cleanups, s.rows[i].id)
  }

  /** Every message owed is in the hands of its destination's cycle or secure in the table. */
  ghost predicate Conserved(s: State) { forall x :: x in s.owed ==> Held(s, x) || Secure(s, x) }

  /** Read and owed, but neither settled nor found retriable, for want of some answer. */
  predicate Unanswered(s: State, dest: StateMachine, settled: seq<Bytes>, retriable: seq<Bytes>, e: Bytes)
    requires CanJudge(s, dest, settled, retriable)
  {
    e in s.cycles[dest].read && e !in retriable && (dest, e) in s.owed - ItemsOf(dest, settled)
  }

  /** The four ways to lose a message: to get no answer for it and delete the row that secured it, a failing
      store of one that is not secure in the table, the end of a cycle with such a one in hand, and a crash
      while it has no row. */
  ghost predicate Loses(s: State, a: Action) {
    match a
    case Judge(dest, settled, retriable, ok) =>
      && CanJudge(s, dest, settled, retriable)
      && exists e :: Unanswered(s, dest, settled, retriable, e) && !Secure(Delete(s, s.cycles[dest].ids, ok), (dest, e))
    case Keep(dest, kept, ok) =>
      CanKeep(s, dest, kept) && !ok && exists e :: e in kept && (dest, e) in s.owed && !Secure(s, (dest, e))
    case Abort(dest) =>
      dest in s.cycles && exists e :: e in InHand(s.cycles[dest]) && (dest, e) in s.owed && !Secure(s, (dest, e))
    case Crash => exists x :: x in s.owed && !InTable(s, x)
    case _ => false
  }

  lemma StoreSecures(s: State, dest: StateMachine, encodings: seq<Bytes>, x: Item)
    requires Fits(s)
    ensures Secure(s, x) || x in ItemsOf(dest, encodings) ==> Secure(StoreAll(s, dest, encodings), x)
  {
    var t := StoreAll(s, dest, encodings);
    if i :| 0 <= i < |s.rows| && IsRow(s.rows[i], x) && !Scheduled(s.cleanups, s.rows[i].id) {
      assert t.rows[i] == s.rows[i] && !Scheduled(t.cleanups, t.rows[i].id);
    } else if x in ItemsOf(dest, encodings) {
      var i :| 0 <= i < |encodings| && encodings[i] == x.1;
      var k := |s.rows| + i;
      assert t.rows[k] == NewRows(encodings, dest, s.nextId)[i];
      assert !Scheduled(s.cleanups, t.rows[k].id);
      assert IsRow(t.rows[k], x) && !Scheduled(t.cleanups, t.rows[k].id);
    }
  }

  /** A row that is not deleted and not scheduled afterwards secures its message. */
  lemma RowSecures(t: State, row: Row, x: Item)
    requires row in t.rows && IsRow(row, x) && !Scheduled(t.cleanups, row.id)
    ensures Secure(t, x)
  {
    var i :| 0 <= i < |t.rows| && t.rows[i] == row;
  }

  /** A read takes the destination's rows in hand and schedules no other row. */
  lemma ReadConserves(s: State, dest: StateMachine, x: Item)
    requires Fits(s) && (Held(s, x) || Secure(s, x))
    ensures Held(Step(s, Read(dest)), x) || Secure(Step(s, Read(dest)), x)
  {
    var d, t := Deduplicate(For(s.rows, dest)), Step(s, Read(dest));
    ReadFinds(s, dest, d);
    if t != s && !Held(s, x) {
      var i :| 0 <= i < |s.rows| && IsRow(s.rows[i], x) && !Scheduled(s.cleanups, s.rows[i].id);
      if x.0 != dest {
        forall j | 0 <= j < |t.cleanups| ensures s.rows[i].id !in t.cleanups[j] {
          assert j < |s.cleanups| ==> t.cleanups[j] == s.cleanups[j];
        }
        assert !Scheduled(t.cleanups, s.rows[i].id);
        RowSecures(t, s.rows[i], x);
      }
    }
  }

  /** A background deletion, however late it comes, is carried out once and takes only scheduled rows. */
  lemma CleanupConserves(s: State, i: nat, ok: bool, x: Item)
    requires Fits(s) && (Held(s, x) || Secure(s, x))
    ensures Held(Step(s, Cleanup(i, ok)), x) || Secure(Step(s, Cleanup(i, ok)), x)
    ensures i < |s.cleanups| ==>
              multiset(Step(s, Cleanup(i, ok)).cleanups) + multiset{s.cleanups[i]} == multiset(s.cleanups)
  {
    var t := Step(s, Cleanup(i, ok));
    assert i < |s.cleanups| ==> s.cleanups == s.cleanups[..i] + [s.cleanups[i]] + s.cleanups[i + 1..];
    if i < |s.cleanups| && !Held(s, x) {
      var k :| 0 <= k < |s.rows| && IsRow(s.rows[k], x) && !Scheduled(s.cleanups, s.rows[k].id);
      var row := s.rows[k];
      assert row.id !in s.cleanups[i];
      assert row in t.rows;
      ScheduledBefore(s.cleanups, i, row.id);
      assert !Scheduled(t.cleanups, row.id);
      RowSecures(t, row, x);
    }
  }

  /** Deleting what was read takes only rows of messages in hand; those it has no answer for need another. */
  lemma JudgeConserves(s: State, dest: StateMachine, settled: seq<Bytes>, retriable: seq<Bytes>, ok: bool, x: Item)
    requires Fits(s) && CanJudge(s, dest, settled, retriable)
    requires x in s.owed - ItemsOf(dest, settled) && (Held(s, x) || Secure(s, x))
    ensures var t := Step(s, Judge(dest, settled, retriable, ok));
            Held(t, x) || Secure(t, x) <==>
            (x.0 == dest && Unanswered(s, dest, settled, retriable, x.1) ==>
               Secure(Delete(s, s.cycles[dest].ids, ok), x))
  {
    var t, c := Step(s, Judge(dest, settled, retriable, ok)), s.cycles[dest];
    var u := Delete(s, c.ids, ok);
    assert CycleOk(s.rows, s.nextId, dest, c);
    SameRowsSame(u, t, x);
    if x.0 == dest && x.1 in c.read {
      assert Held(t, x) <==> x.1 in retriable;
    } else if !Held(s, x) {
      var k :| 0 <= k < |s.rows| && IsRow(s.rows[k], x) && !Scheduled(s.cleanups, s.rows[k].id);
      var row := s.rows[k];
      assert row.id !in c.ids;
      assert row in u.rows;
      RowSecures(u, row, x);
    }
  }

  lemma KeepConserves(s: State, dest: StateMachine, kept: seq<Bytes>, ok: bool, x: Item)
    requires Fits(s) && CanKeep(s, dest, kept)
    requires x in s.owed - Expired(dest, s.cycles[dest].retriable, kept) && (Held(s, x) || Secure(s, x))
    ensures var t := Step(s, Keep(dest, kept, ok));
            Held(t, x) || Secure(t, x) <==> ok || Secure(s, x) || x !in ItemsOf(dest, kept)
  {
    var t, c := Step(s, Keep(dest, kept, ok)), s.cycles[dest];
    if Held(s, x) && x.0 == dest { assert x in ItemsOf(dest, c.retriable) && x in ItemsOf(dest, kept); }
    if ok {
      StoreSecures(s, dest, kept, x);
      var u := StoreAll(s, dest, kept);
      if i :| 0 <= i < |u.rows| && IsRow(u.rows[i], x) && !Scheduled(u.cleanups, u.rows[i].id) {
        assert !Scheduled(t.cleanups, t.rows[i].id);
        RowSecures(t, u.rows[i], x);
      }
    } else {
      SameRowsSame(s, t, x);
    }
  }

  lemma SameRowsSame(s: State, t: State, x: Item)
    requires t.rows == s.rows && t.cleanups == s.cleanups
    ensures Secure(t, x) <==> Secure(s, x)
  {
  }

  /** The end of a cycle leaves the others as they are. */
  lemma AbortConserves(s: State, dest: StateMachine, x: Item)
    requires Held(s, x) || Secure(s, x)
    ensures var t := Step(s, Abort(dest)); Held(t, x) || Secure(t, x) <==> (Held(s, x) && x.0 != dest) || Secure(s, x)
  {
    SameRowsSame(s, Step(s, Abort(dest)), x);
  }

  /** After a crash nothing is scheduled, so every row left is secure. */
  lemma CrashConserves(s: State, x: Item)
    ensures var t := Step(s, Crash); Held(t, x) || Secure(t, x) <==> InTable(s, x)
  {
    var t := Step(s, Crash);
    assert forall id :: !Scheduled(t.cleanups, id);
    if i :| 0 <= i < |s.rows| && IsRow(s.rows[i], x) {
      RowSecures(t, s.rows[i], x);
    }
  }

  /** A step keeps everything owed in safe hands unless it is one of the losing kinds. */
  lemma StepConserves(s: State, a: Action)
    requires Fits(s) && Conserved(s)
    ensures Conserved(Step(s, a)) <==> !Loses(s, a)
  {
    var t := Step(s, a);
    match a
    case Arrive(dest, encodings) =>
      forall x | x in t.owed ensures Held(t, x) || Secure(t, x) {
        StoreSecures(s, dest, encodings, x);
        SameRowsSame(StoreAll(s, dest, encodings), t, x);
      }
    case Read(dest) => forall x | x in s.owed { ReadConserves(s, dest, x); }
    case Cleanup(i, ok) => forall x | x in s.owed { CleanupConserves(s, i, ok, x); }
    case Judge(dest, settled, retriable, ok) =>
      if CanJudge(s, dest, settled, retriable) { JudgeStep(s, dest, settled, retriable, ok); }
    case Keep(dest, kept, ok) => if CanKeep(s, dest, kept) { KeepStep(s, dest, kept, ok); }
    case Abort(dest) => AbortStep(s, dest);
    case Crash => forall x | x in s.owed { CrashConserves(s, x); }
  }

  lemma JudgeStep(s: State, dest: StateMachine, settled: seq<Bytes>, retriable: seq<Bytes>, ok: bool)
    requires Fits(s) && Conserved(s) && CanJudge(s, dest, settled, retriable)
    ensures Conserved(Step(s, Judge(dest, settled, retriable, ok))) <==> !Loses(s, Judge(dest, settled, retriable, ok))
  {
    var t, u := Step(s, Judge(dest, settled, retriable, ok)), Delete(s, s.cycles[dest].ids, ok);
    forall x | x in t.owed
      ensures Held(t, x) || Secure(t, x) <==>
              (x.0 == dest && Unanswered(s, dest, settled, retriable, x.1) ==> Secure(u, x))
    {
      JudgeConserves(s, dest, settled, retriable, ok, x);
    }
    if Loses(s, Judge(dest, settled, retriable, ok)) {
      var e :| Unanswered(s, dest, settled, retriable, e) && !Secure(u, (dest, e));
      assert (dest, e) in t.owed;
    }
  }

  lemma AbortStep(s: State, dest: StateMachine)
    requires Conserved(s)
    ensures Conserved(Step(s, Abort(dest))) <==> !Loses(s, Abort(dest))
  {
    forall x | x in s.owed { AbortConserves(s, dest, x); }
    if Loses(s, Abort(dest)) {
      var e :| e in InHand(s.cycles[dest]) && (dest, e) in s.owed && !Secure(s, (dest, e));
      AbortConserves(s, dest, (dest, e));
    }
  }

  lemma KeepStep(s: State, dest: StateMachine, kept: seq<Bytes>, ok: bool)
    requires Fits(s) && Conserved(s) && CanKeep(s, dest, kept)
    ensures Conserved(Step(s, Keep(dest, kept, ok))) <==> !Loses(s, Keep(dest, kept, ok))
  {
    var t := Step(s, Keep(dest, kept, ok));
    forall x | x in t.owed
      ensures Held(t, x) || Secure(t, x) <==> ok || Secure(s, x) || x !in ItemsOf(dest, kept)
    {
      KeepConserves(s, dest, kept, ok, x);
    }
    if Loses(s, Keep(dest, kept, ok)) {
      var e :| e in kept && (dest, e) in s.owed && !Secure(s, (dest, e));
      assert (dest, e) in ItemsOf(dest, kept) && (dest, e) in t.owed;
    }
  }

  ghost predicate Lossless(actions: seq<Action>) {
    actions != [] ==>
      && Lossless(actions[..|actions| - 1])
      && !Loses(Run(Start(), actions[..|actions| - 1]), actions[|actions| - 1])
  }

  lemma {:induction false} RunFits(actions: seq<Action>)
    ensures Fits(Run(Start(), actions))
  {
    if actions == [] {
    } else {
      RunFits(actions[..|actions| - 1]);
      StepFits(Run(Start(), actions[..|actions| - 1]), actions[|actions| - 1]);
    }
  }

  ghost predicate ConservedAfter(actions: seq<Action>) { Conserved(Run(Start(), actions)) }

  /** Over every interleaving of cycles of all destinations, arrivals, late background deletions, failures
      and crashes: at every moment each message owed is in hand or secure in the table, if and only if no
      step is one of the four that lose one. */
  lemma {:induction false} RetryConservationIff(actions: seq<Action>)
    ensures (forall n :: 0 <= n <= |actions| ==> ConservedAfter(actions[..n])) <==> Lossless(actions)
  {
    if actions == [] {
    } else {
      var before, a := actions[..|actions| - 1], actions[|actions| - 1];
      RetryConservationIff(before);
      PrefixSplit(xs => ConservedAfter(xs), actions, before);
      assert before[..|before|] == before;
      RunFits(before);
      if ConservedAfter(before) {
        StepConserves(Run(Start(), before), a);
      }
    }
  }

  /** How a cycle ends that got no answer for its one message, cannot store it, or cannot read the clock. */
  predicate Forgets(dest: StateMachine, e: Bytes, retriable: seq<Bytes>, last: Action) {
    if retriable == [] then last == Keep(dest, [], true)
    else retriable == [e] && (last == Keep(dest, [e], false) || last == Abort(dest))
  }

  /** Each of the losing steps but the crash can happen: a message is read and its row deleted, and then there
      was no answer for it, or storing it again fails, or the clock cannot be read. */
  lemma MessageForgotten(dest: StateMachine, e: Bytes, retriable: seq<Bytes>, last: Action, actions: seq<Action>)
    requires actions == [Arrive(dest, [e]), Read(dest), Judge(dest, [], retriable, true), last]
    requires Forgets(dest, e, retriable, last)
    ensures var s := Run(Start(), actions); (dest, e) in s.owed && !Held(s, (dest, e)) && !InTable(s, (dest, e))
  {
    var s2 := Step(Step(Start(), actions[0]), actions[1]);
    ReadOne(dest, e);
    DeleteOne(s2, dest, e, retriable);
    RunSteps4(actions);
  }

  lemma ReadOne(dest: StateMachine, e: Bytes)
    ensures var s := Step(Step(Start(), Arrive(dest, [e])), Read(dest));
            && s.rows == [Row(0, dest, e)] && (dest, e) in s.owed
            && s.cycles == map[dest := Judging([0], [e])]
  {
    var row := Row(0, dest, e);
    ArriveOne(dest, e);
    OneRow(row);
    DeduplicateOne(row);
  }

  lemma ArriveOne(dest: StateMachine, e: Bytes)
    ensures var s := Step(Start(), Arrive(dest, [e]));
            s.rows == [Row(0, dest, e)] && (dest, e) in s.owed && s.cycles == map[]
  {
    assert NewRows([e], dest, 0) == [Row(0, dest, e)] && [] + NewRows([e], dest, 0) == NewRows([e], dest, 0);
    assert e in [e] && (dest, e) in ItemsOf(dest, [e]);
  }

  lemma OneRow(row: Row)
    ensures For([row], row.dest) == [row]
  {
    FilterAll((r: Row) => r.dest == row.dest, [row]);
  }

  lemma DeduplicateOne(row: Row)
    ensures Deduplicate([row]) == Deduplicated([row.encoded], [row.id], [])
  {
    var none := Deduplicated([], [], []);
    assert [row][..0] == [] && Deduplicate([row]) == AddRow(none, row);
    assert InsertSorted([], row.encoded) == [row.encoded];
  }

  lemma DeleteOne(s: State, dest: StateMachine, e: Bytes, retriable: seq<Bytes>)
    requires s.rows == [Row(0, dest, e)] && (dest, e) in s.owed && s.cycles == map[dest := Judging([0], [e])]
    requires retriable == [] || retriable == [e]
    ensures var t := Step(s, Judge(dest, [], retriable, true));
            t.rows == [] && t.owed == s.owed && t.cycles == map[dest := Storing(retriable)]
  {
    assert s.rows[0].id in Ids(s.rows) && Elements([0]) == {0};
    assert DeleteIds(s.rows, [0], true) == Removed(s.rows, {0}) == [];
    assert Elements<Bytes>([]) + Elements(retriable) <= Elements([e]);
  }

  lemma RunSteps4(actions: seq<Action>)
    requires |actions| == 4
    ensures Run(Start(), actions)
         == Step(Step(Step(Step(Start(), actions[0]), actions[1]), actions[2]), actions[3])
  {
    assert actions[..3][..2] == actions[..2] && actions[..2][..1] == actions[..1] && actions[..1][..0] == [];
    assert Run(Start(), actions[..1]) == Step(Run(Start(), actions[..1][..0]), actions[0]);
    assert Run(Start(), actions[..2]) == Step(Run(Start(), actions[..1]), actions[1]);
    assert Run(Start(), actions[..3]) == Step(Run(Start(), actions[..2]), actions[2]);
  }

  // ----- nothing comes from nowhere -----

  /** What is known of a destination: its rows and what its cycle has in hand. */
  function Known(s: State, dest: StateMachine): set<Bytes> {
    EncodingSet(For(s.rows, dest)) + (if dest in s.cycles then Elements(InHand(s.cycles[dest])) else {})
  }

  function Arrived(a: Action, dest: StateMachine): set<Bytes> {
    if a.Arrive? && a.dest == dest then Elements(a.encodings) else {}
  }

  function AllArrived(actions: seq<Action>, dest: StateMachine): set<Bytes> {
    if actions == [] then {}
    else AllArrived(actions[..|actions| - 1], dest) + Arrived(actions[|actions| - 1], dest)
  }

  lemma StoredKnown(rows: seq<Row>, encodings: seq<Bytes>, to: StateMachine, from: nat, dest: StateMachine)
    ensures EncodingSet(For(rows + NewRows(encodings, to, from), dest))
         == EncodingSet(For(rows, dest)) + if to == dest then Elements(encodings) else {}
  {
    var recent := NewRows(encodings, to, from);
    SplitRows(rows, recent, dest);
    if to == dest {
      FilterAll((row: Row) => row.dest == dest, recent);
      HeldEncodings(recent, from, dest, encodings);
    } else {
      FilterNone((row: Row) => row.dest == dest, recent);
    }
  }

  lemma JudgeKnown(s: State, to: StateMachine, settled: seq<Bytes>, retriable: seq<Bytes>, ok: bool, dest: StateMachine)
    ensures Known(Step(s, Judge(to, settled, retriable, ok)), dest) <= Known(s, dest)
  {
    if CanJudge(s, to, settled, retriable) { EncodingsShrink(s.rows, Elements(s.cycles[to].ids), dest); }
  }

  lemma KeepKnown(s: State, to: StateMachine, kept: seq<Bytes>, ok: bool, dest: StateMachine)
    ensures Known(Step(s, Keep(to, kept, ok)), dest) <= Known(s, dest)
  {
    if CanKeep(s, to, kept) { StoredKnown(s.rows, kept, to, s.nextId, dest); }
  }

  lemma StepKnown(s: State, a: Action, dest: StateMachine)
    ensures Known(Step(s, a), dest) <= Known(s, dest) + Arrived(a, dest)
  {
    match a
    case Arrive(to, encodings) => StoredKnown(s.rows, encodings, to, s.nextId, dest);
    case Read(from) => DeduplicateDistinct(For(s.rows, from));
    case Cleanup(i, ok) => if i < |s.cleanups| { EncodingsShrink(s.rows, Elements(s.cleanups[i]), dest); }
    case Judge(to, settled, retriable, ok) => JudgeKnown(s, to, settled, retriable, ok, dest);
    case Keep(to, kept, ok) => KeepKnown(s, to, kept, ok, dest);
    case Abort(_) =>
    case Crash =>
  }

  /** Over every run, what is known of a destination at the end was known at the start or arrived. */
  lemma {:induction false} KnownArrived(s: State, actions: seq<Action>, dest: StateMachine)
    ensures Known(Run(s, actions), dest) <= Known(s, dest) + AllArrived(actions, dest)
  {
    if actions == [] {
    } else {
      KnownArrived(s, actions[..|actions| - 1], dest);
      StepKnown(Run(s, actions[..|actions| - 1]), actions[|actions| - 1], dest);
    }
  }

  /** So without arrivals, over any number of cycles of any destinations, the number of distinct messages of
      a destination never grows from one moment between its cycles to a later one. */
  lemma {:induction false} DistinctNeverGrowInRuns(s: State, actions: seq<Action>, dest: StateMachine)
    requires dest !in s.cycles && AllArrived(actions, dest) == {}
    ensures |EncodingSet(For(Run(s, actions).rows, dest))| <= |EncodingSet(For(s.rows, dest))|
  {
    KnownArrived(s, actions, dest);
    SubsetSize(EncodingSet(For(Run(s, actions).rows, dest)), EncodingSet(For(s.rows, dest)));
  }

  /** And in every run of messages written by the codec every row can be decoded, so no read is refused. */
  lemma AlwaysDecodable(codec: Codec, actions: seq<Action>)
    requires forall dest, e :: e in AllArrived(actions, dest) ==> IsEncoding(codec, e)
    ensures AllEncoded(codec, Run(Start(), actions).rows)
  {
    var rows := Run(Start(), actions).rows;
    forall i | 0 <= i < |rows|
      ensures IsEncoding(codec, rows[i].encoded)
    {
      var dest := rows[i].dest;
      KnownArrived(Start(), actions, dest);
      assert rows[i] in For(rows, dest);
      assert rows[i].encoded in EncodingSet(For(rows, dest));
      assert Known(Start(), dest) == {};
      assert rows[i].encoded in AllArrived(actions, dest);
    }
  }
}
