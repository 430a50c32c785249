/** The messaging task's height cursor (`handle_notification`, `handle_update`): each state machine
    update asks the counterparty for the blocks between the previous update and this one, and the
    cursor then moves to whatever height arrived, even a lower one. */
module HeightCursor {
  import opened Prelude
  import opened RangeQuery

  function HeightOf(item: Option<u64>): seq<nat> { if item.Some? then [item.value as nat] else [] }

  /** The heights among the stream's items; failed items carry none. */
  function Heights(items: seq<Option<u64>>): seq<nat> { FlatMap(HeightOf, items) }

  function Last(h0: nat, hs: seq<nat>): nat { if hs == [] then h0 else hs[|hs| - 1] }

  function Highest(h0: nat, hs: seq<nat>): nat
    decreases |hs|
  {
    if hs == [] then h0 else Max(h0, Highest(hs[0], hs[1..]))
  }

  /** Every range asked for while the updates `hs` arrive, starting from height `h0`. */
  function AllRequests(h0: nat, hs: seq<nat>, size: nat): seq<Range>
    requires size > 0
    decreases |hs|
  {
    if hs == [] then [] else Requests(h0, hs[0], size) + AllRequests(hs[0], hs[1..], size)
  }

  lemma {:induction false} AllRequestsSnoc(h0: nat, hs: seq<nat>, h: nat, size: nat)
    requires size > 0
    ensures AllRequests(h0, hs + [h], size)
         == AllRequests(h0, hs, size) + Requests(Last(h0, hs), h, size)
    decreases |hs|
  {
    var all := hs + [h];
    if hs == [] {
      assert all[1..] == [];
      assert AllRequests(h, [], size) == [];
    } else {
      assert all[0] == hs[0] && all[1..] == hs[1..] + [h];
      AllRequestsSnoc(hs[0], hs[1..], h, size);
      assert Last(h0, hs) == Last(hs[0], hs[1..]);
      ConcatAssociative(Requests(h0, hs[0], size), AllRequests(hs[0], hs[1..], size), Requests(Last(h0, hs), h, size));
    }
  }

  lemma ConcatAssociative<T>(a: seq<T>, b: seq<T>, c: seq<T>)
    ensures a + (b + c) == a + b + c
  {
  }

  /** Cursor and requests item by item, as the task's loop goes through them. */
  function CursorAfter(h0: nat, items: seq<Option<u64>>): nat {
    if items == [] then h0
    else if items[|items| - 1].Some? then items[|items| - 1].value as nat
    else CursorAfter(h0, items[..|items| - 1])
  }

  function AskedAfter(h0: nat, items: seq<Option<u64>>, size: nat): seq<Range>
    requires size > 0
  {
    if items == [] then []
    else
      var before, item := items[..|items| - 1], items[|items| - 1];
      AskedAfter(h0, before, size)
      + if item.Some? then Requests(CursorAfter(h0, before), item.value as nat, size) else []
  }

  lemma {:induction false} AskedIsAllRequests(h0: nat, items: seq<Option<u64>>, size: nat)
    requires size > 0
    ensures CursorAfter(h0, items) == Last(h0, Heights(items))
    ensures AskedAfter(h0, items, size) == AllRequests(h0, Heights(items), size)
  {
    if items == [] {
    } else {
      var before, item := items[..|items| - 1], items[|items| - 1];
      AskedIsAllRequests(h0, before, size);
      assert items == before + [item];
      FlatMapSnoc(HeightOf, before, item);
      if item.Some? {
        AllRequestsSnoc(h0, Heights(before), item.value as nat, size);
      } else {
        assert Heights(items) == Heights(before);
        assert AskedAfter(h0, items, size) == AskedAfter(h0, before, size);
      }
    }
  }

  class MessagingTask {
    var previousHeight: u64
    var asked: seq<Range>

    constructor (initialHeight: u64)
      ensures previousHeight == initialHeight && asked == []
    {
      previousHeight := initialHeight;
      asked := [];
    }

    /** The part of `handle_update` that moves the cursor. */
    method HandleUpdate<E>(latestHeight: u64, chunkSize: u64, ask: Ask<E>)
      returns (events: Result<seq<E>, Panic>)
      modifies this
      ensures events.Err? <==>
              old(previousHeight) == U64_MAX || (old(previousHeight) < latestHeight && chunkSize == 0)
      ensures events.Err? ==> unchanged(this)
      ensures events.Ok? ==> previousHeight == latestHeight
      ensures events.Ok? && chunkSize > 0 ==>
                && var ranges :=
                     Requests(old(previousHeight) as nat, latestHeight as nat, chunkSize as nat);
                   asked == old(asked) + ranges && events.value == Collected(ranges, ask, 0)
    {
      var ranges;
      events, ranges := QueryIsmpEvents(previousHeight, latestHeight, chunkSize, ask);
      if events.Ok? {
        asked := asked + ranges;
        previousHeight := latestHeight;
      }
    }

    /** `handle_notification`: failed stream items are logged and skipped. The task dies only when
        a height of 2^64 - 1 has to be incremented. */
    method HandleNotifications<E>(items: seq<Option<u64>>, chunkSize: u64, ask: Ask<E>)
      returns (completed: bool)
      requires chunkSize > 0
      modifies this
      ensures !completed ==> previousHeight == U64_MAX
      ensures completed ==> previousHeight as nat == Last(old(previousHeight) as nat, Heights(items))
      ensures completed ==>
                asked == old(asked)
                       + AllRequests(old(previousHeight) as nat, Heights(items), chunkSize as nat)
    {
      ghost var h0, base, size := previousHeight as nat, asked, chunkSize as nat;
      var i := 0;
      while i < |items|
        invariant 0 <= i <= |items|
        invariant Went(h0, base, items[..i], size)
      {
        assert items[..i + 1] == items[..i] + [items[i]];
        var ok := HandleItem(items[i], chunkSize, ask, h0, base, items[..i]);
        if !ok {
          return false;
        }
        i := i + 1;
      }
      assert items[..|items|] == items;
      AskedIsAllRequests(h0, items, size);
      completed := true;
    }

    /** The task has gone through `items` since it stood at `h0` having asked for `base`. */
    ghost predicate Went(h0: nat, base: seq<Range>, items: seq<Option<u64>>, size: nat)
      requires size > 0
      reads this
    {
      && previousHeight as nat == CursorAfter(h0, items)
      && asked == base + AskedAfter(h0, items, size)
    }

    method HandleItem<E>(item: Option<u64>, chunkSize: u64, ask: Ask<E>,
                         ghost h0: nat, ghost base: seq<Range>, ghost before: seq<Option<u64>>)
      returns (ok: bool)
      requires chunkSize > 0 && Went(h0, base, before, chunkSize as nat)
      modifies this
      ensures ok ==> Went(h0, base, before + [item], chunkSize as nat)
      ensures !ok ==> previousHeight == U64_MAX
    {
      ghost var items := before + [item];
      assert items[..|items| - 1] == before && items[|items| - 1] == item;
      if item.Some? {
        var events := HandleUpdate(item.value, chunkSize, ask);
        if events.Err? {
          return false;
        }
      }
      ok := true;
    }
  }

  // ----- what a run of updates asks for -----

  /** Updates that move the cursor up past `x`. */
  function Climbs(h0: nat, hs: seq<nat>, x: nat): nat
    decreases |hs|
  {
    if hs == [] then 0 else (if h0 < x <= hs[0] then 1 else 0) + Climbs(hs[0], hs[1..], x)
  }

  /** Updates that move the cursor back down below `x`. */
  function Falls(h0: nat, hs: seq<nat>, x: nat): nat
    decreases |hs|
  {
    if hs == [] then 0 else (if hs[0] < x <= h0 then 1 else 0) + Falls(hs[0], hs[1..], x)
  }

  /** A block is asked for once per climb past it. */
  lemma {:induction false} RequestedPerClimb(h0: nat, hs: seq<nat>, size: nat, x: nat)
    requires size > 0
    ensures Count(AllRequests(h0, hs, size), x) == Climbs(h0, hs, x)
    decreases |hs|
  {
    if hs == [] {
    } else {
      RequestsCount(h0, hs[0], size, x);
      RequestedPerClimb(hs[0], hs[1..], size, x);
      CountConcat(Requests(h0, hs[0], size), AllRequests(hs[0], hs[1..], size), x);
    }
  }

  /** Climbs and falls balance. */
  lemma {:induction false} ClimbsBalanceFalls(h0: nat, hs: seq<nat>, x: nat)
    ensures Climbs(h0, hs, x) - Falls(h0, hs, x)
         == (if x <= Last(h0, hs) then 1 else 0) - (if x <= h0 then 1 else 0)
    decreases |hs|
  {
    if hs == [] {
    } else {
      ClimbsBalanceFalls(hs[0], hs[1..], x);
      assert Last(h0, hs) == Last(hs[0], hs[1..]);
    }
  }

  /** Above the initial height, exactly the blocks up to the highest update seen are asked for,
      however the cursor moves; and such a block is asked for exactly once if and only if the
      cursor fell below it at most once, and then for good. */
  lemma HeightCoverage(h0: nat, hs: seq<nat>, size: nat, x: nat)
    requires size > 0 && h0 < x
    ensures Count(AllRequests(h0, hs, size), x) >= 1 <==> x <= Highest(h0, hs)
    ensures Count(AllRequests(h0, hs, size), x) == 1 <==>
            x <= Highest(h0, hs) && Falls(h0, hs, x) == if x <= Last(h0, hs) then 0 else 1
  {
    RequestedPerClimb(h0, hs, size, x);
    ClimbsBalanceFalls(h0, hs, x);
    ClimbsToHighest(h0, hs, x);
  }

  lemma {:induction false} ClimbsToHighest(h0: nat, hs: seq<nat>, x: nat)
    requires h0 < x
    ensures Climbs(h0, hs, x) >= 1 <==> x <= Highest(h0, hs)
    decreases |hs|
  {
    if hs == [] {
    } else {
      if hs[0] < x {
        ClimbsToHighest(hs[0], hs[1..], x);
      } else {
        HighestIsUpperBound(hs[0], hs[1..]);
      }
    }
  }

  lemma HighestIsUpperBound(h0: nat, hs: seq<nat>)
    ensures h0 <= Highest(h0, hs)
  {
  }

  ghost predicate Ascending(h0: nat, hs: seq<nat>)
    decreases |hs|
  {
    hs != [] ==> h0 <= hs[0] && Ascending(hs[0], hs[1..])
  }

  /** If the updates never go back, each block above the initial height up to the last update is
      asked for exactly once and nothing else is. */
  lemma {:induction false} AscendingOnce(h0: nat, hs: seq<nat>, size: nat, x: nat)
    requires size > 0 && Ascending(h0, hs)
    ensures Count(AllRequests(h0, hs, size), x) == if h0 < x <= Last(h0, hs) then 1 else 0
  {
    RequestedPerClimb(h0, hs, size, x);
    ClimbsBalanceFalls(h0, hs, x);
    NoFalls(h0, hs, x);
  }

  lemma {:induction false} NoFalls(h0: nat, hs: seq<nat>, x: nat)
    requires Ascending(h0, hs)
    ensures Falls(h0, hs, x) == 0 && h0 <= Last(h0, hs)
    decreases |hs|
  {
    if hs == [] {
    } else {
      NoFalls(hs[0], hs[1..], x);
      assert Last(h0, hs) == Last(hs[0], hs[1..]);
    }
  }

  /** What the task reads over a run. */
  function AllEvents<E>(h0: nat, hs: seq<nat>, size: nat, ask: Ask<E>): seq<E>
    requires size > 0
    decreases |hs|
  {
    if hs == [] then []
    else Collected(Requests(h0, hs[0], size), ask, 0) + AllEvents(hs[0], hs[1..], size, ask)
  }

  /** The block ranges a run asks for in vain. */
  function AllMissed<E>(h0: nat, hs: seq<nat>, size: nat, ask: Ask<E>): seq<Range>
    requires size > 0
    decreases |hs|
  {
    if hs == [] then []
    else Unanswered(Requests(h0, hs[0], size), ask, 0) + AllMissed(hs[0], hs[1..], size, ask)
  }

  lemma {:induction false} MissedAbove<E>(h0: nat, hs: seq<nat>, size: nat, ask: Ask<E>, x: nat)
    requires size > 0 && Ascending(h0, hs) && InSome(AllMissed(h0, hs, size, ask), x)
    ensures h0 < x <= Last(h0, hs)
    decreases |hs|
  {
    if hs == [] {
      assert false;
    } else {
      var failed := Unanswered(Requests(h0, hs[0], size), ask, 0);
      NoFalls(h0, hs, x);
      NoFalls(hs[0], hs[1..], x);
      InSomeConcat(failed, AllMissed(hs[0], hs[1..], size, ask), x);
      if InSome(failed, x) {
        assert h0 < hs[0];
        AnsweredIff(h0, hs[0], size, ask, x);
      } else {
        MissedAbove(hs[0], hs[1..], size, ask, x);
      }
    }
  }

  /** What one update makes the task read is what lies between the two heights, as far as answered. */
  lemma OneUpdate<E>(h0: nat, h: nat, size: nat, ask: Ask<E>, chain: nat -> seq<E>, failed: seq<Range>)
    requires size > 0 && h0 <= h && Faithful(ask, chain)
    requires failed == Unanswered(Requests(h0, h, size), ask, 0)
    ensures Collected(Requests(h0, h, size), ask, 0)
         == ReadableEvents(chain, (x: nat) => !InSome(failed, x), h0 + 1, h)
    ensures forall x: nat :: InSome(failed, x) ==> h0 < x <= h
  {
    if h0 < h {
      FaithfulQuery(h0, h, size, ask, chain, failed);
      forall x: nat ensures InSome(failed, x) ==> h0 < x <= h {
        AnsweredIff(h0, h, size, ask, x);
      }
    } else {
      assert Collected(Requests(h0, h, size), ask, 0) == [];
    }
  }

  /** What two consecutive stretches of blocks give, each read by its own lights, joins up. */
  lemma JoinReadable<E>(chain: nat -> seq<E>, a: nat -> bool, b: nat -> bool, p: nat -> bool,
                        h0: nat, h: nat, last: nat)
    requires h0 <= h <= last
    requires forall x: nat :: h0 < x <= h ==> a(x) == p(x)
    requires forall x: nat :: h < x <= last ==> b(x) == p(x)
    ensures ReadableEvents(chain, a, h0 + 1, h) + ReadableEvents(chain, b, h + 1, last)
         == ReadableEvents(chain, p, h0 + 1, last)
  {
    ReadableAgree(chain, a, p, h0 + 1, h);
    ReadableAgree(chain, b, p, h + 1, last);
    if h0 < h {
      ReadableEventsSplit(chain, p, h0 + 1, h, last);
    } else {
      assert ReadableEvents(chain, p, h0 + 1, h) == [];
    }
  }

  /** With updates that never go back and a node that does not lie, a whole run reads, once and in block
      order, the events of the blocks above the initial height that the node answered for. */
  lemma {:induction false} ReadsWhatIsAnswered<E>(
    h0: nat, hs: seq<nat>, size: nat, ask: Ask<E>, chain: nat -> seq<E>, missed: seq<Range>)
    requires size > 0 && Ascending(h0, hs) && Faithful(ask, chain)
    requires missed == AllMissed(h0, hs, size, ask)
    ensures AllEvents(h0, hs, size, ask)
         == ReadableEvents(chain, (x: nat) => !InSome(missed, x), h0 + 1, Last(h0, hs))
    decreases |hs|
  {
    if hs == [] {
    } else {
      var h, rest := hs[0], hs[1..];
      var failed, later := Unanswered(Requests(h0, h, size), ask, 0), AllMissed(h, rest, size, ask);
      ReadsWhatIsAnswered(h, rest, size, ask, chain, later);
      NoFalls(h, rest, 0);
      OneUpdate(h0, h, size, ask, chain, failed);
      SplitMissed(h0, hs, size, ask, failed, later, missed);
      JoinReadable(chain, (x: nat) => !InSome(failed, x), (x: nat) => !InSome(later, x),
                   (x: nat) => !InSome(missed, x), h0, h, Last(h, rest));
    }
  }

  /** A block missed in a run is missed either by the first update or by a later one. */
  lemma SplitMissed<E>(h0: nat, hs: seq<nat>, size: nat, ask: Ask<E>,
                       failed: seq<Range>, later: seq<Range>, missed: seq<Range>)
    requires size > 0 && hs != [] && Ascending(h0, hs)
    requires failed == Unanswered(Requests(h0, hs[0], size), ask, 0)
    requires later == AllMissed(hs[0], hs[1..], size, ask) && missed == failed + later
    ensures forall x: nat :: h0 < x <= hs[0] ==> (InSome(missed, x) <==> InSome(failed, x))
    ensures forall x: nat :: hs[0] < x ==> (InSome(missed, x) <==> InSome(later, x))
  {
    forall x: nat
      ensures InSome(missed, x) <==> InSome(failed, x) || InSome(later, x)
      ensures InSome(later, x) ==> hs[0] < x
      ensures InSome(failed, x) ==> x <= hs[0]
    {
      InSomeConcat(failed, later, x);
      if InSome(later, x) {
        MissedAbove(hs[0], hs[1..], size, ask, x);
      }
      if InSome(failed, x) {
        assert h0 < hs[0];
        AnsweredIff(h0, hs[0], size, ask, x);
      }
    }
  }

  /** Such a run reads every event above the initial height, once and in block order, if and only if no
      block whose query failed holds an event: the cursor moves past that block for good. */
  lemma {:induction false} EventsOnceInOrder<E>(
    h0: nat, hs: seq<nat>, size: nat, ask: Ask<E>, chain: nat -> seq<E>, missed: seq<Range>)
    requires size > 0 && Ascending(h0, hs) && Faithful(ask, chain)
    requires missed == AllMissed(h0, hs, size, ask)
    ensures AllEvents(h0, hs, size, ask)
         == ReadableEvents(chain, (x: nat) => !InSome(missed, x), h0 + 1, Last(h0, hs))
    ensures AllEvents(h0, hs, size, ask) == RangeEvents(chain, h0 + 1, Last(h0, hs)) <==>
            forall x: nat :: InSome(missed, x) ==> chain(x) == []
  {
    ReadsWhatIsAnswered(h0, hs, size, ask, chain, missed);
    NothingMissingIff(chain, (x: nat) => !InSome(missed, x), h0 + 1, Last(h0, hs));
    forall x: nat | InSome(missed, x)
      ensures h0 < x <= Last(h0, hs)
    {
      MissedAbove(h0, hs, size, ask, x);
    }
  }
}
