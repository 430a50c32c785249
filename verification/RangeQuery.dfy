/** The chunked block-range query shared by both providers (`query_ismp_events`): a range of
    heights is asked for in consecutive subranges, and a subrange that cannot be read is skipped. */
module RangeQuery {
  import opened Prelude
  import opened Arithmetic

  newtype u64 = x: int | 0 <= x < 0x1_0000_0000_0000_0000

  const U64_MAX: u64 := 0xFFFF_FFFF_FFFF_FFFF

  /** An inclusive range of block heights. */
  datatype Range = Range(start: nat, end: nat) {
    predicate Holds(x: nat) { start <= x <= end }
  }

  datatype Panic = AddOverflow | DivisionByZero

  /** The plain greedy split of `first..=last` into pieces of `size` heights. */
  function Subranges(first: nat, last: nat, size: nat): seq<Range>
    requires first <= last && size > 0
    decreases last - first
  {
    if last - first < size then [Range(first, last)]
    else [Range(first, first + size - 1)] + Subranges(first + size, last, size)
  }

  /** Everything the provider asks for when it moves from `previous` to `latest`. */
  function Requests(previous: nat, latest: nat, size: nat): seq<Range>
    requires size > 0
  {
    if latest <= previous then [] else Subranges(previous + 1, latest, size)
  }

  /** How many of the ranges hold height `x`. */
  function Count(ranges: seq<Range>, x: nat): nat {
    if ranges == [] then 0
    else (if ranges[0].Holds(x) then 1 else 0) + Count(ranges[1..], x)
  }

  lemma {:induction false} CountConcat(a: seq<Range>, b: seq<Range>, x: nat)
    ensures Count(a + b, x) == Count(a, x) + Count(b, x)
  {
    if a == [] {
      assert a + b == b;
    } else {
      assert (a + b)[1..] == a[1..] + b;
      CountConcat(a[1..], b, x);
    }
  }

  ghost predicate Tiles(ranges: seq<Range>, first: nat, last: nat, size: nat) {
    && |ranges| > 0
    && ranges[0].start == first && ranges[|ranges| - 1].end == last
    && (forall i :: 0 <= i < |ranges| ==> ranges[i].start <= ranges[i].end)
    && (forall i :: 0 <= i < |ranges| ==> ranges[i].end - ranges[i].start < size)
    && (forall i, j :: 0 <= i < j < |ranges| && j == i + 1 ==> ranges[j].start == ranges[i].end + 1)
  }

  /** The subranges are nonempty, contiguous and at most one chunk long, and reach from the first
      height to the last. */
  lemma {:induction false} SubrangesTile(first: nat, last: nat, size: nat)
    requires first <= last && size > 0
    ensures Tiles(Subranges(first, last, size), first, last, size)
    decreases last - first
  {
    if last - first >= size {
      SubrangesTile(first + size, last, size);
      TilesCons(Range(first, first + size - 1), Subranges(first + size, last, size), last, size);
    }
  }

  /** Together the subranges hold every height of the range exactly once and no other height. */
  lemma {:induction false} SubrangesCount(first: nat, last: nat, size: nat, x: nat)
    requires first <= last && size > 0
    ensures Count(Subranges(first, last, size), x) == if first <= x <= last then 1 else 0
    decreases last - first
  {
    if last - first >= size {
      SubrangesCount(first + size, last, size, x);
      CountConcat([Range(first, first + size - 1)], Subranges(first + size, last, size), x);
    }
  }

  lemma TilesCons(head: Range, rest: seq<Range>, last: nat, size: nat)
    requires head.start <= head.end < head.start + size
    requires Tiles(rest, head.end + 1, last, size)
    ensures Tiles([head] + rest, head.start, last, size)
  {
    var all := [head] + rest;
    forall i, j | 0 <= i < j < |all| && j == i + 1
      ensures all[j].start == all[i].end + 1
    {
      assert all[j] == rest[i];
      if i > 0 {
        assert all[i] == rest[i - 1];
      }
    }
  }

  lemma RequestsCount(previous: nat, latest: nat, size: nat, x: nat)
    requires size > 0
    ensures Count(Requests(previous, latest, size), x) == if previous < x <= latest then 1 else 0
  {
    if previous < latest {
      SubrangesCount(previous + 1, latest, size, x);
    }
  }

  /** The `i`-th greedy subrange has the closed form that the loop computes. */
  lemma {:induction false} SubrangeAt(first: nat, last: nat, size: nat, i: nat)
    requires first <= last && size > 0
    requires i <= (last - first) / size
    ensures |Subranges(first, last, size)| == (last - first) / size + 1
    ensures 0 <= i * size <= last - first
    ensures i < (last - first) / size ==> i * size + size <= last - first
    ensures Subranges(first, last, size)[i]
         == Range(i * size + first,
                  if i == (last - first) / size then last else i * size + first + size - 1)
    decreases last - first
  {
    var n := last - first;
    QuotientStep(n, size);
    if n < size {
      assert i == 0;
    } else if i == 0 {
      SubrangeAt(first + size, last, size, 0);
    } else {
      SubrangeAt(first + size, last, size, i - 1);
      SizeStep(i, size);
    }
  }

  lemma SizeStep(i: nat, size: nat)
    requires i > 0
    ensures i * size == (i - 1) * size + size
  {
  }

  lemma QuotientStep(n: nat, size: nat)
    requires size > 0
    ensures n < size ==> n / size == 0
    ensures n >= size ==> n / size == (n - size) / size + 1
  {
    if n < size {
      DivUnique(n, size, 0, n);
    } else {
      var q := (n - size) / size;
      Distribute(size, q, 1);
      DivUnique(n, size, q + 1, (n - size) % size);
    }
  }

  /** One answer per request: the events found, or nothing when the node failed. */
  type Ask<!E> = (nat, Range) -> Option<seq<E>>

  /** The answered batches, in order. */
  function Collected<E>(ranges: seq<Range>, ask: Ask<E>, from: nat): seq<E>
    requires from <= |ranges|
    decreases |ranges| - from
  {
    if from == |ranges| then []
    else Batch(ask, from, ranges[from])
         + Collected(ranges, ask, from + 1)
  }

  /** `query_ismp_events`. Every machine-word operation stays within 64 bits except the initial
      increment, and the division fails only for a zero chunk size. */
  method QueryIsmpEvents<E>(previousHeight: u64, latestHeight: u64, chunkSize: u64, ask: Ask<E>)
    returns (events: Result<seq<E>, Panic>, asked: seq<Range>)
    ensures events.Err? <==>
            previousHeight == U64_MAX || (previousHeight < latestHeight && chunkSize == 0)
    ensures chunkSize > 0 && events.Ok? ==>
              && asked == Requests(previousHeight as nat, latestHeight as nat, chunkSize as nat)
              && events.value == Collected(asked, ask, 0)
  {
    asked := [];
    if previousHeight == U64_MAX {
      return Err(AddOverflow), asked;
    }
    var first := previousHeight + 1;
    if latestHeight < first {
      return Ok([]), asked;
    }
    if chunkSize == 0 {
      return Err(DivisionByZero), asked;
    }
    var found;
    found, asked := AskAll(first, latestHeight, chunkSize, ask);
    events := Ok(found);
  }

  /** The index of the last subrange. */
  method LastChunk(first: u64, last: u64, size: u64) returns (chunks: u64)
    requires first <= last && size > 0
    ensures |Subranges(first as nat, last as nat, size as nat)| == chunks as nat + 1
  {
    SubrangeAt(first as nat, last as nat, size as nat, 0);
    chunks := (last - first) / size;
  }

  /** Bounds of the `i`-th subrange, without leaving 64 bits. */
  method SubrangeBounds(first: u64, last: u64, size: u64, chunks: u64, i: u64) returns (start: u64, end: u64)
    requires first <= last && size > 0
    requires |Subranges(first as nat, last as nat, size as nat)| == chunks as nat + 1 && i <= chunks
    ensures Subranges(first as nat, last as nat, size as nat)[i as nat] == Range(start as nat, end as nat)
  {
    SubrangeAt(first as nat, last as nat, size as nat, 0);
    SubrangeAt(first as nat, last as nat, size as nat, i as nat);
    start := i * size + first;
    end := if i == chunks then last else start + size - 1;
  }

  /** The loop over the chunks of a nonempty range. */
  method AskAll<E>(first: u64, last: u64, size: u64, ask: Ask<E>) returns (found: seq<E>, asked: seq<Range>)
    requires first <= last && size > 0
    ensures asked == Subranges(first as nat, last as nat, size as nat)
    ensures found == Collected(asked, ask, 0)
  {
    found, asked := [], [];
    var chunks := LastChunk(first, last, size);
    ghost var plan := Subranges(first as nat, last as nat, size as nat);
    var i: u64 := 0;
    while true
      invariant 0 <= i <= chunks && |plan| == chunks as nat + 1
      invariant |asked| == i as nat && asked <= plan
      invariant found + Collected(plan, ask, |asked|) == Collected(plan, ask, 0)
      decreases chunks - i
    {
      var start, end := SubrangeBounds(first, last, size, chunks, i);
      var range := Range(start as nat, end as nat);
      CollectedStep(plan, ask, |asked|, found);
      found := found + Batch(ask, i as nat, range);
      asked := asked + [range];
      if i == chunks {
        break;
      }
      i := i + 1;
    }
    assert Collected(plan, ask, |plan|) == [];
  }

  lemma CollectedStep<E>(plan: seq<Range>, ask: Ask<E>, i: nat, found: seq<E>)
    requires i < |plan|
    ensures found + Collected(plan, ask, i) == (found + Batch(ask, i, plan[i])) + Collected(plan, ask, i + 1)
  {
  }

  // ----- refinement of the plain range -----

  /** The events of blocks `first..=last`, read block by block. */
  function RangeEvents<E>(chain: nat -> seq<E>, first: nat, last: nat): seq<E>
    decreases last + 1 - first
  {
    if first > last then [] else chain(first) + RangeEvents(chain, first + 1, last)
  }

  /** The same, skipping the blocks that could not be read. */
  function ReadableEvents<E>(chain: nat -> seq<E>, readable: nat -> bool, first: nat, last: nat): seq<E>
    decreases last + 1 - first
  {
    if first > last then []
    else (if readable(first) then chain(first) else [])
         + ReadableEvents(chain, readable, first + 1, last)
  }

  lemma {:induction false} ReadableEventsSplit<E>(
    chain: nat -> seq<E>, readable: nat -> bool, first: nat, mid: nat, last: nat)
    requires first <= mid <= last
    ensures ReadableEvents(chain, readable, first, last)
         == ReadableEvents(chain, readable, first, mid) + ReadableEvents(chain, readable, mid + 1, last)
    decreases mid - first
  {
    if first < mid {
      ReadableEventsSplit(chain, readable, first + 1, mid, last);
    } else {
      assert ReadableEvents(chain, readable, first + 1, mid) == [];
    }
  }

  lemma {:induction false} AllReadable<E>(chain: nat -> seq<E>, readable: nat -> bool, first: nat, last: nat)
    requires forall x: nat :: first <= x <= last ==> readable(x)
    ensures ReadableEvents(chain, readable, first, last) == RangeEvents(chain, first, last)
    decreases last + 1 - first
  {
    if first <= last {
      AllReadable(chain, readable, first + 1, last);
    }
  }

  lemma {:induction false} NothingReadable<E>(chain: nat -> seq<E>, readable: nat -> bool, first: nat, last: nat)
    requires forall x: nat :: first <= x <= last ==> !readable(x)
    ensures ReadableEvents(chain, readable, first, last) == []
    decreases last + 1 - first
  {
    if first <= last {
      NothingReadable(chain, readable, first + 1, last);
    }
  }

  /** The node answers a range with that range's events, or not at all. */
  ghost predicate Faithful<E>(ask: Ask<E>, chain: nat -> seq<E>) {
    forall i, r :: ask(i, r).Some? ==> ask(i, r).value == RangeEvents(chain, r.start, r.end)
  }

  /** Height `x` lies in a subrange that was answered. */
  predicate Answered<E>(ranges: seq<Range>, ask: Ask<E>, x: nat) {
    exists i :: 0 <= i < |ranges| && ranges[i].Holds(x) && ask(i, ranges[i]).Some?
  }

  ghost predicate TellsAnswered<E>(readable: nat -> bool, ranges: seq<Range>, ask: Ask<E>) {
    forall x: nat :: readable(x) == Answered(ranges, ask, x)
  }

  function Batch<E>(ask: Ask<E>, i: nat, r: Range): seq<E> {
    match ask(i, r) case Some(batch) => batch case None => []
  }

  /** The answer to subrange `k` is exactly the readable part of it. */
  ghost predicate Segment<E>(ranges: seq<Range>, ask: Ask<E>, chain: nat -> seq<E>, readable: nat -> bool, k: nat)
    requires k < |ranges|
  {
    Batch(ask, k, ranges[k]) == ReadableEvents(chain, readable, ranges[k].start, ranges[k].end)
  }

  lemma SegmentEvents<E>(
    ranges: seq<Range>, ask: Ask<E>, chain: nat -> seq<E>, readable: nat -> bool, at: nat, last: nat, size: nat)
    requires Faithful(ask, chain) && TellsAnswered(readable, ranges, ask)
    requires at < |ranges|
    requires Tiles(ranges, ranges[0].start, last, size)
    ensures Segment(ranges, ask, chain, readable, at)
  {
    var r := ranges[at];
    TilesOrdered(ranges, last, size);
    forall x: nat | r.start <= x <= r.end
      ensures readable(x) == ask(at, r).Some?
    {
      assert r.Holds(x);
    }
    if ask(at, r).Some? {
      AllReadable(chain, readable, r.start, r.end);
    } else {
      NothingReadable(chain, readable, r.start, r.end);
    }
  }

  /** Consecutive segments concatenate to the readable part of the whole. */
  lemma {:induction false} JoinSegments<E>(
    ranges: seq<Range>, ask: Ask<E>, chain: nat -> seq<E>, readable: nat -> bool, from: nat, last: nat)
    requires from < |ranges| && ranges[|ranges| - 1].end == last
    requires forall k :: 0 <= k < |ranges| ==> ranges[k].start <= ranges[k].end <= last
    requires forall i, j :: 0 <= i < j < |ranges| && j == i + 1 ==> ranges[j].start == ranges[i].end + 1
    requires forall k :: 0 <= k < |ranges| ==> Segment(ranges, ask, chain, readable, k)
    ensures Collected(ranges, ask, from) == ReadableEvents(chain, readable, ranges[from].start, last)
    decreases |ranges| - from
  {
    assert Segment(ranges, ask, chain, readable, from);
    var r := ranges[from];
    assert Collected(ranges, ask, from) == Batch(ask, from, r) + Collected(ranges, ask, from + 1);
    if from + 1 < |ranges| {
      JoinSegments(ranges, ask, chain, readable, from + 1, last);
      assert ranges[from + 1].start == r.end + 1;
      ReadableEventsSplit(chain, readable, r.start, r.end, last);
    } else {
      assert Collected(ranges, ask, from + 1) == [];
    }
  }

  lemma CollectedIsRange<E>(
    ranges: seq<Range>, ask: Ask<E>, chain: nat -> seq<E>, readable: nat -> bool, last: nat, size: nat)
    requires Faithful(ask, chain) && TellsAnswered(readable, ranges, ask)
    requires |ranges| > 0 && Tiles(ranges, ranges[0].start, last, size)
    ensures Collected(ranges, ask, 0) == ReadableEvents(chain, readable, ranges[0].start, last)
  {
    TilesOrdered(ranges, last, size);
    forall k | 0 <= k < |ranges|
      ensures Segment(ranges, ask, chain, readable, k)
    {
      SegmentEvents(ranges, ask, chain, readable, k, last, size);
    }
    JoinSegments(ranges, ask, chain, readable, 0, last);
  }

  /** In a tiling, no height lies in two ranges. */
  lemma TilesOrdered(ranges: seq<Range>, last: nat, size: nat)
    requires |ranges| > 0 && Tiles(ranges, ranges[0].start, last, size)
    ensures forall i, j, x :: 0 <= i < j < |ranges| && ranges[i].Holds(x) ==> !ranges[j].Holds(x)
    ensures forall i :: 0 <= i < |ranges| ==> ranges[i].end <= last
  {
    forall i, j | 0 <= i < j < |ranges|
      ensures ranges[i].end < ranges[j].start
    {
      RangeBefore(ranges, i, j, ranges[0].start, last, size);
    }
  }

  lemma {:induction false} RangeBefore(
    ranges: seq<Range>, i: nat, j: nat, first: nat, last: nat, size: nat)
    requires Tiles(ranges, first, last, size)
    requires i < j < |ranges|
    ensures ranges[i].end < ranges[j].start
    decreases j
  {
    assert ranges[j].start == ranges[j - 1].end + 1;
    if i < j - 1 {
      RangeBefore(ranges, i, j - 1, first, last, size);
    }
  }

  /** Against a truthful node the chunked query returns exactly the events of the readable blocks
      in block order, and all of them when every subrange is answered. */
  lemma QueryRefinesRange<E>(
    previous: nat, latest: nat, size: nat, ask: Ask<E>, chain: nat -> seq<E>)
    requires size > 0 && previous < latest
    requires Faithful(ask, chain)
    ensures var ranges := Requests(previous, latest, size);
            && Collected(ranges, ask, 0)
               == ReadableEvents(chain, (x: nat) => Answered(ranges, ask, x), previous + 1, latest)
            && ((forall i :: 0 <= i < |ranges| ==> ask(i, ranges[i]).Some?) ==>
                  Collected(ranges, ask, 0) == RangeEvents(chain, previous + 1, latest))
  {
    var ranges := Requests(previous, latest, size);
    var readable := (x: nat) => Answered(ranges, ask, x);
    SubrangesTile(previous + 1, latest, size);
    CollectedIsRange(ranges, ask, chain, readable, latest, size);
    if forall i :: 0 <= i < |ranges| ==> ask(i, ranges[i]).Some? {
      NoneSkipped(previous, latest, size, ask);
      AllReadable(chain, readable, previous + 1, latest);
    }
  }

  lemma NoneSkipped<E>(previous: nat, latest: nat, size: nat, ask: Ask<E>)
    requires size > 0 && previous < latest
    requires forall i :: 0 <= i < |Requests(previous, latest, size)| ==>
               ask(i, Requests(previous, latest, size)[i]).Some?
    ensures forall x: nat :: previous < x <= latest ==> Answered(Requests(previous, latest, size), ask, x)
  {
    var ranges := Requests(previous, latest, size);
    forall x: nat | previous < x <= latest
      ensures Answered(ranges, ask, x)
    {
      SubrangesCount(previous + 1, latest, size, x);
      var i := CountedSomewhere(ranges, x);
      assert ask(i, ranges[i]).Some?;
    }
  }

  // ----- subranges that went unanswered -----

  predicate InSome(ranges: seq<Range>, x: nat) { exists i :: 0 <= i < |ranges| && ranges[i].Holds(x) }

  /** The subranges whose query failed; the program logs them and goes on. */
  function Unanswered<E>(ranges: seq<Range>, ask: Ask<E>, from: nat): seq<Range>
    decreases |ranges| - from
  {
    if from >= |ranges| then []
    else (if ask(from, ranges[from]).None? then [ranges[from]] else []) + Unanswered(ranges, ask, from + 1)
  }

  lemma {:induction false} UnansweredHolds<E>(ranges: seq<Range>, ask: Ask<E>, from: nat, x: nat)
    ensures InSome(Unanswered(ranges, ask, from), x) <==>
            exists i :: from <= i < |ranges| && ranges[i].Holds(x) && ask(i, ranges[i]).None?
    decreases |ranges| - from
  {
    if from >= |ranges| {
    } else {
      var rest := Unanswered(ranges, ask, from + 1);
      UnansweredHolds(ranges, ask, from + 1, x);
      InSomeConcat(if ask(from, ranges[from]).None? then [ranges[from]] else [], rest, x);
      assert InSome([ranges[from]], x) <==> [ranges[from]][0].Holds(x);
    }
  }

  lemma InSomeConcat(a: seq<Range>, b: seq<Range>, x: nat)
    ensures InSome(a + b, x) <==> InSome(a, x) || InSome(b, x)
  {
    if i :| 0 <= i < |a| && a[i].Holds(x) {
      assert (a + b)[i].Holds(x);
    }
    if i :| 0 <= i < |b| && b[i].Holds(x) {
      assert (a + b)[|a| + i].Holds(x);
    }
  }

  /** A height of the range is answered for exactly if no failed subrange holds it. */
  lemma AnsweredIff<E>(previous: nat, latest: nat, size: nat, ask: Ask<E>, x: nat)
    requires size > 0 && previous < latest
    ensures var ranges := Requests(previous, latest, size);
            && (InSome(Unanswered(ranges, ask, 0), x) ==> previous < x <= latest)
            && (previous < x <= latest ==> (Answered(ranges, ask, x) <==> !InSome(Unanswered(ranges, ask, 0), x)))
  {
    var ranges := Requests(previous, latest, size);
    UnansweredHolds(ranges, ask, 0, x);
    if i :| 0 <= i < |ranges| && ranges[i].Holds(x) && ask(i, ranges[i]).None? {
      HeldInRange(previous, latest, size, x, i);
    }
    if previous < x <= latest {
      SubrangesCount(previous + 1, latest, size, x);
      var i := CountedSomewhere(ranges, x);
      forall j | 0 <= j < |ranges| && ranges[j].Holds(x)
        ensures j == i
      {
        HeldOnce(previous, latest, size, x, i, j);
      }
    }
  }

  lemma HeldInRange(previous: nat, latest: nat, size: nat, x: nat, i: nat)
    requires size > 0 && previous < latest && i < |Requests(previous, latest, size)|
    requires Requests(previous, latest, size)[i].Holds(x)
    ensures previous < x <= latest
  {
    SubrangesCount(previous + 1, latest, size, x);
    HeldIsCounted(Requests(previous, latest, size), x, i);
  }

  lemma HeldOnce(previous: nat, latest: nat, size: nat, x: nat, i: nat, j: nat)
    requires size > 0 && previous < latest
    requires i < |Requests(previous, latest, size)| && j < |Requests(previous, latest, size)|
    requires Requests(previous, latest, size)[i].Holds(x) && Requests(previous, latest, size)[j].Holds(x)
    ensures i == j
  {
    SubrangesTile(previous + 1, latest, size);
    TilesOrdered(Requests(previous, latest, size), latest, size);
  }

  lemma {:induction false} HeldIsCounted(ranges: seq<Range>, x: nat, i: nat)
    requires i < |ranges| && ranges[i].Holds(x)
    ensures Count(ranges, x) > 0
    decreases i
  {
    if i == 0 {
    } else {
      HeldIsCounted(ranges[1..], x, i - 1);
    }
  }

  lemma {:induction false} ReadableAgree<E>(
    chain: nat -> seq<E>, p: nat -> bool, q: nat -> bool, first: nat, last: nat)
    requires forall x: nat :: first <= x <= last ==> p(x) == q(x)
    ensures ReadableEvents(chain, p, first, last) == ReadableEvents(chain, q, first, last)
    decreases last + 1 - first
  {
    if first > last {
    } else {
      ReadableAgree(chain, p, q, first + 1, last);
    }
  }

  /** Nothing is missing from the readable blocks if and only if the others hold no events. */
  lemma {:induction false} NothingMissingIff<E>(chain: nat -> seq<E>, p: nat -> bool, first: nat, last: nat)
    ensures |ReadableEvents(chain, p, first, last)| <= |RangeEvents(chain, first, last)|
    ensures ReadableEvents(chain, p, first, last) == RangeEvents(chain, first, last) <==>
            forall x: nat :: first <= x <= last && !p(x) ==> chain(x) == []
    ensures |ReadableEvents(chain, p, first, last)| == |RangeEvents(chain, first, last)| ==>
              ReadableEvents(chain, p, first, last) == RangeEvents(chain, first, last)
    decreases last + 1 - first
  {
    if first > last {
    } else {
      NothingMissingIff(chain, p, first + 1, last);
      var some, all := ReadableEvents(chain, p, first + 1, last), RangeEvents(chain, first + 1, last);
      if p(first) && chain(first) + some == chain(first) + all {
        assert some == (chain(first) + some)[|chain(first)|..];
      }
      if !p(first) && chain(first) == [] {
        assert [] + some == some && [] + all == all;
      }
    }
  }

  /** A node that does not lie is heard exactly as far as it answers. */
  lemma FaithfulQuery<E>(previous: nat, latest: nat, size: nat, ask: Ask<E>, chain: nat -> seq<E>, failed: seq<Range>)
    requires size > 0 && previous < latest && Faithful(ask, chain)
    requires failed == Unanswered(Requests(previous, latest, size), ask, 0)
    ensures Collected(Requests(previous, latest, size), ask, 0)
         == ReadableEvents(chain, (x: nat) => !InSome(failed, x), previous + 1, latest)
  {
    var ranges := Requests(previous, latest, size);
    QueryRefinesRange(previous, latest, size, ask, chain);
    forall x: nat | previous + 1 <= x <= latest
      ensures Answered(ranges, ask, x) == !InSome(failed, x)
    {
      AnsweredIff(previous, latest, size, ask, x);
    }
    ReadableAgree(chain, (x: nat) => Answered(ranges, ask, x), (x: nat) => !InSome(failed, x), previous + 1, latest);
  }

  lemma {:induction false} CountedSomewhere(ranges: seq<Range>, x: nat) returns (i: nat)
    requires Count(ranges, x) > 0
    ensures i < |ranges| && ranges[i].Holds(x)
  {
    if ranges[0].Holds(x) {
      i := 0;
    } else {
      i := CountedSomewhere(ranges[1..], x);
      i := i + 1;
    }
  }
}
