/** What the update stream does besides being safe: which await decides a race, when a turn moves the
    cursor, yields or stops, and that nothing is held back when nothing fails. */
module PollerProgress {
  import opened Prelude
  import opened RangeQuery
  import opened Ismp
  import opened Poller

  // ----- what decides a race -----

  /** The first period query that completed before tick `k` was answered `p`. */
  ghost predicate PeriodKnown(ticks: seq<Tick>, k: nat, p: nat) {
    exists j :: 0 <= j < k && j < |ticks| && ticks[j] == Period(Some(p)) && forall i :: 0 <= i < j ==> !ticks[i].Period?
  }

  /** The highest head seen by the veto watch before tick `k`, or the height it started from. */
  function WatchedBy(from: nat, ticks: seq<Tick>, k: nat): nat
    requires k <= |ticks|
  {
    if k == 0 then from
    else
      var w, t := WatchedBy(from, ticks, k - 1), ticks[k - 1];
      if t.VetoPoll? && t.head.Some? then Max(w, t.head.value) else w
  }

  /** Tick `k` decides the race, unless an earlier one did: the period or the clock cannot be read, the clock
      is past the period, the veto watch fails, or it finds the veto in the new blocks it can read. */
  ghost predicate Settles(c: Config, target: StateMachineHeight, updateTime: nat, from: nat, ticks: seq<Tick>, k: nat)
    requires c.chunkSize > 0 && k < |ticks|
  {
    match ticks[k]
    case Period(answer) => answer.None? && forall j :: 0 <= j < k ==> !ticks[j].Period?
    case Clock(answer) => exists p :: PeriodKnown(ticks, k, p) && (answer.None? || answer.value > updateTime + p)
    case VetoPoll(head, ask) =>
      || head.None?
      || (var watched := WatchedBy(from, ticks, k);
          head.value > watched && Vetoed(target) in Collected(Requests(watched, head.value, c.chunkSize), ask, 0))
  }

  ghost predicate SettlesFirst(c: Config, target: StateMachineHeight, updateTime: nat, from: nat, ticks: seq<Tick>,
                               k: nat)
    requires c.chunkSize > 0 && k < |ticks|
  {
    && Settles(c, target, updateTime, from, ticks, k)
    && forall j :: 0 <= j < k ==> !Settles(c, target, updateTime, from, ticks, j)
  }

  /** How a race ends that tick `k` decides. */
  ghost predicate EndsBy(from: nat, ticks: seq<Tick>, k: nat, o: Outcome)
    requires k < |ticks|
  {
    match ticks[k]
    case Period(_) => o.WaitFailed?
    case Clock(answer) =>
      if answer.None? then o.WaitFailed?
      else && o.Elapsed? && o.now == answer.value && PeriodKnown(ticks, k, o.period)
           && o.watched == WatchedBy(from, ticks, k)
    case VetoPoll(head, _) => if head.None? then o.StreamFailed? else o.VetoSeen?
  }

  /** What the race knows of the period before tick `i`. */
  ghost predicate PeriodIs(ticks: seq<Tick>, i: nat, period: Option<nat>)
    requires i <= |ticks|
  {
    if period.Some? then PeriodKnown(ticks, i, period.value) else forall j :: 0 <= j < i ==> !ticks[j].Period?
  }

  lemma PeriodUnique(ticks: seq<Tick>, k: nat, p: nat, q: nat)
    requires PeriodKnown(ticks, k, p) && PeriodKnown(ticks, k, q)
    ensures p == q
  {
  }

  /** The outcome the ticks call for. */
  ghost predicate Decided(c: Config, target: StateMachineHeight, updateTime: nat, from: nat, ticks: seq<Tick>,
                          o: Outcome)
    requires c.chunkSize > 0
  {
    && (o.Undecided? <==> forall k :: 0 <= k < |ticks| ==> !Settles(c, target, updateTime, from, ticks, k))
    && (forall k :: 0 <= k < |ticks| && SettlesFirst(c, target, updateTime, from, ticks, k) ==>
          EndsBy(from, ticks, k, o))
  }

  lemma {:induction false} RaceFrom(
    c: Config, target: StateMachineHeight, updateTime: nat, from: nat, ticks: seq<Tick>, i: nat,
    period: Option<nat>, missed: seq<Range>)
    requires c.chunkSize > 0 && i <= |ticks| && PeriodIs(ticks, i, period)
    requires forall j :: 0 <= j < i ==> !Settles(c, target, updateTime, from, ticks, j)
    ensures Decided(c, target, updateTime, from, ticks,
                    Race(c, target, updateTime, period, WatchedBy(from, ticks, i), missed, ticks[i..]))
    decreases |ticks| - i
  {
    if i == |ticks| {
    } else if Settles(c, target, updateTime, from, ticks, i) {
      RaceEnds(c, target, updateTime, from, ticks, i, period, missed);
    } else {
      var next, failed := RaceGoesOn(c, target, updateTime, from, ticks, i, period, missed);
      RaceFrom(c, target, updateTime, from, ticks, i + 1, next, failed);
    }
  }

  lemma RaceEnds(c: Config, target: StateMachineHeight, updateTime: nat, from: nat, ticks: seq<Tick>, i: nat,
                 period: Option<nat>, missed: seq<Range>)
    requires c.chunkSize > 0 && i < |ticks| && PeriodIs(ticks, i, period)
    requires SettlesFirst(c, target, updateTime, from, ticks, i)
    ensures Decided(c, target, updateTime, from, ticks,
                    Race(c, target, updateTime, period, WatchedBy(from, ticks, i), missed, ticks[i..]))
  {
    TickSettles(c, target, updateTime, from, ticks, i, period);
    forall k | 0 <= k < |ticks| && SettlesFirst(c, target, updateTime, from, ticks, k) ensures k == i {}
  }

  lemma RaceGoesOn(c: Config, target: StateMachineHeight, updateTime: nat, from: nat, ticks: seq<Tick>, i: nat,
                   period: Option<nat>, missed: seq<Range>)
    returns (next: Option<nat>, failed: seq<Range>)
    requires c.chunkSize > 0 && i < |ticks| && PeriodIs(ticks, i, period)
    requires !Settles(c, target, updateTime, from, ticks, i)
    ensures PeriodIs(ticks, i + 1, next)
    ensures Race(c, target, updateTime, period, WatchedBy(from, ticks, i), missed, ticks[i..])
         == Race(c, target, updateTime, next, WatchedBy(from, ticks, i + 1), failed, ticks[i + 1..])
  {
    TickSettles(c, target, updateTime, from, ticks, i, period);
    NextPeriod(ticks, i, period);
    next := if ticks[i].Period? && period.None? then ticks[i].answer else period;
    failed := missed;
    var w := WatchedBy(from, ticks, i);
    if ticks[i].VetoPoll? && ticks[i].head.value > w {
      failed := missed + Unanswered(Requests(w, ticks[i].head.value, c.chunkSize), ticks[i].ask, 0);
    }
    assert ticks[i..][0] == ticks[i] && ticks[i..][1..] == ticks[i + 1..];
  }

  /** A tick decides the race where it stands iff it settles it. */
  lemma TickSettles(c: Config, target: StateMachineHeight, updateTime: nat, from: nat, ticks: seq<Tick>, i: nat,
                    period: Option<nat>)
    requires c.chunkSize > 0 && i < |ticks| && PeriodIs(ticks, i, period)
    ensures Settles(c, target, updateTime, from, ticks, i) <==>
            match ticks[i]
            case Period(answer) => period.None? && answer.None?
            case Clock(answer) => period.Some? && (answer.None? || answer.value > updateTime + period.value)
            case VetoPoll(head, ask) =>
              var w := WatchedBy(from, ticks, i);
              || head.None?
              || (head.value > w && Vetoed(target) in Collected(Requests(w, head.value, c.chunkSize), ask, 0))
  {
    match ticks[i]
    case Period(_) =>
    case Clock(answer) =>
      if period.Some? {
        forall p | PeriodKnown(ticks, i, p) ensures p == period.value { PeriodUnique(ticks, i, p, period.value); }
      }
    case VetoPoll(_, _) =>
  }

  lemma NextPeriod(ticks: seq<Tick>, i: nat, period: Option<nat>)
    requires i < |ticks| && PeriodIs(ticks, i, period)
    requires !(ticks[i].Period? && period.None? && ticks[i].answer.None?)
    ensures PeriodIs(ticks, i + 1, if ticks[i].Period? && period.None? then ticks[i].answer else period)
  {
    if period.Some? {
      var j :| 0 <= j < i && ticks[j] == Period(Some(period.value)) && forall k :: 0 <= k < j ==> !ticks[k].Period?;
      assert PeriodKnown(ticks, i + 1, period.value);
    } else if ticks[i].Period? {
      assert PeriodKnown(ticks, i + 1, ticks[i].answer.value);
    }
  }

  /** A race is undecided exactly when no await decides it, and otherwise ends as the first one that does
      says: by the clock only once the period is known and over, by the veto watch only on an error or the
      veto itself. */
  lemma RaceIff(c: Config, target: StateMachineHeight, updateTime: nat, from: nat, ticks: seq<Tick>)
    requires c.chunkSize > 0
    ensures Decided(c, target, updateTime, from, ticks, Race(c, target, updateTime, None, from, [], ticks))
  {
    RaceFrom(c, target, updateTime, from, ticks, 0, None, []);
    assert ticks[0..] == ticks;
  }

  // ----- what a turn does -----

  /** The turn found new blocks. */
  predicate Scans(cursor: nat, r: Round) { r.head.Some? && r.head.value > cursor }

  function EventsOf(c: Config, cursor: nat, r: Round): seq<ChainEvent>
    requires c.chunkSize > 0 && Scans(cursor, r)
  {
    Collected(Requests(cursor, r.head.value, c.chunkSize), r.ask, 0)
  }

  /** A block that could be read announces a height, of the counterparty if others are to be ignored. */
  ghost predicate Found(c: Config, cursor: nat, r: Round)
    requires c.chunkSize > 0
  {
    && Scans(cursor, r)
    && exists e :: e in EventsOf(c, cursor, r) && e.Updated? && (c.filterById ==> e.id == c.counterparty)
  }

  /** The race for the highest of these updates. */
  ghost function RaceOf(c: Config, cursor: nat, r: Round): Outcome
    requires c.chunkSize > 0 && Found(c, cursor, r) && r.updateTime.Some?
  {
    var best := Best(c, EventsOf(c, cursor, r));
    Race(c, StateMachineHeight(c.counterparty, best.value.height), r.updateTime.value, None, cursor, [], r.ticks)
  }

  /** The turn waits for the challenge period, and this is how that ends. */
  ghost predicate Waits(c: Config, cursor: nat, r: Round)
    requires c.chunkSize > 0
  {
    Found(c, cursor, r) && r.updateTime.Some?
  }

  /** What ends the stream: nobody is left to tell of an error or an update, or the wait never ends. */
  ghost predicate Stops(c: Config, cursor: nat, r: Round)
    requires c.chunkSize > 0
  {
    || (!r.receiver && r.head.None?)
    || (!r.receiver && Found(c, cursor, r) && r.updateTime.None?)
    || (!r.receiver && Waits(c, cursor, r) && RaceOf(c, cursor, r).Elapsed?)
    || (Waits(c, cursor, r) && RaceOf(c, cursor, r).Undecided?)
  }

  /** What makes a turn yield: an update whose challenge period elapsed, and somebody to tell. */
  ghost predicate Yields(c: Config, cursor: nat, r: Round)
    requires c.chunkSize > 0
  {
    r.receiver && Waits(c, cursor, r) && RaceOf(c, cursor, r).Elapsed?
  }

  /** A yield of round `r`: a highest update among the events read, with the blocks it was sought in, those
      of them that were not answered for, and the times. */
  ghost predicate YieldOf(c: Config, cursor: nat, r: Round, y: Yield)
    requires c.chunkSize > 0 && Yields(c, cursor, r)
  {
    && y.update in EventsOf(c, cursor, r) && y.update.Updated? && (c.filterById ==> y.update.id == c.counterparty)
    && (forall e :: e in EventsOf(c, cursor, r) && e.Updated? && (c.filterById ==> e.id == c.counterparty) ==>
          e.height <= y.update.height)
    && y.above == cursor && y.head == r.head.value && y.updateTime == r.updateTime.value
    && (forall x: nat :: InSome(y.unread, x) <==>
          cursor < x <= r.head.value && !Answered(Requests(cursor, r.head.value, c.chunkSize), r.ask, x))
  }

  lemma UnreadIff(c: Config, cursor: nat, r: Round, x: nat)
    requires c.chunkSize > 0 && Scans(cursor, r)
    ensures var ranges := Requests(cursor, r.head.value, c.chunkSize);
            InSome(Unanswered(ranges, r.ask, 0), x) <==> cursor < x <= r.head.value && !Answered(ranges, r.ask, x)
  {
    AnsweredIff(cursor, r.head.value, c.chunkSize, r.ask, x);
  }

  /** One turn of a stream that is not halted: it halts exactly when something stops it; otherwise it moves to
      the new head, if there is one, having scanned exactly the blocks up to it; and it yields exactly when
      an update's challenge period elapsed and somebody listens. */
  lemma TurnIff(c: Config, s: State, r: Round)
    requires c.chunkSize > 0 && !s.halted
    ensures var t := Step(c, s, r);
            && (t.halted <==> Stops(c, s.cursor, r))
            && (t.cursor == if Scans(s.cursor, r) && !t.halted then r.head.value else s.cursor)
            && (t.scanned == s.scanned + if t.cursor != s.cursor then [Range(s.cursor + 1, t.cursor)] else [])
            && (if Yields(c, s.cursor, r)
                then t.sent != [] && t.sent == s.sent + [t.sent[|t.sent| - 1]]
                     && YieldOf(c, s.cursor, r, t.sent[|t.sent| - 1])
                else t.sent == s.sent)
  {
    var t := Step(c, s, r);
    assert s.scanned + [] == s.scanned;
    if Scans(s.cursor, r) {
      FoundIff(c, s.cursor, r);
      forall x: nat { UnreadIff(c, s.cursor, r, x); }
    }
  }

  lemma FoundIff(c: Config, cursor: nat, r: Round)
    requires c.chunkSize > 0 && Scans(cursor, r)
    ensures Found(c, cursor, r) <==> Best(c, EventsOf(c, cursor, r)).Some?
  {
    var events := EventsOf(c, cursor, r);
    if Best(c, events).Some? {
      assert Matches(c, Best(c, events).value);
    }
    if Found(c, cursor, r) {
      var e :| e in events && e.Updated? && (c.filterById ==> e.id == c.counterparty);
      assert Matches(c, e);
    }
  }

  // ----- over every run -----

  ghost predicate AtHighestHead(h0: nat, rounds: seq<Round>, cursor: nat) {
    && (forall i :: 0 <= i < |rounds| && rounds[i].head.Some? ==> rounds[i].head.value <= cursor)
    && (cursor == h0 || exists i :: 0 <= i < |rounds| && rounds[i].head == Some(cursor))
  }

  /** Round `n` of the run stops a stream that was still going. */
  ghost predicate StopsAt(c: Config, h0: nat, rounds: seq<Round>, n: nat)
    requires c.chunkSize > 0 && n < |rounds|
  {
    var s := Run(c, Start(h0), rounds[..n]);
    !s.halted && Stops(c, s.cursor, rounds[n])
  }

  /** Round `n` of the run finds the stream going and has something to yield. */
  ghost predicate YieldsAt(c: Config, h0: nat, rounds: seq<Round>, n: nat)
    requires c.chunkSize > 0 && n < |rounds|
  {
    var s := Run(c, Start(h0), rounds[..n]);
    !s.halted && Yields(c, s.cursor, rounds[n])
  }

  /** How many rounds have something to yield. */
  ghost function YieldCount(c: Config, h0: nat, rounds: seq<Round>, n: nat): nat
    requires c.chunkSize > 0 && n <= |rounds|
  {
    if n == 0 then 0 else YieldCount(c, h0, rounds, n - 1) + if YieldsAt(c, h0, rounds, n - 1) then 1 else 0
  }

  lemma RunNext(c: Config, h0: nat, rounds: seq<Round>, n: nat)
    requires c.chunkSize > 0 && n < |rounds|
    ensures Run(c, Start(h0), rounds[..n + 1]) == Step(c, Run(c, Start(h0), rounds[..n]), rounds[n])
  {
    assert rounds[..n + 1][..n] == rounds[..n];
  }

  /** One of the first `n` rounds stops the stream. */
  ghost predicate EverStops(c: Config, h0: nat, rounds: seq<Round>, n: nat)
    requires c.chunkSize > 0 && n <= |rounds|
  {
    n > 0 && (EverStops(c, h0, rounds, n - 1) || StopsAt(c, h0, rounds, n - 1))
  }

  lemma {:induction false} EverStopsIff(c: Config, h0: nat, rounds: seq<Round>, n: nat)
    requires c.chunkSize > 0 && n <= |rounds|
    ensures EverStops(c, h0, rounds, n) <==> exists k :: 0 <= k < n && StopsAt(c, h0, rounds, k)
  {
    if n == 0 {
    } else {
      EverStopsIff(c, h0, rounds, n - 1);
    }
  }

  lemma StepStops(c: Config, h0: nat, rounds: seq<Round>, n: nat)
    requires c.chunkSize > 0 && n < |rounds|
    ensures Run(c, Start(h0), rounds[..n + 1]).halted <==>
            Run(c, Start(h0), rounds[..n]).halted || StopsAt(c, h0, rounds, n)
  {
    RunNext(c, h0, rounds, n);
    var s := Run(c, Start(h0), rounds[..n]);
    if !s.halted {
      TurnIff(c, s, rounds[n]);
    }
  }

  lemma {:induction false} HaltedFrom(c: Config, h0: nat, rounds: seq<Round>, n: nat)
    requires c.chunkSize > 0 && n <= |rounds|
    ensures Run(c, Start(h0), rounds[..n]).halted <==> EverStops(c, h0, rounds, n)
  {
    if n == 0 {
    } else {
      HaltedFrom(c, h0, rounds, n - 1);
      StepStops(c, h0, rounds, n - 1);
    }
  }

  /** Unless it is halted, the stream's cursor is the highest of the first `n` heads. */
  ghost predicate Abreast(c: Config, h0: nat, rounds: seq<Round>, n: nat)
    requires c.chunkSize > 0 && n <= |rounds|
  {
    var s := Run(c, Start(h0), rounds[..n]);
    !s.halted ==> AtHighestHead(h0, rounds[..n], s.cursor)
  }

  lemma StepAbreast(c: Config, h0: nat, rounds: seq<Round>, n: nat)
    requires c.chunkSize > 0 && n < |rounds| && Abreast(c, h0, rounds, n)
    ensures Abreast(c, h0, rounds, n + 1)
  {
    RunNext(c, h0, rounds, n);
    var s := Run(c, Start(h0), rounds[..n]);
    if !s.halted {
      TurnIff(c, s, rounds[n]);
      HeadsGrow(h0, rounds, n, s.cursor, Step(c, s, rounds[n]));
    }
  }

  lemma {:induction false} CursorFrom(c: Config, h0: nat, rounds: seq<Round>, n: nat)
    requires c.chunkSize > 0 && n <= |rounds|
    ensures Abreast(c, h0, rounds, n)
  {
    if n == 0 {
    } else {
      CursorFrom(c, h0, rounds, n - 1);
      StepAbreast(c, h0, rounds, n - 1);
    }
  }

  lemma StepYieldCount(c: Config, h0: nat, rounds: seq<Round>, n: nat)
    requires c.chunkSize > 0 && n < |rounds|
    ensures |Run(c, Start(h0), rounds[..n + 1]).sent|
         == |Run(c, Start(h0), rounds[..n]).sent| + if YieldsAt(c, h0, rounds, n) then 1 else 0
  {
    RunNext(c, h0, rounds, n);
    var s := Run(c, Start(h0), rounds[..n]);
    if !s.halted {
      TurnIff(c, s, rounds[n]);
    }
  }

  lemma {:induction false} YieldsFrom(c: Config, h0: nat, rounds: seq<Round>, n: nat)
    requires c.chunkSize > 0 && n <= |rounds|
    ensures |Run(c, Start(h0), rounds[..n]).sent| == YieldCount(c, h0, rounds, n)
  {
    if n == 0 {
    } else {
      YieldsFrom(c, h0, rounds, n - 1);
      StepYieldCount(c, h0, rounds, n - 1);
    }
  }

  lemma HeadsGrow(h0: nat, rounds: seq<Round>, n: nat, cursor: nat, t: State)
    requires n < |rounds| && AtHighestHead(h0, rounds[..n], cursor)
    requires !t.halted ==> t.cursor == if Scans(cursor, rounds[n]) then rounds[n].head.value else cursor
    ensures !t.halted ==> AtHighestHead(h0, rounds[..n + 1], t.cursor)
  {
    if !t.halted {
      if t.cursor == cursor {
        if i :| 0 <= i < n && rounds[..n][i].head == Some(cursor) {
          assert rounds[..n + 1][i].head == Some(cursor);
        }
      } else {
        assert rounds[..n + 1][n].head == Some(t.cursor);
      }
      forall i | 0 <= i < n + 1 && rounds[i].head.Some? ensures rounds[i].head.value <= t.cursor {
        if i < n { assert rounds[..n][i] == rounds[i]; }
      }
    }
  }

  /** Over every run: the stream is halted exactly if some round stopped it, which takes a missing receiver or
      a wait without end; until then its cursor is the highest head it was told; and it has yielded once for
      every round whose update's challenge period elapsed with somebody listening. */
  lemma StreamLives(c: Config, h0: nat, rounds: seq<Round>)
    requires c.chunkSize > 0
    ensures var s := Run(c, Start(h0), rounds);
            && (s.halted <==> exists k :: 0 <= k < |rounds| && StopsAt(c, h0, rounds, k))
            && (!s.halted ==> AtHighestHead(h0, rounds, s.cursor))
            && |s.sent| == YieldCount(c, h0, rounds, |rounds|)
  {
    HaltedFrom(c, h0, rounds, |rounds|);
    EverStopsIff(c, h0, rounds, |rounds|);
    CursorFrom(c, h0, rounds, |rounds|);
    YieldsFrom(c, h0, rounds, |rounds|);
    assert rounds[..|rounds|] == rounds;
  }

  // ----- nothing is held back -----

  /** Nothing fails in this round: there is a receiver, every query is answered truthfully, and the clock is
      read once more after the period is over. */
  ghost predicate Smooth(r: Round, chain: nat -> seq<ChainEvent>) {
    && r.receiver && r.head.Some? && r.updateTime.Some? && FaithfulRound(r, chain) && AllAnswered(r.ticks)
    && (forall i, range :: r.ask(i, range).Some?)
    && exists k, p :: 0 <= k < |r.ticks| && PeriodKnown(r.ticks, k, p)
                      && r.ticks[k].Clock? && r.ticks[k].answer.value > r.updateTime.value + p
  }

  /** A race in which nothing fails and nothing is vetoed is won. */
  lemma SmoothRaceWon(c: Config, target: StateMachineHeight, from: nat, r: Round, chain: nat -> seq<ChainEvent>)
    requires c.chunkSize > 0 && Smooth(r, chain) && forall x: nat :: !Emits(chain, x, Vetoed(target))
    ensures Race(c, target, r.updateTime.value, None, from, [], r.ticks).Elapsed?
  {
    var ticks, time := r.ticks, r.updateTime.value;
    var k, p :| 0 <= k < |ticks| && PeriodKnown(ticks, k, p) && ticks[k].Clock? && ticks[k].answer.value > time + p;
    assert Settles(c, target, time, from, ticks, k);
    RaceIff(c, target, time, from, ticks);
    var j := FirstToSettle(c, target, time, from, ticks, k);
    if ticks[j].VetoPoll? {
      var watched, head := WatchedBy(from, ticks, j), ticks[j].head.value;
      var ranges := Requests(watched, head, c.chunkSize);
      CollectedFaithfully(c, ticks[j].ask, chain, watched, head, Collected(ranges, ticks[j].ask, 0),
                          Unanswered(ranges, ticks[j].ask, 0));
    }
  }

  lemma {:induction false} FirstToSettle(
    c: Config, target: StateMachineHeight, updateTime: nat, from: nat, ticks: seq<Tick>, k: nat) returns (j: nat)
    requires c.chunkSize > 0 && k < |ticks| && Settles(c, target, updateTime, from, ticks, k)
    ensures j <= k && SettlesFirst(c, target, updateTime, from, ticks, j)
  {
    j := k;
    if i :| 0 <= i < k && Settles(c, target, updateTime, from, ticks, i) {
      j := FirstToSettle(c, target, updateTime, from, ticks, i);
    }
  }

  /** Some yield stands for this update: it is of a range that holds the block and at least as high. */
  ghost predicate Announced(sent: seq<Yield>, x: nat, e: ChainEvent)
    requires e.Updated?
  {
    exists i :: 0 <= i < |sent| && sent[i].above < x <= sent[i].head && sent[i].update.Updated?
                && e.height <= sent[i].update.height
  }

  /** If nothing fails and nothing is vetoed, the stream never stops, and every update in the blocks it has
      passed is yielded, or a higher one of the same range in its place. */
  lemma {:induction false} NothingHeldBack(c: Config, h0: nat, rounds: seq<Round>, chain: nat -> seq<ChainEvent>)
    requires c.chunkSize > 0
    requires forall i :: 0 <= i < |rounds| ==> Smooth(rounds[i], chain)
    requires forall x: nat, target :: !Emits(chain, x, Vetoed(target))
    ensures var s := Run(c, Start(h0), rounds);
            && !s.halted && AtHighestHead(h0, rounds, s.cursor)
            && (forall x: nat, e :: h0 < x <= s.cursor && Emits(chain, x, e) && Matches(c, e) ==>
                                      Announced(s.sent, x, e))
  {
    if rounds == [] {
    } else {
      var before, r := rounds[..|rounds| - 1], rounds[|rounds| - 1];
      NothingHeldBack(c, h0, before, chain);
      var s := Run(c, Start(h0), before);
      var t := Step(c, s, r);
      SmoothTurn(c, s, r, chain);
      assert rounds[..|rounds|] == rounds;
      HeadsGrow(h0, rounds, |before|, s.cursor, t);
      forall x: nat, e | h0 < x <= t.cursor && Emits(chain, x, e) && Matches(c, e)
        ensures Announced(t.sent, x, e)
      {
        if x <= s.cursor {
          StillAnnounced(s.sent, t.sent, x, e);
        } else {
          NewlyAnnounced(c, s, r, chain, x, e);
        }
      }
    }
  }

  /** A turn in which nothing fails goes on, and yields if there is anything to yield. */
  lemma SmoothTurn(c: Config, s: State, r: Round, chain: nat -> seq<ChainEvent>)
    requires c.chunkSize > 0 && !s.halted && Smooth(r, chain)
    requires forall x: nat, target :: !Emits(chain, x, Vetoed(target))
    ensures var t := Step(c, s, r);
            && !t.halted && t.cursor == (if Scans(s.cursor, r) then r.head.value else s.cursor) && s.sent <= t.sent
            && (Found(c, s.cursor, r) ==> Yields(c, s.cursor, r))
  {
    TurnIff(c, s, r);
    if Found(c, s.cursor, r) {
      FoundIff(c, s.cursor, r);
      var best := Best(c, EventsOf(c, s.cursor, r));
      SmoothRaceWon(c, StateMachineHeight(c.counterparty, best.value.height), s.cursor, r, chain);
    }
  }

  lemma StillAnnounced(before: seq<Yield>, after: seq<Yield>, x: nat, e: ChainEvent)
    requires e.Updated? && Announced(before, x, e) && before <= after
    ensures Announced(after, x, e)
  {
    var i :| 0 <= i < |before| && before[i].above < x <= before[i].head && before[i].update.Updated?
             && e.height <= before[i].update.height;
    assert after[i] == before[i];
  }

  /** An update in the new blocks is read, and so found, and the turn that finds it yields. */
  lemma NewlyAnnounced(c: Config, s: State, r: Round, chain: nat -> seq<ChainEvent>, x: nat, e: ChainEvent)
    requires c.chunkSize > 0 && !s.halted && Smooth(r, chain) && Scans(s.cursor, r)
    requires Found(c, s.cursor, r) ==> Yields(c, s.cursor, r)
    requires s.cursor < x <= r.head.value && Emits(chain, x, e) && Matches(c, e)
    ensures Announced(Step(c, s, r).sent, x, e)
  {
    var ranges := Requests(s.cursor, r.head.value, c.chunkSize);
    CollectedFaithfully(c, r.ask, chain, s.cursor, r.head.value, EventsOf(c, s.cursor, r),
                        Unanswered(ranges, r.ask, 0));
    UnansweredHolds(ranges, r.ask, 0, x);
    assert e in EventsOf(c, s.cursor, r);
    TurnIff(c, s, r);
    var sent := Step(c, s, r).sent;
    assert YieldOf(c, s.cursor, r, sent[|sent| - 1]);
  }
}
