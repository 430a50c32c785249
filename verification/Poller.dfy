/** The state machine update stream of both providers: a task polls the chain's head, scans the
    new blocks for updates, and races the challenge period of the highest one against a watch for
    vetoes before yielding it. */
module Poller {
  import opened Prelude
  import opened RangeQuery
  import opened Ismp

  datatype ChainEvent =
    | Updated(id: StateMachineId, height: nat)
    | Vetoed(at: StateMachineHeight)
    | Unrelated(tag: nat)

  /** The EVM task accepts every update event, the Substrate task only its counterparty's. */
  datatype Config = Config(counterparty: StateMachineId, filterById: bool, chunkSize: nat)

  predicate Matches(c: Config, e: ChainEvent) {
    e.Updated? && (c.filterById ==> e.id == c.counterparty)
  }

  /** The matching update of greatest height, the last one among equals. */
  function Best(c: Config, events: seq<ChainEvent>): (best: Option<ChainEvent>)
    ensures best.Some? ==> best.value in events && Matches(c, best.value)
    ensures forall e :: e in events && Matches(c, e) ==> best.Some? && e.height <= best.value.height
  {
    if events == [] then None
    else
      var e := events[|events| - 1];
      var best := Best(c, events[..|events| - 1]);
      assert events == events[..|events| - 1] + [e];
      if Matches(c, e) && (best.None? || best.value.height <= e.height) then Some(e) else best
  }

  /** Among the highest updates the last one is picked. */
  lemma {:induction false} BestIsLast(c: Config, events: seq<ChainEvent>) returns (i: nat)
    requires Best(c, events).Some?
    ensures i < |events| && Best(c, events) == Some(events[i])
    ensures forall j :: i < j < |events| && Matches(c, events[j]) ==> events[j].height < events[i].height
  {
    var n := |events| - 1;
    if Best(c, events) == Some(events[n]) {
      i := n;
    } else {
      i := BestIsLast(c, events[..n]);
      assert events[..n][i] == events[i];
      assert forall j :: i < j < n ==> events[j] == events[..n][j];
    }
  }

  // ----- the race between the challenge period and a veto -----

  /** One completed await of the race, in the order they happen. */
  datatype Tick =
    | Period(answer: Option<nat>)
    | Clock(answer: Option<nat>)
    | VetoPoll(head: Option<nat>, ask: Ask<ChainEvent>)

  datatype Outcome =
    | Elapsed(period: nat, now: nat, watched: nat, missed: seq<Range>)
    | WaitFailed
    | VetoSeen
    | StreamFailed
    | Undecided

  /** The race from a state where the challenge period may be known and blocks up to `watched` have
      been searched for vetoes, except those in `missed`, whose query failed. Whatever finishes first
      decides; even a stream error ends it. */
  function Race(c: Config, target: StateMachineHeight, updateTime: nat,
                period: Option<nat>, watched: nat, missed: seq<Range>, ticks: seq<Tick>): Outcome
    requires c.chunkSize > 0
    decreases |ticks|
  {
    if ticks == [] then Undecided
    else
      var rest := ticks[1..];
      match ticks[0]
      case Period(answer) =>
        if period.Some? then Race(c, target, updateTime, period, watched, missed, rest)
        else if answer.None? then WaitFailed
        else Race(c, target, updateTime, answer, watched, missed, rest)
      case Clock(answer) =>
        if period.None? then Race(c, target, updateTime, period, watched, missed, rest)
        else if answer.None? then WaitFailed
        else if SaturatingSub(answer.value, updateTime) <= period.value
        then Race(c, target, updateTime, period, watched, missed, rest)
        else Elapsed(period.value, answer.value, watched, missed)
      case VetoPoll(head, ask) =>
        if head.None? then StreamFailed
        else if head.value <= watched then Race(c, target, updateTime, period, watched, missed, rest)
        else
          var ranges := Requests(watched, head.value, c.chunkSize);
          if Vetoed(target) in Collected(ranges, ask, 0) then VetoSeen
          else Race(c, target, updateTime, period, head.value, missed + Unanswered(ranges, ask, 0), rest)
  }

  predicate Emits(chain: nat -> seq<ChainEvent>, x: nat, e: ChainEvent) { e in chain(x) }

  /** Whatever the node answers about a range of blocks is what they hold; it need not answer. */
  ghost predicate FaithfulTicks(ticks: seq<Tick>, chain: nat -> seq<ChainEvent>) {
    forall i :: 0 <= i < |ticks| && ticks[i].VetoPoll? ==> Faithful(ticks[i].ask, chain)
  }

  /** No block above `above` up to `upto` vetoes `target`, apart from those in `missed`. */
  ghost predicate NoVeto(chain: nat -> seq<ChainEvent>, target: StateMachineHeight, above: nat, upto: nat,
                         missed: seq<Range>) {
    forall x: nat :: above < x <= upto && !InSome(missed, x) ==> !Emits(chain, x, Vetoed(target))
  }

  ghost predicate Within(ranges: seq<Range>, above: nat, upto: nat) {
    forall x: nat :: InSome(ranges, x) ==> above < x <= upto
  }

  /** One veto poll moves the watch on: nothing in the blocks that were answered, the rest missed. */
  lemma PollSound(c: Config, target: StateMachineHeight, from: nat, watched: nat, missed: seq<Range>, head: nat,
                  ask: Ask<ChainEvent>, chain: nat -> seq<ChainEvent>, failed: seq<Range>)
    requires c.chunkSize > 0 && from <= watched < head && Within(missed, from, watched)
    requires failed == Unanswered(Requests(watched, head, c.chunkSize), ask, 0)
    ensures Within(missed + failed, from, head)
    ensures Faithful(ask, chain) && NoVeto(chain, target, from, watched, missed)
            && Vetoed(target) !in Collected(Requests(watched, head, c.chunkSize), ask, 0) ==>
              NoVeto(chain, target, from, head, missed + failed)
  {
    forall x: nat
      ensures InSome(missed + failed, x) <==> InSome(missed, x) || InSome(failed, x)
      ensures InSome(failed, x) ==> watched < x <= head
    {
      InSomeConcat(missed, failed, x);
      AnsweredIff(watched, head, c.chunkSize, ask, x);
    }
    if Faithful(ask, chain) {
      var events := Collected(Requests(watched, head, c.chunkSize), ask, 0);
      CollectedFaithfully(c, ask, chain, watched, head, events, failed);
    }
  }

  /** The race is won by the challenge period only once chain time is strictly past it and, if the
      node does not lie, only if no veto sits in any block it answered for among those searched by then.
      Blocks whose query failed count as searched. */
  lemma {:induction false} RaceSound(
    c: Config, target: StateMachineHeight, updateTime: nat, period: Option<nat>,
    from: nat, watched: nat, missed: seq<Range>, ticks: seq<Tick>, chain: nat -> seq<ChainEvent>)
    requires c.chunkSize > 0 && from <= watched && Within(missed, from, watched)
    ensures var o := Race(c, target, updateTime, period, watched, missed, ticks);
            o.Elapsed? ==> o.now > updateTime + o.period && o.watched >= watched && Within(o.missed, from, o.watched)
    ensures var o := Race(c, target, updateTime, period, watched, missed, ticks);
            o.Elapsed? && FaithfulTicks(ticks, chain) && NoVeto(chain, target, from, watched, missed) ==>
              NoVeto(chain, target, from, o.watched, o.missed)
    decreases |ticks|
  {
    if ticks == [] {
    } else {
      var rest := ticks[1..];
      assert FaithfulTicks(ticks, chain) ==> FaithfulTicks(rest, chain);
      match ticks[0]
      case Period(answer) =>
        RaceSound(c, target, updateTime, if period.Some? then period else answer, from, watched, missed, rest, chain);
      case Clock(answer) =>
        RaceSound(c, target, updateTime, period, from, watched, missed, rest, chain);
      case VetoPoll(head, ask) =>
        RaceSound(c, target, updateTime, period, from, watched, missed, rest, chain);
        if head.Some? && head.value > watched {
          var failed := Unanswered(Requests(watched, head.value, c.chunkSize), ask, 0);
          PollSound(c, target, from, watched, missed, head.value, ask, chain, failed);
          RaceSound(c, target, updateTime, period, from, head.value, missed + failed, rest, chain);
        }
    }
  }

  /** Neither the heads nor the clock nor the period query failed; block queries may have. */
  ghost predicate AllAnswered(ticks: seq<Tick>) {
    forall i :: 0 <= i < |ticks| ==>
      match ticks[i]
      case Period(answer) => answer.Some?
      case Clock(answer) => answer.Some?
      case VetoPoll(head, _) => head.Some?
  }

  /** Nothing but a veto or a failed await keeps an update back: if no await fails and no block holds a
      veto, the race is only ever lost to time, while no clock reading is past the period. */
  lemma {:induction false} RaceComplete(
    c: Config, target: StateMachineHeight, updateTime: nat, period: nat, watched: nat, missed: seq<Range>,
    ticks: seq<Tick>, chain: nat -> seq<ChainEvent>)
    requires c.chunkSize > 0 && AllAnswered(ticks) && FaithfulTicks(ticks, chain)
    requires forall x: nat :: !Emits(chain, x, Vetoed(target))
    ensures var o := Race(c, target, updateTime, Some(period), watched, missed, ticks);
            if o.Elapsed? then exists i :: 0 <= i < |ticks| && ticks[i] == Clock(Some(o.now))
            else o.Undecided?
                 && forall i :: 0 <= i < |ticks| && ticks[i].Clock? ==> ticks[i].answer.value <= updateTime + period
    decreases |ticks|
  {
    if ticks == [] {
    } else {
      var t, rest := ticks[0], ticks[1..];
      assert AllAnswered(rest) && FaithfulTicks(rest, chain);
      if t.VetoPoll? && t.head.value > watched {
        var ranges := Requests(watched, t.head.value, c.chunkSize);
        var failed := Unanswered(ranges, t.ask, 0);
        RaceComplete(c, target, updateTime, period, t.head.value, missed + failed, rest, chain);
        CollectedFaithfully(c, t.ask, chain, watched, t.head.value, Collected(ranges, t.ask, 0), failed);
      } else {
        RaceComplete(c, target, updateTime, period, watched, missed, rest, chain);
      }
      assert forall i :: 1 <= i < |ticks| ==> ticks[i] == rest[i - 1];
      assert forall i :: 0 <= i < |rest| ==> rest[i] == ticks[i + 1];
    }
  }

  /** A node that does not lie returns exactly the events of the blocks it answered for. */
  lemma CollectedFaithfully(c: Config, ask: Ask<ChainEvent>, chain: nat -> seq<ChainEvent>, above: nat, upto: nat,
                            events: seq<ChainEvent>, failed: seq<Range>)
    requires c.chunkSize > 0 && above < upto && Faithful(ask, chain)
    requires events == Collected(Requests(above, upto, c.chunkSize), ask, 0)
    requires failed == Unanswered(Requests(above, upto, c.chunkSize), ask, 0)
    ensures forall x: nat, e :: above < x <= upto && !InSome(failed, x) && Emits(chain, x, e) ==> e in events
    ensures forall e :: e in events ==> exists x: nat :: above < x <= upto && !InSome(failed, x) && Emits(chain, x, e)
  {
    var ranges := Requests(above, upto, c.chunkSize);
    var readable := (x: nat) => Answered(ranges, ask, x);
    QueryRefinesRange(above, upto, c.chunkSize, ask, chain);
    ReadableMembers(chain, readable, above + 1, upto);
    forall x: nat | above < x <= upto
      ensures readable(x) <==> !InSome(failed, x)
    {
      AnsweredIff(above, upto, c.chunkSize, ask, x);
    }
  }

  lemma {:induction false} ReadableMembers(chain: nat -> seq<ChainEvent>, readable: nat -> bool, first: nat, last: nat)
    ensures forall x: nat, e :: first <= x <= last && readable(x) && Emits(chain, x, e) ==>
                                  e in ReadableEvents(chain, readable, first, last)
    ensures forall e :: e in ReadableEvents(chain, readable, first, last) ==>
                          exists x: nat :: first <= x <= last && readable(x) && Emits(chain, x, e)
    decreases last + 1 - first
  {
    if first > last {
    } else {
      ReadableMembers(chain, readable, first + 1, last);
      var rest := ReadableEvents(chain, readable, first + 1, last);
      forall e | e in ReadableEvents(chain, readable, first, last)
        ensures exists x: nat :: first <= x <= last && readable(x) && Emits(chain, x, e)
      {
        if e !in rest {
          assert Emits(chain, first, e);
        }
      }
    }
  }

  // ----- the polling task -----

  /** A yielded update together with the evidence it was yielded on: the blocks scanned for it and those
      of them that could not be read, the times, and the blocks watched for vetoes and those of them that
      could not be read. */
  datatype Yield = Yield(
    update: ChainEvent,
    above: nat,
    head: nat,
    unread: seq<Range>,
    updateTime: nat,
    period: nat,
    now: nat,
    watched: nat,
    unwatched: seq<Range>)

  /** `halted` covers both a task that returned and one still waiting when the run is cut. */
  datatype State = State(cursor: nat, scanned: seq<Range>, sent: seq<Yield>, halted: bool)

  /** Everything the environment answers during one turn of the polling loop. */
  datatype Round = Round(
    head: Option<nat>,
    ask: Ask<ChainEvent>,
    updateTime: Option<nat>,
    ticks: seq<Tick>,
    receiver: bool)

  function Step(c: Config, s: State, r: Round): State
    requires c.chunkSize > 0
  {
    if s.halted then s
    else if r.head.None? then s.(halted := !r.receiver)
    else if r.head.value <= s.cursor then s
    else
      var head := r.head.value;
      var moved := s.(cursor := head, scanned := s.scanned + [Range(s.cursor + 1, head)]);
      var ranges := Requests(s.cursor, head, c.chunkSize);
      var best := Best(c, Collected(ranges, r.ask, 0));
      if best.None? then moved
      else if r.updateTime.None? then if r.receiver then moved else s.(halted := true)
      else
        var target := StateMachineHeight(c.counterparty, best.value.height);
        match Race(c, target, r.updateTime.value, None, s.cursor, [], r.ticks)
        case Elapsed(period, now, watched, missed) =>
          if r.receiver
          then moved.(sent := s.sent + [Yield(best.value, s.cursor, head, Unanswered(ranges, r.ask, 0),
                                              r.updateTime.value, period, now, watched, missed)])
          else s.(halted := true)
        case Undecided => s.(halted := true)
        case _ => moved
  }

  function Run(c: Config, s: State, rounds: seq<Round>): State
    requires c.chunkSize > 0
  {
    if rounds == [] then s else Step(c, Run(c, s, rounds[..|rounds| - 1]), rounds[|rounds| - 1])
  }

  function Start(h0: nat): State { State(h0, [], [], false) }

  /** The spawned task, turn by turn. */
  class UpdateStream {
    const config: Config
    var latestHeight: nat
    var scanned: seq<Range>
    var sent: seq<Yield>
    var halted: bool

    function View(): State
      reads this
    {
      State(latestHeight, scanned, sent, halted)
    }

    constructor (config: Config, initialHeight: nat)
      ensures this.config == config && View() == Start(initialHeight)
    {
      this.config := config;
      latestHeight, scanned, sent, halted := initialHeight, [], [], false;
    }

    /** `max_by` over the matching events. */
    static method Highest(c: Config, events: seq<ChainEvent>) returns (best: Option<ChainEvent>)
      ensures best == Best(c, events)
    {
      best := None;
      var i := 0;
      while i < |events|
        invariant 0 <= i <= |events|
        invariant best == Best(c, events[..i])
      {
        assert events[..i + 1][..i] == events[..i];
        if Matches(c, events[i]) && (best.None? || best.value.height <= events[i].height) {
          best := Some(events[i]);
        }
        i := i + 1;
      }
      assert events[..|events|] == events;
    }

    /** The `select!` of `wait_for_challenge_period` and the veto stream. */
    static method AwaitChallenge(c: Config, target: StateMachineHeight, updateTime: nat, from: nat, ticks: seq<Tick>)
      returns (outcome: Outcome)
      requires c.chunkSize > 0
      ensures outcome == Race(c, target, updateTime, None, from, [], ticks)
    {
      var period: Option<nat>, watched, missed := None, from, [];
      var i := 0;
      while i < |ticks|
        invariant 0 <= i <= |ticks|
        invariant Race(c, target, updateTime, None, from, [], ticks)
               == Race(c, target, updateTime, period, watched, missed, ticks[i..])
      {
        assert ticks[i..][1..] == ticks[i + 1..];
        match ticks[i] {
          case Period(answer) =>
            if period.None? {
              if answer.None? { return WaitFailed; }
              period := answer;
            }
          case Clock(answer) =>
            if period.Some? {
              if answer.None? { return WaitFailed; }
              if SaturatingSub(answer.value, updateTime) > period.value {
                return Elapsed(period.value, answer.value, watched, missed);
              }
            }
          case VetoPoll(head, ask) =>
            if head.None? { return StreamFailed; }
            if head.value > watched {
              var ranges := Requests(watched, head.value, c.chunkSize);
              if Vetoed(target) in Collected(ranges, ask, 0) {
                return VetoSeen;
              }
              watched, missed := head.value, missed + Unanswered(ranges, ask, 0);
            }
        }
        i := i + 1;
      }
      outcome := Undecided;
    }

    /** One turn of the polling loop. */
    method Turn(r: Round)
      requires config.chunkSize > 0
      modifies this
      ensures View() == Step(config, old(View()), r)
    {
      if halted { return; }
      if r.head.None? {
        halted := !r.receiver;
        return;
      }
      var head := r.head.value;
      if head <= latestHeight { return; }
      var ranges := Requests(latestHeight, head, config.chunkSize);
      var best := Highest(config, Collected(ranges, r.ask, 0));
      if best.Some? {
        if r.updateTime.None? {
          if !r.receiver { halted := true; return; }
        } else {
          var target := StateMachineHeight(config.counterparty, best.value.height);
          var outcome := AwaitChallenge(config, target, r.updateTime.value, latestHeight, r.ticks);
          match outcome {
            case Elapsed(period, now, watched, missed) =>
              if !r.receiver { halted := true; return; }
              sent := sent + [Yield(best.value, latestHeight, head, Unanswered(ranges, r.ask, 0),
                                    r.updateTime.value, period, now, watched, missed)];
            case Undecided =>
              halted := true;
              return;
            case _ =>
          }
        }
      }
      scanned := scanned + [Range(latestHeight + 1, head)];
      latestHeight := head;
    }

    /** The polling loop over any sequence of answers. */
    method Poll(rounds: seq<Round>)
      requires config.chunkSize > 0
      modifies this
      ensures View() == Run(config, old(View()), rounds)
    {
      var i := 0;
      while i < |rounds|
        invariant 0 <= i <= |rounds|
        invariant View() == Run(config, old(View()), rounds[..i])
      {
        assert rounds[..i + 1][..i] == rounds[..i];
        Turn(rounds[i]);
        i := i + 1;
      }
      assert rounds[..|rounds|] == rounds;
    }
  }

  // ----- safety over every run -----

  /** The scanned ranges are nonempty and follow each other from `h0` up to the cursor. */
  ghost predicate Tiling(scanned: seq<Range>, h0: nat, cursor: nat) {
    && h0 <= cursor
    && (scanned == [] ==> cursor == h0)
    && (forall i :: 0 <= i < |scanned| ==> scanned[i].start <= scanned[i].end <= cursor)
    && (scanned != [] ==> scanned[0].start == h0 + 1 && scanned[|scanned| - 1].end == cursor)
    && (forall i, j :: 0 <= i < j < |scanned| && j == i + 1 ==> scanned[j].start == scanned[i].end + 1)
  }

  /** A yield is for a matching update of its scanned range, past its challenge period. */
  ghost predicate Timely(c: Config, scanned: seq<Range>, y: Yield) {
    && Matches(c, y.update)
    && y.above < y.head && Range(y.above + 1, y.head) in scanned
    && y.now > y.updateTime + y.period
    && y.watched >= y.above
  }

  ghost predicate Ordered(sent: seq<Yield>, cursor: nat) {
    && (forall i :: 0 <= i < |sent| ==> sent[i].head <= cursor)
    && (forall i, j :: 0 <= i < j < |sent| ==> sent[i].head <= sent[j].above)
  }

  /** A yield is an update of its range of the chain, the highest one in the blocks that were read, and
      unvetoed in the watched blocks that were read. */
  ghost predicate Sound(c: Config, chain: nat -> seq<ChainEvent>, y: Yield) {
    && (exists x: nat :: y.above < x <= y.head && Emits(chain, x, y.update))
    && Matches(c, y.update)
    && HighestExcept(c, chain, y, y.unread)
    && NoVeto(chain, Target(c, y), y.above, y.watched, y.unwatched)
    && Within(y.unread, y.above, y.head) && Within(y.unwatched, y.above, y.watched)
  }

  function Target(c: Config, y: Yield): StateMachineHeight
    requires y.update.Updated?
  {
    StateMachineHeight(c.counterparty, y.update.height)
  }

  ghost predicate HighestExcept(c: Config, chain: nat -> seq<ChainEvent>, y: Yield, missed: seq<Range>)
    requires y.update.Updated?
  {
    forall x: nat, e :: y.above < x <= y.head && !InSome(missed, x) && Emits(chain, x, e) && Matches(c, e) ==>
                          e.height <= y.update.height
  }

  /** What one would expect of a yield: the highest update of its whole range, unvetoed in all the blocks
      watched. */
  ghost predicate Complete(c: Config, chain: nat -> seq<ChainEvent>, y: Yield)
    requires y.update.Updated?
  {
    HighestExcept(c, chain, y, []) && NoVeto(chain, Target(c, y), y.above, y.watched, [])
  }

  /** No block that could not be read hides a higher update or the veto. */
  ghost predicate NothingHidden(c: Config, chain: nat -> seq<ChainEvent>, y: Yield)
    requires y.update.Updated?
  {
    && (forall x: nat, e :: InSome(y.unread, x) && Emits(chain, x, e) && Matches(c, e) ==> e.height <= y.update.height)
    && (forall x: nat :: InSome(y.unwatched, x) ==> !Emits(chain, x, Vetoed(Target(c, y))))
  }

  lemma CompleteIff(c: Config, chain: nat -> seq<ChainEvent>, y: Yield)
    requires Sound(c, chain, y)
    ensures Complete(c, chain, y) <==> NothingHidden(c, chain, y)
  {
    assert forall x: nat :: !InSome([], x);
  }

  ghost predicate FaithfulRound(r: Round, chain: nat -> seq<ChainEvent>) {
    Faithful(r.ask, chain) && FaithfulTicks(r.ticks, chain)
  }

  /** A turn either leaves the cursor alone or scans exactly the blocks it moves over. */
  predicate Moves(s: State, t: State) {
    || (t.cursor == s.cursor && t.scanned == s.scanned)
    || (t.cursor > s.cursor && t.scanned == s.scanned + [Range(s.cursor + 1, t.cursor)])
  }

  lemma StepMoves(c: Config, s: State, r: Round)
    requires c.chunkSize > 0
    ensures Moves(s, Step(c, s, r))
  {
  }

  lemma MovesTiling(s: State, t: State, h0: nat)
    requires Moves(s, t) && Tiling(s.scanned, h0, s.cursor)
    ensures Tiling(t.scanned, h0, t.cursor) && t.cursor >= s.cursor
    ensures forall range :: range in s.scanned ==> range in t.scanned
  {
    if t.cursor > s.cursor {
      TilingGrows(s.scanned, h0, s.cursor, t.cursor);
    }
  }

  lemma TilingGrows(scanned: seq<Range>, h0: nat, cursor: nat, head: nat)
    requires Tiling(scanned, h0, cursor) && cursor < head
    ensures Tiling(scanned + [Range(cursor + 1, head)], h0, head)
  {
    var all, n := scanned + [Range(cursor + 1, head)], |scanned|;
    forall i, j | 0 <= i < j < |all| && j == i + 1
      ensures all[j].start == all[i].end + 1
    {
      if j == n { assert all[i] == scanned[n - 1]; }
    }
  }

  lemma StepYields(c: Config, s: State, r: Round, chain: nat -> seq<ChainEvent>)
    requires c.chunkSize > 0
    ensures var t := Step(c, s, r);
            t.sent != s.sent ==>
              && t.sent != []
              && var y := t.sent[|t.sent| - 1];
                 && t.sent == s.sent + [y] && y.above == s.cursor && y.head == t.cursor
                 && Timely(c, t.scanned, y)
                 && (FaithfulRound(r, chain) ==> Sound(c, chain, y))
  {
    var t := Step(c, s, r);
    if t.sent != s.sent {
      var head := r.head.value;
      var ranges := Requests(s.cursor, head, c.chunkSize);
      var events := Collected(ranges, r.ask, 0);
      var best := Best(c, events);
      var target := StateMachineHeight(c.counterparty, best.value.height);
      RaceSound(c, target, r.updateTime.value, None, s.cursor, s.cursor, [], r.ticks, chain);
      var y := t.sent[|t.sent| - 1];
      assert t.sent == s.sent + [y];
      assert y.update == best.value;
      assert Range(s.cursor + 1, head) in t.scanned;
      if FaithfulRound(r, chain) {
        YieldSound(c, r.ask, chain, y, events);
      }
    }
  }

  lemma YieldSound(c: Config, ask: Ask<ChainEvent>, chain: nat -> seq<ChainEvent>, y: Yield, events: seq<ChainEvent>)
    requires c.chunkSize > 0 && y.above < y.head && Faithful(ask, chain)
    requires events == Collected(Requests(y.above, y.head, c.chunkSize), ask, 0)
    requires y.unread == Unanswered(Requests(y.above, y.head, c.chunkSize), ask, 0)
    requires Best(c, events) == Some(y.update) && Matches(c, y.update)
    requires NoVeto(chain, Target(c, y), y.above, y.watched, y.unwatched) && Within(y.unwatched, y.above, y.watched)
    ensures Sound(c, chain, y)
  {
    CollectedFaithfully(c, ask, chain, y.above, y.head, events, y.unread);
    forall x: nat ensures InSome(y.unread, x) ==> y.above < x <= y.head {
      AnsweredIff(y.above, y.head, c.chunkSize, ask, x);
    }
    assert y.update in events;
    var x: nat :| y.above < x <= y.head && Emits(chain, x, y.update);
  }

  /** Over every run the cursor only grows and yields are only added, the scanned ranges tile the chain
      from the initial height to the cursor, and each yielded update was picked from its own scanned
      range, one yield per range in order, strictly after its challenge period. */
  lemma {:induction false} UpdateStreamSafe(c: Config, h0: nat, rounds: seq<Round>)
    requires c.chunkSize > 0
    ensures var s := Run(c, Start(h0), rounds);
            && Tiling(s.scanned, h0, s.cursor)
            && Ordered(s.sent, s.cursor)
            && (forall i :: 0 <= i < |s.sent| ==> Timely(c, s.scanned, s.sent[i]))
    ensures forall n :: 0 <= n <= |rounds| ==> Grows(Run(c, Start(h0), rounds[..n]), Run(c, Start(h0), rounds))
  {
    forall n | 0 <= n <= |rounds|
      ensures Grows(Run(c, Start(h0), rounds[..n]), Run(c, Start(h0), rounds))
    {
      RunGrows(c, Start(h0), rounds, n);
    }
    if rounds == [] {
    } else {
      var before := rounds[..|rounds| - 1];
      UpdateStreamSafe(c, h0, before);
      StepSafe(c, h0, Run(c, Start(h0), before), rounds[|rounds| - 1]);
    }
  }

  lemma StepSafe(c: Config, h0: nat, s: State, r: Round)
    requires c.chunkSize > 0 && Tiling(s.scanned, h0, s.cursor) && Ordered(s.sent, s.cursor)
    requires forall i :: 0 <= i < |s.sent| ==> Timely(c, s.scanned, s.sent[i])
    ensures var t := Step(c, s, r);
            && Tiling(t.scanned, h0, t.cursor) && Ordered(t.sent, t.cursor)
            && (forall i :: 0 <= i < |t.sent| ==> Timely(c, t.scanned, t.sent[i]))
  {
    StepMoves(c, s, r);
    MovesTiling(s, Step(c, s, r), h0);
    StepYields(c, s, r, _ => []);
  }

  lemma {:induction false} RunGrows(c: Config, s: State, rounds: seq<Round>, n: nat)
    requires c.chunkSize > 0 && n <= |rounds|
    ensures Grows(Run(c, s, rounds[..n]), Run(c, s, rounds))
    decreases |rounds|
  {
    if n == |rounds| {
      assert rounds[..n] == rounds;
    } else {
      var before := rounds[..|rounds| - 1];
      assert rounds[..n] == before[..n];
      RunGrows(c, s, before, n);
      StepMoves(c, Run(c, s, before), rounds[|rounds| - 1]);
      StepYields(c, Run(c, s, before), rounds[|rounds| - 1], _ => []);
    }
  }

  /** From one state of a run to a later one. */
  ghost predicate Grows(s: State, t: State) {
    s.cursor <= t.cursor && s.scanned <= t.scanned && s.sent <= t.sent
  }

  /** If the nodes do not lie about `chain`, every yielded update of every run is the highest update in
      the scanned blocks they answered for, and no veto of it lies in the watched blocks they answered
      for. It is the highest of all scanned blocks and unvetoed in all watched ones if and only if no
      block they did not answer for hides a higher update or the veto. */
  lemma {:induction false} UpdateStreamSound(
    c: Config, h0: nat, rounds: seq<Round>, chain: nat -> seq<ChainEvent>, sent: seq<Yield>)
    requires c.chunkSize > 0
    requires forall i :: 0 <= i < |rounds| ==> FaithfulRound(rounds[i], chain)
    requires sent == Run(c, Start(h0), rounds).sent
    ensures forall i :: 0 <= i < |sent| ==>
              && Sound(c, chain, sent[i])
              && (Complete(c, chain, sent[i]) <==> NothingHidden(c, chain, sent[i]))
    decreases |rounds|
  {
    if rounds == [] {
    } else {
      var before, r := rounds[..|rounds| - 1], rounds[|rounds| - 1];
      var s := Run(c, Start(h0), before);
      UpdateStreamSound(c, h0, before, chain, s.sent);
      assert FaithfulRound(r, chain);
      StepYields(c, s, r, chain);
    }
    forall i | 0 <= i < |sent|
      ensures Complete(c, chain, sent[i]) <==> NothingHidden(c, chain, sent[i])
    {
      CompleteIff(c, chain, sent[i]);
    }
  }

  /** Chain of the witness below: block 1 updates the counterparty to height 5, block 2 vetoes that. */
  function VetoedChain(id: StateMachineId, x: nat): seq<ChainEvent> {
    if x == 1 then [Updated(id, 5)] else if x == 2 then [Vetoed(StateMachineHeight(id, 5))] else []
  }

  /** The condition can fail: the node answers nothing false, the veto watch passes block 2 although its
      query failed, and the update vetoed there is yielded. */
  lemma MissedVeto(c: Config, r: Round, chain: nat -> seq<ChainEvent>)
    requires c.chunkSize > 0 && chain == ((x: nat) => VetoedChain(c.counterparty, x))
    requires r == Round(Some(1), (i: nat, range: Range) => Some(RangeEvents(chain, range.start, range.end)), Some(0),
                        [Period(Some(0)), VetoPoll(Some(2), (i: nat, range: Range) => None), Clock(Some(1))], true)
    ensures FaithfulRound(r, chain)
    ensures var sent := Run(c, Start(0), [r]).sent;
            && |sent| == 1 && sent[0].update == Updated(c.counterparty, 5) && sent[0].watched == 2
            && Emits(chain, 2, Vetoed(StateMachineHeight(c.counterparty, 5)))
            && !Complete(c, chain, sent[0])
  {
    RunFirst(c, Start(0), r);
    CollectedFirst(c, r.ask, chain);
    MissedByRace(c, StateMachineHeight(c.counterparty, 5), r.ticks, chain);
    MissedStep(c, r);
    assert !InSome([], 2);
    assert Emits(chain, 2, Vetoed(StateMachineHeight(c.counterparty, 5)));
  }

  lemma RunFirst(c: Config, s: State, r: Round)
    requires c.chunkSize > 0
    ensures Run(c, s, [r]) == Step(c, s, r)
  {
    assert [r][..0] == [];
  }

  lemma MissedStep(c: Config, r: Round)
    requires c.chunkSize > 0 && r.head == Some(1) && r.updateTime == Some(0) && r.receiver
    requires Collected(Requests(0, 1, c.chunkSize), r.ask, 0) == [Updated(c.counterparty, 5)]
    requires var o := Race(c, StateMachineHeight(c.counterparty, 5), 0, None, 0, [], r.ticks);
             o.Elapsed? && o.watched == 2
    ensures var sent := Step(c, Start(0), r).sent;
            && |sent| == 1 && sent[0].update == Updated(c.counterparty, 5) && sent[0].above == 0
            && sent[0].watched == 2
  {
    assert Best(c, [Updated(c.counterparty, 5)]) == Some(Updated(c.counterparty, 5));
  }

  lemma CollectedFirst(c: Config, ask: Ask<ChainEvent>, chain: nat -> seq<ChainEvent>)
    requires c.chunkSize > 0 && chain == ((x: nat) => VetoedChain(c.counterparty, x))
    requires ask == ((i: nat, range: Range) => Some(RangeEvents(chain, range.start, range.end)))
    ensures Collected(Requests(0, 1, c.chunkSize), ask, 0) == [Updated(c.counterparty, 5)]
  {
    QueryRefinesRange(0, 1, c.chunkSize, ask, chain);
    assert RangeEvents(chain, 1, 1) == [Updated(c.counterparty, 5)];
  }

  lemma MissedByRace(c: Config, target: StateMachineHeight, ticks: seq<Tick>, chain: nat -> seq<ChainEvent>)
    requires c.chunkSize > 0
    requires ticks == [Period(Some(0)), VetoPoll(Some(2), (i: nat, range: Range) => None), Clock(Some(1))]
    ensures var o := Race(c, target, 0, None, 0, [], ticks);
            o.Elapsed? && o.watched == 2
  {
    var ask, ranges := ticks[1].ask, Requests(0, 2, c.chunkSize);
    NothingCollected(ranges, ask, 0);
    var failed := Unanswered(ranges, ask, 0);
    assert ticks[1..] == [ticks[1], ticks[2]] && ticks[1..][1..] == [ticks[2]];
    assert Race(c, target, 0, Some(0), 2, [] + failed, [ticks[2]]) == Elapsed(0, 1, 2, [] + failed);
  }

  lemma {:induction false} NothingCollected(ranges: seq<Range>, ask: Ask<ChainEvent>, from: nat)
    requires from <= |ranges| && forall i, r :: ask(i, r).None?
    ensures Collected(ranges, ask, from) == []
    decreases |ranges| - from
  {
    if from == |ranges| {
    } else {
      NothingCollected(ranges, ask, from + 1);
    }
  }

  /** Later blocks announce later heights. */
  ghost predicate UpdatesGrow(c: Config, chain: nat -> seq<ChainEvent>) {
    forall x: nat, y: nat, e, f ::
      x < y && Emits(chain, x, e) && Emits(chain, y, f) && Matches(c, e) && Matches(c, f) ==> e.height < f.height
  }

  /** On a chain whose updates grow, so do the yields: consumers never see the height go back. */
  lemma YieldsGrow(c: Config, h0: nat, rounds: seq<Round>, chain: nat -> seq<ChainEvent>)
    requires c.chunkSize > 0 && UpdatesGrow(c, chain)
    requires forall i :: 0 <= i < |rounds| ==> FaithfulRound(rounds[i], chain)
    ensures var ys := Run(c, Start(h0), rounds).sent;
            forall i, j :: 0 <= i < j < |ys| ==> ys[i].update.Updated? && ys[j].update.Updated?
                                                 && ys[i].update.height < ys[j].update.height
  {
    UpdateStreamSafe(c, h0, rounds);
    var ys := Run(c, Start(h0), rounds).sent;
    UpdateStreamSound(c, h0, rounds, chain, ys);
    forall i, j | 0 <= i < j < |ys|
      ensures ys[i].update.Updated? && ys[j].update.Updated?
              && ys[i].update.height < ys[j].update.height
    {
      var x :| ys[i].above < x <= ys[i].head && Emits(chain, x, ys[i].update);
      var y :| ys[j].above < y <= ys[j].head && Emits(chain, y, ys[j].update);
      assert x < y;
    }
  }
}
