/** The update stream of one chain feeding the messaging task's cursor over the other. */
module UpdatePipeline {
  import opened Prelude
  import opened RangeQuery
  import opened Poller
  import HeightCursor

  /** The heights a run of the update stream hands to the messaging task; it yields nothing but updates. */
  function SentHeights(sent: seq<Yield>): seq<nat> {
    Map((y: Yield) => if y.update.Updated? then y.update.height else 0, sent)
  }

  /** The yields at these positions: those a receiver gets that may lag behind and skip some. */
  function Received(sent: seq<Yield>, positions: seq<nat>): seq<Yield>
    requires forall i :: 0 <= i < |positions| ==> positions[i] < |sent|
  {
    seq(|positions|, i requires 0 <= i < |positions| => sent[positions[i]])
  }

  lemma {:induction false} GrowingIsAscending(h0: nat, hs: seq<nat>)
    requires forall i, j :: 0 <= i < j < |hs| ==> hs[i] < hs[j]
    requires hs != [] ==> h0 <= hs[0]
    ensures HeightCursor.Ascending(h0, hs)
    decreases |hs|
  {
    if hs == [] {
    } else {
      GrowingIsAscending(hs[0], hs[1..]);
    }
  }

  /** End to end: if chain A announces chain B's heights in growing order and no node lies, then over any
      run of the update stream, with whatever polls and block queries fail, vetoes strike and waits break
      off, and whatever updates the messaging task misses because it lags behind, it reads, once and in block
      order, the events of chain B from its initial height up to the last height it received, except those of
      blocks whose query failed; so it reads all of them if and only if those blocks hold none. */
  lemma EveryEventOnce<E>(
    c: Config, start: nat, rounds: seq<Round>, chainA: nat -> seq<ChainEvent>,
    initial: nat, size: nat, ask: Ask<E>, chainB: nat -> seq<E>, sent: seq<Yield>,
    positions: seq<nat>, hs: seq<nat>, missed: seq<Range>)
    requires c.chunkSize > 0 && size > 0
    requires UpdatesGrow(c, chainA)
    requires forall i :: 0 <= i < |rounds| ==> FaithfulRound(rounds[i], chainA)
    requires Faithful(ask, chainB)
    requires sent == Run(c, Start(start), rounds).sent
    requires forall i :: 0 <= i < |positions| ==> positions[i] < |sent|
    requires forall i, j :: 0 <= i < j < |positions| ==> positions[i] < positions[j]
    requires hs == SentHeights(Received(sent, positions)) && missed == HeightCursor.AllMissed(initial, hs, size, ask)
    requires hs != [] ==> initial <= hs[0]
    ensures var last := HeightCursor.Last(initial, hs);
            && HeightCursor.AllEvents(initial, hs, size, ask)
               == ReadableEvents(chainB, (x: nat) => !InSome(missed, x), initial + 1, last)
            && (HeightCursor.AllEvents(initial, hs, size, ask) == RangeEvents(chainB, initial + 1, last) <==>
                forall x: nat :: InSome(missed, x) ==> chainB(x) == [])
  {
    YieldsGrow(c, start, rounds, chainA);
    GrowingIsAscending(initial, hs);
    HeightCursor.EventsOnceInOrder(initial, hs, size, ask, chainB, missed);
  }
}
