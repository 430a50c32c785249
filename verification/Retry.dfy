/** What a cycle of `retry_unprofitable_messages` makes of the messages it read: they are judged again, and
    batched under the highest proof height among them or kept for another retry; and what becomes of each. */
module Retry {
  import opened Prelude
  import opened Ismp
  import opened Profit
  import opened Translate
  import opened Grouping

  /** A stored message holds at least the one item it was stored for. */
  predicate WellFormed(m: Message) {
    match m
    case Request(requests, _, _) => requests != []
    case Response(responses, _, _) => responses != []
  }

  predicate AllWellFormed(messages: seq<Message>) {
    forall i :: 0 <= i < |messages| ==> WellFormed(messages[i])
  }

  function RequestMessages(messages: seq<Message>): seq<Message> {
    Filter((m: Message) => m.Request?, messages)
  }

  function ResponseMessages(messages: seq<Message>): seq<Message> {
    Filter((m: Message) => m.Response?, messages)
  }

  /** The item a stored message is retried for. */
  function FirstRequest(m: Message): seq<PostRequest> {
    if m.Request? && m.requests != [] then [m.requests[0]] else []
  }

  function FirstResponse(m: Message): seq<PostResponse> {
    if m.Response? && m.responses != [] then [m.responses[0]] else []
  }

  predicate MessageTimedOut(m: Message, now: nat) {
    match m
    case Request(requests, _, _) => requests != [] && TimedOut(requests[0].timeout, now)
    case Response(responses, _, _) => responses != [] && TimedOut(responses[0].timeout, now)
  }

  /** The greatest proof height among the messages; the first one to reach it names the chain. */
  function HighestProof(messages: seq<Message>): (h: Option<StateMachineHeight>)
    ensures h.None? <==> messages == []
    ensures h.Some? ==> exists i :: 0 <= i < |messages| && messages[i].proof.height == h.value
    ensures h.Some? ==> forall i :: 0 <= i < |messages| ==> messages[i].proof.height.height <= h.value.height
  {
    if messages == [] then None
    else
      var last := messages[|messages| - 1].proof.height;
      var before := HighestProof(messages[..|messages| - 1]);
      assert messages == messages[..|messages| - 1] + [messages[|messages| - 1]];
      if before.None? || last.height > before.value.height then Some(last) else before
  }

  /** What the cycle collects from the messages it read. */
  datatype Batch = Batch(
    requestMessages: seq<Message>,
    requests: seq<PostRequest>,
    requestQueries: seq<Query>,
    responseMessages: seq<Message>,
    responses: seq<PostResponse>,
    responseQueries: seq<Query>,
    height: Option<StateMachineHeight>)

  ghost predicate RequestsOk(side: Side<PostRequest>, messages: seq<Message>, b: Batch) {
    && b.requestMessages == RequestMessages(messages)
    && b.requests == FlatMap(FirstRequest, b.requestMessages)
    && b.requestQueries == Map(side.queryOf, b.requests)
  }

  ghost predicate ResponsesOk(side: Side<PostResponse>, messages: seq<Message>, b: Batch) {
    && b.responseMessages == ResponseMessages(messages)
    && b.responses == FlatMap(FirstResponse, b.responseMessages)
    && b.responseQueries == Map(side.queryOf, b.responses)
  }

  function AddMessage(reqSide: Side<PostRequest>, respSide: Side<PostResponse>, b: Batch, m: Message): Batch
    requires WellFormed(m)
  {
    var higher := b.height.None? || m.proof.height.height > b.height.value.height;
    var height := if higher then Some(m.proof.height) else b.height;
    if m.Request? then
      b.(requestMessages := b.requestMessages + [m],
         requests := b.requests + [m.requests[0]],
         requestQueries := b.requestQueries + [reqSide.queryOf(m.requests[0])],
         height := height)
    else
      b.(responseMessages := b.responseMessages + [m],
         responses := b.responses + [m.responses[0]],
         responseQueries := b.responseQueries + [respSide.queryOf(m.responses[0])],
         height := height)
  }

  lemma AddRequest(reqSide: Side<PostRequest>, respSide: Side<PostResponse>, messages: seq<Message>, b: Batch,
                   m: Message)
    requires WellFormed(m) && RequestsOk(reqSide, messages, b)
    ensures RequestsOk(reqSide, messages + [m], AddMessage(reqSide, respSide, b, m))
  {
    FilterSnoc((m: Message) => m.Request?, messages, m);
    if m.Request? {
      FlatMapSnoc(FirstRequest, b.requestMessages, m);
      MapConcat(reqSide.queryOf, b.requests, [m.requests[0]]);
    }
  }

  lemma AddResponse(reqSide: Side<PostRequest>, respSide: Side<PostResponse>, messages: seq<Message>, b: Batch,
                    m: Message)
    requires WellFormed(m) && ResponsesOk(respSide, messages, b)
    ensures ResponsesOk(respSide, messages + [m], AddMessage(reqSide, respSide, b, m))
  {
    FilterSnoc((m: Message) => m.Response?, messages, m);
    if m.Response? {
      FlatMapSnoc(FirstResponse, b.responseMessages, m);
      MapConcat(respSide.queryOf, b.responses, [m.responses[0]]);
    }
  }

  function CollectAll(reqSide: Side<PostRequest>, respSide: Side<PostResponse>, messages: seq<Message>): Batch
    requires AllWellFormed(messages)
  {
    if messages == [] then Batch([], [], [], [], [], [], None)
    else
      AddMessage(reqSide, respSide, CollectAll(reqSide, respSide, messages[..|messages| - 1]), messages[|messages| - 1])
  }

  lemma {:induction false} RequestsCollected(
    reqSide: Side<PostRequest>, respSide: Side<PostResponse>, messages: seq<Message>)
    requires AllWellFormed(messages)
    ensures RequestsOk(reqSide, messages, CollectAll(reqSide, respSide, messages))
  {
    if messages == [] {
    } else {
      var before, m := messages[..|messages| - 1], messages[|messages| - 1];
      RequestsCollected(reqSide, respSide, before);
      AddRequest(reqSide, respSide, before, CollectAll(reqSide, respSide, before), m);
      assert before + [m] == messages;
    }
  }

  lemma {:induction false} ResponsesCollected(
    reqSide: Side<PostRequest>, respSide: Side<PostResponse>, messages: seq<Message>)
    requires AllWellFormed(messages)
    ensures ResponsesOk(respSide, messages, CollectAll(reqSide, respSide, messages))
  {
    if messages == [] {
    } else {
      var before, m := messages[..|messages| - 1], messages[|messages| - 1];
      ResponsesCollected(reqSide, respSide, before);
      AddResponse(reqSide, respSide, before, CollectAll(reqSide, respSide, before), m);
      assert before + [m] == messages;
    }
  }

  lemma {:induction false} CollectAllHeight(
    reqSide: Side<PostRequest>, respSide: Side<PostResponse>, messages: seq<Message>)
    requires AllWellFormed(messages)
    ensures CollectAll(reqSide, respSide, messages).height == HighestProof(messages)
  {
    if messages == [] {
    } else {
      CollectAllHeight(reqSide, respSide, messages[..|messages| - 1]);
    }
  }

  /** Sorts the messages by kind; a malformed one aborts the task. */
  method Collect(reqSide: Side<PostRequest>, respSide: Side<PostResponse>, messages: seq<Message>)
    returns (r: Option<Batch>)
    ensures r.None? <==> !AllWellFormed(messages)
    ensures r.Some? ==> r.value == CollectAll(reqSide, respSide, messages)
  {
    var b := Batch([], [], [], [], [], [], None);
    var i := 0;
    while i < |messages|
      invariant 0 <= i <= |messages|
      invariant AllWellFormed(messages[..i])
      invariant b == CollectAll(reqSide, respSide, messages[..i])
    {
      assert messages[..i + 1][..i] == messages[..i];
      if !WellFormed(messages[i]) {
        return None;
      }
      b := AddMessage(reqSide, respSide, b, messages[i]);
      i := i + 1;
    }
    assert messages[..|messages|] == messages;
    r := Some(b);
  }

  // ----- judging and batching again -----

  /** The message for a chunk, if its proof query succeeds. */
  function Proved<T>(side: Side<T>, s: Setting, items: seq<T>, i: nat): seq<Message> {
    var proof := side.prove(i, Map(side.queryOf, items));
    if proof.Some? then [side.wrap(items, Proof(s.height, proof.value), s.signer)] else []
  }

  /** One message per chunk whose proof query succeeds; the other chunks are skipped. */
  function ProvedBatches<T>(side: Side<T>, s: Setting, chunks: seq<seq<T>>, from: nat): seq<Message>
    requires from <= |chunks|
    decreases |chunks| - from
  {
    if from == |chunks| then []
    else Proved(side, s, chunks[from], from) + ProvedBatches(side, s, chunks, from + 1)
  }

  /** Every outgoing message is one whole chunk under the proof for exactly its items. */
  lemma {:induction false} ProvedBatchesSound<T>(side: Side<T>, s: Setting, chunks: seq<seq<T>>, from: nat, k: nat)
    requires from <= |chunks| && k < |ProvedBatches(side, s, chunks, from)|
    ensures exists i :: from <= i < |chunks| && BatchAt(side, s, chunks[i], i, ProvedBatches(side, s, chunks, from)[k])
    decreases |chunks| - from
  {
    var here := side.prove(from, Map(side.queryOf, chunks[from])).Some?;
    if here && k == 0 {
      assert BatchAt(side, s, chunks[from], from, ProvedBatches(side, s, chunks, from)[0]);
    } else {
      ProvedBatchesSound(side, s, chunks, from + 1, if here then k - 1 else k);
    }
  }

  /** What one side of the cycle sends and keeps. */
  ghost predicate SideOutcome<T>(side: Side<T>, s: Setting, items: seq<T>, messages: seq<Message>,
                                 batches: seq<Message>, retriable: seq<Message>) {
    var vs := SideVerdicts(side, s, items);
    if Judged(side, s, items)
    then |vs| <= |items| == |messages|
         && batches == ProvedBatches(side, s, Chunks(Having(items, vs, Relay), ChunkSize(s.sink)), 0)
         && retriable == Having(messages, vs, Retry)
    else Failing(side, s, items) && batches == [] && retriable == []
  }

  method ProveChunk<T>(side: Side<T>, s: Setting, items: seq<T>, queries: seq<Query>, i: nat)
    returns (sent: seq<Message>)
    requires queries == Map(side.queryOf, items)
    ensures sent == Proved(side, s, items, i)
  {
    var proof := side.prove(i, queries);
    if proof.Some? {
      sent := [side.wrap(items, Proof(s.height, proof.value), s.signer)];
    } else {
      sent := [];
    }
  }

  lemma ProvedStep<T>(side: Side<T>, s: Setting, chunks: seq<seq<T>>, i: nat, batches: seq<Message>)
    requires i < |chunks|
    ensures batches + ProvedBatches(side, s, chunks, i)
         == (batches + Proved(side, s, chunks[i], i)) + ProvedBatches(side, s, chunks, i + 1)
  {
  }

  method ProveBatches<T>(side: Side<T>, s: Setting, chosen: seq<T>, queries: seq<Query>) returns (batches: seq<Message>)
    requires queries == Map(side.queryOf, chosen)
    ensures batches == ProvedBatches(side, s, Chunks(chosen, ChunkSize(s.sink)), 0)
  {
    var size := ChunkSize(s.sink);
    var queryChunks, itemChunks := Chunks(queries, size), Chunks(chosen, size);
    ChunksMapAt(side.queryOf, chosen, size);
    ghost var all := ProvedBatches(side, s, itemChunks, 0);
    batches := [];
    var i := 0;
    while i < |queryChunks|
      invariant 0 <= i <= |queryChunks| == |itemChunks|
      invariant batches + ProvedBatches(side, s, itemChunks, i) == all
    {
      ProvedStep(side, s, itemChunks, i, batches);
      var sent := ProveChunk(side, s, itemChunks[i], queryChunks[i], i);
      batches, i := batches + sent, i + 1;
    }
    assert batches + [] == batches;
  }

  method RetrySide<T>(side: Side<T>, s: Setting, items: seq<T>, queries: seq<Query>, messages: seq<Message>)
    returns (ok: bool, batches: seq<Message>, retriable: seq<Message>)
    requires |messages| == |items| && queries == Map(side.queryOf, items) && s.terms.batchSize > 0
    ensures ok ==> SideOutcome(side, s, items, messages, batches, retriable)
    ensures !ok ==> Overflowing(side, s, items)
  {
    var selection := Select(side, s, items, queries, messages);
    match selection
    case Panicked =>
      return false, [], [];
    case Failed =>
      return true, [], [];
    case Done(found) =>
      batches := ProveBatches(side, s, found.chosen, found.queries);
      ok, retriable := true, found.retriable;
  }

  // ----- both sides of a cycle -----

  /** Judges, batches and sorts out the messages read. */
  ghost predicate Handled(s: Setting, reqSide: Side<PostRequest>, respSide: Side<PostResponse>, read: seq<Message>,
                          outgoing: seq<Message>, retriable: seq<Message>)
  {
    && AllWellFormed(read)
    && var b := CollectAll(reqSide, respSide, read);
       exists sent1, kept1, sent2, kept2 ::
         && SideOutcome(reqSide, s, b.requests, b.requestMessages, sent1, kept1)
         && SideOutcome(respSide, s, b.responses, b.responseMessages, sent2, kept2)
         && outgoing == sent1 + sent2 && retriable == kept1 + kept2
  }

  /** Pricing some message of the batch overflows. */
  /** The setting at the greatest proof height among the messages read, if any. */
  function AtHighest(s: Setting, read: seq<Message>): Setting {
    if read == [] then s else s.(height := HighestProof(read).value)
  }

  ghost predicate AnyOverflow(s: Setting, reqSide: Side<PostRequest>, respSide: Side<PostResponse>,
                              read: seq<Message>)
    requires AllWellFormed(read)
  {
    var b := CollectAll(reqSide, respSide, read);
    Overflowing(reqSide, s, b.requests) || Overflowing(respSide, s, b.responses)
  }

  /** Everything before the submission; not `ok` if it panicked. */
  method Handle(s: Setting, reqSide: Side<PostRequest>, respSide: Side<PostResponse>, read: seq<Message>)
    returns (ok: bool, outgoing: seq<Message>, retriable: seq<Message>)
    requires read != [] && s.terms.batchSize > 0
    ensures ok ==> Handled(AtHighest(s, read), reqSide, respSide, read, outgoing, retriable)
    ensures !ok && AllWellFormed(read) ==> AnyOverflow(AtHighest(s, read), reqSide, respSide, read)
    ensures !ok ==> outgoing == [] && retriable == []
  {
    var b := Collect(reqSide, respSide, read);
    if b.None? {
      return false, [], [];
    }
    RequestsCollected(reqSide, respSide, read);
    ResponsesCollected(reqSide, respSide, read);
    CollectAllHeight(reqSide, respSide, read);
    ItemEach(read);
    var t := AtHighest(s, read);
    var ok1, sent1, kept1 := RetrySide(reqSide, t, b.value.requests, b.value.requestQueries, b.value.requestMessages);
    if !ok1 {
      return false, [], [];
    }
    var ok2, sent2, kept2 :=
      RetrySide(respSide, t, b.value.responses, b.value.responseQueries, b.value.responseMessages);
    if !ok2 {
      return false, [], [];
    }
    ok, outgoing, retriable := true, sent1 + sent2, kept1 + kept2;
  }

  /** Each message holds one item of its kind and none of the other. */
  lemma ItemEach(read: seq<Message>)
    requires AllWellFormed(read)
    ensures forall i :: 0 <= i < |RequestMessages(read)| ==>
              HasOne(FirstRequest, FirstResponse, RequestMessages(read)[i])
    ensures forall i :: 0 <= i < |ResponseMessages(read)| ==>
              HasOne(FirstResponse, FirstRequest, ResponseMessages(read)[i])
    ensures |FlatMap(FirstRequest, RequestMessages(read))| == |RequestMessages(read)|
    ensures |FlatMap(FirstResponse, ResponseMessages(read))| == |ResponseMessages(read)|
  {
    forall m | m in read ensures WellFormed(m) {}
    FlatMapLength(FirstRequest, RequestMessages(read));
    FlatMapLength(FirstResponse, ResponseMessages(read));
  }

  predicate HasOne<T, U>(mine: Message -> seq<T>, other: Message -> seq<U>, m: Message) {
    |mine(m)| == 1 && |other(m)| == 0
  }

  ghost predicate KeepsProof<T(!new)>(side: Side<T>) {
    forall xs, proof, signer :: side.wrap(xs, proof, signer).proof == proof
  }

  lemma ProvedAtHeight<T(!new)>(side: Side<T>, s: Setting, chunks: seq<seq<T>>, m: Message)
    requires KeepsProof(side) && m in ProvedBatches(side, s, chunks, 0)
    ensures m.proof.height == s.height
  {
    var k :| 0 <= k < |ProvedBatches(side, s, chunks, 0)| && ProvedBatches(side, s, chunks, 0)[k] == m;
    ProvedBatchesSound(side, s, chunks, 0, k);
  }

  /** Every outgoing message is proved at the greatest proof height among the messages read. */
  lemma {:induction false} OutgoingAtHighest(
    s: Setting, reqSide: Side<PostRequest>, respSide: Side<PostResponse>, read: seq<Message>,
    outgoing: seq<Message>, retriable: seq<Message>, m: Message)
    requires KeepsProof(reqSide) && KeepsProof(respSide) && read != []
    requires Handled(AtHighest(s, read), reqSide, respSide, read, outgoing, retriable)
    requires m in outgoing
    ensures m.proof.height == HighestProof(read).value
    ensures forall i :: 0 <= i < |read| ==> read[i].proof.height.height <= m.proof.height.height
  {
    var t := AtHighest(s, read);
    var b := CollectAll(reqSide, respSide, read);
    var sent1, kept1, sent2, kept2 :|
      && SideOutcome(reqSide, t, b.requests, b.requestMessages, sent1, kept1)
      && SideOutcome(respSide, t, b.responses, b.responseMessages, sent2, kept2)
      && outgoing == sent1 + sent2 && retriable == kept1 + kept2;
    if m in sent1 {
      var chosen := Having(b.requests, SideVerdicts(reqSide, t, b.requests), Relay);
      ProvedAtHeight(reqSide, t, Chunks(chosen, ChunkSize(t.sink)), m);
    } else {
      var chosen := Having(b.responses, SideVerdicts(respSide, t, b.responses), Relay);
      ProvedAtHeight(respSide, t, Chunks(chosen, ChunkSize(t.sink)), m);
    }
  }

  /** Only messages that were read are kept for another retry. */
  lemma RetriableWereRead(s: Setting, reqSide: Side<PostRequest>, respSide: Side<PostResponse>, read: seq<Message>,
                          outgoing: seq<Message>, retriable: seq<Message>, m: Message)
    requires Handled(s, reqSide, respSide, read, outgoing, retriable) && m in retriable
    ensures m in read
  {
    var b := CollectAll(reqSide, respSide, read);
    RequestsCollected(reqSide, respSide, read);
    ResponsesCollected(reqSide, respSide, read);
    var sent1, kept1, sent2, kept2 :|
      && SideOutcome(reqSide, s, b.requests, b.requestMessages, sent1, kept1)
      && SideOutcome(respSide, s, b.responses, b.responseMessages, sent2, kept2)
      && outgoing == sent1 + sent2 && retriable == kept1 + kept2;
    if m in kept1 {
      HavingMembers(b.requestMessages, SideVerdicts(reqSide, s, b.requests), Profit.Retry, m);
    } else {
      HavingMembers(b.responseMessages, SideVerdicts(respSide, s, b.responses), Profit.Retry, m);
    }
  }

  // ----- what becomes of the messages read -----

  /** Messages by what a cycle decides on them: to submit them, to retry them later, or to drop them as the
      estimator says. It lacks an answer for those that are `lost`. */
  datatype Sorted = Sorted(sent: seq<Message>, retriable: seq<Message>, dropped: seq<Message>, lost: seq<Message>)

  function Join(a: Sorted, b: Sorted): Sorted {
    Sorted(a.sent + b.sent, a.retriable + b.retriable, a.dropped + b.dropped, a.lost + b.lost)
  }

  /** All of them, counted. */
  ghost function All(o: Sorted): multiset<Message> {
    multiset(o.sent) + multiset(o.retriable) + multiset(o.dropped) + multiset(o.lost)
  }

  /** The messages of the chunks whose proof query is answered, or of those whose is not. */
  function Along<T>(side: Side<T>, one: Message -> seq<T>, chunks: seq<seq<Message>>, from: nat, answered: bool)
    : seq<Message>
    requires from <= |chunks|
    decreases |chunks| - from
  {
    if from == |chunks| then []
    else
      var proof := side.prove(from, Map(side.queryOf, FlatMap(one, chunks[from])));
      (if proof.Some? == answered then chunks[from] else []) + Along(side, one, chunks, from + 1, answered)
  }

  /** How the messages of one side are sorted, `one` taking the item out of each. A failed call leaves all of
      them without an answer; otherwise those beyond the estimates returned and those of unproved chunks. */
  ghost function Sort<T>(side: Side<T>, s: Setting, one: Message -> seq<T>, messages: seq<Message>): Sorted
    requires |FlatMap(one, messages)| == |messages|
  {
    var items := FlatMap(one, messages);
    var vs := SideVerdicts(side, s, items);
    if Judged(side, s, items) then
      var chunks := Chunks(Having(messages, vs, Relay), ChunkSize(s.sink));
      Sorted(Along(side, one, chunks, 0, true), Having(messages, vs, Profit.Retry), Having(messages, vs, Drop),
             messages[|vs|..] + Along(side, one, chunks, 0, false))
    else Sorted([], [], [], messages)
  }

  ghost function SortAll(s: Setting, reqSide: Side<PostRequest>, respSide: Side<PostResponse>, read: seq<Message>)
    : Sorted
    requires AllWellFormed(read)
  {
    ItemEach(read);
    Join(Sort(reqSide, s, FirstRequest, RequestMessages(read)),
         Sort(respSide, s, FirstResponse, ResponseMessages(read)))
  }

  /** The estimator answered for every message of a side, and nothing failed. */
  ghost predicate FullyJudged<T>(side: Side<T>, s: Setting, items: seq<T>) {
    items == [] || (&& side.market.estimates.Some? && |items| <= |side.market.estimates.value|
                    && Conclusive(SideVerdicts(side, s, items)))
  }

  /** Every estimate, fee query and batch proof of a side is answered. */
  ghost predicate SideAnswered<T>(side: Side<T>, s: Setting, items: seq<T>) {
    && FullyJudged(side, s, items)
    && var vs := SideVerdicts(side, s, items);
       |vs| <= |items| && AllProved(side, Chunks(Having(items, vs, Relay), ChunkSize(s.sink)), 0)
  }

  ghost predicate Answered(s: Setting, reqSide: Side<PostRequest>, respSide: Side<PostResponse>, read: seq<Message>)
    requires AllWellFormed(read)
  {
    var b := CollectAll(reqSide, respSide, read);
    SideAnswered(reqSide, s, b.requests) && SideAnswered(respSide, s, b.responses)
  }

  // ----- one side -----

  ghost predicate Parallel<T>(one: Message -> seq<T>, chunks: seq<seq<Message>>, itemChunks: seq<seq<T>>) {
    |itemChunks| == |chunks| && forall i :: 0 <= i < |chunks| ==> itemChunks[i] == FlatMap(one, chunks[i])
  }

  lemma {:induction false} AlongSplit<T>(side: Side<T>, one: Message -> seq<T>, chunks: seq<seq<Message>>, from: nat)
    requires from <= |chunks|
    ensures multiset(Flatten(chunks[from..]))
         == multiset(Along(side, one, chunks, from, true)) + multiset(Along(side, one, chunks, from, false))
    decreases |chunks| - from
  {
    if from == |chunks| {
    } else {
      AlongSplit(side, one, chunks, from + 1);
      assert chunks[from..][1..] == chunks[from + 1..];
      assert Flatten(chunks[from..]) == chunks[from] + Flatten(chunks[from + 1..]);
    }
  }

  /** No chunk's proof query is answered, or none is not. */
  ghost predicate NoneProved<T>(side: Side<T>, chunks: seq<seq<T>>, from: nat, answered: bool) {
    forall i :: from <= i < |chunks| ==> side.prove(i, Map(side.queryOf, chunks[i])).Some? != answered
  }

  /** No message goes with its proof, or without it, iff no chunk does. */
  lemma {:induction false} AlongNothing<T>(
    side: Side<T>, one: Message -> seq<T>, chunks: seq<seq<Message>>, itemChunks: seq<seq<T>>, from: nat,
    answered: bool)
    requires from <= |chunks| && Parallel(one, chunks, itemChunks)
    requires forall i :: 0 <= i < |chunks| ==> chunks[i] != []
    ensures Along(side, one, chunks, from, answered) == [] <==> NoneProved(side, itemChunks, from, answered)
    decreases |chunks| - from
  {
    if from == |chunks| {
    } else {
      AlongNothing(side, one, chunks, itemChunks, from + 1, answered);
    }
  }

  lemma {:induction false} NoBatches<T>(side: Side<T>, s: Setting, chunks: seq<seq<T>>, from: nat)
    requires from <= |chunks|
    ensures ProvedBatches(side, s, chunks, from) == [] <==> NoneProved(side, chunks, from, true)
    decreases |chunks| - from
  {
    if from == |chunks| {
    } else {
      NoBatches(side, s, chunks, from + 1);
    }
  }

  /** What the batches carry, chunk by chunk. */
  lemma CarriedStep<T>(side: Side<T>, s: Setting, all: Message -> seq<T>, chunks: seq<seq<T>>, from: nat)
    requires from < |chunks| && forall xs, proof, signer :: all(side.wrap(xs, proof, signer)) == xs
    ensures FlatMap(all, ProvedBatches(side, s, chunks, from))
         == (if side.prove(from, Map(side.queryOf, chunks[from])).Some? then chunks[from] else [])
            + FlatMap(all, ProvedBatches(side, s, chunks, from + 1))
  {
    var sent, rest := Proved(side, s, chunks[from], from), ProvedBatches(side, s, chunks, from + 1);
    FlatMapConcat(all, sent, rest);
    assert sent != [] ==> FlatMap(all, sent) == chunks[from];
  }

  /** The batches carry exactly the items of the messages whose chunk is proved, in order. */
  lemma {:induction false} CarriedAlong<T>(
    side: Side<T>, s: Setting, one: Message -> seq<T>, all: Message -> seq<T>,
    chunks: seq<seq<Message>>, itemChunks: seq<seq<T>>, from: nat)
    requires from <= |chunks| && Parallel(one, chunks, itemChunks)
    requires forall xs, proof, signer :: all(side.wrap(xs, proof, signer)) == xs
    ensures FlatMap(all, ProvedBatches(side, s, itemChunks, from)) == FlatMap(one, Along(side, one, chunks, from, true))
    decreases |chunks| - from
  {
    if from == |chunks| {
    } else {
      CarriedAlong(side, s, one, all, chunks, itemChunks, from + 1);
      CarriedStep(side, s, all, itemChunks, from);
      var sent := side.prove(from, Map(side.queryOf, itemChunks[from])).Some?;
      FlatMapConcat(one, if sent then chunks[from] else [], Along(side, one, chunks, from + 1, true));
    }
  }

  /** Choosing messages and taking their items commutes. */
  lemma {:induction false} HavingItems<T>(one: Message -> seq<T>, messages: seq<Message>, vs: seq<Verdict>, v: Verdict)
    requires forall i :: 0 <= i < |messages| ==> |one(messages[i])| == 1
    requires |vs| <= |messages| == |FlatMap(one, messages)|
    ensures FlatMap(one, Having(messages, vs, v)) == Having(FlatMap(one, messages), vs, v)
    decreases |vs|
  {
    if vs == [] {
    } else {
      var rest := messages[1..];
      FlatMapLength(one, rest);
      HavingItems(one, rest, vs[1..], v);
      assert FlatMap(one, messages)[1..] == FlatMap(one, rest);
      FlatMapConcat(one, if vs[0] == v then [messages[0]] else [], Having(rest, vs[1..], v));
      assert FlatMap(one, [messages[0]]) == one(messages[0]) == [FlatMap(one, messages)[0]];
    }
  }

  /** The chunks of the messages chosen run parallel to those of their items, and none is empty. */
  lemma ChunksParallel<T>(side: Side<T>, s: Setting, one: Message -> seq<T>, messages: seq<Message>, vs: seq<Verdict>)
    requires forall i :: 0 <= i < |messages| ==> |one(messages[i])| == 1
    requires |vs| <= |messages| == |FlatMap(one, messages)|
    ensures var chunks := Chunks(Having(messages, vs, Relay), ChunkSize(s.sink));
            && Parallel(one, chunks, Chunks(Having(FlatMap(one, messages), vs, Relay), ChunkSize(s.sink)))
            && Flatten(chunks) == Having(messages, vs, Relay)
            && forall i :: 0 <= i < |chunks| ==> chunks[i] != []
  {
    var chosen := Having(messages, vs, Relay);
    forall i | 0 <= i < |chosen| ensures |one(chosen[i])| == 1 { HavingMembers(messages, vs, Relay, chosen[i]); }
    HavingItems(one, messages, vs, Relay);
    ChunksFlatMap(one, chosen, ChunkSize(s.sink));
    ChunksPartition(chosen, ChunkSize(s.sink));
  }

  /** `one` takes the item out of each message, and `all` the items out of each message of the side's. */
  ghost predicate OneSide<T(!new)>(side: Side<T>, one: Message -> seq<T>, all: Message -> seq<T>,
                                   messages: seq<Message>)
  {
    && |FlatMap(one, messages)| == |messages|
    && (forall i :: 0 <= i < |messages| ==> |one(messages[i])| == 1)
    && (forall xs, proof, signer :: all(side.wrap(xs, proof, signer)) == xs)
  }

  lemma ChosenSplit<T>(side: Side<T>, one: Message -> seq<T>, chosen: seq<Message>, size: nat)
    requires size > 0
    ensures var chunks := Chunks(chosen, size);
            multiset(chosen)
            == multiset(Along(side, one, chunks, 0, true)) + multiset(Along(side, one, chunks, 0, false))
  {
    var chunks := Chunks(chosen, size);
    AlongSplit(side, one, chunks, 0);
    ChunksPartition(chosen, size);
    assert chunks[0..] == chunks;
  }

  /** Every message of a side is sorted once. */
  lemma SideSorted<T>(side: Side<T>, s: Setting, one: Message -> seq<T>, messages: seq<Message>)
    requires |FlatMap(one, messages)| == |messages|
    ensures multiset(messages) == All(Sort(side, s, one, messages))
  {
    var items := FlatMap(one, messages);
    var vs := SideVerdicts(side, s, items);
    if Judged(side, s, items) {
      var chosen := Having(messages, vs, Relay);
      var chunks := Chunks(chosen, ChunkSize(s.sink));
      ChosenSplit(side, one, chosen, ChunkSize(s.sink));
      VerdictsSorted(messages, vs, Along(side, one, chunks, 0, true), Along(side, one, chunks, 0, false));
    }
  }

  lemma {:induction false} VerdictsSorted(
    messages: seq<Message>, vs: seq<Verdict>, sent: seq<Message>, unsent: seq<Message>)
    requires |vs| <= |messages| && Conclusive(vs)
    requires multiset(Having(messages, vs, Relay)) == multiset(sent) + multiset(unsent)
    ensures multiset(messages)
         == All(Sorted(sent, Having(messages, vs, Profit.Retry), Having(messages, vs, Drop), messages[|vs|..] + unsent))
  {
    VerdictsPartition(messages, vs);
    Regroup(messages[..|vs|], messages[|vs|..], Having(messages, vs, Relay), Having(messages, vs, Profit.Retry),
            Having(messages, vs, Drop), sent, unsent);
    assert messages == messages[..|vs|] + messages[|vs|..];
  }

  lemma Regroup(judged: seq<Message>, rest: seq<Message>, chosen: seq<Message>, retriable: seq<Message>,
                dropped: seq<Message>, sent: seq<Message>, unsent: seq<Message>)
    requires multiset(judged) == multiset(chosen) + multiset(retriable) + multiset(dropped)
    requires multiset(chosen) == multiset(sent) + multiset(unsent)
    ensures multiset(judged + rest)
         == multiset(sent) + multiset(retriable) + multiset(dropped) + multiset(rest + unsent)
  {
  }

  /** What a side sends carries exactly the items of the messages it decided to submit, and it keeps exactly
      those it decided to retry. */
  lemma SideCarries<T(!new)>(side: Side<T>, s: Setting, one: Message -> seq<T>, all: Message -> seq<T>,
                       messages: seq<Message>, batches: seq<Message>, retriable: seq<Message>)
    requires OneSide(side, one, all, messages)
    requires SideOutcome(side, s, FlatMap(one, messages), messages, batches, retriable)
    ensures var o := Sort(side, s, one, messages);
            && FlatMap(all, batches) == FlatMap(one, o.sent) && (batches == [] <==> o.sent == [])
            && retriable == o.retriable
  {
    var items := FlatMap(one, messages);
    var vs := SideVerdicts(side, s, items);
    if Judged(side, s, items) {
      ChunksParallel(side, s, one, messages, vs);
      var chunks := Chunks(Having(messages, vs, Relay), ChunkSize(s.sink));
      var itemChunks := Chunks(Having(items, vs, Relay), ChunkSize(s.sink));
      CarriedAlong(side, s, one, all, chunks, itemChunks, 0);
      AlongNothing(side, one, chunks, itemChunks, 0, true);
      NoBatches(side, s, itemChunks, 0);
    }
  }

  /** No message of a side goes without an answer iff every estimate, fee query and proof is answered. */
  lemma {:induction false} SideLostIff<T>(side: Side<T>, s: Setting, one: Message -> seq<T>, messages: seq<Message>)
    requires |FlatMap(one, messages)| == |messages| && forall i :: 0 <= i < |messages| ==> |one(messages[i])| == 1
    ensures Sort(side, s, one, messages).lost == [] <==> SideAnswered(side, s, FlatMap(one, messages))
  {
    var items := FlatMap(one, messages);
    var vs := SideVerdicts(side, s, items);
    if Judged(side, s, items) {
      ChunksParallel(side, s, one, messages, vs);
      AlongNothing(side, one, Chunks(Having(messages, vs, Relay), ChunkSize(s.sink)),
                   Chunks(Having(items, vs, Relay), ChunkSize(s.sink)), 0, false);
    }
  }

  // ----- both sides -----

  /** The sides wrap requests and responses as the messages of that name. */
  ghost predicate Genuine(reqSide: Side<PostRequest>, respSide: Side<PostResponse>) {
    && (forall xs, proof, signer :: reqSide.wrap(xs, proof, signer) == Request(xs, proof, signer))
    && (forall xs, proof, signer :: respSide.wrap(xs, proof, signer) == Response(xs, proof, signer))
  }

  function RequestsIn(m: Message): seq<PostRequest> { if m.Request? then m.requests else [] }

  function ResponsesIn(m: Message): seq<PostResponse> { if m.Response? then m.responses else [] }

  /** The outgoing messages carry exactly the items of `sent`, in order. */
  ghost predicate Carries(outgoing: seq<Message>, sent: seq<Message>) {
    && FlatMap(RequestsIn, outgoing) == FlatMap(FirstRequest, sent)
    && FlatMap(ResponsesIn, outgoing) == FlatMap(FirstResponse, sent)
  }

  /** The messages read, counted, are those submitted, retried, dropped, and left without an answer. */
  lemma ReadPartition(s: Setting, reqSide: Side<PostRequest>, respSide: Side<PostResponse>, read: seq<Message>)
    requires AllWellFormed(read) && Genuine(reqSide, respSide)
    ensures multiset(read) == All(SortAll(s, reqSide, respSide, read))
  {
    ItemEach(read);
    SideSorted(reqSide, s, FirstRequest, RequestMessages(read));
    SideSorted(respSide, s, FirstResponse, ResponseMessages(read));
    FilterSplit((m: Message) => m.Request?, (m: Message) => m.Response?, read);
    JoinCounts(Sort(reqSide, s, FirstRequest, RequestMessages(read)),
               Sort(respSide, s, FirstResponse, ResponseMessages(read)));
  }

  lemma JoinCounts(a: Sorted, b: Sorted)
    ensures All(Join(a, b)) == All(a) + All(b)
  {
  }

  /** What a side sends carries what it is to send, and nothing of the other side's. */
  predicate Sends<T(==), U(==)>(one: Message -> seq<T>, all: Message -> seq<T>, otherOne: Message -> seq<U>,
                                otherAll: Message -> seq<U>, o: Sorted, batches: seq<Message>, retriable: seq<Message>)
  {
    && FlatMap(all, batches) == FlatMap(one, o.sent) && (batches == [] <==> o.sent == [])
    && retriable == o.retriable
    && FlatMap(otherAll, batches) == [] && FlatMap(otherOne, o.sent) == []
  }

  lemma SideSends<T(!new), U>(
    side: Side<T>, s: Setting, one: Message -> seq<T>, all: Message -> seq<T>, otherOne: Message -> seq<U>,
    otherAll: Message -> seq<U>, messages: seq<Message>, batches: seq<Message>, retriable: seq<Message>)
    requires OneSide(side, one, all, messages)
    requires SideOutcome(side, s, FlatMap(one, messages), messages, batches, retriable)
    requires forall xs, proof, signer :: otherAll(side.wrap(xs, proof, signer)) == []
    requires forall i :: 0 <= i < |messages| ==> |otherOne(messages[i])| == 0
    ensures Sends(one, all, otherOne, otherAll, Sort(side, s, one, messages), batches, retriable)
  {
    SideCarries(side, s, one, all, messages, batches, retriable);
    BatchesOfKind(side, s, FlatMap(one, messages), messages, batches, retriable, otherAll);
    SentOfKind(side, s, one, messages, otherOne);
  }

  lemma RequestsSent(s: Setting, reqSide: Side<PostRequest>, respSide: Side<PostResponse>, read: seq<Message>,
                     batches: seq<Message>, retriable: seq<Message>)
    requires AllWellFormed(read) && Genuine(reqSide, respSide)
    requires var b := CollectAll(reqSide, respSide, read);
             SideOutcome(reqSide, s, b.requests, b.requestMessages, batches, retriable)
    ensures |FlatMap(FirstRequest, RequestMessages(read))| == |RequestMessages(read)|
    ensures Sends(FirstRequest, RequestsIn, FirstResponse, ResponsesIn,
                  Sort(reqSide, s, FirstRequest, RequestMessages(read)), batches, retriable)
  {
    RequestsCollected(reqSide, respSide, read);
    ItemEach(read);
    SideSends(reqSide, s, FirstRequest, RequestsIn, FirstResponse, ResponsesIn, RequestMessages(read), batches,
              retriable);
  }

  lemma ResponsesSent(s: Setting, reqSide: Side<PostRequest>, respSide: Side<PostResponse>, read: seq<Message>,
                      batches: seq<Message>, retriable: seq<Message>)
    requires AllWellFormed(read) && Genuine(reqSide, respSide)
    requires var b := CollectAll(reqSide, respSide, read);
             SideOutcome(respSide, s, b.responses, b.responseMessages, batches, retriable)
    ensures |FlatMap(FirstResponse, ResponseMessages(read))| == |ResponseMessages(read)|
    ensures Sends(FirstResponse, ResponsesIn, FirstRequest, RequestsIn,
                  Sort(respSide, s, FirstResponse, ResponseMessages(read)), batches, retriable)
  {
    ResponsesCollected(reqSide, respSide, read);
    ItemEach(read);
    SideSends(respSide, s, FirstResponse, ResponsesIn, FirstRequest, RequestsIn, ResponseMessages(read), batches,
              retriable);
  }

  lemma OutgoingCarries(s: Setting, reqSide: Side<PostRequest>, respSide: Side<PostResponse>, read: seq<Message>,
                        outgoing: seq<Message>, retriable: seq<Message>)
    requires Genuine(reqSide, respSide) && Handled(s, reqSide, respSide, read, outgoing, retriable)
    ensures var o := SortAll(s, reqSide, respSide, read);
            Carries(outgoing, o.sent) && (outgoing == [] <==> o.sent == []) && retriable == o.retriable
  {
    var b := CollectAll(reqSide, respSide, read);
    var sent1, kept1, sent2, kept2 :|
      && SideOutcome(reqSide, s, b.requests, b.requestMessages, sent1, kept1)
      && SideOutcome(respSide, s, b.responses, b.responseMessages, sent2, kept2)
      && outgoing == sent1 + sent2 && retriable == kept1 + kept2;
    RequestsSent(s, reqSide, respSide, read, sent1, kept1);
    ResponsesSent(s, reqSide, respSide, read, sent2, kept2);
    JoinCarries(sent1, kept1, Sort(reqSide, s, FirstRequest, RequestMessages(read)),
                sent2, kept2, Sort(respSide, s, FirstResponse, ResponseMessages(read)));
  }

  lemma JoinCarries(sent1: seq<Message>, kept1: seq<Message>, o1: Sorted,
                    sent2: seq<Message>, kept2: seq<Message>, o2: Sorted)
    requires Sends(FirstRequest, RequestsIn, FirstResponse, ResponsesIn, o1, sent1, kept1)
    requires Sends(FirstResponse, ResponsesIn, FirstRequest, RequestsIn, o2, sent2, kept2)
    ensures var o := Join(o1, o2);
            && Carries(sent1 + sent2, o.sent) && (sent1 + sent2 == [] <==> o.sent == [])
            && kept1 + kept2 == o.retriable
  {
    FlatMapConcat(RequestsIn, sent1, sent2);
    FlatMapConcat(ResponsesIn, sent1, sent2);
    FlatMapConcat(FirstRequest, o1.sent, o2.sent);
    FlatMapConcat(FirstResponse, o1.sent, o2.sent);
  }

  /** Batches of one kind carry nothing of the other. */
  lemma BatchesOfKind<T, U>(side: Side<T>, s: Setting, items: seq<T>, messages: seq<Message>,
                            batches: seq<Message>, retriable: seq<Message>, other: Message -> seq<U>)
    requires SideOutcome(side, s, items, messages, batches, retriable)
    requires forall xs, proof, signer :: other(side.wrap(xs, proof, signer)) == []
    ensures FlatMap(other, batches) == []
  {
    if Judged(side, s, items) {
      var chunks := Chunks(Having(items, SideVerdicts(side, s, items), Relay), ChunkSize(s.sink));
      forall k | 0 <= k < |batches| ensures other(batches[k]) == [] {
        ProvedBatchesSound(side, s, chunks, 0, k);
        var i :| 0 <= i < |chunks| && BatchAt(side, s, chunks[i], i, batches[k]);
        var proof := side.prove(i, Map(side.queryOf, chunks[i]));
        assert other(side.wrap(chunks[i], Proof(s.height, proof.value), s.signer)) == [];
      }
    }
    FlatMapNothing(other, batches);
  }

  lemma SentOfKind<T, U>(side: Side<T>, s: Setting, one: Message -> seq<T>, messages: seq<Message>,
                         other: Message -> seq<U>)
    requires |FlatMap(one, messages)| == |messages|
    requires forall i :: 0 <= i < |messages| ==> |other(messages[i])| == 0
    ensures FlatMap(other, Sort(side, s, one, messages).sent) == []
  {
    var sent := Sort(side, s, one, messages).sent;
    forall i | 0 <= i < |sent|
      ensures other(sent[i]) == []
    {
      SentWereSorted(side, s, one, messages, sent[i]);
    }
    FlatMapNothing(other, sent);
  }

  lemma SentWereSorted<T>(side: Side<T>, s: Setting, one: Message -> seq<T>, messages: seq<Message>, m: Message)
    requires |FlatMap(one, messages)| == |messages| && m in Sort(side, s, one, messages).sent
    ensures m in messages
  {
    var vs := SideVerdicts(side, s, FlatMap(one, messages));
    var chosen := Having(messages, vs, Relay);
    ChosenSplit(side, one, chosen, ChunkSize(s.sink));
    assert m in multiset(Along(side, one, Chunks(chosen, ChunkSize(s.sink)), 0, true));
    assert m in multiset(chosen);
    HavingMembers(messages, vs, Relay, m);
  }

  lemma {:induction false} HavingMembers<T>(items: seq<T>, vs: seq<Verdict>, v: Verdict, x: T)
    requires |vs| <= |items|
    ensures x in Having(items, vs, v) ==> x in items
    decreases |vs|
  {
    if vs == [] {
    } else {
      HavingMembers(items[1..], vs[1..], v, x);
    }
  }

  // ----- the fates of a cycle -----

  /** The messages kept: those still retriable that have not timed out by the destination's clock. */
  function Kept(retriable: seq<Message>, clock: Option<nat>): seq<Message> {
    if clock.None? then [] else Filter((m: Message) => !MessageTimedOut(m, clock.value), retriable)
  }

  function Late(retriable: seq<Message>, clock: Option<nat>): seq<Message> {
    if clock.None? then [] else Filter((m: Message) => MessageTimedOut(m, clock.value), retriable)
  }

  /** The item the message was stored for has no timeout, or one that is still ahead. Zero stands for no
      timeout, and only the last second that 64 bits can count is past it. */
  predicate Lasts(m: Message, now: nat)
    requires WellFormed(m)
  {
    var timeout := if m.Request? then m.requests[0].timeout else m.responses[0].timeout;
    if timeout == 0 then now < 0xFFFF_FFFF_FFFF_FFFF else now < timeout
  }

  /** A retriable message is kept as long as it lasts. */
  lemma KeptIff(retriable: seq<Message>, now: nat, m: Message)
    requires m in retriable && WellFormed(m)
    ensures m in Kept(retriable, Some(now)) <==> Lasts(m, now)
    ensures m in Late(retriable, Some(now)) <==> !Lasts(m, now)
  {
    var kept, late := Kept(retriable, Some(now)), Late(retriable, Some(now));
    var i :| 0 <= i < |retriable| && retriable[i] == m;
    assert MessageTimedOut(m, now) <==> !Lasts(m, now);
  }

  /** The messages a cycle is rid of for good reason: submitted, or dropped by the estimator. */
  function Settled(o: Sorted, submit: bool): seq<Message> { (if submit then o.sent else []) + o.dropped }

  /** The messages a cycle loses for want of an answer: of the estimator, of a fee or proof query, of the
      submission, or of the destination's clock. */
  function Lost(o: Sorted, submit: bool, clock: Option<nat>): seq<Message> {
    o.lost + (if submit then [] else o.sent) + (if clock.Some? then [] else o.retriable)
  }

  /** Exactly one of these. */
  predicate OneOf(a: bool, b: bool, c: bool, d: bool) {
    (if a then 1 else 0) + (if b then 1 else 0) + (if c then 1 else 0) + (if d then 1 else 0) == 1
  }

  /** Each message read is exactly one of settled, stored again, timed out, and lost; and the outgoing
      messages carry exactly the items of those to be submitted, in the order read. */
  ghost predicate OneFateEach(s: Setting, reqSide: Side<PostRequest>, respSide: Side<PostResponse>,
                              read: seq<Message>, outgoing: seq<Message>, submit: bool, clock: Option<nat>)
    requires AllWellFormed(read)
  {
    var o := SortAll(s, reqSide, respSide, read);
    && (forall m :: m in read ==>
          OneOf(m in Settled(o, submit), m in Kept(o.retriable, clock), m in Late(o.retriable, clock),
                m in Lost(o, submit, clock)))
    && Carries(outgoing, o.sent)
  }

  lemma FatesCount(o: Sorted, submit: bool, clock: Option<nat>)
    ensures All(o) == multiset(Settled(o, submit)) + multiset(Kept(o.retriable, clock))
                      + multiset(Late(o.retriable, clock)) + multiset(Lost(o, submit, clock))
  {
    if clock.Some? {
      var now := clock.value;
      FilterSplit((m: Message) => !MessageTimedOut(m, now), (m: Message) => MessageTimedOut(m, now), o.retriable);
    }
  }

  lemma ReadOnce(read: seq<Message>, m: Message)
    requires NoDuplicates(read) && m in read
    ensures multiset(read)[m] == 1
  {
    var i :| 0 <= i < |read| && read[i] == m;
    assert read == read[..i] + [m] + read[i + 1..];
    assert m !in read[..i] && m !in read[i + 1..];
  }

  lemma OneCount(read: seq<Message>, a: seq<Message>, b: seq<Message>, c: seq<Message>, d: seq<Message>, m: Message)
    requires multiset(read) == multiset(a) + multiset(b) + multiset(c) + multiset(d)
    requires NoDuplicates(read) && m in read
    ensures OneOf(m in a, m in b, m in c, m in d)
  {
    ReadOnce(read, m);
    assert multiset(read)[m] == multiset(a)[m] + multiset(b)[m] + multiset(c)[m] + multiset(d)[m];
  }

  /** Whatever is answered and whatever is not, each message of a cycle has one fate; and none is lost if and
      only if every estimate, fee query and proof is answered, the submission, if there is any, succeeds, and
      the clock, if anything is left to retry, can be read. */
  lemma RetryFates(s: Setting, reqSide: Side<PostRequest>, respSide: Side<PostResponse>, read: seq<Message>,
                   outgoing: seq<Message>, retriable: seq<Message>, submit: bool, clock: Option<nat>)
    requires Genuine(reqSide, respSide) && NoDuplicates(read)
    requires Handled(s, reqSide, respSide, read, outgoing, retriable)
    ensures OneFateEach(s, reqSide, respSide, read, outgoing, submit, clock)
    ensures Lost(SortAll(s, reqSide, respSide, read), submit, clock) == [] <==>
            && Answered(s, reqSide, respSide, read)
            && (submit || outgoing == []) && (clock.Some? || retriable == [])
  {
    var o := SortAll(s, reqSide, respSide, read);
    OutgoingCarries(s, reqSide, respSide, read, outgoing, retriable);
    ReadPartition(s, reqSide, respSide, read);
    FatesCount(o, submit, clock);
    forall m | m in read {
      OneCount(read, Settled(o, submit), Kept(o.retriable, clock), Late(o.retriable, clock), Lost(o, submit, clock), m);
    }
    LostIff(s, reqSide, respSide, read);
  }

  lemma LostIff(s: Setting, reqSide: Side<PostRequest>, respSide: Side<PostResponse>, read: seq<Message>)
    requires Genuine(reqSide, respSide) && AllWellFormed(read)
    ensures SortAll(s, reqSide, respSide, read).lost == [] <==> Answered(s, reqSide, respSide, read)
  {
    RequestsCollected(reqSide, respSide, read);
    ResponsesCollected(reqSide, respSide, read);
    ItemEach(read);
    SideLostIff(reqSide, s, FirstRequest, RequestMessages(read));
    SideLostIff(respSide, s, FirstResponse, ResponseMessages(read));
  }

  /** Such a loss takes no more than an unanswered estimate: the one message read is neither sent nor kept. */
  lemma UnansweredEstimateLoses(s: Setting, reqSide: Side<PostRequest>, respSide: Side<PostResponse>, m: Message)
    requires m.Request? && m.requests != [] && reqSide.market.estimates.None?
    ensures Handled(s, reqSide, respSide, [m], [], [])
    ensures SortAll(s, reqSide, respSide, [m]).lost == [m]
  {
    RequestsCollected(reqSide, respSide, [m]);
    ResponsesCollected(reqSide, respSide, [m]);
    ItemEach([m]);
    assert RequestMessages([m]) == [m] && ResponseMessages([m]) == [];
    var b := CollectAll(reqSide, respSide, [m]);
    assert SideOutcome(reqSide, s, b.requests, [m], [], []);
    assert SideOutcome(respSide, s, b.responses, [], [], []);
    var none: seq<Message> := [];
    assert none + none == none;
  }

  // ----- batches -----

  /** The messages sent for a side carry exactly its chosen items, in order, if and only if the proof of every
      chunk is answered: a chunk without one is not empty, and is skipped. */
  lemma SubmittedExactly<T>(side: Side<T>, s: Setting, items: seq<T>, messages: seq<Message>,
                            batches: seq<Message>, retriable: seq<Message>, itemsOf: Message -> seq<T>)
    requires SideOutcome(side, s, items, messages, batches, retriable) && Judged(side, s, items)
    requires forall xs, proof, signer :: itemsOf(side.wrap(xs, proof, signer)) == xs
    ensures var chosen := Having(items, SideVerdicts(side, s, items), Relay);
            FlatMap(itemsOf, batches) == chosen <==> AllProved(side, Chunks(chosen, ChunkSize(s.sink)), 0)
  {
    ProvedIffExact(side, s, Having(items, SideVerdicts(side, s, items), Relay), ChunkSize(s.sink), itemsOf);
  }

  lemma ProvedIffExact<T>(side: Side<T>, s: Setting, chosen: seq<T>, size: nat, itemsOf: Message -> seq<T>)
    requires size > 0 && forall xs, proof, signer :: itemsOf(side.wrap(xs, proof, signer)) == xs
    ensures var chunks := Chunks(chosen, size);
            FlatMap(itemsOf, ProvedBatches(side, s, chunks, 0)) == chosen <==> AllProved(side, chunks, 0)
  {
    var chunks := Chunks(chosen, size);
    ChunksPartition(chosen, size);
    assert chunks[0..] == chunks;
    SkippedShortens(side, s, chunks, itemsOf, 0);
    if AllProved(side, chunks, 0) {
      NoneSkipped(side, s, chunks, itemsOf, 0);
    }
  }

  lemma {:induction false} NoneSkipped<T>(
    side: Side<T>, s: Setting, chunks: seq<seq<T>>, itemsOf: Message -> seq<T>, from: nat)
    requires from <= |chunks| && AllProved(side, chunks, from)
    requires forall xs, proof, signer :: itemsOf(side.wrap(xs, proof, signer)) == xs
    ensures FlatMap(itemsOf, ProvedBatches(side, s, chunks, from)) == Flatten(chunks[from..])
    decreases |chunks| - from
  {
    if from == |chunks| {
    } else {
      NoneSkipped(side, s, chunks, itemsOf, from + 1);
      CarriedStep(side, s, itemsOf, chunks, from);
      assert chunks[from..][1..] == chunks[from + 1..];
    }
  }

  lemma {:induction false} SkippedShortens<T>(
    side: Side<T>, s: Setting, chunks: seq<seq<T>>, itemsOf: Message -> seq<T>, from: nat)
    requires from <= |chunks| && forall i :: 0 <= i < |chunks| ==> chunks[i] != []
    requires forall xs, proof, signer :: itemsOf(side.wrap(xs, proof, signer)) == xs
    ensures |FlatMap(itemsOf, ProvedBatches(side, s, chunks, from))| <= |Flatten(chunks[from..])|
    ensures |FlatMap(itemsOf, ProvedBatches(side, s, chunks, from))| == |Flatten(chunks[from..])| ==>
              AllProved(side, chunks, from)
    decreases |chunks| - from
  {
    if from == |chunks| {
    } else {
      SkippedShortens(side, s, chunks, itemsOf, from + 1);
      CarriedStep(side, s, itemsOf, chunks, from);
      assert chunks[from..][1..] == chunks[from + 1..];
      assert Flatten(chunks[from..]) == chunks[from] + Flatten(chunks[from + 1..]);
    }
  }
}
