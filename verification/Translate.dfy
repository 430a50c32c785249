/** Turning events into proof-carrying messages (`translate_events_to_messages`): events are
    filtered, estimated and judged one by one, and the survivors are batched, each batch under one
    proof. Several parallel lists have to stay aligned throughout. */
module Translate {
  import opened Prelude
  import opened Ismp
  import opened Profit

  datatype IsmpEvent =
    | PostRequestEvent(request: PostRequest)
    | PostResponseEvent(response: PostResponse)
    | OtherEvent(tag: nat)

  /** `None` and the empty filter both allow every module. */
  predicate IsAllowedModule(filters: Option<seq<Bytes>>, mod: Bytes) {
    filters.None? || filters.value == [] || mod in filters.value
  }

  /** `chunk_size`. */
  function ChunkSize(sink: StateMachine): (n: nat)
    ensures n > 0
  {
    if sink.Evm? then 100 else 200
  }

  /** One side of the translation: how items of type `T` are named, wrapped and proved. Proof answers
      may differ from call to call. */
  datatype Side<!T> = Side(
    queryOf: T -> Query,
    wrap: (seq<T>, Proof, Bytes) -> Message,
    proveOne: (nat, Query) -> Option<Bytes>,
    prove: (nat, seq<Query>) -> Option<Bytes>,
    market: Market)

  datatype Setting = Setting(
    filters: Option<seq<Bytes>>,
    terms: Terms,
    sink: StateMachine,
    signer: Bytes,
    height: StateMachineHeight,
    now: nat)

  // ----- which events are candidates -----

  predicate Live(timeout: nat, now: nat) { timeout == 0 || timeout > now }

  predicate Passes(s: Setting, e: IsmpEvent) {
    match e
    case PostRequestEvent(r) => Live(r.timeout, s.now) && IsAllowedModule(s.filters, r.from)
    case PostResponseEvent(r) => Live(r.timeout, s.now) && IsAllowedModule(s.filters, r.post.to)
    case OtherEvent(_) => false
  }

  function Requests(s: Setting, events: seq<IsmpEvent>): seq<PostRequest> {
    if events == [] then []
    else (if events[0].PostRequestEvent? && Passes(s, events[0]) then [events[0].request] else [])
         + Requests(s, events[1..])
  }

  function Responses(s: Setting, events: seq<IsmpEvent>): seq<PostResponse> {
    if events == [] then []
    else (if events[0].PostResponseEvent? && Passes(s, events[0]) then [events[0].response] else [])
         + Responses(s, events[1..])
  }

  lemma {:induction false} CandidatesSnoc(s: Setting, events: seq<IsmpEvent>, e: IsmpEvent)
    ensures Requests(s, events + [e])
         == Requests(s, events) + (if e.PostRequestEvent? && Passes(s, e) then [e.request] else [])
    ensures Responses(s, events + [e])
         == Responses(s, events) + (if e.PostResponseEvent? && Passes(s, e) then [e.response] else [])
  {
    if events == [] {
      assert events + [e] == [e];
    } else {
      assert (events + [e])[1..] == events[1..] + [e];
      CandidatesSnoc(s, events[1..], e);
    }
  }

  /** The candidates are the requests whose sending module is allowed and the responses whose sending module,
      the one the request was for, is, with no timeout or one still ahead on the counterparty. A filter that
      is missing or empty allows every module. */
  lemma {:induction false} CandidatesIff(s: Setting, events: seq<IsmpEvent>, r: PostRequest, p: PostResponse)
    ensures r in Requests(s, events) <==>
            && PostRequestEvent(r) in events && (r.timeout == 0 || s.now < r.timeout)
            && (s.filters == None || s.filters == Some([]) || r.from in s.filters.value)
    ensures p in Responses(s, events) <==>
            && PostResponseEvent(p) in events && (p.timeout == 0 || s.now < p.timeout)
            && (s.filters == None || s.filters == Some([]) || p.post.to in s.filters.value)
  {
    if events == [] {
    } else {
      CandidatesIff(s, events[1..], r, p);
      assert events == [events[0]] + events[1..];
    }
  }

  /** `message` carries just `item`, under a proof answered for just its query. */
  ghost predicate Single<T>(side: Side<T>, s: Setting, item: T, message: Message) {
    exists call: nat ::
      && side.proveOne(call, side.queryOf(item)).Some?
      && message == side.wrap([item], Proof(s.height, side.proveOne(call, side.queryOf(item)).value), s.signer)
  }

  /** One message per item, in order. */
  ghost predicate Singles<T>(side: Side<T>, s: Setting, items: seq<T>, messages: seq<Message>) {
    && |messages| == |items|
    && forall i :: 0 <= i < |items| ==> Single(side, s, items[i], messages[i])
  }

  /** The proof query made for event `i`, if it is a candidate, is answered. */
  predicate EventProved(s: Setting, reqSide: Side<PostRequest>, respSide: Side<PostResponse>, e: IsmpEvent, i: nat) {
    Passes(s, e) ==> if e.PostRequestEvent? then reqSide.proveOne(i, reqSide.queryOf(e.request)).Some?
                     else respSide.proveOne(i, respSide.queryOf(e.response)).Some?
  }

  /** What is gathered of one side: the candidates, their queries and the messages to estimate them with. */
  datatype Gathered<T> = Gathered(items: seq<T>, queries: seq<Query>, messages: seq<Message>)

  ghost predicate GatheredOk<T>(side: Side<T>, s: Setting, g: Gathered<T>) {
    Singles(side, s, g.items, g.messages) && g.queries == Map(side.queryOf, g.items)
  }

  method GatherOne<T>(side: Side<T>, s: Setting, g: Gathered<T>, item: T, call: nat) returns (r: Option<Gathered<T>>)
    requires GatheredOk(side, s, g)
    ensures r.Some? <==> side.proveOne(call, side.queryOf(item)).Some?
    ensures r.Some? ==> GatheredOk(side, s, r.value) && r.value.items == g.items + [item]
  {
    var query := side.queryOf(item);
    var proof := side.proveOne(call, query);
    if proof.None? {
      return None;
    }
    var message := side.wrap([item], Proof(s.height, proof.value), s.signer);
    assert Single(side, s, item, message);
    r := Some(Gathered(g.items + [item], g.queries + [query], g.messages + [message]));
  }

  /** Filters the events and builds, side by side, the candidates, their queries and the messages to
      estimate them with. The width of the concurrent proof queries does not affect the result. */
  method Gather(s: Setting, reqSide: Side<PostRequest>, respSide: Side<PostResponse>, events: seq<IsmpEvent>)
    returns (ok: bool, requests: Gathered<PostRequest>, responses: Gathered<PostResponse>)
    ensures ok <==> forall i :: 0 <= i < |events| ==> EventProved(s, reqSide, respSide, events[i], i)
    ensures ok ==> requests.items == Requests(s, events) && responses.items == Responses(s, events)
    ensures ok ==> GatheredOk(reqSide, s, requests) && GatheredOk(respSide, s, responses)
  {
    requests, responses := Gathered([], [], []), Gathered([], [], []);
    var i := 0;
    while i < |events|
      invariant 0 <= i <= |events|
      invariant forall j :: 0 <= j < i ==> EventProved(s, reqSide, respSide, events[j], j)
      invariant requests.items == Requests(s, events[..i]) && responses.items == Responses(s, events[..i])
      invariant GatheredOk(reqSide, s, requests) && GatheredOk(respSide, s, responses)
    {
      var e := events[i];
      assert events[..i + 1] == events[..i] + [e];
      CandidatesSnoc(s, events[..i], e);
      if Passes(s, e) {
        if e.PostRequestEvent? {
          var more := GatherOne(reqSide, s, requests, e.request, i);
          if more.None? {
            assert !EventProved(s, reqSide, respSide, events[i], i);
            ok := false;
            return;
          }
          requests := more.value;
        } else {
          var more := GatherOne(respSide, s, responses, e.response, i);
          if more.None? {
            assert !EventProved(s, reqSide, respSide, events[i], i);
            ok := false;
            return;
          }
          responses := more.value;
        }
      }
      i := i + 1;
    }
    assert events[..|events|] == events;
    ok := true;
  }

  // ----- batching -----

  /** The message for chunk `i`: its items under the proof answered for exactly their queries. */
  predicate BatchAt<T>(side: Side<T>, s: Setting, items: seq<T>, i: nat, message: Message) {
    var proof := side.prove(i, Map(side.queryOf, items));
    proof.Some? && message == side.wrap(items, Proof(s.height, proof.value), s.signer)
  }

  /** Outgoing messages for the chosen items: one per chunk, in order. */
  ghost predicate Batches<T>(side: Side<T>, s: Setting, items: seq<T>, messages: seq<Message>) {
    var chunks := Chunks(items, ChunkSize(s.sink));
    && |messages| == |chunks|
    && forall i :: 0 <= i < |chunks| ==> BatchAt(side, s, chunks[i], i, messages[i])
  }

  /** The proof queries for the chunks, from number `from` on, are answered. */
  ghost predicate AllProved<T>(side: Side<T>, chunks: seq<seq<T>>, from: nat) {
    forall i :: from <= i < |chunks| ==> side.prove(i, Map(side.queryOf, chunks[i])).Some?
  }

  method MakeBatches<T>(side: Side<T>, s: Setting, items: seq<T>, queries: seq<Query>)
    returns (messages: Option<seq<Message>>)
    requires queries == Map(side.queryOf, items)
    ensures messages.Some? <==> AllProved(side, Chunks(items, ChunkSize(s.sink)), 0)
    ensures messages.Some? ==> Batches(side, s, items, messages.value)
  {
    var size := ChunkSize(s.sink);
    var queryChunks, itemChunks := Chunks(queries, size), Chunks(items, size);
    ChunksMapAt(side.queryOf, items, size);
    var built := [];
    var i := 0;
    while i < |queryChunks|
      invariant 0 <= i <= |queryChunks| == |itemChunks|
      invariant |built| == i
      invariant forall j :: 0 <= j < i ==> BatchAt(side, s, itemChunks[j], j, built[j])
    {
      var proof := side.prove(i, queryChunks[i]);
      if proof.None? {
        assert side.prove(i, Map(side.queryOf, itemChunks[i])).None?;
        return None;
      }
      var msg := side.wrap(itemChunks[i], Proof(s.height, proof.value), s.signer);
      assert BatchAt(side, s, itemChunks[i], i, msg);
      built := built + [msg];
      i := i + 1;
    }
    messages := Some(built);
  }

  // ----- one side, end to end -----

  /** The verdicts on the candidates of a side; none are needed when there are no candidates. */
  function SideVerdicts<T>(side: Side<T>, s: Setting, items: seq<T>): seq<Verdict> {
    if items == [] || side.market.estimates.None? then []
    else Verdicts(s.terms, side.market, Map(side.queryOf, items))
  }

  /** The estimator and the fee queries answered, without overflow. */
  ghost predicate Judged<T>(side: Side<T>, s: Setting, items: seq<T>) {
    items == [] || (side.market.estimates.Some? && Conclusive(SideVerdicts(side, s, items)))
  }

  /** The estimator or a query about a candidate did not answer. */
  ghost predicate Failing<T>(side: Side<T>, s: Setting, items: seq<T>) {
    items != [] && (side.market.estimates.None? || Fail in SideVerdicts(side, s, items))
  }

  /** Pricing some candidate overflows. */
  ghost predicate Overflowing<T>(side: Side<T>, s: Setting, items: seq<T>) { Panic in SideVerdicts(side, s, items) }

  /** A side whose estimates, fees and batch proofs are all answered. */
  ghost predicate SideAnswers<T>(side: Side<T>, s: Setting, items: seq<T>) {
    && Judged(side, s, items)
    && var vs := SideVerdicts(side, s, items);
       |vs| <= |items| && AllProved(side, Chunks(Having(items, vs, Relay), ChunkSize(s.sink)), 0)
  }

  datatype Selection<T> = Selection(chosen: seq<T>, queries: seq<Query>, retriable: seq<Message>)

  /** The part of a side's candidates worth relaying, with their queries, and the messages to retry. */
  method Select<T>(side: Side<T>, s: Setting, items: seq<T>, queries: seq<Query>, messages: seq<Message>)
    returns (r: Attempt<Selection<T>>)
    requires |messages| == |items| && queries == Map(side.queryOf, items)
    requires s.terms.batchSize > 0
    ensures r.Done? <==> Judged(side, s, items)
    ensures r.Failed? ==> Failing(side, s, items)
    ensures r.Panicked? ==> Overflowing(side, s, items)
    ensures r.Done? ==>
              var vs := SideVerdicts(side, s, items);
              && |vs| <= |items|
              && r.value.chosen == Having(items, vs, Relay)
              && r.value.queries == Map(side.queryOf, r.value.chosen)
              && r.value.retriable == Having(messages, vs, Retry)
  {
    var result := ReturnSuccessfulQueries(s.terms, side.market, messages, queries);
    if result.Failed? {
      return Failed;
    }
    if result.Panicked? {
      return Panicked;
    }
    var chosen, chosenQueries := [], [];
    ghost var vs := SideVerdicts(side, s, items);
    var relayed := result.value.queries;
    // zip the candidates with the optional queries and keep the pairs that have one
    var i := 0;
    while i < Min(|items|, |relayed|)
      invariant 0 <= i <= |relayed| == |vs| <= |items|
      invariant chosen == Having(items, vs[..i], Relay)
      invariant chosenQueries == Map(side.queryOf, chosen)
    {
      assert vs[..i + 1] == vs[..i] + [vs[i]];
      HavingSnoc(items, vs[..i], vs[i], Relay);
      if relayed[i].Some? {
        MapConcat(side.queryOf, chosen, [items[i]]);
        chosen := chosen + [items[i]];
        chosenQueries := chosenQueries + [relayed[i].value];
      }
      i := i + 1;
    }
    assert vs[..|vs|] == vs;
    r := Done(Selection(chosen, chosenQueries, result.value.retriable));
  }

  datatype Translation = Translation(
    requestBatches: seq<Message>,
    responseBatches: seq<Message>,
    retriedRequests: seq<Message>,
    retriedResponses: seq<Message>)

  /** `translate_events_to_messages`: the outgoing messages are the request batches followed by the response
      batches, and the unprofitable ones the retried requests followed by the retried responses. */
  method TranslateEvents(s: Setting, reqSide: Side<PostRequest>, respSide: Side<PostResponse>, events: seq<IsmpEvent>)
    returns (r: Attempt<Translation>)
    requires s.terms.batchSize > 0
    ensures r.Done? <==>
            && (forall i :: 0 <= i < |events| ==> EventProved(s, reqSide, respSide, events[i], i))
            && SideAnswers(reqSide, s, Requests(s, events)) && SideAnswers(respSide, s, Responses(s, events))
    ensures r.Panicked? ==>
              Overflowing(reqSide, s, Requests(s, events)) || Overflowing(respSide, s, Responses(s, events))
    ensures r.Done? ==> Translated(reqSide, s, Requests(s, events), r.value.requestBatches, r.value.retriedRequests)
    ensures r.Done? ==> Translated(respSide, s, Responses(s, events), r.value.responseBatches, r.value.retriedResponses)
  {
    var gathered, requests, responses := Gather(s, reqSide, respSide, events);
    if !gathered {
      return Failed;
    }
    var first := Select(reqSide, s, requests.items, requests.queries, requests.messages);
    if !first.Done? {
      return if first.Failed? then Failed else Panicked;
    }
    var second := Select(respSide, s, responses.items, responses.queries, responses.messages);
    if !second.Done? {
      return if second.Failed? then Failed else Panicked;
    }
    RetriedSingles(reqSide, s, requests.items, requests.messages, SideVerdicts(reqSide, s, requests.items));
    RetriedSingles(respSide, s, responses.items, responses.messages, SideVerdicts(respSide, s, responses.items));
    var requestBatches := MakeBatches(reqSide, s, first.value.chosen, first.value.queries);
    if requestBatches.None? {
      return Failed;
    }
    var responseBatches := MakeBatches(respSide, s, second.value.chosen, second.value.queries);
    if responseBatches.None? {
      return Failed;
    }
    r := Done(Translation(requestBatches.value, responseBatches.value, first.value.retriable, second.value.retriable));
  }

  /** What a side's candidates are turned into: one batch per chunk of those worth relaying, and one
      single-item message per candidate to retry, in order. */
  ghost predicate Translated<T>(side: Side<T>, s: Setting, items: seq<T>, batches: seq<Message>,
                                retried: seq<Message>)
  {
    var vs := SideVerdicts(side, s, items);
    && |vs| <= |items| && Conclusive(vs)
    && Batches(side, s, Having(items, vs, Relay), batches)
    && Singles(side, s, Having(items, vs, Retry), retried)
  }

  lemma {:induction false} RetriedSingles<T>(
    side: Side<T>, s: Setting, items: seq<T>, messages: seq<Message>, vs: seq<Verdict>)
    requires Singles(side, s, items, messages) && |vs| <= |items|
    ensures Singles(side, s, Having(items, vs, Retry), Having(messages, vs, Retry))
    decreases |vs|
  {
    if vs == [] {
    } else {
      RetriedSingles(side, s, items[1..], messages[1..], vs[1..]);
    }
  }

  // ----- the two sides -----

  function RequestSide(hash: PostRequest -> H256, proveOne: (nat, Query) -> Option<Bytes>,
                       prove: (nat, seq<Query>) -> Option<Bytes>, market: Market): Side<PostRequest>
  {
    Side((r: PostRequest) => Query(r.source, r.dest, r.nonce, hash(r)),
         (rs, proof, signer) => Request(rs, proof, signer), proveOne, prove, market)
  }

  /** A response travels from the request's destination back to its source. */
  function ResponseSide(hash: PostResponse -> H256, proveOne: (nat, Query) -> Option<Bytes>,
                        prove: (nat, seq<Query>) -> Option<Bytes>, market: Market): Side<PostResponse>
  {
    Side((r: PostResponse) => Query(r.post.dest, r.post.source, r.post.nonce, hash(r)),
         (rs, proof, signer) => Response(rs, proof, signer), proveOne, prove, market)
  }

  // ----- batch alignment -----

  /** The outgoing messages concatenate to the chosen items in order, all but the last are as large as the
      chunk size and the last is not empty or larger, and each is proved at the update's height by the answer
      to a query for exactly the commitments of its own items in the same order. */
  lemma BatchAlignment<T>(side: Side<T>, s: Setting, chosen: seq<T>, batches: seq<Message>, itemsOf: Message -> seq<T>)
    requires Batches(side, s, chosen, batches)
    requires forall xs, proof, signer :: itemsOf(side.wrap(xs, proof, signer)) == xs
    ensures Flatten(Map(itemsOf, batches)) == chosen
    ensures forall i :: 0 <= i < |batches| ==>
              && 1 <= |itemsOf(batches[i])| <= ChunkSize(s.sink)
              && (i < |batches| - 1 ==> |itemsOf(batches[i])| == ChunkSize(s.sink))
              && BatchAt(side, s, itemsOf(batches[i]), i, batches[i])
  {
    var chunks := Chunks(chosen, ChunkSize(s.sink));
    ChunksPartition(chosen, ChunkSize(s.sink));
    forall i | 0 <= i < |batches|
      ensures itemsOf(batches[i]) == chunks[i]
      ensures i < |batches| - 1 ==> |chunks[i]| == ChunkSize(s.sink)
    {
      assert BatchAt(side, s, chunks[i], i, batches[i]);
      if i < |batches| - 1 { ChunksFull(chosen, ChunkSize(s.sink), i); }
    }
    assert Map(itemsOf, batches) == chunks;
  }

  lemma RequestBatchAlignment(s: Setting, hash: PostRequest -> H256, proveOne: (nat, Query) -> Option<Bytes>,
                              prove: (nat, seq<Query>) -> Option<Bytes>, market: Market,
                              chosen: seq<PostRequest>, batches: seq<Message>)
    requires Batches(RequestSide(hash, proveOne, prove, market), s, chosen, batches)
    ensures forall i :: 0 <= i < |batches| ==>
              var m, size := batches[i], if s.sink.Evm? then 100 else 200;
              && m.Request? && m.proof.height == s.height && m.signer == s.signer
              && 1 <= |m.requests| <= size && (i < |batches| - 1 ==> |m.requests| == size)
              && prove(i, Map((r: PostRequest) => Query(r.source, r.dest, r.nonce, hash(r)), m.requests))
                 == Some(m.proof.proof)
    ensures Flatten(Map((m: Message) => if m.Request? then m.requests else [], batches)) == chosen
  {
    BatchAlignment(RequestSide(hash, proveOne, prove, market), s, chosen, batches,
                   (m: Message) => if m.Request? then m.requests else []);
  }

  lemma ResponseBatchAlignment(s: Setting, hash: PostResponse -> H256, proveOne: (nat, Query) -> Option<Bytes>,
                               prove: (nat, seq<Query>) -> Option<Bytes>, market: Market,
                               chosen: seq<PostResponse>, batches: seq<Message>)
    requires Batches(ResponseSide(hash, proveOne, prove, market), s, chosen, batches)
    ensures forall i :: 0 <= i < |batches| ==>
              var m, size := batches[i], if s.sink.Evm? then 100 else 200;
              && m.Response? && m.proof.height == s.height && m.signer == s.signer
              && 1 <= |m.responses| <= size && (i < |batches| - 1 ==> |m.responses| == size)
              && var queryOf := (r: PostResponse) => Query(r.post.dest, r.post.source, r.post.nonce, hash(r));
                 prove(i, Map(queryOf, m.responses)) == Some(m.proof.proof)
    ensures Flatten(Map((m: Message) => if m.Response? then m.responses else [], batches)) == chosen
  {
    BatchAlignment(ResponseSide(hash, proveOne, prove, market), s, chosen, batches,
                   (m: Message) => if m.Response? then m.responses else []);
  }

  // ----- message partition -----

  /** Each candidate is relayed, stored for retry or dropped, and none is lost, if and only if the sink
      returned an estimate for every one of them. Missing estimates silently cut off the rest. */
  lemma {:induction false} MessagePartition<T>(side: Side<T>, s: Setting, items: seq<T>, vs: seq<Verdict>)
    requires side.market.estimates.Some?
    requires vs == SideVerdicts(side, s, items) && Conclusive(vs)
    ensures |vs| <= |items|
    ensures |Having(items, vs, Relay)| + |Having(items, vs, Retry)| + |Having(items, vs, Drop)| == |vs|
    ensures |items| <= |side.market.estimates.value| <==>
            multiset(items) == multiset(Having(items, vs, Relay)) + multiset(Having(items, vs, Retry))
                               + multiset(Having(items, vs, Drop))
  {
    VerdictsPartition(items, vs);
    var fates := multiset(Having(items, vs, Relay)) + multiset(Having(items, vs, Retry))
                 + multiset(Having(items, vs, Drop));
    assert |multiset(items[..|vs|])| == |vs|;
    assert |fates| == |Having(items, vs, Relay)| + |Having(items, vs, Retry)| + |Having(items, vs, Drop)|;
    if |items| <= |side.market.estimates.value| {
      assert items[..|vs|] == items;
    } else {
      assert |multiset(items)| == |items| > |vs|;
    }
  }

  /** If the events are distinct, no message is both transmitted and stored for retry. */
  lemma NeverBoth<T>(side: Side<T>, s: Setting, items: seq<T>, x: T)
    requires |SideVerdicts(side, s, items)| <= |items|
    requires forall i, j :: 0 <= i < j < |items| ==> items[i] != items[j]
    ensures !(x in Having(items, SideVerdicts(side, s, items), Relay)
              && x in Having(items, SideVerdicts(side, s, items), Retry))
  {
    FatesDisjoint(items, SideVerdicts(side, s, items), Relay, Retry, x);
  }
}
