/** Answering GET requests (`process_get_request_events`): requests that have not timed out are
    grouped by destination and height, and each group becomes one message with two state proofs. */
module GetRequests {
  import opened Prelude
  import opened Ismp
  import opened Grouping

  type GroupKey = (StateMachine, nat)

  function KeyOf(r: GetRequest): GroupKey { (r.dest, r.height) }

  datatype GetMessage = GetMessage(requests: seq<GetRequest>, source: Proof, response: Proof, address: Bytes)

  /** The chains involved: which destinations have a client and its id, the storage keys of a request's
      commitment on the source, and the proofs either chain returns for a group (asked at most once). */
  datatype Chains = Chains(
    clients: map<StateMachine, StateMachineId>,
    commitmentKeys: GetRequest -> seq<Bytes>,
    proveSource: (GroupKey, nat, seq<Bytes>) -> Option<Bytes>,
    proveDest: (GroupKey, nat, seq<Bytes>) -> Option<Bytes>,
    update: StateMachineHeight,
    address: Bytes)

  function Open(requests: seq<GetRequest>, now: nat): seq<GetRequest> {
    Filter((r: GetRequest) => !TimedOut(r.timeout, now), requests)
  }

  function SourceKeys(c: Chains, group: seq<GetRequest>): seq<Bytes> { Flatten(Map(c.commitmentKeys, group)) }

  function DestKeys(group: seq<GetRequest>): seq<Bytes> { Flatten(Map((r: GetRequest) => r.keys, group)) }

  /** The message for one group, if its destination has a client and both proofs are available. */
  function Build(c: Chains, key: GroupKey, group: seq<GetRequest>): Option<GetMessage> {
    if key.0 !in c.clients || group == [] then None
    else
      match c.proveSource(key, c.update.height, SourceKeys(c, group))
      case None => None
      case Some(sourceProof) =>
        match c.proveDest(key, key.1, DestKeys(group))
        case None => None
        case Some(destProof) =>
          Some(GetMessage(group, Proof(c.update, sourceProof),
                          Proof(StateMachineHeight(c.clients[key.0], key.1), destProof), c.address))
  }

  /** The message of one group as a list, empty if it cannot be built. */
  function Built(c: Chains, open: seq<GetRequest>, key: GroupKey): seq<GetMessage> {
    var m := Build(c, key, Group(KeyOf, open, key));
    if m.Some? then [m.value] else []
  }

  /** The messages for the groups of `open`, in the order the keys are visited. */
  function BuildAll(c: Chains, open: seq<GetRequest>, order: seq<GroupKey>): seq<GetMessage> {
    FlatMap((key: GroupKey) => Built(c, open, key), order)
  }

  method DropTimedOut(requests: seq<GetRequest>, now: nat) returns (open: seq<GetRequest>)
    ensures open == Open(requests, now)
  {
    open := [];
    var i := 0;
    while i < |requests|
      invariant 0 <= i <= |requests|
      invariant open == Open(requests[..i], now)
    {
      assert requests[..i + 1] == requests[..i] + [requests[i]];
      FilterSnoc((r: GetRequest) => !TimedOut(r.timeout, now), requests[..i], requests[i]);
      if !TimedOut(requests[i].timeout, now) {
        open := open + [requests[i]];
      }
      i := i + 1;
    }
    assert requests[..|requests|] == requests;
  }

  lemma BuildNext(c: Chains, open: seq<GetRequest>, groups: map<GroupKey, seq<GetRequest>>, order: seq<GroupKey>,
                  key: GroupKey)
    requires IsGrouping(groups, KeyOf, open) && key in groups
    ensures var m := Build(c, key, groups[key]);
            BuildAll(c, open, order + [key]) == BuildAll(c, open, order) + if m.Some? then [m.value] else []
  {
    FlatMapSnoc((key: GroupKey) => Built(c, open, key), order, key);
    assert groups[key] == Group(KeyOf, open, key);
  }

  method BuildMessages(c: Chains, groups: map<GroupKey, seq<GetRequest>>, ghost open: seq<GetRequest>)
    returns (messages: seq<GetMessage>, order: seq<GroupKey>)
    requires IsGrouping(groups, KeyOf, open)
    ensures NoDuplicates(order)
    ensures forall k :: k in order <==> k in groups
    ensures messages == BuildAll(c, open, order)
  {
    messages, order := [], [];
    var keys := groups.Keys;
    while keys != {}
      invariant keys <= groups.Keys
      invariant NoDuplicates(order)
      invariant forall k :: k in order <==> k in groups.Keys && k !in keys
      invariant messages == BuildAll(c, open, order)
      decreases |keys|
    {
      var key :| key in keys;
      BuildNext(c, open, groups, order, key);
      NoDuplicatesSnoc(order, key);
      var message := Build(c, key, groups[key]);
      if message.Some? {
        messages := messages + [message.value];
      }
      order := order + [key];
      keys := keys - {key};
    }
  }

  /** One item of the channel. The hash map hands out its keys in an arbitrary order. */
  method ProcessGetRequests(c: Chains, requests: seq<GetRequest>, now: nat)
    returns (messages: seq<GetMessage>, order: seq<GroupKey>)
    ensures NoDuplicates(order)
    ensures forall k :: k in order <==> k in KeySet(KeyOf, Open(requests, now))
    ensures messages == BuildAll(c, Open(requests, now), order)
  {
    var open := DropTimedOut(requests, now);
    var groups := GroupBy(KeyOf, open);
    messages, order := BuildMessages(c, groups, open);
  }

  /** `m` holds exactly the group of `key`, proved for exactly the keys of its requests. */
  ghost predicate HoldsGroup(c: Chains, open: seq<GetRequest>, key: GroupKey, m: GetMessage) {
    && m.requests == Group(KeyOf, open, key) && m.requests != [] && m.address == c.address
    && m.source.height == c.update
    && key.0 in c.clients && m.response.height == StateMachineHeight(c.clients[key.0], key.1)
    && c.proveSource(key, c.update.height, SourceKeys(c, m.requests)) == Some(m.source.proof)
    && c.proveDest(key, key.1, DestKeys(m.requests)) == Some(m.response.proof)
  }

  /** The chains answer for this group: its destination has a client, and both prove its keys. */
  predicate Answers(c: Chains, key: GroupKey, group: seq<GetRequest>) {
    && key.0 in c.clients
    && c.proveSource(key, c.update.height, SourceKeys(c, group)).Some?
    && c.proveDest(key, key.1, DestKeys(group)).Some?
  }

  /** A group gets a message exactly when it is not empty and the chains answer for it. */
  lemma GroupAnsweredIff(c: Chains, open: seq<GetRequest>, order: seq<GroupKey>, key: GroupKey)
    requires key in order
    ensures (exists m :: m in BuildAll(c, open, order) && HoldsGroup(c, open, key, m)) <==>
            Group(KeyOf, open, key) != [] && Answers(c, key, Group(KeyOf, open, key))
  {
    var group := Group(KeyOf, open, key);
    if group != [] && Answers(c, key, group) {
      var m := Build(c, key, group).value;
      var k :| 0 <= k < |order| && order[k] == key;
      assert m in Built(c, open, order[k]);
      FlatMapMember((key: GroupKey) => Built(c, open, key), order, m);
      assert HoldsGroup(c, open, key, m);
    }
  }

  /** Each message holds exactly one whole group, in arrival order. */
  lemma OneWholeGroup(c: Chains, open: seq<GetRequest>, order: seq<GroupKey>, m: GetMessage)
    requires m in BuildAll(c, open, order)
    ensures exists k :: 0 <= k < |order| && HoldsGroup(c, open, order[k], m)
  {
    FlatMapMember((key: GroupKey) => Built(c, open, key), order, m);
    var k :| 0 <= k < |order| && m in Built(c, open, order[k]);
    assert HoldsGroup(c, open, order[k], m);
  }

  /** A message carries exactly the requests for its destination and height that have no timeout or one
      still ahead; zero stands for no timeout. */
  lemma GroupIsOpen(c: Chains, requests: seq<GetRequest>, now: nat, key: GroupKey, m: GetMessage, r: GetRequest)
    requires HoldsGroup(c, Open(requests, now), key, m)
    ensures r in m.requests <==>
            && r in requests && r.dest == key.0 && r.height == key.1
            && if r.timeout == 0 then now < 0xFFFF_FFFF_FFFF_FFFF else now < r.timeout
  {
    var open := Open(requests, now);
    assert r in requests && !TimedOut(r.timeout, now) ==> r in open;
    assert r in open && KeyOf(r) == key ==> r in Group(KeyOf, open, key);
    if r in m.requests {
      var i :| 0 <= i < |m.requests| && m.requests[i] == r;
      GroupMember(KeyOf, open, key, i);
      var j :| 0 <= j < |open| && open[j] == r;
    }
  }

  /** When every destination has a client and every proof is available, the messages together hold
      exactly the requests that have not timed out. */
  lemma GetRequestsConserved(c: Chains, requests: seq<GetRequest>, now: nat, order: seq<GroupKey>)
    requires NoDuplicates(order)
    requires forall k :: k in order <==> k in KeySet(KeyOf, Open(requests, now))
    requires forall k :: k in order ==> Build(c, k, Group(KeyOf, Open(requests, now), k)).Some?
    ensures multiset(Flatten(Map((m: GetMessage) => m.requests, BuildAll(c, Open(requests, now), order))))
         == multiset(Open(requests, now))
  {
    var open := Open(requests, now);
    forall i | 0 <= i < |open|
      ensures KeyOf(open[i]) in order
    {
      assert KeyOf(open[i]) in KeySet(KeyOf, open);
    }
    BuiltLaidOut(c, open, order);
    GroupsPartition(KeyOf, open, order);
  }

  lemma {:induction false} BuiltLaidOut(c: Chains, open: seq<GetRequest>, order: seq<GroupKey>)
    requires forall k :: k in order ==> Build(c, k, Group(KeyOf, open, k)).Some?
    ensures Flatten(Map((m: GetMessage) => m.requests, BuildAll(c, open, order))) == LayOut(KeyOf, open, order)
    decreases |order|
  {
    var requestsOf := (m: GetMessage) => m.requests;
    if order != [] {
      BuiltLaidOut(c, open, order[1..]);
      var m := Build(c, order[0], Group(KeyOf, open, order[0])).value;
      MapConcat(requestsOf, [m], BuildAll(c, open, order[1..]));
      assert Map(requestsOf, [m]) == [m.requests];
      assert Flatten([m.requests] + Map(requestsOf, BuildAll(c, open, order[1..])))
          == m.requests + Flatten(Map(requestsOf, BuildAll(c, open, order[1..])));
    }
  }
}
