/** The indexer's merge of request statuses (`findOrCreate`, `updateStatus`) and the client's choice
    of the latest status from the metadata nodes, which has to agree with it. */
module StatusIndex {
  import opened Prelude
  import opened Ismp

  datatype Status = Source | MessageRelayed | Dest | TimedOut

  /** `REQUEST_STATUS_WEIGHTS`. */
  function Weight(s: Status): nat {
    match s
    case Source => 1
    case MessageRelayed => 2
    case Dest => 3
    case TimedOut => 4
  }

  /** The client's own table, `status_weight`. */
  function ReaderWeight(s: Status): nat {
    match s
    case Source => 1
    case MessageRelayed => 2
    case Dest => 3
    case TimedOut => 4
  }

  /** A message that has got to `top` may have shown this status: it goes from its source through hyperbridge to
      its destination, and a timeout ends it wherever it is. */
  predicate UpTo(s: Status, top: Status) {
    match top
    case Source => s.Source?
    case MessageRelayed => s.Source? || s.MessageRelayed?
    case Dest => !s.TimedOut?
    case TimedOut => true
  }

  /** Both tables put the statuses in that order. */
  lemma TablesAgree(a: Status, b: Status)
    ensures UpTo(a, b) <==> Weight(a) <= Weight(b)
    ensures UpTo(a, b) <==> ReaderWeight(a) <= ReaderWeight(b)
    ensures UpTo(a, b) && UpTo(b, a) ==> a == b
  {
  }

  lemma WeightInjective(a: Status, b: Status)
    requires Weight(a) == Weight(b)
    ensures a == b
  {
  }

  /** Where a status was observed. */
  datatype Node = Node(status: Status, chain: string, block: nat)

  datatype Op =
    | Create(commitment: H256, node: Node)
    | Update(commitment: H256, node: Node)

  /** Stored requests, and metadata nodes by request and status (their record id). */
  datatype Index = Index(requests: map<H256, Status>, nodes: map<(H256, Status), Node>)

  function Created(ix: Index, c: H256, node: Node): Index {
    if c in ix.requests then ix
    else Index(ix.requests[c := node.status], ix.nodes[(c, node.status) := node])
  }

  function Apply(ix: Index, op: Op): Index {
    match op
    case Create(c, node) => Created(ix, c, node)
    case Update(c, node) =>
      if c !in ix.requests then Created(ix, c, node)
      else
        Index(if Weight(node.status) > Weight(ix.requests[c]) then ix.requests[c := node.status] else ix.requests,
              ix.nodes[(c, node.status) := node])
  }

  function Run(ops: seq<Op>): Index {
    if ops == [] then Index(map[], map[]) else Apply(Run(ops[..|ops| - 1]), ops[|ops| - 1])
  }

  class RequestService {
    var requests: map<H256, Status>
    var nodes: map<(H256, Status), Node>

    function View(): Index
      reads this
    {
      Index(requests, nodes)
    }

    constructor ()
      ensures View() == Run([])
    {
      requests, nodes := map[], map[];
    }

    method FindOrCreate(c: H256, node: Node)
      modifies this
      ensures View() == Apply(old(View()), Create(c, node))
    {
      if c !in requests {
        requests := requests[c := node.status];
        nodes := nodes[(c, node.status) := node];
      }
    }

    method UpdateStatus(c: H256, node: Node)
      modifies this
      ensures View() == Apply(old(View()), Update(c, node))
    {
      if c in requests {
        if Weight(node.status) > Weight(requests[c]) {
          requests := requests[c := node.status];
        }
        nodes := nodes[(c, node.status) := node];
      } else {
        FindOrCreate(c, node);
      }
    }
  }

  // ----- the stored status is the highest among the nodes -----

  ghost predicate HighestStored(ix: Index) {
    && (forall c :: c in ix.requests ==> (c, ix.requests[c]) in ix.nodes)
    && (forall c, s :: (c, s) in ix.nodes ==> c in ix.requests && UpTo(s, ix.requests[c]))
    && (forall c, s :: (c, s) in ix.nodes ==> ix.nodes[(c, s)].status == s)
  }

  lemma CreatedKeeps(ix: Index, c: H256, node: Node)
    requires HighestStored(ix)
    ensures HighestStored(Created(ix, c, node))
  {
  }

  lemma ApplyKeeps(ix: Index, op: Op)
    requires HighestStored(ix)
    ensures HighestStored(Apply(ix, op))
  {
    if op.Create? || op.commitment !in ix.requests {
      CreatedKeeps(ix, op.commitment, op.node);
    }
  }

  /** In every reachable state, a request's status is the furthest among its nodes. */
  lemma {:induction false} StatusIsHighest(ops: seq<Op>)
    ensures HighestStored(Run(ops))
  {
    if ops == [] {
    } else {
      StatusIsHighest(ops[..|ops| - 1]);
      ApplyKeeps(Run(ops[..|ops| - 1]), ops[|ops| - 1]);
    }
  }

  // ----- the nodes -----

  /** Operation `i` leaves a node for this request and status: every update does, a creation only if it is the
      first operation on its request. */
  ghost predicate Leaves(ops: seq<Op>, i: nat, c: H256, s: Status) {
    && i < |ops| && ops[i].commitment == c && ops[i].node.status == s
    && (ops[i].Update? || forall j :: 0 <= j < i ==> ops[j].commitment != c)
  }

  lemma {:induction false} SeenIff(ops: seq<Op>, c: H256)
    ensures c in Run(ops).requests <==> exists i :: 0 <= i < |ops| && ops[i].commitment == c
  {
    if ops == [] {
    } else {
      SeenIff(ops[..|ops| - 1], c);
    }
  }

  lemma LeavesBefore(ops: seq<Op>, i: nat, c: H256, s: Status)
    requires i + 1 < |ops|
    ensures Leaves(ops, i, c, s) <==> Leaves(ops[..|ops| - 1], i, c, s)
  {
  }

  predicate Takes(ix: Index, op: Op, c: H256, s: Status) {
    op.commitment == c && op.node.status == s && (op.Update? || c !in ix.requests)
  }

  lemma ApplyNode(ix: Index, op: Op, c: H256, s: Status)
    ensures var t := Apply(ix, op);
            && ((c, s) in t.nodes <==> (c, s) in ix.nodes || Takes(ix, op, c, s))
            && ((c, s) in t.nodes ==> t.nodes[(c, s)] == if Takes(ix, op, c, s) then op.node else ix.nodes[(c, s)])
  {
  }

  lemma LeavesIffTakes(ops: seq<Op>, c: H256, s: Status)
    requires ops != []
    ensures Leaves(ops, |ops| - 1, c, s) <==> Takes(Run(ops[..|ops| - 1]), ops[|ops| - 1], c, s)
  {
    var before := ops[..|ops| - 1];
    SeenIff(before, c);
    assert (exists i :: 0 <= i < |before| && before[i].commitment == c) <==>
           !forall j :: 0 <= j < |ops| - 1 ==> ops[j].commitment != c;
  }

  /** The last operation leaves a node over what was there. */
  lemma NodeStep(ops: seq<Op>, c: H256, s: Status)
    requires ops != []
    ensures var n, ix := |ops| - 1, Run(ops[..|ops| - 1]);
            && ((c, s) in Run(ops).nodes <==> (c, s) in ix.nodes || Leaves(ops, n, c, s))
            && ((c, s) in Run(ops).nodes ==>
                  Run(ops).nodes[(c, s)] == if Leaves(ops, n, c, s) then ops[n].node else ix.nodes[(c, s)])
  {
    LeavesIffTakes(ops, c, s);
    ApplyNode(Run(ops[..|ops| - 1]), ops[|ops| - 1], c, s);
  }

  /** After any operations there is a node for a request and a status exactly if an operation left one. */
  lemma {:induction false} NodeIff(ops: seq<Op>, c: H256, s: Status)
    ensures (c, s) in Run(ops).nodes <==> exists i: nat :: Leaves(ops, i, c, s)
  {
    if ops == [] {
    } else {
      var n := |ops| - 1;
      NodeIff(ops[..n], c, s);
      NodeStep(ops, c, s);
      forall i: nat | i < n { LeavesBefore(ops, i, c, s); }
      if i: nat :| Leaves(ops[..n], i, c, s) { assert Leaves(ops, i, c, s); }
      if i: nat :| Leaves(ops, i, c, s) { assert i < n ==> Leaves(ops[..n], i, c, s); }
    }
  }

  /** And it is the one left last. */
  lemma {:induction false} NodeIsLast(ops: seq<Op>, c: H256, s: Status, i: nat)
    requires Leaves(ops, i, c, s) && forall j: nat :: i < j ==> !Leaves(ops, j, c, s)
    ensures (c, s) in Run(ops).nodes && Run(ops).nodes[(c, s)] == ops[i].node
  {
    var n := |ops| - 1;
    NodeStep(ops, c, s);
    if i < n {
      forall j: nat | j < n { LeavesBefore(ops, j, c, s); }
      forall j: nat | i < j ensures !Leaves(ops[..n], j, c, s) { assert !Leaves(ops, j, c, s); }
      NodeIsLast(ops[..n], c, s, i);
    }
  }

  // ----- the reader -----

  predicate SortedByWeight(nodes: seq<Node>) {
    forall i, j :: 0 <= i < j < |nodes| ==> ReaderWeight(nodes[i].status) <= ReaderWeight(nodes[j].status)
  }

  /** Inserts after the nodes of equal weight. */
  function InsertByWeight(nodes: seq<Node>, n: Node): (r: seq<Node>)
    ensures multiset(r) == multiset(nodes) + multiset{n}
    ensures forall x :: x in r ==> x in nodes || x == n
  {
    if nodes == [] || ReaderWeight(nodes[0].status) > ReaderWeight(n.status) then [n] + nodes
    else
      assert nodes == [nodes[0]] + nodes[1..];
      [nodes[0]] + InsertByWeight(nodes[1..], n)
  }

  lemma {:induction false} InsertKeepsSorted(nodes: seq<Node>, n: Node)
    requires SortedByWeight(nodes)
    ensures SortedByWeight(InsertByWeight(nodes, n))
  {
    if nodes != [] && ReaderWeight(nodes[0].status) <= ReaderWeight(n.status) {
      InsertKeepsSorted(nodes[1..], n);
      var rest := InsertByWeight(nodes[1..], n);
      forall x | x in rest
        ensures ReaderWeight(nodes[0].status) <= ReaderWeight(x.status)
      {
        if x in nodes[1..] {
          var i :| 0 <= i < |nodes[1..]| && nodes[1..][i] == x;
          assert nodes[i + 1] == x;
        }
      }
      assert forall i :: 0 <= i < |rest| ==> rest[i] in rest;
    }
  }

  /** The nodes of one status, in order. */
  function WithStatus(nodes: seq<Node>, s: Status): seq<Node> { Filter((n: Node) => n.status == s, nodes) }

  lemma WithSnoc(nodes: seq<Node>, n: Node, s: Status)
    ensures WithStatus(nodes + [n], s) == WithStatus(nodes, s) + if n.status == s then [n] else []
  {
    FilterSnoc((x: Node) => x.status == s, nodes, n);
  }

  lemma WithCons(n: Node, nodes: seq<Node>, s: Status)
    ensures WithStatus([n] + nodes, s) == (if n.status == s then [n] else []) + WithStatus(nodes, s)
  {
    FilterConcat((x: Node) => x.status == s, [n], nodes);
  }

  /** What weighs more than the new node does not have its status. */
  lemma WithNone(nodes: seq<Node>, s: Status)
    requires forall i :: 0 <= i < |nodes| ==> ReaderWeight(nodes[i].status) > ReaderWeight(s)
    ensures WithStatus(nodes, s) == []
  {
    FilterNone((x: Node) => x.status == s, nodes);
  }

  lemma WithFirst(n: Node, rest: seq<Node>, longer: seq<Node>, added: seq<Node>, s: Status)
    requires WithStatus(longer, s) == WithStatus(rest, s) + added
    ensures WithStatus([n] + longer, s) == WithStatus([n] + rest, s) + added
  {
    WithCons(n, rest, s);
    WithCons(n, longer, s);
  }

  lemma {:induction false} InsertKeepsOrder(nodes: seq<Node>, n: Node, s: Status)
    requires SortedByWeight(nodes)
    ensures WithStatus(InsertByWeight(nodes, n), s) == WithStatus(nodes, s) + if n.status == s then [n] else []
  {
    if nodes == [] || ReaderWeight(nodes[0].status) > ReaderWeight(n.status) {
      WithCons(n, nodes, s);
      if s == n.status { WithNone(nodes, s); }
    } else {
      InsertKeepsOrder(nodes[1..], n, s);
      WithFirst(nodes[0], nodes[1..], InsertByWeight(nodes[1..], n), if n.status == s then [n] else [], s);
      assert nodes == [nodes[0]] + nodes[1..];
    }
  }

  /** The stable sort the client applies to the nodes. */
  method SortByWeight(nodes: seq<Node>) returns (sorted: seq<Node>)
    ensures SortedByWeight(sorted) && multiset(sorted) == multiset(nodes)
    ensures forall s :: WithStatus(sorted, s) == WithStatus(nodes, s)
  {
    sorted := [];
    var i := 0;
    while i < |nodes|
      invariant 0 <= i <= |nodes|
      invariant SortedByWeight(sorted) && multiset(sorted) == multiset(nodes[..i])
      invariant forall s :: WithStatus(sorted, s) == WithStatus(nodes[..i], s)
    {
      forall s ensures WithStatus(InsertByWeight(sorted, nodes[i]), s) == WithStatus(nodes[..i] + [nodes[i]], s) {
        InsertKeepsOrder(sorted, nodes[i], s);
        WithSnoc(nodes[..i], nodes[i], s);
      }
      assert nodes[..i + 1] == nodes[..i] + [nodes[i]];
      InsertKeepsSorted(sorted, nodes[i]);
      sorted := InsertByWeight(sorted, nodes[i]);
      i := i + 1;
    }
    assert nodes[..|nodes|] == nodes;
  }

  /** The last node after sorting, if any: of those that got furthest, the one listed last. */
  method LatestStatus(nodes: seq<Node>) returns (latest: Option<Node>)
    ensures latest.None? <==> nodes == []
    ensures latest.Some? ==> latest.value in nodes
    ensures latest.Some? ==> forall n :: n in nodes ==> UpTo(n.status, latest.value.status)
    ensures latest.Some? ==> var same := WithStatus(nodes, latest.value.status);
                             same != [] && same[|same| - 1] == latest.value
  {
    var sorted := SortByWeight(nodes);
    assert |sorted| == |multiset(sorted)| == |multiset(nodes)| == |nodes|;
    if sorted == [] {
      return None;
    }
    latest := Some(sorted[|sorted| - 1]);
    assert sorted == sorted[..|sorted| - 1] + [latest.value];
    WithSnoc(sorted[..|sorted| - 1], latest.value, latest.value.status);
    assert latest.value in multiset(nodes);
    forall n | n in nodes
      ensures UpTo(n.status, latest.value.status)
    {
      assert n in multiset(sorted);
      var i :| 0 <= i < |sorted| && sorted[i] == n;
      TablesAgree(n.status, latest.value.status);
    }
  }

  /** `nodes` lists the metadata of request `c`, in any order. */
  ghost predicate NodesOf(ix: Index, c: H256, nodes: seq<Node>) {
    && (forall s :: (c, s) in ix.nodes ==> ix.nodes[(c, s)] in nodes)
    && (forall n :: n in nodes ==> (c, n.status) in ix.nodes && ix.nodes[(c, n.status)] == n)
  }

  /** Whatever order the nodes arrive in, the reader's choice is the status the indexer stored. */
  lemma ReaderAgrees(ops: seq<Op>, c: H256, nodes: seq<Node>, latest: Node)
    requires c in Run(ops).requests && NodesOf(Run(ops), c, nodes)
    requires latest in nodes && forall n :: n in nodes ==> UpTo(n.status, latest.status)
    ensures latest.status == Run(ops).requests[c]
  {
    StatusIsHighest(ops);
    var ix := Run(ops);
    assert ix.nodes[(c, ix.requests[c])] in nodes;
    TablesAgree(latest.status, ix.requests[c]);
  }

  // ----- order of the updates -----

  /** The effect of one operation on its own request. */
  function Merge(s: Option<Status>, op: Op): Option<Status> {
    if s.None? then Some(op.node.status)
    else if op.Update? && Weight(op.node.status) > Weight(s.value) then Some(op.node.status)
    else s
  }

  function Final(s: Option<Status>, ops: seq<Op>): Option<Status>
    decreases |ops|
  {
    if ops == [] then s else Final(Merge(s, ops[0]), ops[1..])
  }

  lemma {:induction false} FinalSnoc(s: Option<Status>, ops: seq<Op>, op: Op)
    ensures Final(s, ops + [op]) == Merge(Final(s, ops), op)
    decreases |ops|
  {
    if ops == [] {
      assert ops + [op] == [op];
    } else {
      assert (ops + [op])[1..] == ops[1..] + [op];
      FinalSnoc(Merge(s, ops[0]), ops[1..], op);
    }
  }

  function About(ops: seq<Op>, c: H256): seq<Op> { Filter((op: Op) => op.commitment == c, ops) }

  function StoredStatus(ix: Index, c: H256): Option<Status> {
    if c in ix.requests then Some(ix.requests[c]) else None
  }

  lemma ApplyMerges(ix: Index, op: Op, c: H256)
    ensures StoredStatus(Apply(ix, op), c)
         == if op.commitment == c then Merge(StoredStatus(ix, c), op) else StoredStatus(ix, c)
  {
  }

  /** Requests do not influence each other: the stored status is decided by its own operations. */
  lemma {:induction false} RunIsFinal(ops: seq<Op>, c: H256)
    ensures StoredStatus(Run(ops), c) == Final(None, About(ops, c))
  {
    if ops == [] {
    } else {
      var before, op := ops[..|ops| - 1], ops[|ops| - 1];
      RunIsFinal(before, c);
      ApplyMerges(Run(before), op, c);
      FinalOneMore(before, op, c);
      assert before + [op] == ops;
    }
  }

  lemma FinalOneMore(ops: seq<Op>, op: Op, c: H256)
    ensures Final(None, About(ops + [op], c))
         == if op.commitment == c then Merge(Final(None, About(ops, c)), op) else Final(None, About(ops, c))
  {
    FilterSnoc((op: Op) => op.commitment == c, ops, op);
    if op.commitment == c {
      FinalSnoc(None, About(ops, c), op);
    } else {
      assert About(ops + [op], c) == About(ops, c);
    }
  }

  ghost predicate IsTop(ops: seq<Op>, w: nat) {
    && (exists i :: 0 <= i < |ops| && Weight(ops[i].node.status) == w)
    && forall i :: 0 <= i < |ops| ==> Weight(ops[i].node.status) <= w
  }

  /** The order cannot matter: the greatest weight comes from an update, or all statuses are equal. */
  ghost predicate OrderFree(ops: seq<Op>, w: nat) {
    || (exists i :: 0 <= i < |ops| && ops[i].Update? && Weight(ops[i].node.status) == w)
    || (forall i :: 0 <= i < |ops| ==> Weight(ops[i].node.status) == w)
  }

  lemma {:induction false} FinalBounds(s: Option<Status>, ops: seq<Op>)
    requires s.Some? || ops != []
    ensures Final(s, ops).Some?
    ensures s.Some? ==> Weight(s.value) <= Weight(Final(s, ops).value)
    ensures forall i :: 0 <= i < |ops| && ops[i].Update? ==> Weight(ops[i].node.status) <= Weight(Final(s, ops).value)
    ensures Final(s, ops) == s || exists i :: 0 <= i < |ops| && ops[i].node.status == Final(s, ops).value
    ensures s.Some? && Final(s, ops) != s ==>
              exists i :: 0 <= i < |ops| && ops[i].Update? && ops[i].node.status == Final(s, ops).value
    decreases |ops|
  {
    if ops == [] {
    } else {
      FinalBounds(Merge(s, ops[0]), ops[1..]);
      assert forall i :: 1 <= i < |ops| ==> ops[i] == ops[1..][i - 1];
    }
  }

  /** If it cannot matter, every order ends in the status of greatest weight. */
  lemma FinalIsTop(ops: seq<Op>, w: nat)
    requires ops != [] && IsTop(ops, w) && OrderFree(ops, w)
    ensures Final(None, ops).Some? && Weight(Final(None, ops).value) == w
  {
    FinalBounds(None, ops);
  }

  lemma {:induction false} TopOfPermutation(a: seq<Op>, b: seq<Op>, w: nat)
    requires multiset(a) == multiset(b) && IsTop(a, w)
    ensures IsTop(b, w) && (OrderFree(a, w) ==> OrderFree(b, w))
  {
    forall i | 0 <= i < |b| ensures Weight(b[i].node.status) <= w {
      assert b[i] in multiset(a);
    }
    var i :| 0 <= i < |a| && Weight(a[i].node.status) == w;
    assert a[i] in multiset(b);
    var k :| 0 <= k < |b| && b[k] == a[i];
    if j :| 0 <= j < |a| && a[j].Update? && Weight(a[j].node.status) == w {
      assert a[j] in multiset(b);
    } else {
      forall i | 0 <= i < |b| && OrderFree(a, w) ensures Weight(b[i].node.status) == w {
        assert b[i] in multiset(a);
      }
    }
  }

  /** Any permutation of the same operations on a request gives the same status, if and only if the
      greatest weight among them comes from an update or they all carry the same status. */
  lemma PermutationInvariantIff(ops: seq<Op>, w: nat)
    requires ops != [] && IsTop(ops, w)
    ensures OrderFree(ops, w) <==>
            forall b :: multiset(b) == multiset(ops) ==> Final(None, b) == Final(None, ops)
  {
    if OrderFree(ops, w) {
      forall b | multiset(b) == multiset(ops)
        ensures Final(None, b) == Final(None, ops)
      {
        assert b != [] by { assert |multiset(b)| == |b|; }
        TopOfPermutation(ops, b, w);
        FinalIsTop(ops, w);
        FinalIsTop(b, w);
        WeightInjective(Final(None, ops).value, Final(None, b).value);
      }
    } else {
      var low, high := OrderMatters(ops, w);
      assert multiset(low) == multiset(ops) && multiset(high) == multiset(ops);
    }
  }

  /** Otherwise putting a lower status first hides the creation that carries the greatest weight. */
  lemma OrderMatters(ops: seq<Op>, w: nat) returns (low: seq<Op>, high: seq<Op>)
    requires ops != [] && IsTop(ops, w) && !OrderFree(ops, w)
    ensures multiset(low) == multiset(ops) && multiset(high) == multiset(ops)
    ensures Final(None, low) != Final(None, ops) || Final(None, high) != Final(None, ops)
  {
    var i :| 0 <= i < |ops| && Weight(ops[i].node.status) != w;
    var j :| 0 <= j < |ops| && Weight(ops[j].node.status) == w;
    low, high := Front(ops, i), Front(ops, j);
    FrontMultiset(ops, i);
    FrontMultiset(ops, j);
    assert low[1..] == ops[..i] + ops[i + 1..] && high[1..] == ops[..j] + ops[j + 1..];
    FinalBounds(Some(ops[i].node.status), low[1..]);
    FinalBounds(Some(ops[j].node.status), high[1..]);
    forall k | 0 <= k < |low[1..]| && low[1..][k].Update?
      ensures Weight(low[1..][k].node.status) != w
    {
      assert low[1..][k] == ops[if k < i then k else k + 1];
    }
  }

  function Front(ops: seq<Op>, i: nat): seq<Op>
    requires i < |ops|
  {
    [ops[i]] + (ops[..i] + ops[i + 1..])
  }

  lemma FrontMultiset(ops: seq<Op>, i: nat)
    requires i < |ops|
    ensures multiset(Front(ops, i)) == multiset(ops)
  {
    assert ops == ops[..i] + ([ops[i]] + ops[i + 1..]);
  }

  /** The deployed handlers create requests only with the lowest status, so for them order never matters. */
  lemma HandlersOrderFree(ops: seq<Op>, w: nat)
    requires ops != [] && IsTop(ops, w)
    requires forall i :: 0 <= i < |ops| && ops[i].Create? ==> ops[i].node.status == Source
    ensures OrderFree(ops, w)
  {
    var i :| 0 <= i < |ops| && Weight(ops[i].node.status) == w;
  }
}
