/** The hyperbridge side of fee accumulation (`accumulate` of the relayer pallet), reduced to what
    it records about each commitment: whether it is known and whether its fee was claimed. */
module FeeLedger {
  import opened Prelude
  import opened Ismp
  import opened DeliveryKeys

  /** Known commitments and whether they are claimed. */
  datatype Ledger = Ledger(requests: map<H256, bool>, responses: map<H256, bool>)

  /** The commitment a key is recorded by; a response's request does not matter. */
  function CommitmentOf(key: Key): H256 {
    match key
    case RequestKey(commitment) => commitment
    case ResponseKey(_, response) => response
  }

  function Table(l: Ledger, key: Key): map<H256, bool> {
    if key.RequestKey? then l.requests else l.responses
  }

  predicate Known(l: Ledger, key: Key) { CommitmentOf(key) in Table(l, key) }

  predicate Claimed(l: Ledger, key: Key) { Known(l, key) && Table(l, key)[CommitmentOf(key)] }

  /** Keys that survive the pallet's first filter. */
  function Live(l: Ledger, keys: seq<Key>): seq<Key> {
    Filter((k: Key) => Known(l, k) && !Claimed(l, k), keys)
  }

  /** Commitments `validate_results` pays out: live keys whose fee metadata is in the source proof
      (`paid`). A missing value is skipped without an error. */
  function Credited(live: seq<Key>, paid: set<Key>): set<H256> {
    set k | k in live && k in paid :: CommitmentOf(k)
  }

  /** The proof pays for a key by paying for a known and unclaimed one of the same commitment, be it a request or
      a response: marking goes by commitment alone. */
  predicate Credits(l: Ledger, keys: seq<Key>, paid: set<Key>, key: Key) {
    exists k :: k in keys && k in paid && Known(l, k) && !Claimed(l, k) && CommitmentOf(k) == CommitmentOf(key)
  }

  lemma CreditsIff(l: Ledger, keys: seq<Key>, paid: set<Key>, key: Key)
    ensures Credits(l, keys, paid, key) <==> CommitmentOf(key) in Credited(Live(l, keys), paid)
  {
    if k :| k in keys && k in paid && Known(l, k) && !Claimed(l, k) && CommitmentOf(k) == CommitmentOf(key) {
      assert k in Live(l, keys);
    }
    if k :| k in Live(l, keys) && k in paid && CommitmentOf(k) == CommitmentOf(key) {
      assert k in keys;
    }
  }

  predicate HasResponse(keys: seq<Key>, commitment: H256) {
    exists k :: k in keys && k.ResponseKey? && k.responseCommitment == commitment
  }

  /** The ledger after an accepted proof. */
  function Accumulated(l: Ledger, keys: seq<Key>, paid: set<Key>): Ledger {
    var live := Live(l, keys);
    Marked(l, live, Credited(live, paid))
  }

  function Marked(l: Ledger, live: seq<Key>, credited: set<H256>): Ledger {
    Ledger(
      map c | c in l.requests :: l.requests[c] || (RequestKey(c) in live && c in credited),
      map c | c in l.responses :: l.responses[c] || (HasResponse(live, c) && c in credited))
  }

  /** `accumulate`: fails when nothing is left to claim or a proof does not check out; otherwise
      marks the credited keys one by one. */
  method Accumulate(l: Ledger, keys: seq<Key>, paid: set<Key>, proofsCheck: bool)
    returns (r: Result<Ledger, string>)
    ensures r.Ok? <==> Live(l, keys) != [] && proofsCheck
    ensures r.Ok? ==> r.value == Accumulated(l, keys, paid)
  {
    var live := Live(l, keys);
    if live == [] {
      return Err("MissingCommitments");
    }
    if !proofsCheck {
      return Err("ProofValidationError");
    }
    var credited := Credited(live, paid);
    var marked := l;
    var i := 0;
    while i < |live|
      invariant 0 <= i <= |live|
      invariant marked == MarkAll(l, live[..i], credited)
    {
      assert live[..i + 1][..i] == live[..i];
      marked := Mark(marked, live[i], credited);
      i := i + 1;
    }
    assert live[..|live|] == live;
    MarkAllIs(l, live, credited);
    r := Ok(marked);
  }

  /** One turn of the marking loop: keys that were not credited or have vanished are skipped. */
  function Mark(l: Ledger, key: Key, credited: set<H256>): Ledger {
    var c := CommitmentOf(key);
    if c !in credited || !Known(l, key) then l
    else if key.RequestKey? then l.(requests := l.requests[c := true])
    else l.(responses := l.responses[c := true])
  }

  function MarkAll(l: Ledger, live: seq<Key>, credited: set<H256>): Ledger {
    if live == [] then l else Mark(MarkAll(l, live[..|live| - 1], credited), live[|live| - 1], credited)
  }

  ghost predicate RequestsMarked(l: Ledger, live: seq<Key>, credited: set<H256>, m: Ledger) {
    && m.requests.Keys == l.requests.Keys
    && forall c :: c in l.requests ==> (m.requests[c] <==> l.requests[c] || (RequestKey(c) in live && c in credited))
  }

  ghost predicate ResponsesMarked(l: Ledger, live: seq<Key>, credited: set<H256>, m: Ledger) {
    && m.responses.Keys == l.responses.Keys
    && forall c :: c in l.responses ==> (m.responses[c] <==> l.responses[c] || (HasResponse(live, c) && c in credited))
  }

  lemma MarkRequest(l: Ledger, live: seq<Key>, credited: set<H256>, m: Ledger, key: Key)
    requires RequestsMarked(l, live, credited, m)
    ensures RequestsMarked(l, live + [key], credited, Mark(m, key, credited))
  {
  }

  lemma MarkResponse(l: Ledger, live: seq<Key>, credited: set<H256>, m: Ledger, key: Key)
    requires ResponsesMarked(l, live, credited, m)
    ensures ResponsesMarked(l, live + [key], credited, Mark(m, key, credited))
  {
    forall c
      ensures HasResponse(live + [key], c) <==>
              HasResponse(live, c) || (key.ResponseKey? && key.responseCommitment == c)
    {
      if HasResponse(live, c) {
        var k :| k in live && k.ResponseKey? && k.responseCommitment == c;
        assert k in live + [key];
      }
      assert key in live + [key];
    }
  }

  lemma {:induction false} MarkAllMarks(l: Ledger, live: seq<Key>, credited: set<H256>)
    ensures RequestsMarked(l, live, credited, MarkAll(l, live, credited))
    ensures ResponsesMarked(l, live, credited, MarkAll(l, live, credited))
  {
    if live == [] {
    } else {
      var before, key := live[..|live| - 1], live[|live| - 1];
      MarkAllMarks(l, before, credited);
      MarkRequest(l, before, credited, MarkAll(l, before, credited), key);
      MarkResponse(l, before, credited, MarkAll(l, before, credited), key);
      assert before + [key] == live;
    }
  }

  /** The marking loop and the comprehension agree. */
  lemma {:induction false} MarkAllIs(l: Ledger, live: seq<Key>, credited: set<H256>)
    ensures MarkAll(l, live, credited) == Marked(l, live, credited)
  {
    MarkAllMarks(l, live, credited);
  }

  /** Commitments stay known and claims are permanent. */
  ghost predicate Extends(l: Ledger, l': Ledger) {
    forall k :: (Known(l, k) ==> Known(l', k)) && (Claimed(l, k) ==> Claimed(l', k))
  }

  lemma AccumulateExtends(l: Ledger, keys: seq<Key>, paid: set<Key>)
    ensures Extends(l, Accumulated(l, keys, paid))
  {
  }

  /** What an accepted proof settles: a key of the proof is claimed afterwards if and only if
      hyperbridge knows its commitment and the commitment was claimed already or is credited by
      the proof. A key without fee metadata is accepted and left unclaimed. */
  lemma AcceptedClaimsIff(l: Ledger, keys: seq<Key>, paid: set<Key>, key: Key)
    requires key in keys
    ensures Claimed(Accumulated(l, keys, paid), key) <==>
            Known(l, key) && (Claimed(l, key) || Credits(l, keys, paid, key))
    ensures key in paid && Known(l, key) ==> Claimed(Accumulated(l, keys, paid), key)
  {
    CreditsIff(l, keys, paid, key);
    var live := Live(l, keys);
    if Known(l, key) && !Claimed(l, key) {
      var i :| 0 <= i < |keys| && keys[i] == key;
      assert key in live;
    }
  }
}
