/** Which messages are worth relaying (`return_successful_queries`): each estimated message is
    relayed, kept for a later retry, or dropped. */
module Profit {
  import opened Prelude
  import opened Arithmetic
  import opened Ismp

  datatype Estimate = Estimate(cost: nat, successful: bool)

  datatype Terms = Terms(
    percentage: nat,
    toCoprocessor: bool,
    deliverFailed: bool,
    clients: set<StateMachine>,
    batchSize: nat)

  /** The sink's and the source chains' answers for the messages of one call, by position:
      the estimates, whether a message was already delivered, and the fee its user paid. */
  datatype Market = Market(
    estimates: Option<seq<Estimate>>,
    delivered: nat -> Option<bool>,
    fee: nat -> Option<nat>)

  /** `Fail` and `Panic` are no verdicts on the message: a query failed, or 256-bit arithmetic overflowed. */
  datatype Verdict = Relay | Retry | Drop | Fail | Panic

  /** How a call ends: it returns, fails with an error, or panics and takes its task down. */
  datatype Attempt<+T> = Done(value: T) | Failed | Panicked

  function FeeWithProfit(percentage: nat, cost: nat): nat { cost + percentage * cost / 100 }

  /** Arithmetic on 256-bit words panics on overflow. */
  predicate Overflows(percentage: nat, cost: nat) {
    percentage * cost >= U256_LIMIT || FeeWithProfit(percentage, cost) >= U256_LIMIT
  }

  function Judge(t: Terms, estimate: Estimate, query: Query, delivered: Option<bool>, fee: Option<nat>): Verdict {
    if !estimate.successful && !t.deliverFailed then
      if delivered.None? then Fail
      else if !delivered.value && !t.toCoprocessor then Retry
      else Drop
    else if t.toCoprocessor then Relay
    else if query.source !in t.clients then Drop
    else if fee.None? then Fail
    else if Overflows(t.percentage, estimate.cost) then Panic
    else if t.percentage == 0 then Relay
    else if fee.value < FeeWithProfit(t.percentage, estimate.cost) then Retry
    else Relay
  }

  function VerdictAt(t: Terms, m: Market, queries: seq<Query>, i: nat): Verdict
    requires i < |queries| && m.estimates.Some? && i < |m.estimates.value|
  {
    Judge(t, m.estimates.value[i], queries[i], m.delivered(i), m.fee(i))
  }

  /** One verdict per message that got an estimate; surplus messages or estimates are cut off. */
  function Verdicts(t: Terms, m: Market, queries: seq<Query>): (vs: seq<Verdict>)
    requires m.estimates.Some?
    ensures |vs| == Min(|m.estimates.value|, |queries|)
    ensures forall i :: 0 <= i < |vs| ==> vs[i] == VerdictAt(t, m, queries, i)
  {
    seq(Min(|m.estimates.value|, |queries|),
        i requires 0 <= i < Min(|m.estimates.value|, |queries|) => VerdictAt(t, m, queries, i))
  }

  /** Every message got a verdict. */
  predicate Conclusive(verdicts: seq<Verdict>) { Fail !in verdicts && Panic !in verdicts }

  /** The items whose verdict is `v`, in order. */
  function Having<T>(items: seq<T>, verdicts: seq<Verdict>, v: Verdict): seq<T>
    requires |verdicts| <= |items|
  {
    if verdicts == [] then []
    else (if verdicts[0] == v then [items[0]] else []) + Having(items[1..], verdicts[1..], v)
  }

  lemma {:induction false} HavingSnoc<T>(items: seq<T>, verdicts: seq<Verdict>, x: Verdict, v: Verdict)
    requires |verdicts| < |items|
    ensures Having(items, verdicts + [x], v)
         == Having(items, verdicts, v) + (if x == v then [items[|verdicts|]] else [])
    decreases |verdicts|
  {
    var all := verdicts + [x];
    if verdicts == [] {
      assert all[1..] == [];
    } else {
      assert all[0] == verdicts[0] && all[1..] == verdicts[1..] + [x];
      HavingSnoc(items[1..], verdicts[1..], x, v);
      var head := if verdicts[0] == v then [items[0]] else [];
      var last := if x == v then [items[|verdicts|]] else [];
      assert head + (Having(items[1..], verdicts[1..], v) + last) == Having(items, verdicts, v) + last;
    }
  }

  function RelayedQueries(queries: seq<Query>, verdicts: seq<Verdict>): (r: seq<Option<Query>>)
    requires |verdicts| <= |queries|
    ensures |r| == |verdicts|
    ensures forall i :: 0 <= i < |r| ==> r[i] == if verdicts[i].Relay? then Some(queries[i]) else None
  {
    seq(|verdicts|, i requires 0 <= i < |verdicts| => if verdicts[i].Relay? then Some(queries[i]) else None)
  }

  datatype ProfitabilityResult = ProfitabilityResult(queries: seq<Option<Query>>, retriable: seq<Message>)

  /** `return_successful_queries`: judges the messages in concurrent batches. One failed await fails the
      whole call and one overflow panics; which of the two comes first within a batch is a matter of timing. */
  method ReturnSuccessfulQueries(t: Terms, m: Market, messages: seq<Message>, queries: seq<Query>)
    returns (r: Attempt<ProfitabilityResult>)
    requires |messages| == |queries| && t.batchSize > 0
    ensures messages == [] ==> r == Done(ProfitabilityResult([], []))
    ensures messages != [] && m.estimates.None? ==> r.Failed?
    ensures messages != [] && m.estimates.Some? ==>
              var vs := Verdicts(t, m, queries);
              && (r.Done? <==> Conclusive(vs)) && (r.Failed? ==> Fail in vs) && (r.Panicked? ==> Panic in vs)
              && (r.Done? ==> r.value == ProfitabilityResult(RelayedQueries(queries, vs), Having(messages, vs, Retry)))
  {
    if messages == [] {
      return Done(ProfitabilityResult([], []));
    }
    if m.estimates.None? {
      return Failed;
    }
    ghost var vs := Verdicts(t, m, queries);
    var n := Min(|m.estimates.value|, |queries|);
    var relayed, retriable := [], [];
    var start := 0;
    while start < n
      invariant 0 <= start <= n
      invariant Conclusive(vs[..start])
      invariant relayed == RelayedQueries(queries, vs[..start])
      invariant retriable == Having(messages, vs[..start], Retry)
    {
      var end := Min(start + t.batchSize, n);
      var results := seq(end - start, k requires 0 <= k < end - start => VerdictAt(t, m, queries, start + k));
      assert results == vs[start..end];
      if {
        case Fail in results => return Failed;
        case Panic in results => return Panicked;
        case Conclusive(results) =>
      }
      assert vs[..end] == vs[..start] + results;
      relayed, retriable := Record(messages, queries, vs[..start], results, relayed, retriable);
      start := end;
    }
    assert vs[..n] == vs;
    r := Done(ProfitabilityResult(relayed, retriable));
  }

  /** Pushes the results of one concurrent batch onto the two lists. */
  method Record(messages: seq<Message>, queries: seq<Query>, ghost before: seq<Verdict>, results: seq<Verdict>,
                relayedBefore: seq<Option<Query>>, retriableBefore: seq<Message>)
    returns (relayed: seq<Option<Query>>, retriable: seq<Message>)
    requires |before| + |results| <= |queries| == |messages|
    requires relayedBefore == RelayedQueries(queries, before)
    requires retriableBefore == Having(messages, before, Retry)
    ensures relayed == RelayedQueries(queries, before + results)
    ensures retriable == Having(messages, before + results, Retry)
  {
    relayed, retriable := relayedBefore, retriableBefore;
    var base := |relayedBefore|;
    assert before + results[..0] == before;
    var i := 0;
    while i < |results|
      invariant 0 <= i <= |results|
      invariant relayed == RelayedQueries(queries, before + results[..i])
      invariant retriable == Having(messages, before + results[..i], Retry)
    {
      assert before + results[..i + 1] == before + results[..i] + [results[i]];
      HavingSnoc(messages, before + results[..i], results[i], Retry);
      relayed := relayed + [if results[i].Relay? then Some(queries[base + i]) else None];
      if results[i].Retry? {
        retriable := retriable + [messages[base + i]];
      }
      i := i + 1;
    }
    assert results[..|results|] == results;
  }

  // ----- every judged message has one fate -----

  /** The judged messages are the relayed, the retried and the dropped ones, as multisets. */
  lemma {:induction false} VerdictsPartition<T>(items: seq<T>, verdicts: seq<Verdict>)
    requires |verdicts| <= |items| && Conclusive(verdicts)
    ensures multiset(items[..|verdicts|])
         == multiset(Having(items, verdicts, Relay)) + multiset(Having(items, verdicts, Retry))
            + multiset(Having(items, verdicts, Drop))
    decreases |verdicts|
  {
    if verdicts == [] {
      assert items[..|verdicts|] == [];
    } else {
      var rest, tail := items[1..], verdicts[1..];
      calc {
        multiset(items[..|verdicts|]);
      ==  { TakeCons(items, |verdicts|); }
        multiset{items[0]} + multiset(rest[..|tail|]);
      ==  { VerdictsPartition(rest, tail); }
        multiset{items[0]} + Fates(rest, tail);
      ==  { OneOfThree(items, verdicts); }
        Fates(items, verdicts);
      }
    }
  }

  lemma TakeCons<T>(items: seq<T>, n: nat)
    requires 0 < n <= |items|
    ensures multiset(items[..n]) == multiset{items[0]} + multiset(items[1..][..n - 1])
  {
    assert items[..n] == [items[0]] + items[1..][..n - 1];
  }

  /** All the fates of the judged items together. */
  ghost function Fates<T>(items: seq<T>, verdicts: seq<Verdict>): multiset<T>
    requires |verdicts| <= |items|
  {
    multiset(Having(items, verdicts, Relay)) + multiset(Having(items, verdicts, Retry))
    + multiset(Having(items, verdicts, Drop))
  }

  lemma OneOfThree<T>(items: seq<T>, verdicts: seq<Verdict>)
    requires 0 < |verdicts| <= |items| && Conclusive(verdicts)
    ensures Fates(items, verdicts) == multiset{items[0]} + Fates(items[1..], verdicts[1..])
  {
    var rest, tail := items[1..], verdicts[1..];
    assert verdicts[0] in verdicts;
    HavingCons(items, verdicts, Relay);
    HavingCons(items, verdicts, Retry);
    HavingCons(items, verdicts, Drop);
    Spread(multiset{items[0]}, multiset(Having(rest, tail, Relay)), multiset(Having(rest, tail, Retry)),
           multiset(Having(rest, tail, Drop)));
  }

  lemma HavingCons<T>(items: seq<T>, verdicts: seq<Verdict>, v: Verdict)
    requires 0 < |verdicts| <= |items|
    ensures multiset(Having(items, verdicts, v))
         == if verdicts[0] == v then multiset{items[0]} + multiset(Having(items[1..], verdicts[1..], v))
            else multiset(Having(items[1..], verdicts[1..], v))
  {
    var later := Having(items[1..], verdicts[1..], v);
    assert verdicts[0] != v ==> [] + later == later;
  }

  lemma Spread<T>(x: multiset<T>, a: multiset<T>, b: multiset<T>, c: multiset<T>)
    ensures x + (a + b + c) == (x + a) + b + c
    ensures x + (a + b + c) == a + (x + b) + c
    ensures x + (a + b + c) == a + b + (x + c)
  {
  }

  /** Distinct items never get two fates. */
  lemma {:induction false} FatesDisjoint<T>(items: seq<T>, verdicts: seq<Verdict>, v: Verdict, w: Verdict, x: T)
    requires |verdicts| <= |items| && v != w
    requires forall i, j :: 0 <= i < j < |items| ==> items[i] != items[j]
    ensures !(x in Having(items, verdicts, v) && x in Having(items, verdicts, w))
    ensures x in Having(items, verdicts, v) ==> x in items
    decreases |verdicts|
  {
    if verdicts == [] {
    } else {
      FatesDisjoint(items[1..], verdicts[1..], v, w, x);
      FatesDisjoint(items[1..], verdicts[1..], w, v, x);
    }
  }

  // ----- profit -----

  /** Covering cost and profit, rounded down, is covering them up to 99 hundredths of a unit. */
  lemma MarginIff(p: nat, c: nat, fee: nat)
    ensures fee >= c + p * c / 100 <==> 100 * fee >= (100 + p) * c - 99
  {
    assert (100 + p) * c == 100 * c + p * c;
    assert p * c == 100 * (p * c / 100) + p * c % 100;
  }

  /** Each of the five verdicts on a message, decided from the terms and the answers for that message alone.
      A failed dry run is retried while nobody delivered the message and dropped afterwards; messages for the
      coprocessor are never kept for retry; a percentage of zero relays whatever was paid. */
  lemma VerdictIff(t: Terms, m: Market, queries: seq<Query>, i: nat)
    requires m.estimates.Some? && i < |m.estimates.value| && i < |queries|
    ensures var v := Verdicts(t, m, queries)[i];
            var p, c, fee := t.percentage, m.estimates.value[i].cost, m.fee(i);
            var trusted := m.estimates.value[i].successful || t.deliverFailed;
            var priced := trusted && !t.toCoprocessor && queries[i].source in t.clients;
            var overflow := p * c >= U256_LIMIT || c + p * c / 100 >= U256_LIMIT;
            var pays := fee.Some? && !overflow && (p == 0 || 100 * fee.value >= (100 + p) * c - 99);
            && (v == Relay <==> (trusted && t.toCoprocessor) || (priced && pays))
            && (v == Retry <==> || (!trusted && !t.toCoprocessor && m.delivered(i) == Some(false))
                                || (priced && fee.Some? && !overflow && !pays))
            && (v == Drop <==> || (!trusted && m.delivered(i) == Some(true))
                               || (!trusted && t.toCoprocessor && m.delivered(i).Some?)
                               || (trusted && !t.toCoprocessor && queries[i].source !in t.clients))
            && (v == Fail <==> (!trusted && m.delivered(i).None?) || (priced && fee.None?))
            && (v == Panic <==> priced && fee.Some? && overflow)
  {
    if m.fee(i).Some? {
      MarginIff(t.percentage, m.estimates.value[i].cost, m.fee(i).value);
    }
  }

  /** With a percentage set, a judged message that is not for the coprocessor is relayed exactly when
      its fee covers cost and margin up to the rounding of one cent of a percent. */
  lemma ProfitIff(t: Terms, estimate: Estimate, query: Query, delivered: Option<bool>, fee: Option<nat>)
    requires t.percentage > 0 && !t.toCoprocessor
    requires var v := Judge(t, estimate, query, delivered, fee); v != Fail && v != Panic
    requires estimate.successful || t.deliverFailed
    requires query.source in t.clients
    ensures fee.Some?
    ensures Judge(t, estimate, query, delivered, fee) == Relay <==>
            100 * fee.value >= (100 + t.percentage) * estimate.cost - 99
  {
    MarginIff(t.percentage, estimate.cost, fee.value);
  }

  /** Whatever the rest of the terms, a relayed message that is not for the coprocessor never pays
      less than its estimated cost (once a percentage is set). */
  lemma RelayedPays(t: Terms, estimate: Estimate, query: Query, delivered: Option<bool>, fee: Option<nat>)
    requires t.percentage > 0 && !t.toCoprocessor
    requires Judge(t, estimate, query, delivered, fee) == Relay
    ensures fee.Some? && fee.value >= estimate.cost
    ensures 100 * fee.value >= (100 + t.percentage) * estimate.cost - 99
  {
    ProfitIff(t, estimate, query, delivered, fee);
    assert t.percentage * estimate.cost / 100 >= 0 by { MulMonotone(estimate.cost, 0, t.percentage); }
  }

  function RelayedFees(t: Terms, m: Market, queries: seq<Query>, upto: nat): nat
    requires m.estimates.Some? && upto <= |Verdicts(t, m, queries)|
  {
    if upto == 0 then 0
    else RelayedFees(t, m, queries, upto - 1)
         + if Verdicts(t, m, queries)[upto - 1].Relay? && m.fee(upto - 1).Some? then m.fee(upto - 1).value else 0
  }

  function RelayedCosts(t: Terms, m: Market, queries: seq<Query>, upto: nat): nat
    requires m.estimates.Some? && upto <= |Verdicts(t, m, queries)|
  {
    if upto == 0 then 0
    else RelayedCosts(t, m, queries, upto - 1)
         + if Verdicts(t, m, queries)[upto - 1].Relay? then m.estimates.value[upto - 1].cost else 0
  }

  /** Over any batch the fees collected cover the estimated costs with the margin, up to a cent of a
      percent for each message judged. */
  lemma {:induction false} BatchProfit(t: Terms, m: Market, queries: seq<Query>, upto: nat)
    requires m.estimates.Some? && upto <= |Verdicts(t, m, queries)|
    requires t.percentage > 0 && !t.toCoprocessor
    ensures RelayedFees(t, m, queries, upto) >= RelayedCosts(t, m, queries, upto)
    ensures 100 * RelayedFees(t, m, queries, upto) + 99 * upto
         >= (100 + t.percentage) * RelayedCosts(t, m, queries, upto)
  {
    if upto > 0 {
      BatchProfit(t, m, queries, upto - 1);
      var i := upto - 1;
      var before := RelayedCosts(t, m, queries, i);
      if Verdicts(t, m, queries)[i].Relay? {
        RelayedPays(t, m.estimates.value[i], queries[i], m.delivered(i), m.fee(i));
        Distribute(100 + t.percentage, before, m.estimates.value[i].cost);
      }
    }
  }
}
