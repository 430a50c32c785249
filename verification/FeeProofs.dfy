/** Preparing fee claims: receipts are grouped by source chain, the destination's state is awaited
    at a height past every delivery, and each group's keys are proved in chunks of fifty. */
module FeeProofs {
  import opened Prelude
  import opened Ismp
  import opened DeliveryKeys
  import opened Grouping

  // ----- waiting -----

  datatype Wait = Over(now: nat) | Failed | Unfinished

  /** The first `n` readings of the clock are all within the period. */
  predicate Within(clock: seq<Option<nat>>, n: nat, end: nat) {
    n <= |clock| && forall i :: 0 <= i < n ==> clock[i].Some? && clock[i].value <= end
  }

  /** `wait_for_challenge_period`: returns at the first reading of chain time strictly past the period, or fails
      at a reading that fails before. It sleeps once before each reading: first for the whole period, then for
      what is left of it. */
  method WaitForChallengePeriod(challengePeriod: Option<nat>, lastUpdate: nat, clock: seq<Option<nat>>)
    returns (r: Wait, sleeps: seq<nat>)
    ensures challengePeriod.None? ==> r.Failed? && sleeps == []
    ensures challengePeriod.Some? ==>
              var period, end, k := challengePeriod.value, lastUpdate + challengePeriod.value, |sleeps| - 1;
              && k >= 0 && Within(clock, k, end) && sleeps[0] == period
              && (forall i :: 1 <= i <= k ==> sleeps[i] == period - SaturatingSub(clock[i - 1].value, lastUpdate))
              && match r
                 case Over(now) => k < |clock| && clock[k] == Some(now) && now > end
                 case Failed => k < |clock| && clock[k].None?
                 case Unfinished => k == |clock|
  {
    sleeps := [];
    if challengePeriod.None? {
      return Failed, sleeps;
    }
    var period := challengePeriod.value;
    sleeps := [period];
    if clock == [] {
      return Unfinished, sleeps;
    }
    if clock[0].None? {
      return Failed, sleeps;
    }
    var now := clock[0].value;
    var delay := SaturatingSub(now, lastUpdate);
    var i := 1;
    while delay <= period
      invariant 1 <= i <= |clock| && |sleeps| == i && Within(clock, i - 1, lastUpdate + period)
      invariant Some(now) == clock[i - 1] && delay == SaturatingSub(now, lastUpdate)
      invariant sleeps[0] == period
      invariant forall j :: 1 <= j < i ==> sleeps[j] == period - SaturatingSub(clock[j - 1].value, lastUpdate)
      decreases |clock| - i
    {
      sleeps := sleeps + [period - delay];
      if i == |clock| {
        return Unfinished, sleeps;
      }
      if clock[i].None? {
        return Failed, sleeps;
      }
      now := clock[i].value;
      delay := SaturatingSub(now, lastUpdate);
      i := i + 1;
    }
    r := Over(now);
  }

  /** No update in the stream is at or above `height`. */
  predicate NoneReaches(stream: seq<Option<nat>>, height: nat) {
    forall i :: 0 <= i < |stream| && stream[i].Some? ==> stream[i].value < height
  }

  /** The first update in the stream at or above `height` has height `found`. */
  predicate FirstReaching(stream: seq<Option<nat>>, height: nat, found: nat) {
    found >= height && exists i :: 0 <= i < |stream| && stream[i] == Some(found) && NoneReaches(stream[..i], height)
  }

  /** What comes of waiting for a height: the latest one if it suffices and its update is found, otherwise the
      first update that reaches it. */
  predicate Awaited(latest: Option<nat>, observed: bool, stream: seq<Option<nat>>, height: nat, r: Option<nat>) {
    match (latest, r)
    case (None, _) => r.None?
    case (Some(l), Some(h)) => if l >= height then observed && h == l else FirstReaching(stream, height, h)
    case (Some(l), None) => if l >= height then !observed else NoneReaches(stream, height)
  }

  /** `wait_for_state_machine_update`: the height returned is never below the one asked for. */
  method WaitForStateMachineUpdate(latest: Option<nat>, observed: bool, stream: seq<Option<nat>>, height: nat)
    returns (r: Option<nat>)
    ensures r.Some? ==> r.value >= height
    ensures Awaited(latest, observed, stream, height, r)
  {
    if latest.None? {
      return None;
    }
    if latest.value >= height {
      return if observed then latest else None;
    }
    var i := 0;
    while i < |stream|
      invariant 0 <= i <= |stream|
      invariant forall j :: 0 <= j < i && stream[j].Some? ==> stream[j].value < height
    {
      if stream[i].Some? && stream[i].value >= height {
        assert NoneReaches(stream[..i], height);
        return stream[i];
      }
      i := i + 1;
    }
    r := None;
  }

  // ----- preparing a batch of receipts -----

  /** The receipts of one channel item, grouped by source, and the height to prove them at. */
  method PrepareBatch(receipts: seq<TxReceipt>, latest: Option<nat>, observed: bool, stream: seq<Option<nat>>)
    returns (destHeight: Option<nat>, groups: map<StateMachine, seq<TxReceipt>>)
    requires receipts != []
    ensures IsGrouping(groups, (r: TxReceipt) => r.query.source, receipts)
    ensures destHeight.Some? ==> forall i :: 0 <= i < |receipts| ==> receipts[i].height <= destHeight.value
    ensures exists j :: && 0 <= j < |receipts| && Awaited(latest, observed, stream, receipts[j].height, destHeight)
                        && forall i :: 0 <= i < |receipts| ==> receipts[i].height <= receipts[j].height
  {
    var deliveryHeight := receipts[0].height;
    var i := 1;
    while i < |receipts|
      invariant 1 <= i <= |receipts|
      invariant forall j :: 0 <= j < i ==> receipts[j].height <= deliveryHeight
      invariant exists j :: 0 <= j < i && receipts[j].height == deliveryHeight
    {
      if receipts[i].height >= deliveryHeight {
        deliveryHeight := receipts[i].height;
      }
      i := i + 1;
    }
    groups := GroupBy((r: TxReceipt) => r.query.source, receipts);
    destHeight := WaitForStateMachineUpdate(latest, observed, stream, deliveryHeight);
  }

  // ----- proving a group -----

  datatype WithdrawalProof = WithdrawalProof(commitments: seq<Key>, sourceProof: Proof, destProof: Proof)

  /** A chain that proves storage keys at a height; `storageKeys` tells which keys a delivery needs
      (commitments on the source, receipts on the destination). Answers may differ call by call. */
  datatype Prover = Prover(
    id: StateMachineId,
    storageKeys: Key -> seq<Bytes>,
    prove: (nat, nat, seq<Bytes>) -> Option<Bytes>)

  function StorageKeys(p: Prover, keys: seq<Key>): seq<Bytes> { Flatten(Map(p.storageKeys, keys)) }

  /** The proof `p` gave, at this height, for exactly these keys in this order. */
  predicate Proves(p: Prover, call: nat, height: nat, keys: seq<Key>, proof: Proof) {
    && proof.height == StateMachineHeight(p.id, height)
    && p.prove(call, height, StorageKeys(p, keys)) == Some(proof.proof)
  }

  function Commitments(proofs: seq<WithdrawalProof>): seq<seq<Key>> {
    Map((p: WithdrawalProof) => p.commitments, proofs)
  }

  /** One of the two chains does not prove the keys of chunk `call`. */
  predicate Unproved(source: Prover, dest: Prover, sourceHeight: nat, destHeight: nat, call: nat, keys: seq<Key>) {
    || source.prove(call, sourceHeight, StorageKeys(source, keys)).None?
    || dest.prove(call, destHeight, StorageKeys(dest, keys)).None?
  }

  /** `query_state_proofs`. */
  method QueryStateProofs(source: Prover, dest: Prover, sourceHeight: nat, destHeight: nat, keys: seq<Key>)
    returns (r: Option<seq<WithdrawalProof>>)
    ensures r.Some? ==>
              && Commitments(r.value) == Chunks(keys, 50)
              && forall i :: 0 <= i < |r.value| ==>
                   && Proves(source, i, sourceHeight, r.value[i].commitments, r.value[i].sourceProof)
                   && Proves(dest, i, destHeight, r.value[i].commitments, r.value[i].destProof)
    ensures r.None? ==>
              exists i :: 0 <= i < |Chunks(keys, 50)|
                          && Unproved(source, dest, sourceHeight, destHeight, i, Chunks(keys, 50)[i])
  {
    var chunks := Chunks(keys, 50);
    var proofs := [];
    var i := 0;
    while i < |chunks|
      invariant 0 <= i <= |chunks|
      invariant Commitments(proofs) == chunks[..i]
      invariant forall j :: 0 <= j < i ==>
                  && Proves(source, j, sourceHeight, proofs[j].commitments, proofs[j].sourceProof)
                  && Proves(dest, j, destHeight, proofs[j].commitments, proofs[j].destProof)
    {
      var chunk := chunks[i];
      var sourceKeys, destKeys, commitments := [], [], [];
      var j := 0;
      while j < |chunk|
        invariant 0 <= j <= |chunk|
        invariant sourceKeys == Map(source.storageKeys, chunk[..j])
        invariant destKeys == Map(dest.storageKeys, chunk[..j])
        invariant commitments == chunk[..j]
      {
        assert chunk[..j + 1] == chunk[..j] + [chunk[j]];
        sourceKeys := sourceKeys + [source.storageKeys(chunk[j])];
        destKeys := destKeys + [dest.storageKeys(chunk[j])];
        commitments := commitments + [chunk[j]];
        j := j + 1;
      }
      assert chunk[..|chunk|] == chunk;
      var sourceProof := source.prove(i, sourceHeight, Flatten(sourceKeys));
      if sourceProof.None? {
        return None;
      }
      var destProof := dest.prove(i, destHeight, Flatten(destKeys));
      if destProof.None? {
        return None;
      }
      var proof := WithdrawalProof(
        commitments,
        Proof(StateMachineHeight(source.id, sourceHeight), sourceProof.value),
        Proof(StateMachineHeight(dest.id, destHeight), destProof.value));
      proofs := proofs + [proof];
      assert Commitments(proofs) == chunks[..i] + [chunk];
      i := i + 1;
    }
    assert chunks[..|chunks|] == chunks;
    r := Some(proofs);
  }

  /** `create_proof_from_receipts`. */
  method CreateProofFromReceipts(source: Prover, dest: Prover, sourceHeight: nat, destHeight: nat,
                                 receipts: seq<TxReceipt>)
    returns (r: Option<seq<WithdrawalProof>>)
    ensures r.Some? ==> Commitments(r.value) == Chunks(Map(KeyOf, receipts), 50)
    ensures r.Some? ==> forall i :: 0 <= i < |r.value| ==>
              && Proves(source, i, sourceHeight, r.value[i].commitments, r.value[i].sourceProof)
              && Proves(dest, i, destHeight, r.value[i].commitments, r.value[i].destProof)
    ensures r.None? ==>
              exists i :: 0 <= i < |Chunks(Map(KeyOf, receipts), 50)|
                          && Unproved(source, dest, sourceHeight, destHeight, i, Chunks(Map(KeyOf, receipts), 50)[i])
  {
    r := QueryStateProofs(source, dest, sourceHeight, destHeight, Map(KeyOf, receipts));
  }

  /** The proofs of one group: at most fifty keys each, together the group's keys in order. */
  lemma GroupProofs(proofs: seq<WithdrawalProof>, receipts: seq<TxReceipt>)
    requires Commitments(proofs) == Chunks(Map(KeyOf, receipts), 50)
    ensures Flatten(Commitments(proofs)) == Map(KeyOf, receipts)
    ensures forall i :: 0 <= i < |proofs| ==> 1 <= |proofs[i].commitments| <= 50
  {
    ChunksPartition(Map(KeyOf, receipts), 50);
    forall i | 0 <= i < |proofs|
      ensures 1 <= |proofs[i].commitments| <= 50
    {
      assert Commitments(proofs)[i] == proofs[i].commitments;
    }
  }

  /** The keys proved for all groups, visited in some order. */
  function AllKeys(proofs: map<StateMachine, seq<WithdrawalProof>>, order: seq<StateMachine>): seq<Key>
    requires forall i :: 0 <= i < |order| ==> order[i] in proofs
  {
    if order == [] then []
    else Flatten(Commitments(proofs[order[0]])) + AllKeys(proofs, order[1..])
  }

  /** Whatever order the groups are processed in, their proofs together hold exactly one key per
      receipt. */
  lemma ProofsCoverEveryReceipt(
    receipts: seq<TxReceipt>, proofs: map<StateMachine, seq<WithdrawalProof>>, order: seq<StateMachine>)
    requires NoDuplicates(order)
    requires forall i :: 0 <= i < |order| ==> order[i] in proofs
    requires forall i :: 0 <= i < |receipts| ==> receipts[i].query.source in order
    requires forall s :: s in proofs ==>
               Commitments(proofs[s]) == Chunks(Map(KeyOf, Group((r: TxReceipt) => r.query.source, receipts, s)), 50)
    ensures multiset(AllKeys(proofs, order)) == multiset(Map(KeyOf, receipts))
  {
    var source := (r: TxReceipt) => r.query.source;
    AllKeysLaidOut(receipts, proofs, order);
    GroupsPartition(source, receipts, order);
    MapPermutation(KeyOf, LayOut(source, receipts, order), receipts);
  }

  lemma {:induction false} AllKeysLaidOut(
    receipts: seq<TxReceipt>, proofs: map<StateMachine, seq<WithdrawalProof>>, order: seq<StateMachine>)
    requires forall i :: 0 <= i < |order| ==> order[i] in proofs
    requires forall s :: s in proofs ==>
               Commitments(proofs[s]) == Chunks(Map(KeyOf, Group((r: TxReceipt) => r.query.source, receipts, s)), 50)
    ensures AllKeys(proofs, order) == Map(KeyOf, LayOut((r: TxReceipt) => r.query.source, receipts, order))
    decreases |order|
  {
    if order == [] {
    } else {
      var source := (r: TxReceipt) => r.query.source;
      AllKeysLaidOut(receipts, proofs, order[1..]);
      GroupProofs(proofs[order[0]], Group(source, receipts, order[0]));
      MapConcat(KeyOf, Group(source, receipts, order[0]), LayOut(source, receipts, order[1..]));
    }
  }
}
