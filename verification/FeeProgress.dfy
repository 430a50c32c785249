/** What the accumulation tasks get done besides losing nothing: which keys a task reads, checks, proves and
    deletes over every run, and what is claimed and gone when every await succeeds. */
module FeeProgress {
  import opened Prelude
  import opened Ismp
  import opened DeliveryKeys
  import opened Deliveries
  import opened FeeLedger
  import opened FeeProtocol

  // ----- what a task holds, over every run -----

  /** The keys whose check came out as `claimed`, in order. */
  function Answered(keys: seq<Key>, seen: seq<bool>, claimed: bool): seq<Key>
    requires |seen| <= |keys|
  {
    if seen == [] then []
    else
      var n := |seen| - 1;
      Answered(keys, seen[..n], claimed) + if seen[n] == claimed then [keys[n]] else []
  }

  /** Proofs of at most fifty keys each. */
  predicate Sized(proofs: seq<seq<Key>>) { forall i :: 0 <= i < |proofs| ==> 1 <= |proofs[i]| <= 50 }

  /** These are the last of the proofs a manual task has to submit, after `done` others. */
  ghost predicate Left(claim: Claim, done: seq<seq<Key>>, proofs: seq<seq<Key>>) {
    && |claim.seen| == |claim.read| && Sized(proofs)
    && Flatten(done + proofs) == Answered(claim.read, claim.seen, false)
  }

  /** What a task holds is what its history calls for: the proofs of an automatic task are of the keys of its
      group; a manual one has checked its keys one by one in order, and submits those found unclaimed. */
  ghost predicate TaskTrue(t: Task) {
    match t
    case Submitting(group, proofs, submitted) => submitted + Flatten(proofs) == group && Sized(proofs)
    case Checking(claim, unread, claimed, unclaimed) =>
      && |claim.seen| <= |claim.read| && unread == claim.read[|claim.seen|..]
      && claimed == Answered(claim.read, claim.seen, true)
      && unclaimed == Answered(claim.read, claim.seen, false)
    case Proving(claim, proofs) => exists done :: Left(claim, done, proofs)
    case Settling(claim, accepted, proofs) => exists done :: Left(claim, done, [accepted] + proofs)
    case Deleting(_) => true
    case Finished => true
  }

  ghost predicate TasksTrue(tasks: seq<Task>) { forall i :: 0 <= i < |tasks| ==> TaskTrue(tasks[i]) }

  lemma AnsweredSnoc(keys: seq<Key>, seen: seq<bool>, x: bool, claimed: bool)
    requires |seen| < |keys|
    ensures Answered(keys, seen + [x], claimed)
         == Answered(keys, seen, claimed) + if x == claimed then [keys[|seen|]] else []
  {
    assert (seen + [x])[..|seen|] == seen;
  }

  lemma ChunksSized(keys: seq<Key>)
    ensures Sized(Chunks(keys, PROOF_SIZE)) && Flatten(Chunks(keys, PROOF_SIZE)) == keys
  {
    ChunksPartition(keys, PROOF_SIZE);
  }

  lemma SubmittingTrue(group: seq<Key>, proofs: seq<seq<Key>>, submitted: seq<Key>)
    requires TaskTrue(Submitting(group, proofs, submitted)) && proofs != []
    ensures TaskTrue(Submitting(group, proofs[1..], submitted + proofs[0]))
  {
    assert submitted + (proofs[0] + Flatten(proofs[1..])) == (submitted + proofs[0]) + Flatten(proofs[1..]);
  }

  lemma CheckedTrue(claim: Claim, unread: seq<Key>, claimed: seq<Key>, unclaimed: seq<Key>, found: bool)
    requires TaskTrue(Checking(claim, unread, claimed, unclaimed)) && unread != []
    ensures TaskTrue(Checking(Checked(claim, found), unread[1..],
                              claimed + (if found then [unread[0]] else []),
                              unclaimed + (if found then [] else [unread[0]])))
  {
    AnsweredSnoc(claim.read, claim.seen, found, true);
    AnsweredSnoc(claim.read, claim.seen, found, false);
  }

  lemma ProvingTrue(claim: Claim, proofs: seq<seq<Key>>)
    requires TaskTrue(Proving(claim, proofs)) && proofs != []
    ensures TaskTrue(Settling(claim, proofs[0], proofs[1..]))
  {
    assert [proofs[0]] + proofs[1..] == proofs;
  }

  lemma SettlingTrue(claim: Claim, accepted: seq<Key>, proofs: seq<seq<Key>>)
    requires TaskTrue(Settling(claim, accepted, proofs))
    ensures TaskTrue(Proving(claim, proofs))
  {
    var done :| Left(claim, done, [accepted] + proofs);
    assert (done + [accepted]) + proofs == done + ([accepted] + proofs);
    assert forall i :: 0 <= i < |proofs| ==> proofs[i] == ([accepted] + proofs)[i + 1];
    assert Left(claim, done + [accepted], proofs);
  }

  lemma PlanTrue(claim: Claim, claimed: seq<Key>, unclaimed: seq<Key>)
    requires TaskTrue(Checking(claim, [], claimed, unclaimed))
    ensures Left(claim, [], Chunks(unclaimed, PROOF_SIZE)) && TaskTrue(Proving(claim, Chunks(unclaimed, PROOF_SIZE)))
  {
    ChunksSized(unclaimed);
    assert [] + Chunks(unclaimed, PROOF_SIZE) == Chunks(unclaimed, PROOF_SIZE);
    assert Left(claim, [], Chunks(unclaimed, PROOF_SIZE));
  }

  lemma CheckingTrue(s: State, i: nat, answer: Answer)
    requires TasksTrue(s.tasks) && i < |s.tasks| && s.tasks[i].Checking?
    ensures TasksTrue(AdvanceTask(s, i, answer).tasks)
  {
    var c := s.tasks[i];
    assert TaskTrue(c);
    if c.unread == [] {
      PlanTrue(c.claim, c.claimed, c.unclaimed);
    } else {
      CheckedTrue(c.claim, c.unread, c.claimed, c.unclaimed, Claimed(s.ledger, c.unread[0]));
      assert c.claimed + [] == c.claimed && c.unclaimed + [] == c.unclaimed;
    }
  }

  lemma SetTrue(s: State, i: nat, t: Task)
    requires TasksTrue(s.tasks) && i < |s.tasks| && TaskTrue(t)
    ensures TasksTrue(SetTask(s, i, t).tasks)
  {
  }

  lemma AdvanceTrue(s: State, i: nat, answer: Answer)
    requires TasksTrue(s.tasks) && i < |s.tasks|
    ensures TasksTrue(AdvanceTask(s, i, answer).tasks)
  {
    var c, next := s.tasks[i], AdvanceTask(s, i, answer).tasks;
    assert TaskTrue(c);
    if c.Checking? {
      CheckingTrue(s, i, answer);
    } else {
      if c.Submitting? && c.proofs != [] { SubmittingTrue(c.group, c.proofs, c.submitted); }
      if c.Proving? && c.proofs != [] { ProvingTrue(c.claim, c.proofs); }
      if c.Settling? { SettlingTrue(c.claim, c.accepted, c.proofs); }
      SetTrue(s, i, next[i]);
      assert next == s.tasks[i := next[i]];
    }
  }

  lemma AddTrue(tasks: seq<Task>, t: Task)
    requires TasksTrue(tasks) && TaskTrue(t)
    ensures TasksTrue(tasks + [t])
  {
  }

  lemma StartTrue(s: State, a: Action)
    requires TasksTrue(s.tasks) && (a.StartAutomatic? || a.StartManual?)
    ensures TasksTrue(Step(s, a).tasks)
  {
    var t := Step(s, a).tasks[|s.tasks|];
    if a.StartAutomatic? {
      ChunksSized(KeysOf(a.group));
      assert [] + Flatten(Chunks(KeysOf(a.group), PROOF_SIZE)) == KeysOf(a.group);
    }
    AddTrue(s.tasks, t);
  }

  lemma StepTrue(s: State, a: Action)
    requires TasksTrue(s.tasks)
    ensures TasksTrue(Step(s, a).tasks)
  {
    if a.StartAutomatic? || a.StartManual? {
      StartTrue(s, a);
    } else if a.Advance? && a.task < |s.tasks| {
      AdvanceTrue(s, a.task, a.answer);
    } else if a.Abort? && a.task < |s.tasks| {
      SetTrue(s, a.task, Finished);
    }
  }

  /** Over every run, whatever is interleaved, fails or crashes, each task holds what its history calls for. */
  lemma {:induction false} TasksAlwaysTrue(ledger: Ledger, actions: seq<Action>)
    ensures TasksTrue(Run(Start(ledger), actions).tasks)
  {
    if actions == [] {
    } else {
      TasksAlwaysTrue(ledger, actions[..|actions| - 1]);
      StepTrue(Run(Start(ledger), actions[..|actions| - 1]), actions[|actions| - 1]);
    }
  }

  // ----- the stations of a manual task -----

  /** In every reachable state a manual task starts out with exactly the keys stored for its pair of chains,
      requests and responses, all still to be checked. */
  lemma StartsWithStored(ledger: Ledger, actions: seq<Action>, source: StateMachine, dest: StateMachine, key: Key)
    ensures var s := Run(Start(ledger), actions);
            var tasks := Step(s, StartManual(source, dest)).tasks;
            && |tasks| == |s.tasks| + 1 && tasks[..|s.tasks|] == s.tasks && tasks[|s.tasks|].Checking?
            && var t := tasks[|s.tasks|];
               && t.unread == t.claim.read && t.claim.source == source && t.claim.dest == dest
               && (key in t.claim.read <==>
                   exists i :: 0 <= i < |s.rows| && s.rows[i].hash == KeyHash(key)
                               && s.rows[i].source == source && s.rows[i].dest == dest)
  {
    DeliveryConservation(ledger, actions);
    var s := Run(Start(ledger), actions);
    ReadsExactlyStored(s.rows, source, dest, PostRequestDelivery, key);
    ReadsExactlyStored(s.rows, source, dest, PostResponseDelivery, key);
  }

  /** One check puts down whether hyperbridge has the key claimed at that moment, and changes nothing else; a
      failed query or a key hyperbridge does not know ends the task. */
  lemma CheckIff(s: State, i: nat, answer: Answer)
    requires i < |s.tasks| && s.tasks[i].Checking? && s.tasks[i].unread != []
    ensures var t, c := Step(s, Advance(i, answer)), s.tasks[i];
            && t.rows == s.rows && t.ledger == s.ledger && |t.tasks| == |s.tasks|
            && (t.tasks[i].Finished? <==> answer.Failure? || !Known(s.ledger, c.unread[0]))
            && (!t.tasks[i].Finished? ==>
                  && t.tasks[i].Checking? && t.tasks[i].unread == c.unread[1..]
                  && t.tasks[i].claim == c.claim.(seen := c.claim.seen + [Claimed(s.ledger, c.unread[0])]))
  {
  }

  /** The next proof of either task is accepted exactly if the await succeeds and hyperbridge knows one of its keys
      as not claimed. If it is not, the task is over and nothing else has changed; a manual task that fails to
      delete the rows of an accepted proof goes on all the same. */
  lemma ProofIff(s: State, i: nat, answer: Answer)
    requires i < |s.tasks| && (s.tasks[i].Submitting? || s.tasks[i].Proving?) && s.tasks[i].proofs != []
    ensures var t, c := Step(s, Advance(i, answer)), s.tasks[i];
            && t.rows == s.rows && |t.tasks| == |s.tasks|
            && (!t.tasks[i].Finished? <==>
                answer.Success? && exists k :: k in c.proofs[0] && Known(s.ledger, k) && !Claimed(s.ledger, k))
            && (t.tasks[i].Finished? ==> t.ledger == s.ledger)
            && (t.tasks[i].Finished? || t.tasks[i] ==
                  if c.Proving? then Settling(c.claim, c.proofs[0], c.proofs[1..])
                  else Submitting(c.group, c.proofs[1..], c.submitted + c.proofs[0]))
            && (!t.tasks[i].Finished? && c.Proving? ==>
                  Step(t, Advance(i, Failure)) == t.(tasks := t.tasks[i := Proving(c.claim, c.proofs[1..])]))
  {
    var live := Live(s.ledger, s.tasks[i].proofs[0]);
    if k :| k in s.tasks[i].proofs[0] && Known(s.ledger, k) && !Claimed(s.ledger, k) {
      assert k in live;
    }
    if live != [] {
      assert live[0] in s.tasks[i].proofs[0];
    }
  }

  /** When a manual task has checked all its keys, it goes on to prove exactly those it found unclaimed, in the
      order read and at most fifty at a time, and leaves exactly those it found claimed to be deleted. */
  lemma PlanIff(ledger: Ledger, actions: seq<Action>, i: nat, answer: Answer)
    requires var tasks := Run(Start(ledger), actions).tasks;
             i < |tasks| && tasks[i].Checking? && tasks[i].unread == []
    ensures var s := Run(Start(ledger), actions);
            var tasks, claim := Step(s, Advance(i, answer)).tasks, s.tasks[i].claim;
            && |claim.seen| == |claim.read| && |tasks| == |s.tasks| + 1
            && tasks[|s.tasks|] == Deleting(Answered(claim.read, claim.seen, true))
            && tasks[i].Proving? && tasks[i].claim == claim && Sized(tasks[i].proofs)
            && Flatten(tasks[i].proofs) == Answered(claim.read, claim.seen, false)
  {
    TasksAlwaysTrue(ledger, actions);
    var t := Run(Start(ledger), actions).tasks[i];
    assert TaskTrue(t);
    PlanTrue(t.claim, t.claimed, t.unclaimed);
    assert [] + Chunks(t.unclaimed, PROOF_SIZE) == Chunks(t.unclaimed, PROOF_SIZE);
  }

  /** What cuts in on the tasks: the process dies and all are gone, one breaks off, or hyperbridge records more
      commitments and claims on its own. The table is left alone each time. */
  lemma InterruptIff(s: State, i: nat, ledger: Ledger)
    ensures Step(s, Crash).tasks == [] && Step(s, Crash) == s.(tasks := [])
    ensures i < |s.tasks| ==> Step(s, Abort(i)) == s.(tasks := s.tasks[..i] + [Finished] + s.tasks[i + 1..])
    ensures Step(s, Foreign(ledger)) == s.(ledger := Step(s, Foreign(ledger)).ledger)
    ensures (forall k :: (Known(s.ledger, k) ==> Known(ledger, k)) && (Claimed(s.ledger, k) ==> Claimed(ledger, k))) ==>
              Step(s, Foreign(ledger)).ledger == ledger
  {
    if i < |s.tasks| {
      assert s.tasks[i := Finished] == s.tasks[..i] + [Finished] + s.tasks[i + 1..];
    }
  }

  // ----- when every await succeeds -----

  /** Task `i` gets the same answer `n` times. */
  ghost function Go(s: State, i: nat, answer: Answer, n: nat): State {
    Iterate((x: State) => Step(x, Advance(i, answer)), s, n)
  }

  lemma GoOne(s: State, i: nat, answer: Answer, n: nat)
    ensures Go(s, i, answer, n + 1) == Go(Step(s, Advance(i, answer)), i, answer, n)
    ensures Go(s, i, answer, 0) == s
  {
  }

  lemma GoSplit(s: State, i: nat, answer: Answer, m: nat, n: nat)
    ensures Go(s, i, answer, m + n) == Go(Go(s, i, answer, m), i, answer, n)
  {
    IterateSplit((x: State) => Step(x, Advance(i, answer)), s, m, n);
  }

  function Advances(i: nat, answer: Answer, n: nat): seq<Action> { seq(n, _ => Advance(i, answer)) }

  lemma {:induction false} RunIsFold(s: State, actions: seq<Action>)
    ensures Run(s, actions) == Fold(Step, s, actions)
  {
    if actions == [] {
    } else {
      RunIsFold(s, actions[..|actions| - 1]);
    }
  }

  lemma GoIsRun(s: State, i: nat, answer: Answer, n: nat)
    ensures Go(s, i, answer, n) == Run(s, Advances(i, answer, n))
  {
    IterateIsFold(Step, (x: State) => Step(x, Advance(i, answer)), s, Advance(i, answer), n);
    RunIsFold(s, Advances(i, answer, n));
  }

  /** Where hyperbridge puts down a claim: the kind of message and its commitment. */
  predicate SameSlot(a: Key, b: Key) { a.RequestKey? == b.RequestKey? && CommitmentOf(a) == CommitmentOf(b) }

  /** Nothing is claimed by a proof that holds no key for it. */
  lemma ClaimedByOwn(l: Ledger, keys: seq<Key>, paid: set<Key>, key: Key)
    requires Claimed(Accumulated(l, keys, paid), key) && !Claimed(l, key)
    ensures exists k :: k in keys && SameSlot(k, key)
  {
    var live := Live(l, keys);
    if key.RequestKey? {
      assert RequestKey(key.commitment) in live;
      assert key in keys && SameSlot(key, key);
    } else {
      var k :| k in live && k.ResponseKey? && k.responseCommitment == key.responseCommitment;
      assert k in keys && SameSlot(k, key);
    }
  }

  lemma KnownStays(l: Ledger, keys: seq<Key>, paid: set<Key>, key: Key)
    ensures Known(Accumulated(l, keys, paid), key) <==> Known(l, key)
  {
  }

  /** How many of the proofs are accepted: all up to the first that holds nothing left to claim. */
  ghost function Accepting(l: Ledger, proofs: seq<seq<Key>>, paid: set<Key>): nat
    ensures Accepting(l, proofs, paid) <= |proofs|
    decreases |proofs|
  {
    if proofs == [] || Live(l, proofs[0]) == [] then 0
    else 1 + Accepting(Accumulated(l, proofs[0], paid), proofs[1..], paid)
  }

  /** If no two keys are for the same slot and none is claimed yet, that is all of them. */
  lemma {:induction false} AcceptingAll(l: Ledger, proofs: seq<seq<Key>>, paid: set<Key>)
    requires Sized(proofs)
    requires forall k :: k in Flatten(proofs) ==> Known(l, k) && !Claimed(l, k)
    requires Distinct(Flatten(proofs))
    ensures Accepting(l, proofs, paid) == |proofs|
    decreases |proofs|
  {
    if proofs == [] {
    } else {
      var first, rest, all := proofs[0], proofs[1..], Flatten(proofs);
      assert all == first + Flatten(rest);
      assert first[0] in all && first[0] in Live(l, first);
      var m := Accumulated(l, first, paid);
      forall k | k in Flatten(rest)
        ensures Known(m, k) && !Claimed(m, k)
      {
        assert k in all;
        KnownStays(l, first, paid, k);
        if Claimed(m, k) {
          ClaimedByOwn(l, first, paid, k);
          var q :| q in first && SameSlot(q, k);
          ApartFrom(first, Flatten(rest), q, k);
        }
      }
      DistinctRest(first, Flatten(rest));
      AcceptingAll(m, rest, paid);
    }
  }

  ghost predicate Distinct(keys: seq<Key>) {
    forall i, j :: 0 <= i < j < |keys| ==> !SameSlot(keys[i], keys[j])
  }

  lemma ApartFrom(a: seq<Key>, b: seq<Key>, x: Key, y: Key)
    requires Distinct(a + b) && x in a && y in b
    ensures !SameSlot(x, y)
  {
    var i :| 0 <= i < |a| && a[i] == x;
    var j :| 0 <= j < |b| && b[j] == y;
    assert (a + b)[i] == x && (a + b)[|a| + j] == y;
  }

  lemma DistinctRest(a: seq<Key>, b: seq<Key>)
    requires Distinct(a + b)
    ensures Distinct(b)
  {
    forall i, j | 0 <= i < j < |b| ensures !SameSlot(b[i], b[j]) {
      assert (a + b)[|a| + i] == b[i] && (a + b)[|a| + j] == b[j];
    }
  }

  /** Hyperbridge knows all these keys, and their fees are paid. */
  ghost predicate Payable(l: Ledger, keys: seq<Key>, paid: set<Key>) {
    forall k :: k in keys ==> Known(l, k) && k in paid
  }

  /** Exactly the rows of these keys are gone. */
  ghost predicate Gone(before: seq<Row>, keys: seq<Key>, after: seq<Row>) {
    forall k :: Stored(after, k) <==> Stored(before, k) && k !in keys
  }

  lemma DeletedGone(rows: seq<Row>, keys: seq<Key>)
    ensures Gone(rows, keys, Without(rows, Hashes(keys)))
  {
    forall k ensures Stored(Without(rows, Hashes(keys)), k) <==> Stored(rows, k) && k !in keys {
      DeleteExact(rows, keys, k);
    }
  }

  /** These keys were claimed in a proof, and their rows are gone if `gone`. */
  ghost predicate Took(s: State, t: State, keys: seq<Key>, gone: bool) {
    && Extends(s.ledger, t.ledger) && (forall k :: k in keys ==> Claimed(t.ledger, k))
    && if gone then Gone(s.rows, keys, t.rows) else t.rows == s.rows
  }

  /** What becomes of a list of proofs: the accepted ones are claimed, and gone from the table if `gone`. */
  ghost predicate Submits(s: State, t: State, proofs: seq<seq<Key>>, n: nat, gone: bool)
    requires n <= |proofs|
  {
    Took(s, t, Flatten(proofs[..n]), gone)
  }

  lemma TookNothing(s: State, t: State, gone: bool)
    requires t.ledger == s.ledger && t.rows == s.rows
    ensures Took(s, t, [], gone)
  {
  }

  lemma TookThen(s: State, u: State, t: State, a: seq<Key>, b: seq<Key>, gone: bool)
    requires Took(s, u, a, gone) && Took(u, t, b, gone)
    ensures Took(s, t, a + b, gone)
  {
  }

  lemma SubmitsOneMore(s: State, u: State, t: State, proofs: seq<seq<Key>>, n: nat, gone: bool)
    requires proofs != [] && n < |proofs| && Took(s, u, proofs[0], gone) && Submits(u, t, proofs[1..], n, gone)
    ensures Submits(s, t, proofs, n + 1, gone)
  {
    assert proofs[..n + 1][1..] == proofs[1..][..n] && proofs[..n + 1][0] == proofs[0];
    TookThen(s, u, t, proofs[0], Flatten(proofs[1..][..n]), gone);
  }

  /** An accepted proof whose keys are all known and paid for is claimed. */
  lemma AcceptPaid(s: State, keys: seq<Key>, paid: set<Key>)
    requires Payable(s.ledger, keys, paid)
    ensures Took(s, Accept(s, keys, paid), keys, false)
  {
    AccumulateExtends(s.ledger, keys, paid);
    forall k | k in keys ensures Claimed(Accumulated(s.ledger, keys, paid), k) {
      AcceptedClaimsIff(s.ledger, keys, paid, k);
    }
  }

  /** The task's next proof is accepted, and its rows are deleted. */
  ghost predicate OneProved(s: State, i: nat, claim: Claim, proofs: seq<seq<Key>>, paid: set<Key>, t: State)
    requires i < |s.tasks| && proofs != []
  {
    && t.tasks == s.tasks[i := Proving(claim, proofs[1..])] && t.ledger == Accumulated(s.ledger, proofs[0], paid)
    && Took(s, t, proofs[0], true)
  }

  lemma AcceptStep(s: State, i: nat, claim: Claim, proofs: seq<seq<Key>>, paid: set<Key>)
    requires i < |s.tasks| && s.tasks[i] == Proving(claim, proofs) && proofs != [] && Live(s.ledger, proofs[0]) != []
    ensures Step(s, Advance(i, Success(paid)))
         == SetTask(Accept(s, proofs[0], paid), i, Settling(claim, proofs[0], proofs[1..]))
  {
  }

  lemma SettleStep(s: State, i: nat, claim: Claim, accepted: seq<Key>, proofs: seq<seq<Key>>, paid: set<Key>)
    requires i < |s.tasks| && s.tasks[i] == Settling(claim, accepted, proofs)
    ensures var t := Step(s, Advance(i, Success(paid)));
            && t.tasks == s.tasks[i := Proving(claim, proofs)] && t.ledger == s.ledger
            && Gone(s.rows, accepted, t.rows)
  {
    DeletedGone(s.rows, accepted);
  }

  lemma ProveOne(s: State, i: nat, claim: Claim, proofs: seq<seq<Key>>, paid: set<Key>) returns (t: State, n: nat)
    requires i < |s.tasks| && s.tasks[i] == Proving(claim, proofs) && proofs != [] && Live(s.ledger, proofs[0]) != []
    requires Payable(s.ledger, proofs[0], paid)
    ensures t == Go(s, i, Success(paid), n) && OneProved(s, i, claim, proofs, paid, t)
  {
    AcceptStep(s, i, claim, proofs, paid);
    AcceptPaid(s, proofs[0], paid);
    var u := SetTask(Accept(s, proofs[0], paid), i, Settling(claim, proofs[0], proofs[1..]));
    SettleStep(u, i, claim, proofs[0], proofs[1..], paid);
    t, n := Step(u, Advance(i, Success(paid))), 2;
    GoTwo(s, i, Success(paid));
  }

  lemma GoThen(s: State, u: State, t: State, i: nat, answer: Answer, m: nat, n: nat)
    requires u == Go(s, i, answer, m) && t == Go(u, i, answer, n)
    ensures t == Go(s, i, answer, m + n)
  {
    GoSplit(s, i, answer, m, n);
  }

  lemma GoNext(s: State, u: State, i: nat, answer: Answer, n: nat)
    requires u == Go(s, i, answer, n)
    ensures Step(u, Advance(i, answer)) == Go(s, i, answer, n + 1)
  {
    var t := Step(u, Advance(i, answer));
    GoOne(u, i, answer, 0);
    GoOne(t, i, answer, 0);
    GoThen(s, u, t, i, answer, n, 1);
  }

  lemma GoTwo(s: State, i: nat, answer: Answer)
    ensures Go(s, i, answer, 2) == Step(Step(s, Advance(i, answer)), Advance(i, answer))
  {
    GoOne(s, i, answer, 1);
    GoOne(Step(s, Advance(i, answer)), i, answer, 0);
    GoOne(Step(Step(s, Advance(i, answer)), Advance(i, answer)), i, answer, 0);
  }

  /** All proofs up to the first with nothing left to claim are accepted, and the task is over. */
  ghost predicate AllProved(s: State, i: nat, proofs: seq<seq<Key>>, paid: set<Key>, t: State)
    requires i < |s.tasks|
  {
    t.tasks == s.tasks[i := Finished] && Submits(s, t, proofs, Accepting(s.ledger, proofs, paid), true)
  }

  /** Nothing left to prove, or nothing left to claim: the task ends. */
  lemma ProveNone(s: State, i: nat, claim: Claim, proofs: seq<seq<Key>>, paid: set<Key>) returns (t: State)
    requires i < |s.tasks| && s.tasks[i] == Proving(claim, proofs) && Accepting(s.ledger, proofs, paid) == 0
    ensures t == Go(s, i, Success(paid), 1) && AllProved(s, i, proofs, paid, t)
  {
    t := Step(s, Advance(i, Success(paid)));
    GoOne(s, i, Success(paid), 0);
    GoOne(t, i, Success(paid), 0);
    assert proofs[..0] == [];
    TookNothing(s, t, true);
  }

  lemma AcceptingFirst(l: Ledger, proofs: seq<seq<Key>>, paid: set<Key>)
    requires proofs != [] && Live(l, proofs[0]) != []
    ensures Accepting(l, proofs, paid) == Accepting(Accumulated(l, proofs[0], paid), proofs[1..], paid) + 1
  {
  }

  lemma ProvedSubmits(s: State, u: State, t: State, proofs: seq<seq<Key>>, paid: set<Key>)
    requires proofs != [] && Live(s.ledger, proofs[0]) != [] && u.ledger == Accumulated(s.ledger, proofs[0], paid)
    requires Took(s, u, proofs[0], true) && Submits(u, t, proofs[1..], Accepting(u.ledger, proofs[1..], paid), true)
    ensures Submits(s, t, proofs, Accepting(s.ledger, proofs, paid), true)
  {
    AcceptingFirst(s.ledger, proofs, paid);
    SubmitsOneMore(s, u, t, proofs, Accepting(u.ledger, proofs[1..], paid), true);
  }

  lemma ProvedThen(s: State, i: nat, claim: Claim, proofs: seq<seq<Key>>, paid: set<Key>, u: State, t: State)
    requires i < |s.tasks| && proofs != [] && Live(s.ledger, proofs[0]) != []
    requires OneProved(s, i, claim, proofs, paid, u) && AllProved(u, i, proofs[1..], paid, t)
    ensures AllProved(s, i, proofs, paid, t)
  {
    ThenAnything(s.tasks, u.tasks, i, Proving(claim, proofs[1..]), Finished);
    ProvedSubmits(s, u, t, proofs, paid);
  }

  lemma {:induction false} ProveAll(s: State, i: nat, claim: Claim, proofs: seq<seq<Key>>, paid: set<Key>)
    returns (t: State, n: nat)
    requires i < |s.tasks| && s.tasks[i] == Proving(claim, proofs)
    requires Payable(s.ledger, Flatten(proofs), paid)
    ensures t == Go(s, i, Success(paid), n) && AllProved(s, i, proofs, paid, t)
    decreases |proofs|
  {
    if Accepting(s.ledger, proofs, paid) == 0 {
      n := 1;
      t := ProveNone(s, i, claim, proofs, paid);
    } else {
      SplitKeys(s.ledger, proofs, paid);
      var u, m := ProveOne(s, i, claim, proofs, paid);
      t, n := ProveAll(u, i, claim, proofs[1..], paid);
      ProvedThen(s, i, claim, proofs, paid, u, t);
      GoThen(s, u, t, i, Success(paid), m, n);
      n := m + n;
    }
  }

  lemma ThenAnything(before: seq<Task>, between: seq<Task>, i: nat, t: Task, u: Task)
    requires i < |before| && between == before[i := t]
    ensures between[i := u] == before[i := u]
  {
  }

  /** Keys known and paid for stay so once the first proof is accepted. */
  lemma SplitKeys(l: Ledger, proofs: seq<seq<Key>>, paid: set<Key>)
    requires proofs != [] && Payable(l, Flatten(proofs), paid)
    ensures Payable(l, proofs[0], paid) && Payable(Accumulated(l, proofs[0], paid), Flatten(proofs[1..]), paid)
  {
    assert Flatten(proofs) == proofs[0] + Flatten(proofs[1..]);
    forall k | k in Flatten(proofs[1..]) { KnownStays(l, proofs[0], paid, k); }
  }

  /** What checking these keys finds. */
  function Checks(l: Ledger, keys: seq<Key>): seq<bool> { Map(k => Claimed(l, k), keys) }

  /** The keys hyperbridge has (or has not) claimed, in order. */
  function Sorted(l: Ledger, keys: seq<Key>, claimed: bool): (r: seq<Key>)
    ensures forall k :: k in r <==> k in keys && Claimed(l, k) == claimed
  {
    Filter((k: Key) => Claimed(l, k) == claimed, keys)
  }

  /** Where the checks lead: to the same state, but for the task, which has put down what was claimed. */
  ghost predicate AllChecked(s: State, i: nat, t: State)
    requires i < |s.tasks| && s.tasks[i].Checking?
  {
    var c := s.tasks[i];
    && |t.tasks| == |s.tasks| && t == s.(tasks := s.tasks[i := t.tasks[i]])
    && t.tasks[i].Checking? && TaskTrue(t.tasks[i]) && t.tasks[i].unread == []
    && t.tasks[i].claim == c.claim.(seen := c.claim.seen + Checks(s.ledger, c.unread))
  }

  lemma CheckOne(s: State, i: nat, paid: set<Key>)
    requires i < |s.tasks| && s.tasks[i].Checking? && TaskTrue(s.tasks[i]) && s.tasks[i].unread != []
    requires Known(s.ledger, s.tasks[i].unread[0])
    ensures var u := Step(s, Advance(i, Success(paid)));
            && |u.tasks| == |s.tasks| && u == s.(tasks := s.tasks[i := u.tasks[i]])
            && u.tasks[i].Checking? && TaskTrue(u.tasks[i]) && u.tasks[i].unread == s.tasks[i].unread[1..]
            && u.tasks[i].claim == Checked(s.tasks[i].claim, Claimed(s.ledger, s.tasks[i].unread[0]))
  {
    var c := s.tasks[i];
    CheckedTrue(c.claim, c.unread, c.claimed, c.unclaimed, Claimed(s.ledger, c.unread[0]));
    assert c.claimed + [] == c.claimed && c.unclaimed + [] == c.unclaimed;
  }

  lemma CheckedFirst(s: State, i: nat, u: State, t: State)
    requires i < |s.tasks| && s.tasks[i].Checking? && s.tasks[i].unread != []
    requires |u.tasks| == |s.tasks| && u == s.(tasks := s.tasks[i := u.tasks[i]]) && u.tasks[i].Checking?
    requires u.tasks[i].unread == s.tasks[i].unread[1..]
    requires u.tasks[i].claim == Checked(s.tasks[i].claim, Claimed(s.ledger, s.tasks[i].unread[0]))
    requires AllChecked(u, i, t)
    ensures AllChecked(s, i, t)
  {
    var c := s.tasks[i];
    SeenFirst(s.ledger, c.claim.seen, c.unread);
    assert t.tasks == s.tasks[i := t.tasks[i]];
  }

  lemma SeenFirst(l: Ledger, seen: seq<bool>, unread: seq<Key>)
    requires unread != []
    ensures seen + Checks(l, unread) == (seen + [Claimed(l, unread[0])]) + Checks(l, unread[1..])
  {
    assert Checks(l, unread) == [Claimed(l, unread[0])] + Checks(l, unread[1..]);
  }

  /** All keys checked, one after the other. */
  lemma {:induction false} CheckAll(s: State, i: nat, paid: set<Key>) returns (t: State, n: nat)
    requires i < |s.tasks| && s.tasks[i].Checking? && TaskTrue(s.tasks[i])
    requires forall k :: k in s.tasks[i].unread ==> Known(s.ledger, k)
    ensures t == Go(s, i, Success(paid), n) && AllChecked(s, i, t)
    decreases |s.tasks[i].unread|
  {
    if s.tasks[i].unread == [] {
      t, n := s, 0;
      CheckNone(s, i);
      GoOne(s, i, Success(paid), 0);
    } else {
      var u := Step(s, Advance(i, Success(paid)));
      CheckOne(s, i, paid);
      t, n := CheckAll(u, i, paid);
      GoOne(s, i, Success(paid), n);
      CheckedFirst(s, i, u, t);
      n := n + 1;
    }
  }

  lemma CheckNone(s: State, i: nat)
    requires i < |s.tasks| && s.tasks[i].Checking? && TaskTrue(s.tasks[i]) && s.tasks[i].unread == []
    ensures AllChecked(s, i, s)
  {
    var c := s.tasks[i];
    assert c.claim.seen + [] == c.claim.seen && s.tasks[i := c] == s.tasks;
  }

  lemma {:induction false} AnsweredMember(keys: seq<Key>, seen: seq<bool>, claimed: bool, k: Key)
    requires |seen| <= |keys|
    ensures k in Answered(keys, seen, claimed) <==> exists j :: 0 <= j < |seen| && keys[j] == k && seen[j] == claimed
  {
    if seen == [] {
    } else {
      var n := |seen| - 1;
      AnsweredMember(keys, seen[..n], claimed, k);
      if j :| 0 <= j < |seen| && keys[j] == k && seen[j] == claimed {
        assert j < n ==> seen[..n][j] == claimed;
      }
      if j :| 0 <= j < n && keys[j] == k && seen[..n][j] == claimed {
        assert seen[j] == claimed;
      }
    }
  }

  /** The keys stored for a pair of chains, as a manual task reads them. */
  function KeysFor(s: State, source: StateMachine, dest: StateMachine): seq<Key> {
    KeysRead(s.rows, source, dest, PostRequestDelivery) + KeysRead(s.rows, source, dest, PostResponseDelivery)
  }

  /** The proofs it then submits: of those not claimed yet, in order, fifty at a time. */
  function ProofsFor(s: State, source: StateMachine, dest: StateMachine): seq<seq<Key>> {
    Chunks(Sorted(s.ledger, KeysFor(s, source, dest), false), 50)
  }

  /** Keys not checked yet do not matter. */
  lemma {:induction false} AnsweredCut(keys: seq<Key>, more: seq<Key>, seen: seq<bool>, claimed: bool)
    requires |seen| <= |keys|
    ensures Answered(keys + more, seen, claimed) == Answered(keys, seen, claimed)
  {
    if seen == [] {
    } else {
      AnsweredCut(keys, more, seen[..|seen| - 1], claimed);
    }
  }

  lemma {:induction false} AnsweredSorts(l: Ledger, keys: seq<Key>, claimed: bool)
    ensures Answered(keys, Checks(l, keys), claimed) == Sorted(l, keys, claimed)
  {
    if keys == [] {
    } else {
      var n := |keys| - 1;
      var before, k := keys[..n], keys[n];
      assert keys == before + [k];
      AnsweredSorts(l, before, claimed);
      AnsweredCut(before, [k], Checks(l, before), claimed);
      assert Checks(l, keys) == Checks(l, before) + [Claimed(l, k)];
      AnsweredSnoc(keys, Checks(l, before), Claimed(l, k), claimed);
      SortedSnoc(l, before, k, claimed);
    }
  }

  lemma SortedSnoc(l: Ledger, keys: seq<Key>, k: Key, claimed: bool)
    ensures Sorted(l, keys + [k], claimed)
         == Sorted(l, keys, claimed) + if Claimed(l, k) == claimed then [k] else []
  {
    FilterSnoc((x: Key) => Claimed(l, x) == claimed, keys, k);
  }

  // ----- a manual task, end to end -----

  /** The task has turned to its proofs and left what was claimed already to be deleted. */
  ghost predicate Planned(s: State, i: nat, claim: Claim, t: State)
    requires i < |s.tasks|
  {
    t == s.(tasks := s.tasks[i := Proving(claim, Chunks(Sorted(s.ledger, claim.read, false), 50))]
                     + [Deleting(Sorted(s.ledger, claim.read, true))])
  }

  lemma PlanStep(s: State, i: nat, paid: set<Key>)
    requires i + 1 == |s.tasks| && s.tasks[i].Checking? && TaskTrue(s.tasks[i]) && s.tasks[i].unread == []
    requires s.tasks[i].claim.seen == Checks(s.ledger, s.tasks[i].claim.read)
    ensures Planned(s, i, s.tasks[i].claim, Step(s, Advance(i, Success(paid))))
  {
    AnsweredSorts(s.ledger, s.tasks[i].claim.read, true);
    AnsweredSorts(s.ledger, s.tasks[i].claim.read, false);
  }

  lemma SeenAll(s: State, i: nat, claim: Claim, u: State)
    requires i < |s.tasks| && s.tasks[i] == Checking(claim, claim.read, [], []) && claim.seen == []
    requires AllChecked(s, i, u)
    ensures u.tasks[i].claim.read == claim.read && u.tasks[i].claim.seen == Checks(u.ledger, claim.read)
  {
    assert [] + Checks(s.ledger, claim.read) == Checks(s.ledger, claim.read);
  }

  lemma PlannedSame(s: State, i: nat, claim: Claim, u: State, t: State)
    requires i < |s.tasks| && |u.tasks| == |s.tasks| && u == s.(tasks := s.tasks[i := u.tasks[i]])
    requires Planned(u, i, claim, t)
    ensures Planned(s, i, claim, t)
  {
    ThenAnything(s.tasks, u.tasks, i, u.tasks[i], t.tasks[i]);
  }

  /** From the first check to the plan. */
  lemma CheckAndPlan(s: State, i: nat, claim: Claim, paid: set<Key>) returns (t: State, n: nat, done: Claim)
    requires i + 1 == |s.tasks| && s.tasks[i] == Checking(claim, claim.read, [], []) && claim.seen == []
    requires forall k :: k in claim.read ==> Known(s.ledger, k)
    ensures t == Go(s, i, Success(paid), n) && done.read == claim.read && Planned(s, i, done, t)
  {
    var u;
    u, n := CheckAll(s, i, paid);
    done := u.tasks[i].claim;
    SeenAll(s, i, claim, u);
    PlanStep(u, i, paid);
    t := Step(u, Advance(i, Success(paid)));
    PlannedSame(s, i, done, u, t);
    GoNext(s, u, i, Success(paid), n);
    n := n + 1;
  }

  lemma PlannedSays(s: State, i: nat, claim: Claim, t: State)
    requires i + 1 == |s.tasks| && Planned(s, i, claim, t)
    ensures t.ledger == s.ledger && t.rows == s.rows && |t.tasks| == i + 2
    ensures t.tasks[i] == Proving(claim, Chunks(Sorted(s.ledger, claim.read, false), 50))
    ensures t.tasks[i + 1] == Deleting(Sorted(s.ledger, claim.read, true))
  {
  }

  lemma PayableSorted(l: Ledger, keys: seq<Key>, paid: set<Key>)
    requires Payable(l, keys, paid)
    ensures Payable(l, Flatten(Chunks(Sorted(l, keys, false), 50)), paid)
  {
    ChunksSized(Sorted(l, keys, false));
  }

  /** From the first check to the last proof. */
  lemma CheckAndProve(s: State, i: nat, claim: Claim, paid: set<Key>) returns (t: State, n: nat)
    requires i + 1 == |s.tasks| && s.tasks[i] == Checking(claim, claim.read, [], []) && claim.seen == []
    requires Payable(s.ledger, claim.read, paid)
    ensures t == Go(s, i, Success(paid), n) && |t.tasks| == i + 2
    ensures t.tasks[i + 1] == Deleting(Sorted(s.ledger, claim.read, true))
    ensures var proofs := Chunks(Sorted(s.ledger, claim.read, false), 50);
            Submits(s, t, proofs, Accepting(s.ledger, proofs, paid), true)
  {
    var u, m, done := CheckAndPlan(s, i, claim, paid);
    PlannedSays(s, i, done, u);
    PayableSorted(s.ledger, claim.read, paid);
    t, n := ProveAll(u, i, done, Chunks(Sorted(s.ledger, claim.read, false), 50), paid);
    GoThen(s, u, t, i, Success(paid), m, n);
    n := m + n;
  }

  /** Task `i` is started, gets every await answered, and so does the deletion it leaves behind. */
  function ManualRun(i: nat, source: StateMachine, dest: StateMachine, paid: set<Key>, n: nat): seq<Action> {
    [StartManual(source, dest)] + Advances(i, Success(paid), n) + [Advance(i + 1, Success(paid))]
  }

  lemma RunFirst(s: State, a: Action, rest: seq<Action>)
    ensures Run(s, [a] + rest) == Run(Step(s, a), rest)
  {
    RunIsFold(s, [a] + rest);
    RunIsFold(Step(s, a), rest);
    FoldConcat(Step, s, [a], rest);
    assert [a][..0] == [];
    assert Fold(Step, s, [a]) == Step(s, a);
  }

  lemma RunLast(s: State, actions: seq<Action>, a: Action)
    ensures Run(s, actions + [a]) == Step(Run(s, actions), a)
  {
    assert (actions + [a])[..|actions|] == actions;
  }

  lemma ManualRunIsGo(s: State, source: StateMachine, dest: StateMachine, paid: set<Key>, n: nat, t: State)
    requires t == Go(Step(s, StartManual(source, dest)), |s.tasks|, Success(paid), n)
    ensures Run(s, ManualRun(|s.tasks|, source, dest, paid, n)) == Step(t, Advance(|s.tasks| + 1, Success(paid)))
  {
    var i, a := |s.tasks|, StartManual(source, dest);
    var rest := Advances(i, Success(paid), n);
    GoIsRun(Step(s, a), i, Success(paid), n);
    RunFirst(s, a, rest);
    RunLast(s, [a] + rest, Advance(i + 1, Success(paid)));
  }

  /** A manual task whose keys are all known to hyperbridge and paid, with every await successful: the keys
      found claimed and those of the accepted proofs are claimed and gone from the table, and nothing else is
      gone. */
  lemma ManualClaims(s: State, source: StateMachine, dest: StateMachine, paid: set<Key>) returns (t: State, n: nat)
    requires Payable(s.ledger, KeysFor(s, source, dest), paid)
    ensures t == Run(s, ManualRun(|s.tasks|, source, dest, paid, n)) && Extends(s.ledger, t.ledger)
    ensures var proofs := ProofsFor(s, source, dest);
            var done := Flatten(proofs[..Accepting(s.ledger, proofs, paid)]);
            && (forall k :: k in done ==> Claimed(t.ledger, k))
            && forall k :: Stored(t.rows, k) <==>
                           && Stored(s.rows, k) && k !in done
                           && !(k in KeysFor(s, source, dest) && Claimed(s.ledger, k))
  {
    var keys := KeysFor(s, source, dest);
    var first := Step(s, StartManual(source, dest));
    var claim := Claim(source, dest, keys, []);
    assert first.tasks[|s.tasks|] == Checking(claim, keys, [], []);
    var u;
    u, n := CheckAndProve(first, |s.tasks|, claim, paid);
    var settled := Sorted(s.ledger, keys, true);
    t := Step(u, Advance(|s.tasks| + 1, Success(paid)));
    ManualRunIsGo(s, source, dest, paid, n, u);
    LastDeletion(u, |s.tasks| + 1, settled, paid);
  }

  /** Some row holds the delivery for this pair of chains. */
  predicate StoredFor(rows: seq<Row>, source: StateMachine, dest: StateMachine, key: Key) {
    exists i :: 0 <= i < |rows| && rows[i].hash == KeyHash(key) && rows[i].source == source && rows[i].dest == dest
  }

  lemma KeysForIff(s: State, source: StateMachine, dest: StateMachine, key: Key)
    requires forall i :: 0 <= i < |s.rows| ==> Readable(s.rows[i])
    ensures key in KeysFor(s, source, dest) <==> StoredFor(s.rows, source, dest, key)
  {
    ReadsExactlyStored(s.rows, source, dest, PostRequestDelivery, key);
    ReadsExactlyStored(s.rows, source, dest, PostResponseDelivery, key);
  }

  /** And if no two of the unclaimed keys are for the same message, every delivery stored for the pair of chains
      ends up claimed and its rows gone, while every other row stays. */
  lemma ManualClaimsAll(s: State, source: StateMachine, dest: StateMachine, paid: set<Key>) returns (t: State, n: nat)
    requires forall i :: 0 <= i < |s.rows| ==> Readable(s.rows[i])
    requires forall k :: StoredFor(s.rows, source, dest, k) ==> Known(s.ledger, k) && k in paid
    requires Distinct(Sorted(s.ledger, KeysFor(s, source, dest), false))
    ensures t == Run(s, ManualRun(|s.tasks|, source, dest, paid, n))
    ensures forall k :: StoredFor(s.rows, source, dest, k) ==> Claimed(t.ledger, k) && !Stored(t.rows, k)
    ensures forall k :: Stored(s.rows, k) && !StoredFor(s.rows, source, dest, k) ==> Stored(t.rows, k)
  {
    forall k ensures k in KeysFor(s, source, dest) <==> StoredFor(s.rows, source, dest, k) {
      KeysForIff(s, source, dest, k);
    }
    t, n := ManualClaims(s, source, dest, paid);
    var proofs := ProofsFor(s, source, dest);
    var unclaimed := Sorted(s.ledger, KeysFor(s, source, dest), false);
    ChunksSized(unclaimed);
    AcceptingAll(s.ledger, proofs, paid);
    assert proofs[..|proofs|] == proofs;
    forall k | StoredFor(s.rows, source, dest, k)
      ensures Claimed(t.ledger, k) && !Stored(t.rows, k)
    {
      assert Claimed(s.ledger, k) || k in unclaimed;
    }
  }

  // ----- an automatic task, end to end -----

  /** All proofs up to the first with nothing left to claim are accepted; after the last one the deletion of the
      whole group is left. */
  ghost predicate AllSubmitted(s: State, i: nat, paid: set<Key>, t: State)
    requires i < |s.tasks| && s.tasks[i].Submitting?
  {
    var c := s.tasks[i];
    var n := Accepting(s.ledger, c.proofs, paid);
    && t.tasks == s.tasks[i := if n == |c.proofs| then Deleting(c.submitted + Flatten(c.proofs)) else Finished]
    && Submits(s, t, c.proofs, n, false)
  }

  lemma SubmitOne(s: State, i: nat, paid: set<Key>)
    requires i < |s.tasks| && s.tasks[i].Submitting? && s.tasks[i].proofs != []
    requires Live(s.ledger, s.tasks[i].proofs[0]) != []
    requires Payable(s.ledger, s.tasks[i].proofs[0], paid)
    ensures var c, u := s.tasks[i], Step(s, Advance(i, Success(paid)));
            && u.tasks == s.tasks[i := Submitting(c.group, c.proofs[1..], c.submitted + c.proofs[0])]
            && u.ledger == Accumulated(s.ledger, c.proofs[0], paid) && Took(s, u, c.proofs[0], false)
  {
    AcceptPaid(s, s.tasks[i].proofs[0], paid);
  }

  lemma SubmittedThen(s: State, i: nat, paid: set<Key>, u: State, t: State)
    requires i < |s.tasks| && s.tasks[i].Submitting? && s.tasks[i].proofs != []
    requires var c := s.tasks[i];
             && Live(s.ledger, c.proofs[0]) != [] && Took(s, u, c.proofs[0], false)
             && u.tasks == s.tasks[i := Submitting(c.group, c.proofs[1..], c.submitted + c.proofs[0])]
             && u.ledger == Accumulated(s.ledger, c.proofs[0], paid)
    requires AllSubmitted(u, i, paid, t)
    ensures AllSubmitted(s, i, paid, t)
  {
    var c := s.tasks[i];
    SubmitsOneMore(s, u, t, c.proofs, Accepting(u.ledger, c.proofs[1..], paid), false);
    assert (c.submitted + c.proofs[0]) + Flatten(c.proofs[1..]) == c.submitted + Flatten(c.proofs);
    ThenAnything(s.tasks, u.tasks, i, u.tasks[i], t.tasks[i]);
  }

  /** Nothing left to submit, or nothing left to claim. */
  lemma SubmitNone(s: State, i: nat, paid: set<Key>)
    requires i < |s.tasks| && s.tasks[i].Submitting? && Accepting(s.ledger, s.tasks[i].proofs, paid) == 0
    ensures AllSubmitted(s, i, paid, Step(s, Advance(i, Success(paid))))
  {
    var c := s.tasks[i];
    assert c.proofs[..0] == [];
    assert c.proofs == [] ==> c.submitted + Flatten(c.proofs) == c.submitted;
    TookNothing(s, Step(s, Advance(i, Success(paid))), false);
  }

  lemma {:induction false} SubmitAll(s: State, i: nat, paid: set<Key>) returns (t: State, n: nat)
    requires i < |s.tasks| && s.tasks[i].Submitting?
    requires Payable(s.ledger, Flatten(s.tasks[i].proofs), paid)
    ensures t == Go(s, i, Success(paid), n) && AllSubmitted(s, i, paid, t)
    decreases |s.tasks[i].proofs|
  {
    var u := Step(s, Advance(i, Success(paid)));
    if Accepting(s.ledger, s.tasks[i].proofs, paid) == 0 {
      t, n := u, 0;
      SubmitNone(s, i, paid);
      GoOne(u, i, Success(paid), 0);
    } else {
      SplitKeys(s.ledger, s.tasks[i].proofs, paid);
      SubmitOne(s, i, paid);
      t, n := SubmitAll(u, i, paid);
      SubmittedThen(s, i, paid, u, t);
    }
    GoOne(s, i, Success(paid), n);
    n := n + 1;
  }

  /** Task `i` is started for a group of receipts and gets every await answered. */
  function AutomaticRun(i: nat, group: seq<TxReceipt>, paid: set<Key>, n: nat): seq<Action> {
    [StartAutomatic(group)] + Advances(i, Success(paid), n)
  }

  lemma AutomaticRunIsGo(s: State, group: seq<TxReceipt>, paid: set<Key>, n: nat)
    ensures Run(s, AutomaticRun(|s.tasks|, group, paid, n))
         == Go(Step(s, StartAutomatic(group)), |s.tasks|, Success(paid), n)
  {
    GoIsRun(Step(s, StartAutomatic(group)), |s.tasks|, Success(paid), n);
    RunFirst(s, StartAutomatic(group), Advances(|s.tasks|, Success(paid), n));
  }

  lemma LastDeletion(s: State, i: nat, keys: seq<Key>, paid: set<Key>)
    requires i < |s.tasks| && s.tasks[i] == Deleting(keys)
    ensures var t := Step(s, Advance(i, Success(paid))); t.ledger == s.ledger && Gone(s.rows, keys, t.rows)
  {
    DeletedGone(s.rows, keys);
  }

  /** The deletion that is left after the last proof, if all were accepted. */
  lemma SubmittedEnd(s: State, i: nat, keys: seq<Key>, paid: set<Key>, u: State)
    requires i < |s.tasks| && s.tasks[i].Submitting? && s.tasks[i].submitted == []
    requires Flatten(s.tasks[i].proofs) == keys && AllSubmitted(s, i, paid, u)
    ensures var t, proofs := Step(u, Advance(i, Success(paid))), s.tasks[i].proofs;
            && t.ledger == u.ledger
            && if Accepting(s.ledger, proofs, paid) == |proofs| then Gone(s.rows, keys, t.rows) else t.rows == s.rows
  {
    assert [] + keys == keys;
    if Accepting(s.ledger, s.tasks[i].proofs, paid) == |s.tasks[i].proofs| {
      LastDeletion(u, i, keys, paid);
    }
  }

  /** An automatic task whose keys are all known to hyperbridge and paid, with every await successful: the keys
      of the accepted proofs are claimed, and the whole group is gone from the table if they all were accepted;
      otherwise no row is gone, not even those of keys it got claimed. */
  lemma AutomaticClaims(s: State, group: seq<TxReceipt>, paid: set<Key>) returns (t: State, n: nat)
    requires Payable(s.ledger, KeysOf(group), paid)
    ensures t == Run(s, AutomaticRun(|s.tasks|, group, paid, n)) && Extends(s.ledger, t.ledger)
    ensures var proofs := Chunks(KeysOf(group), 50);
            var accepted := Accepting(s.ledger, proofs, paid);
            && (forall k :: k in Flatten(proofs[..accepted]) ==> Claimed(t.ledger, k))
            && if accepted == |proofs| then Gone(s.rows, KeysOf(group), t.rows) else t.rows == s.rows
  {
    var i, proofs := |s.tasks|, Chunks(KeysOf(group), 50);
    var first := Step(s, StartAutomatic(group));
    ChunksSized(KeysOf(group));
    assert first.tasks[i] == Submitting(KeysOf(group), proofs, []);
    var u;
    u, n := SubmitAll(first, i, paid);
    t := Step(u, Advance(i, Success(paid)));
    SubmittedEnd(first, i, KeysOf(group), paid, u);
    GoNext(first, u, i, Success(paid), n);
    n := n + 1;
    AutomaticRunIsGo(s, group, paid, n);
  }

  /** If none of them is claimed yet and no two are for the same message, all receipts of the group end up claimed
      and gone, and every other row stays. */
  lemma AutomaticClaimsAll(s: State, group: seq<TxReceipt>, paid: set<Key>) returns (t: State, n: nat)
    requires forall k :: k in KeysOf(group) ==> Known(s.ledger, k) && !Claimed(s.ledger, k) && k in paid
    requires Distinct(KeysOf(group))
    ensures t == Run(s, AutomaticRun(|s.tasks|, group, paid, n))
    ensures forall k :: k in KeysOf(group) ==> Claimed(t.ledger, k)
    ensures forall k :: Stored(t.rows, k) <==> Stored(s.rows, k) && k !in KeysOf(group)
  {
    t, n := AutomaticClaims(s, group, paid);
    var proofs := Chunks(KeysOf(group), 50);
    ChunksSized(KeysOf(group));
    AcceptingAll(s.ledger, proofs, paid);
    assert proofs[..|proofs|] == proofs;
  }
}
