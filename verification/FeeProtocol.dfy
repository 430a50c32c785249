/** Delivery conservation: the automatic fee accumulation task, the manual one, their background
    deletions, failures, crashes and other users of hyperbridge, interleaved in any way. */
module FeeProtocol {
  import opened Prelude
  import opened Ismp
  import opened DeliveryKeys
  import opened Deliveries
  import opened FeeLedger

  const PROOF_SIZE: nat := 50

  /** The history of a manual task: its pair of chains, the keys it read at the start, and of each key checked
      so far whether hyperbridge had it claimed then. */
  datatype Claim = Claim(source: StateMachine, dest: StateMachine, read: seq<Key>, seen: seq<bool>)

  /** Where a task stands between two awaits. */
  datatype Task =
      // automatic accumulation: the keys of its group, proofs left to submit, keys submitted so far
    | Submitting(group: seq<Key>, proofs: seq<seq<Key>>, submitted: seq<Key>)
      // manual accumulation: keys left to check, found claimed, found unclaimed
    | Checking(claim: Claim, unread: seq<Key>, claimed: seq<Key>, unclaimed: seq<Key>)
    | Proving(claim: Claim, proofs: seq<seq<Key>>)
    | Settling(claim: Claim, accepted: seq<Key>, proofs: seq<seq<Key>>)
    | Deleting(keys: seq<Key>)
    | Finished

  /** `persisted` and `waived` are history: keys whose receipt was ever stored, and keys of accepted
      proofs that hyperbridge left unclaimed. */
  datatype State = State(
    rows: seq<Row>,
    ledger: Ledger,
    tasks: seq<Task>,
    persisted: set<Key>,
    waived: set<Key>)

  /** What the await of one task comes back with. */
  datatype Answer = Failure | Success(paid: set<Key>)

  datatype Action =
    | Persist(receipts: seq<TxReceipt>)
    | StartAutomatic(group: seq<TxReceipt>)
    | StartManual(source: StateMachine, dest: StateMachine)
    | Advance(task: nat, answer: Answer)
    | Abort(task: nat)
    | Crash
    | Foreign(ledger: Ledger)

  function KeysOf(receipts: seq<TxReceipt>): seq<Key> { Map(KeyOf, receipts) }

  /** What `create_claim_proof` reads from one row, for a pair of chains and a kind. */
  function KeyRead(row: Row, source: StateMachine, dest: StateMachine, kind: DeliveryType): seq<Key> {
    var read := ReadKey(row.kind, row.hash);
    if row.source == source && row.dest == dest && row.kind == kind && read.Found? then [read.key] else []
  }

  function KeysRead(rows: seq<Row>, source: StateMachine, dest: StateMachine, kind: DeliveryType): seq<Key> {
    FlatMap((row: Row) => KeyRead(row, source, dest, kind), rows)
  }

  /** A proof accepted by hyperbridge. */
  function Accept(s: State, keys: seq<Key>, paid: set<Key>): State {
    var ledger := Accumulated(s.ledger, keys, paid);
    s.(ledger := ledger, waived := s.waived + set k | k in keys && !Claimed(ledger, k))
  }

  predicate Accepted(s: State, keys: seq<Key>, answer: Answer) {
    answer.Success? && Live(s.ledger, keys) != []
  }

  function Delete(s: State, keys: seq<Key>, answer: Answer): State {
    if answer.Success? then s.(rows := Without(s.rows, Hashes(keys))) else s
  }

  function SetTask(s: State, i: nat, task: Task): State
    requires i < |s.tasks|
  {
    s.(tasks := s.tasks[i := task])
  }

  function Checked(claim: Claim, claimed: bool): Claim { claim.(seen := claim.seen + [claimed]) }

  /** One await of task `i` completes. */
  function AdvanceTask(s: State, i: nat, answer: Answer): State
    requires i < |s.tasks|
  {
    match s.tasks[i]
    case Submitting(group, proofs, submitted) =>
      if proofs == [] then SetTask(s, i, Deleting(submitted))
      else if Accepted(s, proofs[0], answer)
      then SetTask(Accept(s, proofs[0], answer.paid), i, Submitting(group, proofs[1..], submitted + proofs[0]))
      else SetTask(s, i, Finished)
    case Checking(claim, unread, claimed, unclaimed) =>
      if unread == [] then
        s.(tasks := s.tasks[i := Proving(claim, Chunks(unclaimed, PROOF_SIZE))] + [Deleting(claimed)])
      else if answer.Failure? || !Known(s.ledger, unread[0]) then SetTask(s, i, Finished)
      else if Claimed(s.ledger, unread[0])
      then SetTask(s, i, Checking(Checked(claim, true), unread[1..], claimed + [unread[0]], unclaimed))
      else SetTask(s, i, Checking(Checked(claim, false), unread[1..], claimed, unclaimed + [unread[0]]))
    case Proving(claim, proofs) =>
      if proofs == [] then SetTask(s, i, Finished)
      else if Accepted(s, proofs[0], answer)
      then SetTask(Accept(s, proofs[0], answer.paid), i, Settling(claim, proofs[0], proofs[1..]))
      else SetTask(s, i, Finished)
    case Settling(claim, accepted, proofs) => SetTask(Delete(s, accepted, answer), i, Proving(claim, proofs))
    case Deleting(keys) => SetTask(Delete(s, keys, answer), i, Finished)
    case Finished => s
  }

  ghost function Step(s: State, a: Action): State {
    match a
    case Persist(receipts) =>
      s.(rows := s.rows + Map(RowOf, receipts), persisted := s.persisted + set k | k in KeysOf(receipts))
    case StartAutomatic(group) =>
      s.(tasks := s.tasks + [Submitting(KeysOf(group), Chunks(KeysOf(group), PROOF_SIZE), [])])
    case StartManual(source, dest) =>
      var keys := KeysRead(s.rows, source, dest, PostRequestDelivery)
                + KeysRead(s.rows, source, dest, PostResponseDelivery);
      s.(tasks := s.tasks + [Checking(Claim(source, dest, keys, []), keys, [], [])])
    case Advance(i, answer) => if i < |s.tasks| then AdvanceTask(s, i, answer) else s
    case Abort(i) => if i < |s.tasks| then SetTask(s, i, Finished) else s
    case Crash => s.(tasks := [])
    case Foreign(ledger) => if Extends(s.ledger, ledger) then s.(ledger := ledger) else s
  }

  function Start(ledger: Ledger): State { State([], ledger, [], {}, {}) }

  ghost function Run(s: State, actions: seq<Action>): State {
    if actions == [] then s else Step(Run(s, actions[..|actions| - 1]), actions[|actions| - 1])
  }

  // ----- invariant -----

  /** Nothing more can be earned for this key, as far as hyperbridge is concerned. */
  predicate Settled(s: State, key: Key) { Claimed(s.ledger, key) || key in s.waived }

  ghost predicate AllSettled(s: State, keys: seq<Key>) { forall k :: k in keys ==> Settled(s, k) }

  /** The keys a task has set aside for deletion. */
  function Doomed(t: Task): seq<Key> {
    match t
    case Submitting(_, _, submitted) => submitted
    case Checking(_, _, claimed, _) => claimed
    case Proving(_, _) => []
    case Settling(_, accepted, _) => accepted
    case Deleting(keys) => keys
    case Finished => []
  }

  ghost predicate Accounted(s: State, key: Key) { Stored(s.rows, key) || Settled(s, key) }

  /** The claim reader finds in the row the key that the row is deleted by. */
  predicate Readable(row: Row) {
    var read := ReadKey(row.kind, row.hash);
    read.Found? && KeyHash(read.key) == row.hash
  }

  ghost predicate Inv(s: State) {
    && (forall i :: 0 <= i < |s.rows| ==> Readable(s.rows[i]))
    && (forall k :: k in s.persisted ==> Accounted(s, k))
    && (forall i :: 0 <= i < |s.tasks| ==> AllSettled(s, Doomed(s.tasks[i])))
  }

  /** Claims are permanent and history only grows, so what is settled stays settled. */
  ghost predicate Later(s: State, t: State) { Extends(s.ledger, t.ledger) && s.waived <= t.waived }

  lemma AcceptSettles(s: State, keys: seq<Key>, paid: set<Key>)
    ensures Later(s, Accept(s, keys, paid))
    ensures AllSettled(Accept(s, keys, paid), keys)
    ensures Accept(s, keys, paid).rows == s.rows
  {
    AccumulateExtends(s.ledger, keys, paid);
  }

  /** Deleting settled keys keeps every persisted key accounted for. */
  lemma DeleteKeepsAccounts(s: State, keys: seq<Key>, answer: Answer)
    requires Inv(s) && AllSettled(s, keys)
    ensures Inv(Delete(s, keys, answer))
  {
    var t := Delete(s, keys, answer);
    forall i | 0 <= i < |t.rows|
      ensures Readable(t.rows[i])
    {
      assert t.rows[i] in s.rows;
    }
    forall k | k in t.persisted
      ensures Accounted(t, k)
    {
      DeleteExact(s.rows, keys, k);
    }
  }

  lemma SetTaskKeeps(s: State, i: nat, task: Task)
    requires Inv(s) && i < |s.tasks| && AllSettled(s, Doomed(task))
    ensures Inv(SetTask(s, i, task))
  {
  }

  lemma LaterKeeps(s: State, t: State)
    requires Inv(s) && Later(s, t)
    requires t.rows == s.rows && t.tasks == s.tasks && t.persisted == s.persisted
    ensures Inv(t)
  {
  }

  /** Submitting a proof, in either task. */
  lemma SubmitKeeps(s: State, i: nat, keys: seq<Key>, paid: set<Key>, next: Task)
    requires Inv(s) && i < |s.tasks|
    requires forall k :: k in Doomed(next) ==> k in keys || k in Doomed(s.tasks[i])
    ensures Inv(SetTask(Accept(s, keys, paid), i, next))
  {
    AcceptSettles(s, keys, paid);
    var t := Accept(s, keys, paid);
    LaterKeeps(s, t);
    assert AllSettled(t, Doomed(t.tasks[i]));
    SetTaskKeeps(t, i, next);
  }

  lemma CheckingKeeps(s: State, i: nat, answer: Answer)
    requires Inv(s) && i < |s.tasks| && s.tasks[i].Checking?
    ensures Inv(AdvanceTask(s, i, answer))
  {
    var t := s.tasks[i];
    assert AllSettled(s, Doomed(t));
    if t.unread == [] {
      var next := Proving(t.claim, Chunks(t.unclaimed, PROOF_SIZE));
      SetTaskKeeps(s, i, next);
      AddTaskKeeps(SetTask(s, i, next), Deleting(t.claimed));
    }
  }

  lemma AddTaskKeeps(s: State, task: Task)
    requires Inv(s) && AllSettled(s, Doomed(task))
    ensures Inv(s.(tasks := s.tasks + [task]))
  {
  }

  lemma AdvanceKeeps(s: State, i: nat, answer: Answer)
    requires Inv(s) && i < |s.tasks|
    ensures Inv(AdvanceTask(s, i, answer))
  {
    assert AllSettled(s, Doomed(s.tasks[i]));
    match s.tasks[i]
    case Submitting(group, proofs, submitted) =>
      if proofs == [] {
        SetTaskKeeps(s, i, Deleting(submitted));
      } else if Accepted(s, proofs[0], answer) {
        SubmitKeeps(s, i, proofs[0], answer.paid, Submitting(group, proofs[1..], submitted + proofs[0]));
      } else {
        SetTaskKeeps(s, i, Finished);
      }
    case Checking(_, _, _, _) => CheckingKeeps(s, i, answer);
    case Proving(claim, proofs) =>
      if proofs != [] && Accepted(s, proofs[0], answer) {
        SubmitKeeps(s, i, proofs[0], answer.paid, Settling(claim, proofs[0], proofs[1..]));
      } else {
        SetTaskKeeps(s, i, Finished);
      }
    case Settling(claim, accepted, proofs) =>
      DeleteKeepsAccounts(s, accepted, answer);
      SetTaskKeeps(Delete(s, accepted, answer), i, Proving(claim, proofs));
    case Deleting(keys) =>
      DeleteKeepsAccounts(s, keys, answer);
      SetTaskKeeps(Delete(s, keys, answer), i, Finished);
    case Finished =>
  }

  lemma RowsReadable(rows: seq<Row>, receipts: seq<TxReceipt>)
    requires forall i :: 0 <= i < |rows| ==> Readable(rows[i])
    ensures var all := rows + Map(RowOf, receipts);
            forall i :: 0 <= i < |all| ==> Readable(all[i])
  {
    forall r: TxReceipt ensures Readable(RowOf(r)) {
      StoredRoundTrip(r);
    }
  }

  lemma PersistKeeps(s: State, receipts: seq<TxReceipt>)
    requires Inv(s)
    ensures Inv(Step(s, Persist(receipts)))
  {
    var t := Step(s, Persist(receipts));
    RowsReadable(s.rows, receipts);
    forall k | k in t.persisted
      ensures Accounted(t, k)
    {
      PersistedAccounted(s, receipts, k);
    }
    forall i | 0 <= i < |t.tasks|
      ensures AllSettled(t, Doomed(t.tasks[i]))
    {
      assert AllSettled(s, Doomed(s.tasks[i]));
    }
  }

  lemma PersistedAccounted(s: State, receipts: seq<TxReceipt>, k: Key)
    requires k in s.persisted ==> Accounted(s, k)
    requires k in s.persisted || k in KeysOf(receipts)
    ensures Accounted(Step(s, Persist(receipts)), k)
  {
    StoreExact(s.rows, receipts, k);
    if k !in s.persisted {
      var i :| 0 <= i < |receipts| && KeysOf(receipts)[i] == k;
    }
  }

  lemma StepKeeps(s: State, a: Action)
    requires Inv(s)
    ensures Inv(Step(s, a))
  {
    match a
    case Persist(receipts) => PersistKeeps(s, receipts);
    case Advance(i, answer) => if i < |s.tasks| { AdvanceKeeps(s, i, answer); }
    case Foreign(ledger) =>
      if Extends(s.ledger, ledger) { LaterKeeps(s, s.(ledger := ledger)); }
    case _ =>
  }

  /** Over every interleaving of storing, automatic and manual accumulation, deletion, failure,
      crash and foreign claims, each receipt ever persisted is still in the table, claimed on
      hyperbridge, or was in an accepted proof that carried no fee for it. */
  lemma {:induction false} DeliveryConservation(ledger: Ledger, actions: seq<Action>)
    ensures Inv(Run(Start(ledger), actions))
  {
    if actions == [] {
    } else {
      DeliveryConservation(ledger, actions[..|actions| - 1]);
      StepKeeps(Run(Start(ledger), actions[..|actions| - 1]), actions[|actions| - 1]);
    }
  }

  lemma RowKey(row: Row, source: StateMachine, dest: StateMachine, kind: DeliveryType, key: Key)
    requires Readable(row)
    ensures key in KeyRead(row, source, dest, kind) <==>
            row.hash == KeyHash(key) && row.source == source && row.dest == dest && row.kind == kind
  {
    var read := ReadKey(row.kind, row.hash);
    if row.hash == KeyHash(key) {
      KeyHashInjective(read.key, key);
    }
  }

  /** In every reachable state the manual task reads exactly the keys stored for its pair of chains:
      no row is undecodable, so none is skipped and none aborts the task. */
  lemma ReadsExactlyStored(rows: seq<Row>, source: StateMachine, dest: StateMachine, kind: DeliveryType, key: Key)
    requires forall i :: 0 <= i < |rows| ==> Readable(rows[i])
    ensures key in KeysRead(rows, source, dest, kind) <==>
            exists i :: 0 <= i < |rows| && rows[i].hash == KeyHash(key) && rows[i].source == source
                        && rows[i].dest == dest && rows[i].kind == kind
  {
    FlatMapMember((row: Row) => KeyRead(row, source, dest, kind), rows, key);
    forall i | 0 <= i < |rows|
      ensures key in KeyRead(rows[i], source, dest, kind) <==>
              rows[i].hash == KeyHash(key) && rows[i].source == source && rows[i].dest == dest && rows[i].kind == kind
    {
      RowKey(rows[i], source, dest, kind, key);
    }
  }

  // ----- when nothing is waived -----

  /** The keys of the proof that this action gets accepted, if any. */
  function Submitted(s: State, a: Action): seq<Key> {
    if a.Advance? && a.task < |s.tasks| then
      match s.tasks[a.task]
      case Submitting(_, proofs, _) => if proofs != [] && Accepted(s, proofs[0], a.answer) then proofs[0] else []
      case Proving(_, proofs) => if proofs != [] && Accepted(s, proofs[0], a.answer) then proofs[0] else []
      case _ => []
    else []
  }

  /** Every key of the accepted proof is known to hyperbridge and claimed before or paid by it. */
  ghost predicate Covered(s: State, a: Action) {
    var keys := Submitted(s, a);
    forall k :: k in keys ==>
      Known(s.ledger, k) && (Claimed(s.ledger, k) || Credits(s.ledger, keys, a.answer.paid, k))
  }

  ghost predicate AllCovered(s: State, actions: seq<Action>) {
    actions != [] ==>
      && AllCovered(s, actions[..|actions| - 1])
      && Covered(Run(s, actions[..|actions| - 1]), actions[|actions| - 1])
  }

  lemma StepWaives(s: State, a: Action)
    ensures var t := Step(s, a);
            t.waived == s.waived + set k | k in Submitted(s, a) && !Claimed(t.ledger, k)
    ensures Covered(s, a) <==> forall k :: k in Submitted(s, a) ==> Claimed(Step(s, a).ledger, k)
  {
    var keys, t := Submitted(s, a), Step(s, a);
    if keys != [] {
      assert t.ledger == Accumulated(s.ledger, keys, a.answer.paid);
      forall k | k in keys
        ensures Claimed(t.ledger, k) <==>
                Known(s.ledger, k) && (Claimed(s.ledger, k) || Credits(s.ledger, keys, a.answer.paid, k))
      {
        AcceptedClaimsIff(s.ledger, keys, a.answer.paid, k);
      }
    }
  }

  /** No key is ever waived if and only if every accepted proof covers all of its keys. */
  lemma {:induction false} NothingWaivedIff(ledger: Ledger, actions: seq<Action>)
    ensures Run(Start(ledger), actions).waived == {} <==> AllCovered(Start(ledger), actions)
  {
    if actions == [] {
    } else {
      var before, a := actions[..|actions| - 1], actions[|actions| - 1];
      NothingWaivedIff(ledger, before);
      var s := Run(Start(ledger), before);
      StepWaives(s, a);
      var added := set k | k in Submitted(s, a) && !Claimed(Step(s, a).ledger, k);
      assert Covered(s, a) <==> added == {} by {
        forall k | k in Submitted(s, a) ensures Claimed(Step(s, a).ledger, k) || k in added {}
      }
    }
  }

  /** When accepted proofs cover their keys, every persisted receipt is in the table or claimed. */
  lemma CoveredConservation(ledger: Ledger, actions: seq<Action>, key: Key)
    requires AllCovered(Start(ledger), actions)
    requires key in Run(Start(ledger), actions).persisted
    ensures var s := Run(Start(ledger), actions);
            Stored(s.rows, key) || Claimed(s.ledger, key)
  {
    DeliveryConservation(ledger, actions);
    NothingWaivedIff(ledger, actions);
    assert Accounted(Run(Start(ledger), actions), key);
  }

  // ----- exactly when deliveries are conserved -----

  /** Every receipt ever persisted is in the table or claimed on hyperbridge. */
  ghost predicate Conserved(s: State) {
    forall k :: k in s.persisted ==> Stored(s.rows, k) || Claimed(s.ledger, k)
  }

  /** A key of an accepted proof, once its rows are deleted, is accounted for if and only if hyperbridge
      knows it and had it claimed before or credits it by this proof. */
  lemma AcceptedThenDeleted(s: State, keys: seq<Key>, paid: set<Key>, key: Key)
    requires key in keys
    ensures var t := Delete(Accept(s, keys, paid), keys, Success({}));
            Stored(t.rows, key) || Claimed(t.ledger, key) <==>
            Known(s.ledger, key) && (Claimed(s.ledger, key) || Credits(s.ledger, keys, paid, key))
  {
    DeleteExact(s.rows, keys, key);
    AcceptedClaimsIff(s.ledger, keys, paid, key);
  }

  /** The keys whose rows this action deletes. */
  function Removes(s: State, a: Action): seq<Key> {
    if a.Advance? && a.task < |s.tasks| && a.answer.Success? then
      match s.tasks[a.task]
      case Settling(_, accepted, _) => accepted
      case Deleting(keys) => keys
      case _ => []
    else []
  }

  /** Every persisted key that loses its row is claimed by then. */
  ghost predicate SafeRemoval(s: State, a: Action) {
    forall k :: k in Removes(s, a) && k in s.persisted && Stored(s.rows, k) ==> Claimed(s.ledger, k)
  }

  ghost predicate AllSafe(s: State, actions: seq<Action>) {
    actions != [] ==>
      && AllSafe(s, actions[..|actions| - 1])
      && SafeRemoval(Run(s, actions[..|actions| - 1]), actions[|actions| - 1])
  }

  /** What an action does to table and ledger: it deletes the rows of the keys it removes, or leaves every
      row in place; and it undoes no claim. */
  lemma StepRows(s: State, a: Action)
    ensures var t := Step(s, a);
            && Extends(s.ledger, t.ledger)
            && (Removes(s, a) != [] ==> t.rows == Without(s.rows, Hashes(Removes(s, a)))
                                        && t.ledger == s.ledger && t.persisted == s.persisted)
            && (Removes(s, a) == [] && !a.Persist? ==> t.rows == s.rows && t.persisted == s.persisted)
  {
    if a.Advance? && a.task < |s.tasks| {
      AdvanceRows(s, a);
    }
  }

  lemma AdvanceRows(s: State, a: Action)
    requires a.Advance? && a.task < |s.tasks|
    ensures var t := AdvanceTask(s, a.task, a.answer);
            && Extends(s.ledger, t.ledger) && t.persisted == s.persisted
            && t.rows == Without(s.rows, Hashes(Removes(s, a)))
            && (Removes(s, a) != [] ==> t.ledger == s.ledger)
            && (Removes(s, a) == [] ==> t.rows == s.rows)
  {
    assert Hashes([]) == {};
    WithoutNothing(s.rows);
    var keys := Submitted(s, a);
    if keys != [] {
      AccumulateExtends(s.ledger, keys, a.answer.paid);
    }
  }

  /** One action keeps the deliveries conserved if and only if it deletes no unclaimed one. */
  lemma StepConserves(s: State, a: Action)
    requires Conserved(s)
    ensures Conserved(Step(s, a)) <==> SafeRemoval(s, a)
  {
    var t, gone := Step(s, a), Removes(s, a);
    StepRows(s, a);
    if gone != [] {
      forall k ensures Stored(t.rows, k) <==> Stored(s.rows, k) && k !in gone {
        DeleteExact(s.rows, gone, k);
      }
    } else if a.Persist? {
      forall k | k in t.persisted
        ensures Stored(t.rows, k) || Claimed(t.ledger, k)
      {
        StoreExact(s.rows, a.receipts, k);
        if k !in s.persisted {
          var i :| 0 <= i < |a.receipts| && KeysOf(a.receipts)[i] == k;
        }
      }
    }
  }

  ghost predicate ConservedAfter(ledger: Ledger, actions: seq<Action>) { Conserved(Run(Start(ledger), actions)) }

  /** Deliveries are conserved all along a run if and only if no step of it deletes the row of a persisted
      key that hyperbridge has not claimed. */
  lemma {:induction false} ConservationIff(ledger: Ledger, actions: seq<Action>)
    ensures (forall n :: 0 <= n <= |actions| ==> ConservedAfter(ledger, actions[..n])) <==>
            AllSafe(Start(ledger), actions)
  {
    if actions == [] {
    } else {
      var before, a := actions[..|actions| - 1], actions[|actions| - 1];
      ConservationIff(ledger, before);
      PrefixSplit(xs => ConservedAfter(ledger, xs), actions, before);
      assert before[..|before|] == before;
      if ConservedAfter(ledger, before) {
        StepConserves(Run(Start(ledger), before), a);
      }
    }
  }

  /** In any run such a key was in an accepted proof that carried no fee for it. */
  lemma {:induction false} UnsafeWasWaived(ledger: Ledger, actions: seq<Action>, a: Action, key: Key)
    requires key in Removes(Run(Start(ledger), actions), a) && !Claimed(Run(Start(ledger), actions).ledger, key)
    ensures key in Run(Start(ledger), actions).waived
  {
    DeliveryConservation(ledger, actions);
    var s := Run(Start(ledger), actions);
    assert AllSettled(s, Doomed(s.tasks[a.task]));
  }

  /** Without that condition a delivery can be lost from both places: a receipt whose fee metadata
      is absent from the proof is accepted along, then deleted. */
  lemma UnpaidDeliveryForgotten(receipt: TxReceipt, ledger: Ledger)
    requires Known(ledger, KeyOf(receipt)) && !Claimed(ledger, KeyOf(receipt))
    ensures var key := KeyOf(receipt);
            var s := Run(Start(ledger),
                         [Persist([receipt]), StartAutomatic([receipt]),
                          Advance(0, Success({})), Advance(0, Success({})), Advance(0, Success({}))]);
            key in s.persisted && !Stored(s.rows, key) && !Claimed(s.ledger, key)
  {
    var key, submit := KeyOf(receipt), Advance(0, Success({}));
    RunSteps5(Start(ledger), [Persist([receipt]), StartAutomatic([receipt]), submit, submit, submit]);
    var s1 := Step(Start(ledger), Persist([receipt]));
    var s2 := Step(s1, StartAutomatic([receipt]));
    assert KeysOf([receipt]) == [key];
    assert s2.tasks == [Submitting([key], [[key]], [])];
    assert key in s2.persisted;
    SubmitUnpaid(s2, key);
    DeleteSubmitted(Step(s2, submit), key);
  }

  lemma SubmitUnpaid(s: State, key: Key)
    requires s.tasks == [Submitting([key], [[key]], [])] && Known(s.ledger, key) && !Claimed(s.ledger, key)
    ensures var t := Step(s, Advance(0, Success({})));
            t.tasks == [Submitting([key], [], [key])] && t.persisted == s.persisted && !Claimed(t.ledger, key)
  {
    assert Live(s.ledger, [key]) == [key];
    AcceptedClaimsIff(s.ledger, [key], {}, key);
    assert [[key]][1..] == [] && [] + [key] == [key];
  }

  lemma DeleteSubmitted(s: State, key: Key)
    requires s.tasks == [Submitting([key], [], [key])]
    ensures var t := Step(Step(s, Advance(0, Success({}))), Advance(0, Success({})));
            !Stored(t.rows, key) && t.ledger == s.ledger && t.persisted == s.persisted
  {
    var m := Step(s, Advance(0, Success({})));
    assert m.tasks == [Deleting([key])];
    DeleteExact(s.rows, [key], key);
  }

  lemma {:induction false} RunSteps5(s: State, actions: seq<Action>)
    requires |actions| == 5
    ensures Run(s, actions)
         == Step(Step(Step(Step(Step(s, actions[0]), actions[1]), actions[2]), actions[3]), actions[4])
  {
    assert actions[..4][..3] == actions[..3] && actions[..3][..2] == actions[..2];
    assert actions[..2][..1] == actions[..1] && actions[..1][..0] == [];
    assert Run(s, actions[..1]) == Step(Run(s, actions[..1][..0]), actions[0]);
    assert Run(s, actions[..2]) == Step(Run(s, actions[..1]), actions[1]);
    assert Run(s, actions[..3]) == Step(Run(s, actions[..2]), actions[2]);
    assert Run(s, actions[..4]) == Step(Run(s, actions[..3]), actions[3]);
  }
}
