/** Withdrawing accumulated fees (`withdraw`, `auto_withdraw`, `deliver_post_request`): pending
    withdrawals are delivered before a new one is requested, and a new one is persisted before it
    is delivered. Any number of ticks, for any chains, may interleave, fail or crash. */
module Withdrawals {
  import opened Prelude
  import opened Ismp

  // ----- delivering one request -----

  datatype Withdrawal = Withdrawal(post: PostRequest, block: nat)

  /** The destination's and hyperbridge's answers during one delivery: the latest known height, the
      update stream (`None` for an error item), which heights can be proved, and which submits pass. */
  datatype Network = Network(
    latest: Option<nat>,
    updates: seq<Option<nat>>,
    provable: nat -> bool,
    submit: nat -> bool)

  datatype Delivery = Failed(submits: nat) | Delivered(height: nat, submits: nat)

  /** The first update at or above `block`; error items are skipped. */
  function AwaitBlock(updates: seq<Option<nat>>, block: nat): (h: Option<nat>)
    ensures h.Some? ==> h.value >= block && h in updates
    ensures h.None? ==> forall i :: 0 <= i < |updates| && updates[i].Some? ==> updates[i].value < block
  {
    if updates == [] then None
    else if updates[0].Some? && updates[0].value >= block then updates[0]
    else AwaitBlock(updates[1..], block)
  }

  function ProofHeight(n: Network, block: nat): Option<nat> {
    if n.latest.None? then None
    else if block > n.latest.value then AwaitBlock(n.updates, block)
    else n.latest
  }

  /** The number of submits until the first success, within the five allowed. */
  function FirstSuccess(submit: nat -> bool, from: nat): (k: Option<nat>)
    requires from <= 5
    ensures k.Some? ==> from < k.value <= 5 && submit(k.value - 1)
    ensures k.Some? ==> forall i: nat :: from <= i < k.value - 1 ==> !submit(i)
    ensures k.None? ==> forall i: nat :: from <= i < 5 ==> !submit(i)
    decreases 5 - from
  {
    if from == 5 then None else if submit(from) then Some(from + 1) else FirstSuccess(submit, from + 1)
  }

  function Deliver(n: Network, w: Withdrawal): Delivery {
    match ProofHeight(n, w.block)
    case None => Failed(0)
    case Some(height) =>
      if !n.provable(height) then Failed(0)
      else
        match FirstSuccess(n.submit, 0)
        case Some(k) => Delivered(height, k)
        case None => Failed(5)
  }

  /** `deliver_post_request`. */
  method DeliverPostRequest(n: Network, w: Withdrawal) returns (r: Delivery)
    ensures r == Deliver(n, w)
    ensures r.submits <= 5
    ensures r.Delivered? ==> r.height >= w.block && n.provable(r.height) && r.submits >= 1 && n.submit(r.submits - 1)
  {
    if n.latest.None? {
      return Failed(0);
    }
    var height := n.latest.value;
    if w.block > height {
      var i, found := 0, false;
      while i < |n.updates| && !found
        invariant 0 <= i <= |n.updates|
        invariant !found ==> AwaitBlock(n.updates, w.block) == AwaitBlock(n.updates[i..], w.block)
        invariant found ==> AwaitBlock(n.updates, w.block) == Some(height)
        decreases |n.updates| - i
      {
        assert n.updates[i..][1..] == n.updates[i + 1..];
        if n.updates[i].Some? && n.updates[i].value >= w.block {
          height, found := n.updates[i].value, true;
        }
        i := i + 1;
      }
      if !found {
        return Failed(0);
      }
    }
    if !n.provable(height) {
      return Failed(0);
    }
    var count := 5;
    while count != 0
      invariant 0 <= count <= 5
      invariant FirstSuccess(n.submit, 0) == FirstSuccess(n.submit, 5 - count)
    {
      if n.submit(5 - count) {
        return Delivered(height, 6 - count);
      }
      count := count - 1;
    }
    r := Failed(5);
  }

  /** Update `i` of the stream is the first to reach the block, at height `h`. */
  predicate FirstReaching(updates: seq<Option<nat>>, block: nat, h: nat, i: nat) {
    && i < |updates| && updates[i] == Some(h) && h >= block
    && forall j :: 0 <= j < i ==> updates[j].None? || updates[j].value < block
  }

  /** The height a delivery is proved at: the latest one known if it has reached the withdrawal's block,
      otherwise that of the first update in the stream that has. */
  ghost predicate ProvedAt(n: Network, block: nat, h: nat) {
    && n.latest.Some?
    && if block <= n.latest.value then h == n.latest.value else exists i: nat :: FirstReaching(n.updates, block, h, i)
  }

  lemma {:induction false} AwaitIff(updates: seq<Option<nat>>, block: nat, h: nat)
    ensures AwaitBlock(updates, block) == Some(h) <==> exists i: nat :: FirstReaching(updates, block, h, i)
  {
    if updates == [] {
    } else if updates[0].Some? && updates[0].value >= block {
      assert h == updates[0].value ==> FirstReaching(updates, block, h, 0);
    } else {
      var rest := updates[1..];
      AwaitIff(rest, block, h);
      if i: nat :| FirstReaching(rest, block, h, i) {
        assert FirstReaching(updates, block, h, i + 1);
      }
      if i: nat :| FirstReaching(updates, block, h, i) {
        assert FirstReaching(rest, block, h, i - 1);
      }
    }
  }

  /** A delivery succeeds at height `h` after `k` submits exactly when `h` is the height to prove it at and can
      be proved, and the `k`th submit is the first to pass and among the first five. */
  lemma DeliverIff(n: Network, w: Withdrawal, h: nat, k: nat)
    ensures Deliver(n, w) == Delivered(h, k) <==>
            && ProvedAt(n, w.block, h) && n.provable(h)
            && 1 <= k <= 5 && n.submit(k - 1) && forall i: nat :: i < k - 1 ==> !n.submit(i)
    ensures Deliver(n, w).Failed? ==> Deliver(n, w).submits in {0, 5}
  {
    AwaitIff(n.updates, w.block, h);
    var first := FirstSuccess(n.submit, 0);
    if 1 <= k <= 5 && n.submit(k - 1) && (forall i: nat :: i < k - 1 ==> !n.submit(i)) {
      assert first.Some? && !(first.value < k) && !(first.value > k);
    }
  }

  lemma DeliverSound(n: Network, w: Withdrawal)
    ensures Deliver(n, w).submits <= 5
    ensures Deliver(n, w).Delivered? ==> Deliver(n, w).height >= w.block && Deliver(n, w).submits >= 1
  {
  }

  // ----- ticks against the pending table -----

  datatype Row = Row(id: nat, dest: StateMachine, withdrawal: Withdrawal)

  /** A tick serves one chain and leaves balances below `minimum` alone. */
  datatype Tick = Tick(chain: StateMachine, minimum: nat)

  /** A tick under way; `found` is history: the whole pending table when it started. */
  datatype Job = Job(tick: Tick, found: seq<Row>)

  /** Where one chain's tick stands between two awaits. `read` are the rows it has to deliver first. A tick is
      `Withdrawing` until hyperbridge finalizes its extrinsic, and `Confirming` while it looks up the block
      and the event of the withdrawal issued. */
  datatype Task =
    | Clearing(job: Job, read: seq<Row>, next: nat)
    | Deleting(job: Job, read: seq<Row>)
    | Asking(job: Job)
    | Withdrawing(job: Job, amount: nat)
    | Confirming(job: Job, issued: Withdrawal)
    | Storing(job: Job, issued: Withdrawal)
    | Sending(job: Job, row: Row)
    | Removing(job: Job, row: Row)
    | Finished

  /** A withdrawal asked for, from an available balance. */
  datatype Grant = Grant(chain: StateMachine, amount: nat, minimum: nat)

  /** A successful delivery, through the client of chain `via`. */
  datatype Record = Record(via: StateMachine, withdrawal: Withdrawal, height: nat, submits: nat)

  /** `rows` is the pending table and `orphans` are extrinsics whose tick broke off, which hyperbridge may
      still execute. The rest is history: rows ever stored, successful deliveries, withdrawals hyperbridge
      issued, those of them the relayer forgot, and the balances they were asked from. */
  datatype State = State(
    rows: seq<Row>,
    nextId: nat,
    tasks: seq<Task>,
    orphans: seq<Grant>,
    stored: set<Row>,
    delivered: seq<Record>,
    issued: set<Withdrawal>,
    lost: set<Withdrawal>,
    grants: seq<Grant>)

  datatype Reply =
    | Failure
    | Success
    | Transport(network: Network)
    | Amount(amount: nat)
    | Issued(withdrawal: Withdrawal)

  datatype Action =
    | StartTick(tick: Tick)
    | Advance(task: nat, reply: Reply)
    | LateIssue(orphan: nat, withdrawal: Withdrawal)
    | Crash

  function For(rows: seq<Row>, dest: StateMachine): seq<Row> { Filter((row: Row) => row.dest == dest, rows) }

  function SetTask(s: State, i: nat, t: Task): State
    requires i < |s.tasks|
  {
    s.(tasks := s.tasks[i := t])
  }

  /** Deleting by id is one transaction and fails when a row is gone already. */
  predicate Present(rows: seq<Row>, gone: seq<Row>) { forall i :: 0 <= i < |gone| ==> gone[i] in rows }

  function Delete(s: State, gone: seq<Row>, reply: Reply): State {
    if reply.Success? && Present(s.rows, gone) then s.(rows := Filter((row: Row) => row !in gone, s.rows)) else s
  }

  function Log(s: State, via: StateMachine, w: Withdrawal, d: Delivery): State {
    if d.Delivered? then s.(delivered := s.delivered + [Record(via, w, d.height, d.submits)]) else s
  }

  /** Hyperbridge numbers its requests, so it never issues the same one twice. */
  predicate CanIssue(s: State, w: Withdrawal, chain: StateMachine) { w !in s.issued && w.post.dest == chain }

  function Issue(s: State, w: Withdrawal, g: Grant): State {
    s.(issued := s.issued + {w}, grants := s.grants + [g])
  }

  function Forget(s: State, w: set<Withdrawal>): State { s.(lost := s.lost + w) }

  function AdvanceTask(s: State, i: nat, reply: Reply): State
    requires i < |s.tasks|
  {
    match s.tasks[i]
    case Clearing(job, read, next) =>
      if next >= |read| then SetTask(s, i, Deleting(job, read))
      else if !reply.Transport? then SetTask(s, i, Finished)
      else
        var w := read[next].withdrawal;
        var d := Deliver(reply.network, w);
        SetTask(Log(s, job.tick.chain, w, d), i, if d.Delivered? then Clearing(job, read, next + 1) else Finished)
    case Deleting(job, read) => SetTask(Delete(s, read, reply), i, Asking(job))
    case Asking(job) =>
      if reply.Amount? && reply.amount >= job.tick.minimum then SetTask(s, i, Withdrawing(job, reply.amount))
      else SetTask(s, i, Finished)
    case Withdrawing(job, amount) =>
      var g := Grant(job.tick.chain, amount, job.tick.minimum);
      if reply.Issued? && CanIssue(s, reply.withdrawal, job.tick.chain)
      then SetTask(Issue(s, reply.withdrawal, g), i, Confirming(job, reply.withdrawal))
      else SetTask(s.(orphans := s.orphans + [g]), i, Finished)
    case Confirming(job, w) =>
      if reply.Success? then SetTask(s, i, Storing(job, w))
      else Forget(SetTask(s, i, Finished), {w})
    case Storing(job, w) =>
      if reply.Success? then
        var row := Row(s.nextId, w.post.dest, w);
        SetTask(Store(s, row), i, Sending(job, row))
      else Forget(SetTask(s, i, Finished), {w})
    case Sending(job, row) =>
      if !reply.Transport? then SetTask(s, i, Finished)
      else
        var d := Deliver(reply.network, row.withdrawal);
        SetTask(Log(s, job.tick.chain, row.withdrawal, d), i, if d.Delivered? then Removing(job, row) else Finished)
    case Removing(_, row) => SetTask(Delete(s, [row], reply), i, Finished)
    case Finished => s
  }

  function Store(s: State, row: Row): State {
    s.(rows := s.rows + [row], nextId := s.nextId + 1, stored := s.stored + {row})
  }

  /** The withdrawal a task has to itself: issued but not yet persisted. */
  function Held(t: Task): set<Withdrawal> { if t.Confirming? || t.Storing? then {t.issued} else {} }

  function InFlight(tasks: seq<Task>): set<Withdrawal> {
    set i, w | 0 <= i < |tasks| && w in Held(tasks[i]) :: w
  }

  /** The extrinsic a task has sent without knowing its fate. */
  function Sent(t: Task): seq<Grant> {
    if t.Withdrawing? then [Grant(t.job.tick.chain, t.amount, t.job.tick.minimum)] else []
  }

  function Step(s: State, a: Action): State {
    match a
    case StartTick(tick) => s.(tasks := s.tasks + [Clearing(Job(tick, s.rows), For(s.rows, tick.chain), 0)])
    case Advance(i, reply) => if i < |s.tasks| then AdvanceTask(s, i, reply) else s
    case LateIssue(k, w) =>
      if k < |s.orphans| && CanIssue(s, w, s.orphans[k].chain)
      then Forget(Issue(s, w, s.orphans[k]), {w}).(orphans := s.orphans[..k] + s.orphans[k + 1..])
      else s
    case Crash => Forget(s, InFlight(s.tasks)).(tasks := [], orphans := s.orphans + FlatMap(Sent, s.tasks))
  }

  function Start(): State { State([], 0, [], [], {}, [], {}, {}, []) }

  function Run(actions: seq<Action>): State {
    if actions == [] then Start() else Step(Run(actions[..|actions| - 1]), actions[|actions| - 1])
  }

  // ----- invariant -----

  predicate WasDelivered(s: State, w: Withdrawal) {
    exists i :: 0 <= i < |s.delivered| && s.delivered[i].withdrawal == w
  }

  ghost predicate AllDelivered(s: State, read: seq<Row>) {
    forall i :: 0 <= i < |read| ==> WasDelivered(s, read[i].withdrawal)
  }

  /** Every row stored has a number used up and is kept under the chain its request is addressed to, and it is
      still pending or was delivered. */
  ghost predicate RowsOk(s: State) {
    && (forall i :: 0 <= i < |s.rows| ==> s.rows[i] in s.stored)
    && (forall row :: row in s.stored ==> row.id < s.nextId && row.dest == row.withdrawal.post.dest)
    && (forall row :: row in s.stored ==> row in s.rows || WasDelivered(s, row.withdrawal))
  }

  /** Every delivery went to the chain it is addressed to, was proved at or above its block, and took at most
      five submits. */
  ghost predicate RecordOk(r: Record) {
    r.via == r.withdrawal.post.dest && r.height >= r.withdrawal.block && 1 <= r.submits <= 5
  }

  ghost predicate RecordsOk(s: State) { forall i :: 0 <= i < |s.delivered| ==> RecordOk(s.delivered[i]) }

  ghost predicate Sufficient(grants: seq<Grant>) {
    forall i :: 0 <= i < |grants| ==> grants[i].amount >= grants[i].minimum
  }

  /** No withdrawal was asked for from a balance below the tick's minimum. */
  ghost predicate GrantsOk(s: State) { Sufficient(s.grants) && Sufficient(s.orphans) }

  /** The rows to deliver are those of the table found that are for the tick's chain, as often as they are
      in it. */
  ghost predicate Reads(job: Job, read: seq<Row>) {
    forall row :: multiset(read)[row] == if row.dest == job.tick.chain then multiset(job.found)[row] else 0
  }

  ghost predicate Addressed(read: seq<Row>, chain: StateMachine) {
    forall i :: 0 <= i < |read| ==> read[i].withdrawal.post.dest == chain
  }

  /** Everything that was pending for the chain when its tick started has been delivered. */
  ghost predicate Cleared(s: State, job: Job) {
    forall row :: row in job.found && row.dest == job.tick.chain ==> WasDelivered(s, row.withdrawal)
  }

  /** A tick past the clearing stage has delivered everything it found pending for its chain, and it delivers
      nothing for other chains; a row is removed only after it was delivered. */
  ghost predicate TaskOk(s: State, t: Task) {
    match t
    case Clearing(job, read, next) =>
      Reads(job, read) && Addressed(read, job.tick.chain) && AllDelivered(s, read[..Min(next, |read|)])
    case Deleting(job, read) => Reads(job, read) && Cleared(s, job) && AllDelivered(s, read)
    case Asking(job) => Cleared(s, job)
    case Withdrawing(job, amount) => Cleared(s, job) && amount >= job.tick.minimum
    case Confirming(job, w) => Cleared(s, job) && w.post.dest == job.tick.chain
    case Storing(job, w) => Cleared(s, job) && w.post.dest == job.tick.chain
    case Sending(job, row) => Cleared(s, job) && row.withdrawal.post.dest == job.tick.chain
    case Removing(job, row) => Cleared(s, job) && WasDelivered(s, row.withdrawal)
    case Finished => true
  }

  ghost predicate TasksOk(s: State) { forall i :: 0 <= i < |s.tasks| ==> TaskOk(s, s.tasks[i]) }

  ghost predicate Safe(s: State) { RowsOk(s) && RecordsOk(s) && GrantsOk(s) && TasksOk(s) }

  /** What was delivered stays delivered. */
  lemma DeliveredStays(s: State, t: State, w: Withdrawal)
    requires s.delivered <= t.delivered && WasDelivered(s, w)
    ensures WasDelivered(t, w)
  {
    var i :| 0 <= i < |s.delivered| && s.delivered[i].withdrawal == w;
    assert t.delivered[i].withdrawal == w;
  }

  lemma TaskStaysOk(s: State, t: State, task: Task)
    requires s.delivered <= t.delivered && TaskOk(s, task)
    ensures TaskOk(t, task)
  {
    forall w | WasDelivered(s, w) ensures WasDelivered(t, w) { DeliveredStays(s, t, w); }
  }

  lemma LogKeeps(s: State, n: Network, w: Withdrawal)
    requires Safe(s)
    ensures var t := Log(s, w.post.dest, w, Deliver(n, w));
            Safe(t) && (Deliver(n, w).Delivered? ==> WasDelivered(t, w))
  {
    var d := Deliver(n, w);
    DeliverSound(n, w);
    if d.Delivered? {
      var t := Log(s, w.post.dest, w, d);
      assert t.delivered[|s.delivered|].withdrawal == w;
      forall v | WasDelivered(s, v) ensures WasDelivered(t, v) { DeliveredStays(s, t, v); }
      forall j | 0 <= j < |t.tasks| ensures TaskOk(t, t.tasks[j]) { TaskStaysOk(s, t, s.tasks[j]); }
    }
  }

  /** Changes that leave rows and deliveries alone keep whatever holds of them. */
  lemma TasksKept(s: State, t: State)
    requires TasksOk(s) && t.tasks == s.tasks && t.delivered == s.delivered
    ensures TasksOk(t)
  {
    forall j | 0 <= j < |t.tasks| ensures TaskOk(t, t.tasks[j]) { TaskStaysOk(s, t, s.tasks[j]); }
  }

  lemma SetTaskKeeps(s: State, i: nat, t: Task)
    requires Safe(s) && i < |s.tasks| && TaskOk(s, t)
    ensures Safe(SetTask(s, i, t))
  {
    var u := SetTask(s, i, t);
    forall j | 0 <= j < |u.tasks| ensures TaskOk(u, u.tasks[j]) { TaskStaysOk(s, u, u.tasks[j]); }
  }

  lemma DeleteKeeps(s: State, gone: seq<Row>, reply: Reply)
    requires Safe(s) && AllDelivered(s, gone)
    ensures Safe(Delete(s, gone, reply))
  {
    var t := Delete(s, gone, reply);
    forall row | row in t.stored
      ensures row in t.rows || WasDelivered(t, row.withdrawal)
    {
      if row in s.rows && row in gone {
        var i :| 0 <= i < |gone| && gone[i] == row;
      }
    }
    forall i | 0 <= i < |t.rows|
      ensures t.rows[i] in t.stored
    {
      assert t.rows[i] in s.rows;
    }
    TasksKept(s, t);
  }

  lemma ReadAll(s: State, job: Job, read: seq<Row>)
    requires Reads(job, read) && AllDelivered(s, read)
    ensures Cleared(s, job)
  {
    forall row | row in job.found && row.dest == job.tick.chain
      ensures WasDelivered(s, row.withdrawal)
    {
      assert multiset(read)[row] == multiset(job.found)[row];
      var i :| 0 <= i < |read| && read[i] == row;
    }
  }

  lemma OneMoreDelivered(s: State, job: Job, read: seq<Row>, next: nat)
    requires next < |read| && TaskOk(s, Clearing(job, read, next)) && WasDelivered(s, read[next].withdrawal)
    ensures TaskOk(s, Clearing(job, read, next + 1))
  {
    assert read[..next + 1] == read[..next] + [read[next]];
  }

  /** One of the rows to clear is delivered, or not. */
  lemma DeliveringKeeps(s: State, i: nat, n: Network)
    requires Safe(s) && i < |s.tasks| && s.tasks[i].Clearing? && s.tasks[i].next < |s.tasks[i].read|
    ensures Safe(AdvanceTask(s, i, Transport(n)))
  {
    var job, read, next := s.tasks[i].job, s.tasks[i].read, s.tasks[i].next;
    assert TaskOk(s, s.tasks[i]);
    var w := read[next].withdrawal;
    LogKeeps(s, n, w);
    var t := Log(s, job.tick.chain, w, Deliver(n, w));
    if Deliver(n, w).Delivered? {
      assert TaskOk(t, t.tasks[i]);
      OneMoreDelivered(t, job, read, next);
      SetTaskKeeps(t, i, Clearing(job, read, next + 1));
    } else {
      SetTaskKeeps(t, i, Finished);
    }
  }

  lemma ClearingKeeps(s: State, i: nat, reply: Reply)
    requires Safe(s) && i < |s.tasks| && s.tasks[i].Clearing?
    ensures Safe(AdvanceTask(s, i, reply))
  {
    var job, read, next := s.tasks[i].job, s.tasks[i].read, s.tasks[i].next;
    assert TaskOk(s, s.tasks[i]);
    if next >= |read| {
      assert read[..|read|] == read;
      ReadAll(s, job, read);
      SetTaskKeeps(s, i, Deleting(job, read));
    } else if !reply.Transport? {
      SetTaskKeeps(s, i, Finished);
    } else {
      DeliveringKeeps(s, i, reply.network);
    }
  }

  lemma AskingKeeps(s: State, i: nat, reply: Reply)
    requires Safe(s) && i < |s.tasks| && (s.tasks[i].Deleting? || s.tasks[i].Asking?)
    ensures Safe(AdvanceTask(s, i, reply))
  {
    var job := s.tasks[i].job;
    assert TaskOk(s, s.tasks[i]);
    if s.tasks[i].Deleting? {
      var t := Delete(s, s.tasks[i].read, reply);
      DeleteKeeps(s, s.tasks[i].read, reply);
      TaskStaysOk(s, t, Asking(job));
      SetTaskKeeps(t, i, Asking(job));
    } else if reply.Amount? && reply.amount >= job.tick.minimum {
      SetTaskKeeps(s, i, Withdrawing(job, reply.amount));
    } else {
      SetTaskKeeps(s, i, Finished);
    }
  }

  lemma WithdrawingKeeps(s: State, i: nat, reply: Reply)
    requires Safe(s) && i < |s.tasks| && s.tasks[i].Withdrawing?
    ensures Safe(AdvanceTask(s, i, reply))
  {
    var job := s.tasks[i].job;
    assert TaskOk(s, s.tasks[i]);
    var g := Grant(job.tick.chain, s.tasks[i].amount, job.tick.minimum);
    if reply.Issued? && CanIssue(s, reply.withdrawal, job.tick.chain) {
      var t := Issue(s, reply.withdrawal, g);
      TasksKept(s, t);
      TaskStaysOk(s, t, Confirming(job, reply.withdrawal));
      SetTaskKeeps(t, i, Confirming(job, reply.withdrawal));
    } else {
      var t := s.(orphans := s.orphans + [g]);
      TasksKept(s, t);
      SetTaskKeeps(t, i, Finished);
    }
  }

  lemma StoringKeeps(s: State, i: nat, reply: Reply)
    requires Safe(s) && i < |s.tasks| && (s.tasks[i].Confirming? || s.tasks[i].Storing?)
    ensures Safe(AdvanceTask(s, i, reply))
  {
    var job, w := s.tasks[i].job, s.tasks[i].issued;
    assert TaskOk(s, s.tasks[i]);
    if !reply.Success? {
      SetTaskKeeps(s, i, Finished);
      TasksKept(SetTask(s, i, Finished), AdvanceTask(s, i, reply));
    } else if s.tasks[i].Confirming? {
      SetTaskKeeps(s, i, Storing(job, w));
    } else {
      var row := Row(s.nextId, w.post.dest, w);
      var t := Store(s, row);
      TasksKept(s, t);
      TaskStaysOk(s, t, Sending(job, row));
      SetTaskKeeps(t, i, Sending(job, row));
    }
  }

  lemma SendingKeeps(s: State, i: nat, reply: Reply)
    requires Safe(s) && i < |s.tasks| && (s.tasks[i].Sending? || s.tasks[i].Removing?)
    ensures Safe(AdvanceTask(s, i, reply))
  {
    var job, row := s.tasks[i].job, s.tasks[i].row;
    assert TaskOk(s, s.tasks[i]);
    if s.tasks[i].Removing? {
      DeleteKeeps(s, [row], reply);
      SetTaskKeeps(Delete(s, [row], reply), i, Finished);
    } else if reply.Transport? {
      LogKeeps(s, reply.network, row.withdrawal);
      var d := Deliver(reply.network, row.withdrawal);
      var t := Log(s, job.tick.chain, row.withdrawal, d);
      TaskStaysOk(s, t, s.tasks[i]);
      SetTaskKeeps(t, i, if d.Delivered? then Removing(job, row) else Finished);
    } else {
      SetTaskKeeps(s, i, Finished);
    }
  }

  lemma AdvanceKeeps(s: State, i: nat, reply: Reply)
    requires Safe(s) && i < |s.tasks|
    ensures Safe(AdvanceTask(s, i, reply))
  {
    var t := s.tasks[i];
    if t.Clearing? {
      ClearingKeeps(s, i, reply);
    } else if t.Deleting? || t.Asking? {
      AskingKeeps(s, i, reply);
    } else if t.Withdrawing? {
      WithdrawingKeeps(s, i, reply);
    } else if t.Confirming? || t.Storing? {
      StoringKeeps(s, i, reply);
    } else if t.Sending? || t.Removing? {
      SendingKeeps(s, i, reply);
    }
  }

  lemma ReadsFor(rows: seq<Row>, tick: Tick)
    ensures Reads(Job(tick, rows), For(rows, tick.chain))
  {
    forall row: Row
      ensures multiset(For(rows, tick.chain))[row] == if row.dest == tick.chain then multiset(rows)[row] else 0
    {
      FilterCounts((row: Row) => row.dest == tick.chain, rows, row);
    }
  }

  lemma AddressedFor(s: State, chain: StateMachine)
    requires RowsOk(s)
    ensures Addressed(For(s.rows, chain), chain)
  {
    var read := For(s.rows, chain);
    forall i | 0 <= i < |read| ensures read[i].withdrawal.post.dest == chain { assert read[i] in s.rows; }
  }

  lemma StartKeeps(s: State, tick: Tick)
    requires Safe(s)
    ensures Safe(Step(s, StartTick(tick)))
  {
    var t := Step(s, StartTick(tick));
    ReadsFor(s.rows, tick);
    AddressedFor(s, tick.chain);
    assert TaskOk(t, Clearing(Job(tick, s.rows), For(s.rows, tick.chain), 0));
    forall j | 0 <= j < |t.tasks|
      ensures TaskOk(t, t.tasks[j])
    {
      if j < |s.tasks| { TaskStaysOk(s, t, s.tasks[j]); }
    }
  }

  lemma {:induction false} SentSufficient(s: State, tasks: seq<Task>)
    requires forall i :: 0 <= i < |tasks| ==> TaskOk(s, tasks[i])
    ensures Sufficient(FlatMap(Sent, tasks))
  {
    if tasks == [] {
    } else {
      assert TaskOk(s, tasks[0]);
      SentSufficient(s, tasks[1..]);
    }
  }

  lemma StepSafe(s: State, a: Action)
    requires Safe(s)
    ensures Safe(Step(s, a))
  {
    match a
    case StartTick(tick) => StartKeeps(s, tick);
    case Advance(i, reply) => if i < |s.tasks| { AdvanceKeeps(s, i, reply); }
    case LateIssue(k, w) => TasksKept(s, Step(s, a));
    case Crash => SentSufficient(s, s.tasks);
  }

  // ----- who holds a withdrawal -----

  function StoredOnes(s: State): set<Withdrawal> { set row | row in s.stored :: row.withdrawal }

  /** The rows a task works on. */
  function TaskRows(t: Task): seq<Row> {
    match t
    case Clearing(_, read, _) => read
    case Deleting(_, read) => read
    case Sending(_, row) => [row]
    case Removing(_, row) => [row]
    case _ => []
  }

  ghost predicate WereStored(s: State, rows: seq<Row>) { forall row :: row in rows ==> row in s.stored }

  /** Task `i` holds a withdrawal nobody else has, and works on rows that were stored. */
  ghost predicate Alone(s: State, i: nat)
    requires i < |s.tasks|
  {
    var held := Held(s.tasks[i]);
    && held <= s.issued && held !! s.lost && held !! StoredOnes(s)
    && (forall j :: 0 <= j < |s.tasks| && j != i ==> held !! Held(s.tasks[j]))
    && WereStored(s, TaskRows(s.tasks[i]))
  }

  /** Every withdrawal issued is in exactly one place: held by one task, ever stored, or forgotten; and
      only stored ones are delivered. */
  ghost predicate Placed(s: State) {
    && (forall i :: 0 <= i < |s.tasks| ==> Alone(s, i))
    && s.lost <= s.issued && StoredOnes(s) <= s.issued && s.lost !! StoredOnes(s)
    && (forall i :: 0 <= i < |s.delivered| ==> s.delivered[i].withdrawal in StoredOnes(s))
    && s.issued <= InFlight(s.tasks) + StoredOnes(s) + s.lost
  }

  ghost predicate Inv(s: State) { Safe(s) && Placed(s) }

  /** Replacing a task by one that holds no less than it, or after what it held was settled. */
  lemma SetTaskPlaces(s: State, i: nat, t: Task, freed: set<Withdrawal>)
    requires Placed(s) && i < |s.tasks| && Held(s.tasks[i]) <= Held(t) + freed && Held(t) <= Held(s.tasks[i])
    requires WereStored(s, TaskRows(t))
    ensures var u := SetTask(s, i, t);
            && (forall j :: 0 <= j < |u.tasks| ==> Alone(u, j))
            && u.issued <= InFlight(u.tasks) + StoredOnes(u) + u.lost + freed
  {
    var u := SetTask(s, i, t);
    forall j | 0 <= j < |u.tasks|
      ensures Alone(u, j)
    {
      assert Alone(s, j);
      assert Alone(s, i);
    }
    forall w | w in InFlight(s.tasks) && w !in freed
      ensures w in InFlight(u.tasks)
    {
      var j :| 0 <= j < |s.tasks| && w in Held(s.tasks[j]);
      assert w in Held(u.tasks[j]);
    }
  }

  lemma SetTaskPlaced(s: State, i: nat, t: Task)
    requires Placed(s) && i < |s.tasks| && Held(t) == Held(s.tasks[i])
    requires WereStored(s, TaskRows(t))
    ensures Placed(SetTask(s, i, t))
  {
    SetTaskPlaces(s, i, t, {});
  }

  lemma LogPlaced(s: State, via: StateMachine, w: Withdrawal, d: Delivery)
    requires Placed(s) && w in StoredOnes(s)
    ensures Placed(Log(s, via, w, d))
  {
    var t := Log(s, via, w, d);
    forall j | 0 <= j < |t.tasks| ensures Alone(t, j) { assert Alone(s, j); }
  }

  /** Rows of the table, grants and orphans do not matter here. */
  lemma SamePlaces(s: State, t: State)
    requires Placed(s) && t.tasks == s.tasks && t.stored == s.stored && t.delivered == s.delivered
    requires t.issued == s.issued && t.lost == s.lost
    ensures Placed(t)
  {
    forall j | 0 <= j < |t.tasks| ensures Alone(t, j) { assert Alone(s, j); }
  }

  /** A task gives up the withdrawal it held. */
  lemma ForgetPlaced(s: State, i: nat)
    requires Placed(s) && i < |s.tasks|
    ensures Placed(Forget(SetTask(s, i, Finished), Held(s.tasks[i])))
  {
    var held := Held(s.tasks[i]);
    SetTaskPlaces(s, i, Finished, held);
    assert Alone(s, i);
    var u := SetTask(s, i, Finished);
    var t := Forget(u, held);
    forall j | 0 <= j < |t.tasks|
      ensures Alone(t, j)
    {
      assert Alone(u, j);
      if j != i { assert Held(t.tasks[j]) == Held(s.tasks[j]); }
    }
  }

  lemma StoredOneMore(s: State, t: State, row: Row)
    requires t.stored == s.stored + {row}
    ensures StoredOnes(t) == StoredOnes(s) + {row.withdrawal}
  {
    assert row in t.stored;
    forall v | v in StoredOnes(s) ensures v in StoredOnes(t) {
      var r :| r in s.stored && r.withdrawal == v;
      assert r in t.stored;
    }
  }

  /** A task persists the withdrawal it held. */
  lemma StorePlaced(s: State, i: nat)
    requires Placed(s) && i < |s.tasks| && s.tasks[i].Storing?
    ensures Placed(AdvanceTask(s, i, Success))
  {
    var w := s.tasks[i].issued;
    var row := Row(s.nextId, w.post.dest, w);
    SetTaskPlaces(s, i, Finished, {w});
    assert Alone(s, i);
    var u := SetTask(s, i, Finished);
    var t := AdvanceTask(s, i, Success);
    assert t.stored == s.stored + {row} && TaskRows(t.tasks[i]) == [row];
    StoredOneMore(s, t, row);
    forall j | 0 <= j < |t.tasks| ensures Held(t.tasks[j]) == Held(u.tasks[j]) {}
    forall j | 0 <= j < |t.tasks|
      ensures Alone(t, j)
    {
      assert Alone(u, j);
      assert j != i ==> t.tasks[j] == s.tasks[j] && Held(s.tasks[i]) !! Held(s.tasks[j]);
    }
    assert InFlight(t.tasks) == InFlight(u.tasks);
  }

  /** Hyperbridge issues a withdrawal for a task. */
  lemma IssuePlaced(s: State, i: nat, w: Withdrawal, g: Grant)
    requires Placed(s) && i < |s.tasks| && s.tasks[i].Withdrawing? && w !in s.issued
    ensures Placed(SetTask(Issue(s, w, g), i, Confirming(s.tasks[i].job, w)))
  {
    var t := SetTask(Issue(s, w, g), i, Confirming(s.tasks[i].job, w));
    assert Alone(s, i);
    forall j | 0 <= j < |t.tasks|
      ensures Alone(t, j)
    {
      assert Alone(s, j);
      forall k | 0 <= k < |t.tasks| && k != j
        ensures Held(t.tasks[j]) !! Held(t.tasks[k])
      {
        assert Alone(s, k);
      }
    }
    assert w in Held(t.tasks[i]);
    forall v | v in InFlight(s.tasks)
      ensures v in InFlight(t.tasks)
    {
      var j :| 0 <= j < |s.tasks| && v in Held(s.tasks[j]);
      assert v in Held(t.tasks[j]);
    }
  }

  /** A delivery succeeded or failed; the task goes on to `next` working on the same rows. */
  lemma DeliveryPlaced(s: State, i: nat, via: StateMachine, row: Row, d: Delivery, next: Task)
    requires Placed(s) && i < |s.tasks| && row in TaskRows(s.tasks[i])
    requires Held(next) == Held(s.tasks[i]) && (next.Finished? || TaskRows(next) == TaskRows(s.tasks[i]))
    ensures Placed(SetTask(Log(s, via, row.withdrawal, d), i, next))
  {
    assert Alone(s, i);
    LogPlaced(s, via, row.withdrawal, d);
    SetTaskPlaced(Log(s, via, row.withdrawal, d), i, next);
  }

  /** The task goes on to `next` after a change that places nothing anew. */
  lemma MovePlaced(s: State, t: State, i: nat, next: Task)
    requires Placed(s) && i < |s.tasks| && t.tasks == s.tasks && t.stored == s.stored && t.delivered == s.delivered
    requires t.issued == s.issued && t.lost == s.lost
    requires Held(next) == Held(s.tasks[i]) && (TaskRows(next) == [] || TaskRows(next) == TaskRows(s.tasks[i]))
    ensures Placed(SetTask(t, i, next))
  {
    SamePlaces(s, t);
    assert Alone(s, i);
    SetTaskPlaced(t, i, next);
  }

  lemma ClearingPlaced(s: State, i: nat, reply: Reply)
    requires Placed(s) && i < |s.tasks| && s.tasks[i].Clearing?
    ensures Placed(AdvanceTask(s, i, reply))
  {
    var job, read, next := s.tasks[i].job, s.tasks[i].read, s.tasks[i].next;
    if next >= |read| {
      MovePlaced(s, s, i, Deleting(job, read));
    } else if !reply.Transport? {
      MovePlaced(s, s, i, Finished);
    } else {
      var d := Deliver(reply.network, read[next].withdrawal);
      var after := if d.Delivered? then Clearing(job, read, next + 1) else Finished;
      DeliveryPlaced(s, i, job.tick.chain, read[next], d, after);
    }
  }

  lemma AskingPlaced(s: State, i: nat, reply: Reply)
    requires Placed(s) && i < |s.tasks| && (s.tasks[i].Deleting? || s.tasks[i].Asking? || s.tasks[i].Withdrawing?)
    ensures Placed(AdvanceTask(s, i, reply))
  {
    var job := s.tasks[i].job;
    if s.tasks[i].Deleting? {
      MovePlaced(s, Delete(s, s.tasks[i].read, reply), i, Asking(job));
    } else if s.tasks[i].Asking? {
      if reply.Amount? && reply.amount >= job.tick.minimum {
        MovePlaced(s, s, i, Withdrawing(job, reply.amount));
      } else {
        MovePlaced(s, s, i, Finished);
      }
    } else {
      var g := Grant(job.tick.chain, s.tasks[i].amount, job.tick.minimum);
      if reply.Issued? && CanIssue(s, reply.withdrawal, job.tick.chain) {
        IssuePlaced(s, i, reply.withdrawal, g);
      } else {
        MovePlaced(s, s.(orphans := s.orphans + [g]), i, Finished);
      }
    }
  }

  lemma HoldingPlaced(s: State, i: nat, reply: Reply)
    requires Placed(s) && i < |s.tasks| && (s.tasks[i].Confirming? || s.tasks[i].Storing?)
    ensures Placed(AdvanceTask(s, i, reply))
  {
    if !reply.Success? {
      ForgetPlaced(s, i);
    } else if s.tasks[i].Confirming? {
      MovePlaced(s, s, i, Storing(s.tasks[i].job, s.tasks[i].issued));
    } else {
      StorePlaced(s, i);
    }
  }

  lemma SendingPlaced(s: State, i: nat, reply: Reply)
    requires Placed(s) && i < |s.tasks| && (s.tasks[i].Sending? || s.tasks[i].Removing?)
    ensures Placed(AdvanceTask(s, i, reply))
  {
    var job, row := s.tasks[i].job, s.tasks[i].row;
    if s.tasks[i].Removing? {
      MovePlaced(s, Delete(s, [row], reply), i, Finished);
    } else if reply.Transport? {
      var d := Deliver(reply.network, row.withdrawal);
      DeliveryPlaced(s, i, job.tick.chain, row, d, if d.Delivered? then Removing(job, row) else Finished);
    } else {
      MovePlaced(s, s, i, Finished);
    }
  }

  lemma AdvancePlaced(s: State, i: nat, reply: Reply)
    requires Placed(s) && i < |s.tasks|
    ensures Placed(AdvanceTask(s, i, reply))
  {
    var t := s.tasks[i];
    if t.Clearing? {
      ClearingPlaced(s, i, reply);
    } else if t.Deleting? || t.Asking? || t.Withdrawing? {
      AskingPlaced(s, i, reply);
    } else if t.Confirming? || t.Storing? {
      HoldingPlaced(s, i, reply);
    } else if t.Sending? || t.Removing? {
      SendingPlaced(s, i, reply);
    }
  }

  lemma StartPlaced(s: State, tick: Tick)
    requires Placed(s) && RowsOk(s)
    ensures Placed(Step(s, StartTick(tick)))
  {
    var t := Step(s, StartTick(tick));
    forall j | 0 <= j < |t.tasks|
      ensures Alone(t, j)
    {
      if j < |s.tasks| {
        assert Alone(s, j);
      } else {
        assert TaskRows(t.tasks[j]) == For(s.rows, tick.chain);
        forall row | row in For(s.rows, tick.chain) ensures row in t.stored { assert row in s.rows; }
      }
    }
    forall v | v in InFlight(s.tasks)
      ensures v in InFlight(t.tasks)
    {
      var j :| 0 <= j < |s.tasks| && v in Held(s.tasks[j]);
      assert v in Held(t.tasks[j]);
    }
  }

  lemma CrashPlaced(s: State)
    requires Placed(s)
    ensures Placed(Step(s, Crash))
  {
    forall w | w in InFlight(s.tasks)
      ensures w in s.issued && w !in StoredOnes(s)
    {
      var i :| 0 <= i < |s.tasks| && w in Held(s.tasks[i]);
      assert Alone(s, i);
    }
  }

  lemma LatePlaced(s: State, k: nat, w: Withdrawal)
    requires Placed(s) && k < |s.orphans| && CanIssue(s, w, s.orphans[k].chain)
    ensures Placed(Step(s, LateIssue(k, w)))
  {
    var t := Step(s, LateIssue(k, w));
    forall j | 0 <= j < |t.tasks| ensures Alone(t, j) { assert Alone(s, j); }
  }

  lemma StepPlaced(s: State, a: Action)
    requires Inv(s)
    ensures Placed(Step(s, a))
  {
    match a
    case StartTick(tick) => StartPlaced(s, tick);
    case Advance(i, reply) => if i < |s.tasks| { AdvancePlaced(s, i, reply); }
    case LateIssue(k, w) => if k < |s.orphans| && CanIssue(s, w, s.orphans[k].chain) { LatePlaced(s, k, w); }
    case Crash => CrashPlaced(s);
  }

  // ----- every run -----

  /** Over every interleaving of ticks, failures and crashes: a pending row disappears only once its
      request was delivered; every delivery went to the chain it is addressed to and was proved at or above
      the withdrawal's block within five submits; a tick asks for a new withdrawal only after delivering
      everything that was pending for its chain when it started, and only from a balance of at least its
      minimum; and every withdrawal hyperbridge issues is at any time held by exactly one tick, or was stored,
      or was forgotten. */
  lemma {:induction false} PendingWithdrawalsSafe(actions: seq<Action>)
    ensures Inv(Run(actions))
  {
    if actions == [] {
    } else {
      var before, a := actions[..|actions| - 1], actions[|actions| - 1];
      PendingWithdrawalsSafe(before);
      StepSafe(Run(before), a);
      StepPlaced(Run(before), a);
    }
  }

  /** The relayer still knows of this withdrawal: a tick holds it, it is pending, or it was delivered. */
  predicate Remembered(s: State, w: Withdrawal) {
    || w in InFlight(s.tasks)
    || WasDelivered(s, w)
    || exists i :: 0 <= i < |s.rows| && s.rows[i].withdrawal == w
  }

  lemma RememberedIff(s: State, w: Withdrawal)
    requires Inv(s) && w in s.issued
    ensures Remembered(s, w) <==> w !in s.lost
  {
    if w in s.lost {
      forall i | 0 <= i < |s.tasks| ensures w !in Held(s.tasks[i]) { assert Alone(s, i); }
      forall i | 0 <= i < |s.rows| ensures s.rows[i].withdrawal != w { assert s.rows[i] in s.stored; }
    } else if w !in InFlight(s.tasks) {
      var row :| row in s.stored && row.withdrawal == w;
      if row in s.rows {
        var i :| 0 <= i < |s.rows| && s.rows[i] == row;
        assert s.rows[i].withdrawal == w;
      }
    }
  }

  /** The steps after which a withdrawal is on its way that the relayer does not know of: the lookup or
      the store of an issued one fails, the process dies before the store, or hyperbridge executes an
      extrinsic whose tick has broken off. */
  predicate Loses(s: State, a: Action) {
    match a
    case StartTick(_) => false
    case Advance(i, reply) => i < |s.tasks| && (s.tasks[i].Confirming? || s.tasks[i].Storing?) && !reply.Success?
    case LateIssue(k, w) => k < |s.orphans| && CanIssue(s, w, s.orphans[k].chain)
    case Crash => exists i :: 0 <= i < |s.tasks| && (s.tasks[i].Confirming? || s.tasks[i].Storing?)
  }

  predicate Lossless(actions: seq<Action>) {
    actions != [] ==>
      Lossless(actions[..|actions| - 1]) && !Loses(Run(actions[..|actions| - 1]), actions[|actions| - 1])
  }

  lemma StepLoses(s: State, a: Action)
    ensures Step(s, a).lost == {} <==> s.lost == {} && !Loses(s, a)
  {
    match a
    case Advance(i, reply) =>
      if i < |s.tasks| && (s.tasks[i].Confirming? || s.tasks[i].Storing?) && !reply.Success? {
        assert s.tasks[i].issued in Step(s, a).lost;
      }
    case LateIssue(k, w) => if Loses(s, a) { assert w in Step(s, a).lost; }
    case Crash =>
      if i :| 0 <= i < |s.tasks| && (s.tasks[i].Confirming? || s.tasks[i].Storing?) {
        assert s.tasks[i].issued in Held(s.tasks[i]);
        assert s.tasks[i].issued in Step(s, a).lost;
      }
    case _ =>
  }

  lemma {:induction false} LostIff(actions: seq<Action>)
    ensures Run(actions).lost == {} <==> Lossless(actions)
  {
    if actions == [] {
    } else {
      var before, a := actions[..|actions| - 1], actions[|actions| - 1];
      LostIff(before);
      StepLoses(Run(before), a);
    }
  }

  /** After any run, every withdrawal hyperbridge issued is pending, held by a tick or delivered, if and
      only if no step of the run was a losing one. */
  lemma {:induction false} NothingLostIff(actions: seq<Action>)
    ensures (forall w :: w in Run(actions).issued ==> Remembered(Run(actions), w)) <==> Lossless(actions)
  {
    PendingWithdrawalsSafe(actions);
    LostIff(actions);
    var s := Run(actions);
    forall w | w in s.issued
      ensures Remembered(s, w) <==> w !in s.lost
    {
      RememberedIff(s, w);
    }
    if s.lost != {} {
      var w :| w in s.lost;
      assert w in s.issued && !Remembered(s, w);
    }
  }

  /** Such a step needs neither a failing store nor a crash: hyperbridge finalizes the extrinsic, looking
      up its block or its event fails, and the tick ends. */
  lemma UnconfirmedWithdrawalForgotten(tick: Tick, w: Withdrawal, actions: seq<Action>)
    requires w.post.dest == tick.chain
    requires actions == [StartTick(tick), Advance(0, Success), Advance(0, Success), Advance(0, Amount(tick.minimum)),
                         Advance(0, Issued(w)), Advance(0, Failure)]
    ensures w in Run(actions).issued && !Remembered(Run(actions), w)
  {
    var s1 := Step(Start(), actions[0]);
    assert For([], tick.chain) == [];
    var job := Job(tick, []);
    assert s1.tasks == [Clearing(job, [], 0)];
    var s4 := Step(Step(Step(s1, actions[1]), actions[2]), actions[3]);
    assert s4.tasks == [Withdrawing(job, tick.minimum)] && s4.issued == {};
    var s6 := Step(Step(s4, actions[4]), actions[5]);
    RunSteps6(actions);
    assert s6.tasks == [Finished] && s6.rows == [] && s6.delivered == [];
  }

  lemma {:induction false} RunSteps6(actions: seq<Action>)
    requires |actions| == 6
    ensures Run(actions)
         == Step(Step(Step(Step(Step(Step(Start(), actions[0]), actions[1]), actions[2]), actions[3]), actions[4]),
                 actions[5])
  {
    assert actions[..5][..4] == actions[..4] && actions[..4][..3] == actions[..3];
    assert actions[..3][..2] == actions[..2] && actions[..2][..1] == actions[..1] && actions[..1][..0] == [];
    assert Run(actions[..1]) == Step(Run(actions[..1][..0]), actions[0]);
    assert Run(actions[..2]) == Step(Run(actions[..1]), actions[1]);
    assert Run(actions[..3]) == Step(Run(actions[..2]), actions[2]);
    assert Run(actions[..4]) == Step(Run(actions[..3]), actions[3]);
    assert Run(actions[..5]) == Step(Run(actions[..4]), actions[4]);
  }

  /** `auto_withdraw`'s minimum: at least ten dollars whatever is configured, a hundred by default; the
      manual command uses ten. */
  function MinimumAmount(configured: Option<nat>): (m: nat)
    ensures m >= 10 * 1_000_000_000_000_000_000
    ensures configured.None? ==> m == 100 * 1_000_000_000_000_000_000
    ensures configured.Some? && configured.value >= 10 ==> m == configured.value * 1_000_000_000_000_000_000
    ensures configured.Some? && configured.value < 10 ==> m == 10 * 1_000_000_000_000_000_000
  {
    (if configured.Some? then Max(configured.value, 10) else 100) * 1_000_000_000_000_000_000
  }
}
