/** What a tick gets done besides losing nothing: when it goes on, and what is delivered, requested and gone
    when every await succeeds. */
module WithdrawalProgress {
  import opened Prelude
  import opened Ismp
  import opened Withdrawals

  // ----- one await -----

  /** A reply a delivery succeeds with. */
  ghost predicate Delivers(reply: Reply, w: Withdrawal) {
    && reply.Transport?
    && (exists h: nat :: ProvedAt(reply.network, w.block, h) && reply.network.provable(h))
    && exists k: nat :: k < 5 && reply.network.submit(k)
  }

  lemma DeliversIff(n: Network, w: Withdrawal)
    ensures Deliver(n, w).Delivered? <==> Delivers(Transport(n), w)
  {
    var d := Deliver(n, w);
    if d.Delivered? {
      DeliverIff(n, w, d.height, d.submits);
      assert n.submit(d.submits - 1);
    }
    if Delivers(Transport(n), w) {
      var h: nat :| ProvedAt(n, w.block, h) && n.provable(h);
      AwaitIff(n.updates, w.block, h);
      assert ProofHeight(n, w.block) == Some(h);
    }
  }

  /** A new tick sets out to deliver what the table holds for its chain, from the first row on. */
  lemma TickStarts(s: State, tick: Tick)
    ensures var t := Step(s, StartTick(tick));
            && t == s.(tasks := t.tasks) && |t.tasks| == |s.tasks| + 1 && t.tasks[..|s.tasks|] == s.tasks
            && var task := t.tasks[|s.tasks|];
               task.Clearing? && task.job == Job(tick, s.rows) && task.next == 0 && Reads(task.job, task.read)
  {
    ReadsFor(s.rows, tick);
  }

  /** The replies with which a task goes on. A delivery must succeed, a balance must reach the minimum, hyperbridge
      must issue a new withdrawal for the chain, and its lookup and store must succeed; a failing deletion holds
      up nothing. */
  ghost predicate GoesOn(s: State, t: Task, reply: Reply) {
    match t
    case Clearing(_, read, next) => next < |read| ==> Delivers(reply, read[next].withdrawal)
    case Deleting(_, _) => true
    case Asking(job) => reply.Amount? && reply.amount >= job.tick.minimum
    case Withdrawing(job, _) =>
      reply.Issued? && reply.withdrawal !in s.issued && reply.withdrawal.post.dest == job.tick.chain
    case Confirming(_, _) => reply.Success?
    case Storing(_, _) => reply.Success?
    case Sending(_, row) => Delivers(reply, row.withdrawal)
    case Removing(_, _) => false
    case Finished => false
  }

  lemma GoesOnIff(s: State, i: nat, reply: Reply)
    requires i < |s.tasks|
    ensures var t := Step(s, Advance(i, reply));
            && |t.tasks| == |s.tasks| && t.tasks == s.tasks[i := t.tasks[i]]
            && (!t.tasks[i].Finished? <==> GoesOn(s, s.tasks[i], reply))
            && (!t.tasks[i].Finished? ==> t.tasks[i].job == s.tasks[i].job)
  {
    var t := s.tasks[i];
    if t.Clearing? && t.next < |t.read| && reply.Transport? {
      DeliversIff(reply.network, t.read[t.next].withdrawal);
    } else if t.Sending? && reply.Transport? {
      DeliversIff(reply.network, t.row.withdrawal);
    }
  }

  /** All rows to go are in the table and go, every copy of them, or one is missing and none goes. */
  ghost predicate Deleted(rows: seq<Row>, gone: seq<Row>, left: seq<Row>) {
    if exists row :: row in gone && row !in rows then left == rows
    else forall row :: multiset(left)[row] == if row in gone then 0 else multiset(rows)[row]
  }

  lemma DeleteIff(s: State, gone: seq<Row>)
    ensures Deleted(s.rows, gone, Delete(s, gone, Success).rows)
  {
    forall row: Row { FilterCounts((r: Row) => r !in gone, s.rows, row); }
  }

  /** The table changes in two ways only: a tick stores the withdrawal issued to it, under the chain it is
      addressed to and a new number, or deletes the rows it delivered. */
  lemma TableIff(s: State, i: nat, reply: Reply)
    requires i < |s.tasks|
    ensures var t, task := Step(s, Advance(i, reply)), s.tasks[i];
            && t.nextId == s.nextId + (if task.Storing? && reply.Success? then 1 else 0)
            && if !reply.Success? then t.rows == s.rows else
               match task
               case Storing(_, w) => t.rows == s.rows + [Row(s.nextId, w.post.dest, w)]
               case Deleting(_, read) => Deleted(s.rows, read, t.rows)
               case Removing(_, row) => Deleted(s.rows, [row], t.rows)
               case _ => t.rows == s.rows
  {
    var task := s.tasks[i];
    if !(task.Deleting? || task.Removing?) {
    } else if !reply.Success? {
      FailedDelete(s, i, reply);
    } else if task.Deleting? {
      DeleteIff(s, task.read);
    } else {
      DeleteIff(s, [task.row]);
    }
  }

  lemma FailedDelete(s: State, i: nat, reply: Reply)
    requires i < |s.tasks| && (s.tasks[i].Deleting? || s.tasks[i].Removing?) && !reply.Success?
    ensures Step(s, Advance(i, reply)).rows == s.rows && Step(s, Advance(i, reply)).nextId == s.nextId
  {
  }

  /** An extrinsic whose tick broke off is executed at most once, and only for its chain; the relayer does not get
      to know of the withdrawal. */
  lemma LateIssueIff(s: State, k: nat, w: Withdrawal)
    ensures var t := Step(s, LateIssue(k, w));
            if k < |s.orphans| && w !in s.issued && w.post.dest == s.orphans[k].chain
            then
              && multiset(t.orphans) + multiset{s.orphans[k]} == multiset(s.orphans)
              && t == s.(orphans := t.orphans, issued := s.issued + {w}, lost := s.lost + {w},
                         grants := s.grants + [s.orphans[k]])
            else t == s
  {
    if k < |s.orphans| {
      assert s.orphans == s.orphans[..k] + [s.orphans[k]] + s.orphans[k + 1..];
    }
  }

  /** A crash ends all ticks. Withdrawals issued but not stored are forgotten, and extrinsics sent but not finalized
      are left to hyperbridge. */
  lemma {:induction false} CrashIff(s: State, w: Withdrawal, g: Grant)
    ensures var t := Step(s, Crash);
            && t == s.(tasks := [], orphans := t.orphans, lost := t.lost)
            && (w in t.lost <==> w in s.lost || exists i :: 0 <= i < |s.tasks| && w in Held(s.tasks[i]))
            && (g in t.orphans <==> g in s.orphans || exists i :: 0 <= i < |s.tasks| && g in Sent(s.tasks[i]))
  {
    FlatMapMember(Sent, s.tasks, g);
  }

  // ----- a tick, end to end -----

  function Deliveries(i: nat, networks: seq<Network>): seq<Action> { Map(n => Advance(i, Transport(n)), networks) }

  /** The rows of these records are the first ones of `read`, in order, delivered through the chain's client. */
  ghost predicate Recorded(records: seq<Record>, chain: StateMachine, read: seq<Row>) {
    && |records| == |read|
    && forall j :: 0 <= j < |read| ==> records[j].via == chain && records[j].withdrawal == read[j].withdrawal
  }

  /** Task `i` has delivered its first rows and nothing else has changed. */
  ghost predicate DeliveredFirst(s: State, i: nat, k: nat, t: State)
    requires i < |s.tasks| && s.tasks[i].Clearing? && k <= |s.tasks[i].read|
  {
    var task, n := s.tasks[i], |s.delivered|;
    && t == s.(tasks := s.tasks[i := task.(next := k)], delivered := t.delivered)
    && n <= |t.delivered| && t.delivered[..n] == s.delivered
    && Recorded(t.delivered[n..], task.job.tick.chain, task.read[..k])
  }

  lemma DeliverOne(s: State, i: nat, k: nat, t: State, n: Network)
    requires i < |s.tasks| && s.tasks[i].Clearing? && k < |s.tasks[i].read| && DeliveredFirst(s, i, k, t)
    requires Delivers(Transport(n), s.tasks[i].read[k].withdrawal)
    ensures DeliveredFirst(s, i, k + 1, Step(t, Advance(i, Transport(n))))
  {
    var read, m := s.tasks[i].read, |s.delivered|;
    DeliversIff(n, read[k].withdrawal);
    var u := Step(t, Advance(i, Transport(n)));
    assert u.delivered[m..] == t.delivered[m..] + [u.delivered[|t.delivered|]];
    assert read[..k + 1] == read[..k] + [read[k]];
    assert u.delivered[..m] == t.delivered[..m];
  }

  lemma {:induction false} DeliverMany(s: State, i: nat, networks: seq<Network>) returns (t: State)
    requires i < |s.tasks| && s.tasks[i].Clearing? && s.tasks[i].next == 0 && |networks| <= |s.tasks[i].read|
    requires forall j :: 0 <= j < |networks| ==> Delivers(Transport(networks[j]), s.tasks[i].read[j].withdrawal)
    ensures t == Fold(Step, s, Deliveries(i, networks)) && DeliveredFirst(s, i, |networks|, t)
  {
    if networks == [] {
      t := s;
      assert s.tasks[i := s.tasks[i]] == s.tasks && s.delivered[..|s.delivered|] == s.delivered;
    } else {
      var k := |networks| - 1;
      var u := DeliverMany(s, i, networks[..k]);
      DeliverOne(s, i, k, u, networks[k]);
      t := Step(u, Advance(i, Transport(networks[k])));
      assert Deliveries(i, networks)[..k] == Deliveries(i, networks[..k]);
    }
  }

  /** Everything found for the chain is delivered and gone from the table, in one run of awaits. */
  ghost predicate ClearedOut(s: State, i: nat, t: State)
    requires i < |s.tasks| && s.tasks[i].Clearing?
  {
    var task, n := s.tasks[i], |s.delivered|;
    && t == s.(tasks := s.tasks[i := Asking(task.job)], rows := t.rows, delivered := t.delivered)
    && n <= |t.delivered| && t.delivered[..n] == s.delivered
    && Recorded(t.delivered[n..], task.job.tick.chain, task.read) && Deleted(s.rows, task.read, t.rows)
  }

  function Clearance(i: nat, networks: seq<Network>): seq<Action> {
    Deliveries(i, networks) + [Advance(i, Success), Advance(i, Success)]
  }

  lemma ClearOut(s: State, i: nat, networks: seq<Network>) returns (t: State)
    requires i < |s.tasks| && s.tasks[i].Clearing? && s.tasks[i].next == 0 && |networks| == |s.tasks[i].read|
    requires forall j :: 0 <= j < |networks| ==> Delivers(Transport(networks[j]), s.tasks[i].read[j].withdrawal)
    ensures t == Fold(Step, s, Clearance(i, networks)) && ClearedOut(s, i, t)
  {
    var read := s.tasks[i].read;
    var u := DeliverMany(s, i, networks);
    assert read[..|read|] == read;
    var v := Step(u, Advance(i, Success));
    DeleteIff(v, read);
    t := Step(v, Advance(i, Success));
    FoldTwo(Step, s, Deliveries(i, networks), Advance(i, Success), Advance(i, Success));
  }

  /** Hyperbridge issues the withdrawal asked for, and it is stored. */
  lemma IssueAndStore(s: State, i: nat, amount: nat, w: Withdrawal)
    requires i < |s.tasks| && s.tasks[i].Asking? && amount >= s.tasks[i].job.tick.minimum
    requires w !in s.issued && w.post.dest == s.tasks[i].job.tick.chain
    ensures var job, row := s.tasks[i].job, Row(s.nextId, w.post.dest, w);
            var u := Step(Step(s, Advance(i, Amount(amount))), Advance(i, Issued(w)));
            Step(Step(u, Advance(i, Success)), Advance(i, Success))
            == s.(tasks := s.tasks[i := Sending(job, row)], rows := s.rows + [row], nextId := s.nextId + 1,
                  stored := s.stored + {row}, issued := s.issued + {w},
                  grants := s.grants + [Grant(job.tick.chain, amount, job.tick.minimum)])
  {
    var job, row := s.tasks[i].job, Row(s.nextId, w.post.dest, w);
    var s1 := Step(s, Advance(i, Amount(amount)));
    var s2 := Step(s1, Advance(i, Issued(w)));
    var s3 := Step(s2, Advance(i, Success));
    var s4 := Step(s3, Advance(i, Success));
    assert s1.tasks[i] == Withdrawing(job, amount) && s2.tasks[i] == Confirming(job, w);
    assert s3.tasks[i] == Storing(job, w) && s4.tasks[i] == Sending(job, row);
    assert s4.tasks == s.tasks[i := Sending(job, row)];
  }

  lemma DeleteLast(s: State, rows: seq<Row>, row: Row)
    requires s.rows == rows + [row] && row !in rows
    ensures Delete(s, [row], Success).rows == rows
  {
    var other := (r: Row) => r !in [row];
    FilterSnoc(other, rows, row);
    FilterAll(other, rows);
  }

  /** The withdrawal just stored is delivered and its row is gone again. */
  lemma SendAndRemove(s: State, i: nat, rows: seq<Row>, n: Network)
    requires i < |s.tasks| && s.tasks[i].Sending? && s.rows == rows + [s.tasks[i].row] && s.tasks[i].row !in rows
    requires Delivers(Transport(n), s.tasks[i].row.withdrawal)
    ensures var t, task := Step(Step(s, Advance(i, Transport(n))), Advance(i, Success)), s.tasks[i];
            && t == s.(tasks := s.tasks[i := Finished], rows := rows, delivered := t.delivered)
            && |t.delivered| == |s.delivered| + 1 && t.delivered[..|s.delivered|] == s.delivered
            && t.delivered[|s.delivered|].via == task.job.tick.chain
            && t.delivered[|s.delivered|].withdrawal == task.row.withdrawal
  {
    var task := s.tasks[i];
    DeliversIff(n, task.row.withdrawal);
    var u := Step(s, Advance(i, Transport(n)));
    assert u.tasks[i] == Removing(task.job, task.row);
    DeleteLast(u, rows, task.row);
    assert Step(u, Advance(i, Success)).tasks == s.tasks[i := Finished];
  }

  /** The request for a new withdrawal, all the way to its delivery. */
  function Request(i: nat, amount: nat, w: Withdrawal, n: Network): seq<Action> {
    [Advance(i, Amount(amount)), Advance(i, Issued(w)), Advance(i, Success), Advance(i, Success),
     Advance(i, Transport(n)), Advance(i, Success)]
  }

  /** A tick gets every await answered: its deliveries through the given networks, its balance, and, if that is
      enough, the withdrawal issued and its delivery. */
  function TickRun(i: nat, tick: Tick, networks: seq<Network>, amount: nat, w: Withdrawal, n: Network): seq<Action> {
    [StartTick(tick)] + Clearance(i, networks)
    + if amount >= tick.minimum then Request(i, amount, w, n) else [Advance(i, Amount(amount))]
  }

  lemma RequestRun(s: State, i: nat, amount: nat, w: Withdrawal, n: Network) returns (t: State)
    requires i < |s.tasks| && s.tasks[i].Asking? && amount >= s.tasks[i].job.tick.minimum
    requires w !in s.issued && w.post.dest == s.tasks[i].job.tick.chain && Delivers(Transport(n), w)
    requires forall row :: row in s.rows ==> row.id < s.nextId
    ensures t == Fold(Step, s, Request(i, amount, w, n))
    ensures t.tasks == s.tasks[i := Finished] && t.rows == s.rows && t.issued == s.issued + {w} && t.lost == s.lost
    ensures |t.delivered| == |s.delivered| + 1 && t.delivered[..|s.delivered|] == s.delivered
    ensures var r := t.delivered[|s.delivered|]; r.via == s.tasks[i].job.tick.chain && r.withdrawal == w
  {
    IssueAndStore(s, i, amount, w);
    var u := Step(Step(s, Advance(i, Amount(amount))), Advance(i, Issued(w)));
    var v := Step(Step(u, Advance(i, Success)), Advance(i, Success));
    SendAndRemove(v, i, s.rows, n);
    t := Step(Step(v, Advance(i, Transport(n))), Advance(i, Success));
    var first := [Advance(i, Amount(amount)), Advance(i, Issued(w))];
    var second := first + [Advance(i, Success), Advance(i, Success)];
    FoldTwo(Step, s, [], first[0], first[1]);
    assert [] + [first[0], first[1]] == first;
    FoldTwo(Step, s, first, Advance(i, Success), Advance(i, Success));
    FoldTwo(Step, s, second, Advance(i, Transport(n)), Advance(i, Success));
    assert second + [Advance(i, Transport(n)), Advance(i, Success)] == Request(i, amount, w, n);
  }

  /** What the table holds for other chains, and nothing for this one. */
  ghost predicate OthersLeft(rows: seq<Row>, chain: StateMachine, left: seq<Row>) {
    forall row :: multiset(left)[row] == if row.dest == chain then 0 else multiset(rows)[row]
  }

  /** A tick that ran through. */
  ghost predicate TickDone(s: State, tick: Tick, amount: nat, w: Withdrawal, t: State) {
    && t.tasks == s.tasks + [Finished] && t.lost == s.lost
    && OthersLeft(s.rows, tick.chain, t.rows)
    && (forall row :: row in s.rows && row.dest == tick.chain ==> WasDelivered(t, row.withdrawal))
    && s.delivered <= t.delivered
    && (forall j :: |s.delivered| <= j < |t.delivered| ==> t.delivered[j].via == tick.chain)
    && |t.delivered| == |s.delivered| + |For(s.rows, tick.chain)| + (if amount >= tick.minimum then 1 else 0)
    && t.issued == s.issued + (if amount >= tick.minimum then {w} else {})
    && (amount >= tick.minimum ==> WasDelivered(t, w))
  }

  /** The state once everything pending is cleared out. */
  ghost predicate PendingDone(s: State, tick: Tick, t: State) {
    && t.tasks == s.tasks + [Asking(Job(tick, s.rows))] && t.lost == s.lost && t.issued == s.issued
    && t.nextId == s.nextId && OthersLeft(s.rows, tick.chain, t.rows)
    && (forall row :: row in s.rows && row.dest == tick.chain ==> WasDelivered(t, row.withdrawal))
    && s.delivered <= t.delivered
    && (forall j :: |s.delivered| <= j < |t.delivered| ==> t.delivered[j].via == tick.chain)
    && |t.delivered| == |s.delivered| + |For(s.rows, tick.chain)|
  }

  lemma RecordedAll(s: State, chain: StateMachine, t: State)
    requires |s.delivered| <= |t.delivered| && t.delivered[..|s.delivered|] == s.delivered
    requires Recorded(t.delivered[|s.delivered|..], chain, For(s.rows, chain))
    ensures forall row :: row in s.rows && row.dest == chain ==> WasDelivered(t, row.withdrawal)
    ensures forall j :: |s.delivered| <= j < |t.delivered| ==> t.delivered[j].via == chain
  {
    var read, n := For(s.rows, chain), |s.delivered|;
    forall row | row in s.rows && row.dest == chain
      ensures WasDelivered(t, row.withdrawal)
    {
      var j :| 0 <= j < |read| && read[j] == row;
      assert t.delivered[n + j] == t.delivered[n..][j];
    }
    forall j | n <= j < |t.delivered| ensures t.delivered[j].via == chain {
      assert t.delivered[j] == t.delivered[n..][j - n];
    }
  }

  lemma DeletedOwn(rows: seq<Row>, chain: StateMachine, left: seq<Row>)
    requires Deleted(rows, For(rows, chain), left)
    ensures OthersLeft(rows, chain, left)
  {
    forall row: Row ensures row in For(rows, chain) <==> row in rows && row.dest == chain {}
  }

  lemma PendingCleared(s: State, tick: Tick, t: State)
    requires ClearedOut(Step(s, StartTick(tick)), |s.tasks|, t)
    ensures PendingDone(s, tick, t)
  {
    RecordedAll(s, tick.chain, t);
    DeletedOwn(s.rows, tick.chain, t.rows);
  }

  /** Nothing more to withdraw: the tick ends. */
  lemma TooLittle(s: State, tick: Tick, amount: nat, w: Withdrawal, u: State)
    requires PendingDone(s, tick, u) && amount < tick.minimum
    ensures TickDone(s, tick, amount, w, Step(u, Advance(|s.tasks|, Amount(amount))))
  {
    var t := Step(u, Advance(|s.tasks|, Amount(amount)));
    forall v | WasDelivered(u, v) ensures WasDelivered(t, v) { DeliveredStays(u, t, v); }
  }

  lemma Enough(s: State, tick: Tick, amount: nat, w: Withdrawal, u: State, t: State)
    requires PendingDone(s, tick, u) && amount >= tick.minimum
    requires t.tasks == u.tasks[|s.tasks| := Finished] && t.rows == u.rows && t.issued == u.issued + {w}
    requires t.lost == u.lost
    requires |t.delivered| == |u.delivered| + 1 && t.delivered[..|u.delivered|] == u.delivered
    requires t.delivered[|u.delivered|].via == tick.chain && t.delivered[|u.delivered|].withdrawal == w
    ensures TickDone(s, tick, amount, w, t)
  {
    forall v | WasDelivered(u, v) ensures WasDelivered(t, v) { DeliveredStays(u, t, v); }
    assert WasDelivered(t, w);
    forall j | |s.delivered| <= j < |t.delivered| ensures t.delivered[j].via == tick.chain {
      assert j < |u.delivered| ==> t.delivered[j] == t.delivered[..|u.delivered|][j];
    }
  }

  lemma {:induction false} RunIsFold(actions: seq<Action>)
    ensures Run(actions) == Fold(Step, Start(), actions)
  {
    if actions == [] {
    } else {
      RunIsFold(actions[..|actions| - 1]);
    }
  }

  lemma RunOn(before: seq<Action>, actions: seq<Action>)
    ensures Run(before + actions) == Fold(Step, Run(before), actions)
  {
    RunIsFold(before);
    RunIsFold(before + actions);
    FoldConcat(Step, Start(), before, actions);
  }

  /** In every reachable state, a tick whose awaits all succeed delivers everything pending for its chain, through
      that chain's client and nothing else, and removes it from the table, leaving the rows of all other chains.
      If the balance reaches the minimum, one new withdrawal is issued and delivered besides; if not, none is. */
  lemma TickDelivers(before: seq<Action>, tick: Tick, networks: seq<Network>, amount: nat, w: Withdrawal, n: Network)
    requires |networks| == |For(Run(before).rows, tick.chain)|
    requires forall j :: 0 <= j < |networks| ==>
               Delivers(Transport(networks[j]), For(Run(before).rows, tick.chain)[j].withdrawal)
    requires w !in Run(before).issued && w.post.dest == tick.chain && Delivers(Transport(n), w)
    ensures var s := Run(before);
            TickDone(s, tick, amount, w, Run(before + TickRun(|s.tasks|, tick, networks, amount, w, n)))
  {
    var s := Run(before);
    var i, first := |s.tasks|, Step(s, StartTick(tick));
    PendingWithdrawalsSafe(before);
    var u := ClearOut(first, i, networks);
    PendingCleared(s, tick, u);
    var start := [StartTick(tick)];
    RunOn(before, TickRun(i, tick, networks, amount, w, n));
    assert start[..0] == [];
    FoldConcat(Step, s, start, Clearance(i, networks));
    var last := if amount >= tick.minimum then Request(i, amount, w, n) else [Advance(i, Amount(amount))];
    FoldConcat(Step, s, start + Clearance(i, networks), last);
    if amount >= tick.minimum {
      RowsNumbered(s, u, tick);
      var t := RequestRun(u, i, amount, w, n);
      Enough(s, tick, amount, w, u, t);
    } else {
      assert last[..0] == [];
      TooLittle(s, tick, amount, w, u);
    }
  }

  lemma RowsNumbered(s: State, u: State, tick: Tick)
    requires RowsOk(s) && PendingDone(s, tick, u)
    ensures forall row :: row in u.rows ==> row.id < u.nextId
  {
    forall row | row in u.rows
      ensures row.id < u.nextId
    {
      assert multiset(u.rows)[row] > 0;
      assert row in s.rows;
    }
  }
}
