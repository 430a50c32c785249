/** The pipelined task queue (`start_pipeline`, `PipelineQueue::send`): many senders, one task that
    handles the items one after another, one reply channel per item. */
module PipelineQueue {
  import opened Prelude

  /** An item with the reply channel of the sender that sent it. */
  datatype Work<T> = Work(ticket: nat, item: T)

  datatype Done<T, R> = Done(work: Work<T>, result: R)

  datatype Reply<R> = Reply(ticket: nat, result: R)

  /** `sent` lists the items in the order the channel accepted them; a sender's ticket is its position
      in that list. `replies` holds results sent but not yet read, `received` those read, and `abandoned` is
      history: the senders that stopped waiting. */
  datatype State<T, R> = State(
    sent: seq<T>,
    channel: seq<Work<T>>,
    running: Option<Work<T>>,
    finished: seq<Done<T, R>>,
    replies: map<nat, R>,
    received: seq<Reply<R>>,
    abandoned: set<nat>)

  /** Any interleaving of senders, the task, and senders reading or abandoning their reply. */
  datatype Action<T, R> =
    | Send(item: T)
    | Take
    | Finish(result: R)
    | Receive(ticket: nat)
    | Abandon(ticket: nat)

  function Step<T, R>(s: State<T, R>, a: Action<T, R>): State<T, R> {
    match a
    case Send(item) => s.(sent := s.sent + [item], channel := s.channel + [Work(|s.sent|, item)])
    case Take =>
      if s.running.Some? || s.channel == [] then s
      else s.(running := Some(s.channel[0]), channel := s.channel[1..])
    case Finish(result) =>
      if s.running.None? then s
      else s.(running := None,
              finished := s.finished + [Done(s.running.value, result)],
              replies := if s.running.value.ticket in s.abandoned then s.replies
                         else s.replies[s.running.value.ticket := result])
    case Receive(ticket) =>
      if ticket !in s.replies then s
      else s.(replies := s.replies - {ticket}, received := s.received + [Reply(ticket, s.replies[ticket])])
    case Abandon(ticket) => s.(replies := s.replies - {ticket}, abandoned := s.abandoned + {ticket})
  }

  function Run<T, R>(actions: seq<Action<T, R>>): State<T, R> {
    if actions == [] then State([], [], None, [], map[], [], {})
    else Step(Run(actions[..|actions| - 1]), actions[|actions| - 1])
  }

  /** Everything that ever entered the channel: handled, being handled, waiting. */
  function Line<T, R>(s: State<T, R>): seq<Work<T>> {
    Map((d: Done<T, R>) => d.work, s.finished)
    + (if s.running.Some? then [s.running.value] else [])
    + s.channel
  }

  function Numbered<T>(sent: seq<T>): (line: seq<Work<T>>)
    ensures |line| == |sent|
    ensures forall i :: 0 <= i < |sent| ==> line[i] == Work(i, sent[i])
  {
    seq(|sent|, i requires 0 <= i < |sent| => Work(i, sent[i]))
  }

  ghost predicate InOrder<T, R>(s: State<T, R>) { Line(s) == Numbered(s.sent) }

  /** Replies, read or unread, are the results of their own sender's item, none is read twice, and none is left
      waiting for a sender that stopped waiting. */
  ghost predicate RepliesOk<T, R>(s: State<T, R>) {
    && (forall t :: t in s.replies ==> t < |s.finished| && s.finished[t].result == s.replies[t])
    && (forall t :: t in s.replies ==> t !in s.abandoned)
    && (forall i :: 0 <= i < |s.received| ==>
          && s.received[i].ticket < |s.finished|
          && s.finished[s.received[i].ticket].result == s.received[i].result
          && s.received[i].ticket !in s.replies)
    && (forall i, j :: 0 <= i < j < |s.received| ==> s.received[i].ticket != s.received[j].ticket)
  }

  /** Every item handled was answered: its reply is waiting, was read, or the sender had stopped waiting. */
  ghost predicate AllAnswered<T, R>(s: State<T, R>) {
    forall t :: 0 <= t < |s.finished| ==> t in s.replies || WasRead(s.received, t) || t in s.abandoned
  }

  predicate WasRead<R>(received: seq<Reply<R>>, ticket: nat) {
    exists i :: 0 <= i < |received| && received[i].ticket == ticket
  }

  lemma StepInOrder<T, R>(s: State<T, R>, a: Action<T, R>)
    requires InOrder(s)
    ensures InOrder(Step(s, a))
  {
    var t := Step(s, a);
    match a
    case Send(item) =>
      assert Line(t) == Line(s) + [Work(|s.sent|, item)];
      assert Numbered(t.sent) == Numbered(s.sent) + [Work(|s.sent|, item)];
    case Take =>
      if s.running.None? && s.channel != [] {
        assert s.channel == [s.channel[0]] + s.channel[1..];
        assert Line(t) == Line(s);
      }
    case Finish(result) =>
      if s.running.Some? {
        assert Line(t) == Line(s);
      }
    case _ =>
  }

  /** The item being handled is always the one after all finished ones. */
  lemma RunningIsNext<T, R>(s: State<T, R>)
    requires InOrder(s)
    ensures s.running.Some? ==> s.running.value.ticket == |s.finished|
    ensures forall i :: 0 <= i < |s.finished| ==>
              i < |s.sent| && s.finished[i].work == Work(i, s.sent[i])
  {
    var line := Line(s);
    assert forall i :: 0 <= i < |s.finished| ==> line[i] == s.finished[i].work;
    if s.running.Some? {
      assert line[|s.finished|] == s.running.value;
    }
  }

  lemma FinishReplies<T, R>(s: State<T, R>, result: R)
    requires InOrder(s) && RepliesOk(s) && s.running.Some?
    ensures RepliesOk(Step(s, Finish(result)))
  {
    RunningIsNext(s);
    var t := Step(s, Finish(result));
    assert t.finished[|s.finished|].result == result;
    assert forall k :: 0 <= k < |s.finished| ==> t.finished[k] == s.finished[k];
  }

  lemma StepReplies<T, R>(s: State<T, R>, a: Action<T, R>)
    requires InOrder(s) && RepliesOk(s)
    ensures RepliesOk(Step(s, a))
  {
    if a.Finish? && s.running.Some? {
      FinishReplies(s, a.result);
    }
  }

  lemma StepAnswers<T, R>(s: State<T, R>, a: Action<T, R>)
    requires InOrder(s) && AllAnswered(s)
    ensures AllAnswered(Step(s, a))
  {
    RunningIsNext(s);
    var t := Step(s, a);
    forall k | 0 <= k < |t.finished|
      ensures k in t.replies || WasRead(t.received, k) || k in t.abandoned
    {
      if k < |s.finished| && WasRead(s.received, k) {
        var i :| 0 <= i < |s.received| && s.received[i].ticket == k;
        assert t.received[i].ticket == k;
      } else if a.Receive? && k == a.ticket && k in s.replies {
        assert t.received[|s.received|].ticket == k;
      }
    }
  }

  /** Over every run: one item at a time, items finish in the order they entered, every reply a sender reads is
      the result for its own item, read once, and no item handled goes unanswered. */
  lemma {:induction false} PipelineSafe<T, R>(actions: seq<Action<T, R>>)
    ensures InOrder(Run(actions)) && RepliesOk(Run(actions)) && AllAnswered(Run(actions))
  {
    if actions == [] {
    } else {
      var before, a := actions[..|actions| - 1], actions[|actions| - 1];
      PipelineSafe(before);
      StepInOrder(Run(before), a);
      StepReplies(Run(before), a);
      StepAnswers(Run(before), a);
    }
  }

  /** Spelled out for one reply: the handler was run on exactly the item this sender sent, and every
      item sent before it had been handled by then. */
  lemma ReplyIsOwn<T, R>(actions: seq<Action<T, R>>, i: nat)
    requires i < |Run(actions).received|
    ensures var s := Run(actions);
            var ticket := s.received[i].ticket;
            && ticket < |s.sent| && ticket < |s.finished|
            && s.finished[ticket] == Done(Work(ticket, s.sent[ticket]), s.received[i].result)
  {
    PipelineSafe(actions);
    RunningIsNext(Run(actions));
  }

  // ----- the task keeps going -----

  /** The task takes and handles one item after the other. */
  function Drain<T, R>(results: seq<R>): seq<Action<T, R>> { FlatMap(r => [Take, Finish(r)], results) }

  /** Taking and finishing handles the next item in line, whether or not it was taken before. */
  lemma DrainOne<T, R>(s: State<T, R>, result: R)
    requires InOrder(s) && |s.finished| < |s.sent|
    ensures var t, n := Step(Step(s, Take), Finish(result)), |s.finished|;
            t.sent == s.sent && t.finished == s.finished + [Done(Work(n, s.sent[n]), result)] && InOrder(t)
  {
    var n := |s.finished|;
    var line := Line(s);
    assert line[n] == Work(n, s.sent[n]);
    if s.running.Some? {
      assert line[n] == s.running.value;
    } else {
      assert line[n] == s.channel[0];
    }
    StepInOrder(s, Take);
    StepInOrder(Step(s, Take), Finish(result));
  }

  lemma DrainSnoc<T, R>(s: State<T, R>, results: seq<R>, result: R)
    ensures Fold(Step, s, Drain(results + [result])) == Step(Step(Fold(Step, s, Drain(results)), Take), Finish(result))
  {
    FlatMapSnoc((r: R) => [Action<T, R>.Take, Finish(r)], results, result);
    FoldTwo(Step, s, Drain(results), Take, Finish(result));
  }

  /** The next items in line have been handled, with these results. */
  ghost predicate Handled<T, R>(s: State<T, R>, results: seq<R>, t: State<T, R>) {
    var n := |s.finished|;
    && t.sent == s.sent && InOrder(t) && |t.finished| == n + |results| <= |s.sent|
    && forall i :: 0 <= i < |results| ==> t.finished[n + i] == Done(Work(n + i, s.sent[n + i]), results[i])
  }

  lemma HandledOneMore<T, R>(s: State<T, R>, results: seq<R>, u: State<T, R>, result: R)
    requires Handled(s, results, u) && |u.finished| < |s.sent|
    ensures Handled(s, results + [result], Step(Step(u, Take), Finish(result)))
  {
    DrainOne(u, result);
  }

  lemma DrainNone<T, R>(s: State<T, R>)
    ensures Fold(Step, s, Drain([])) == s
  {
  }

  lemma {:induction false} DrainAll<T, R>(s: State<T, R>, results: seq<R>) returns (t: State<T, R>)
    requires InOrder(s) && |s.finished| + |results| <= |s.sent|
    ensures t == Fold(Step, s, Drain(results)) && Handled(s, results, t)
  {
    if results == [] {
      t := s;
      DrainNone(s);
    } else {
      var k := |results| - 1;
      var before, last := results[..k], results[k];
      var u := DrainAll(s, before);
      t := Step(Step(u, Take), Finish(last));
      assert results == before + [last];
      DrainSnoc(s, before, last);
      HandledOneMore(s, before, u, last);
    }
  }

  lemma {:induction false} RunIsFold<T, R>(actions: seq<Action<T, R>>)
    ensures Run(actions) == Fold(Step, Run([]), actions)
  {
    if actions == [] {
    } else {
      RunIsFold(actions[..|actions| - 1]);
    }
  }

  lemma DrainRun<T, R>(actions: seq<Action<T, R>>, results: seq<R>) returns (t: State<T, R>)
    requires var s := Run(actions); |s.finished| + |results| == |s.sent|
    ensures t == Run(actions + Drain(results)) && Handled(Run(actions), results, t)
  {
    PipelineSafe(actions);
    t := DrainAll(Run(actions), results);
    RunIsFold(actions);
    RunIsFold(actions + Drain(results));
    FoldConcat(Step, Run([]), actions, Drain(results));
  }

  /** The sender's item is handled and answered. */
  ghost predicate ItemAnswered<T, R>(s: State<T, R>, results: seq<R>, t: State<T, R>, ticket: nat) {
    && t.sent == s.sent && |t.finished| == |s.sent| && ticket < |s.sent|
    && t.finished[ticket].work == Work(ticket, s.sent[ticket])
    && (0 <= ticket - |s.finished| < |results| ==> t.finished[ticket].result == results[ticket - |s.finished|])
    && (ticket in t.replies || WasRead(t.received, ticket) || ticket in t.abandoned)
  }

  lemma HandledAnswers<T, R>(s: State<T, R>, results: seq<R>, t: State<T, R>, ticket: nat)
    requires Handled(s, results, t) && |s.finished| + |results| == |s.sent| && AllAnswered(t) && ticket < |s.sent|
    ensures ItemAnswered(s, results, t, ticket)
  {
    RunningIsNext(t);
    var k := ticket - |s.finished|;
    assert k >= 0 ==> t.finished[|s.finished| + k].result == results[k];
  }

  /** From every reachable state, if the task keeps going, every item sent is handled, with the result the handler
      gives for it, and every sender that has not stopped waiting finds or has read its reply. */
  lemma EveryItemAnswered<T, R>(actions: seq<Action<T, R>>, results: seq<R>, ticket: nat)
    requires var s := Run(actions); |s.finished| + |results| == |s.sent| && ticket < |s.sent|
    ensures ItemAnswered(Run(actions), results, Run(actions + Drain(results)), ticket)
  {
    var t := DrainRun(actions, results);
    PipelineSafe(actions + Drain(results));
    HandledAnswers(Run(actions), results, t, ticket);
  }
}
