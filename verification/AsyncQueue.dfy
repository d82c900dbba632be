/** server/src/backends/types.ts: the events of a turn and the asynchronous FIFO that carries them. */
module TurnEvents {
  datatype TurnEvent =
    | Session(sessionId: string)
    | Delta(text: string)
    | Thinking(text: string)
    | ToolUse(name: string)
    | ToolResult(name: string, ok: bool)
    | Done(finalText: string)
    | Error(message: string, fatal: bool)
  {
    /** The event that closes a turn. */
    predicate Terminal() {
      Done? || Error?
    }

    /** Output of the user's own turn, as opposed to a session notice or an error. */
    predicate Chat() {
      Delta? || Thinking? || ToolUse? || ToolResult? || Done?
    }
  }

  /** The text a reader has assembled from the deltas of a queue. */
  function DeltaText(events: seq<TurnEvent>): string {
    if events == [] then ""
    else
      var front, last := events[..|events| - 1], events[|events| - 1];
      DeltaText(front) + if last.Delta? then last.text else ""
  }

  lemma DeltaTextAppend(events: seq<TurnEvent>, ev: TurnEvent)
    ensures DeltaText(events + [ev]) == DeltaText(events) + if ev.Delta? then ev.text else ""
  {
    assert (events + [ev])[..|events|] == events;
  }
}

module AsyncQueues {

  /** What the promise of one `next()` call was resolved with. */
  datatype Answer<+T> = Item(value: T) | Finished

  datatype Op<+T> = Push(item: T) | End | Next

  /** The queue, with every `next()` call numbered in call order. A waiter is the number
      of a call that is still pending; `answers` holds the resolved calls. */
  datatype State<T> = State(
    items: seq<T>,
    waiters: seq<nat>,
    ended: bool,
    calls: nat,
    answers: map<nat, Answer<T>>)

  function Empty<T>(): State<T> {
    State([], [], false, 0, map[])
  }

  function PushItem<T>(s: State<T>, item: T): State<T> {
    if s.ended then s
    else if s.waiters != [] then
      s.(waiters := s.waiters[1..], answers := s.answers[s.waiters[0] := Item(item)])
    else s.(items := s.items + [item])
  }

  function EndQueue<T>(s: State<T>): State<T> {
    if s.ended then s
    else s.(ended := true, waiters := [], answers := s.answers + map w | w in s.waiters :: Finished)
  }

  function NextCall<T>(s: State<T>): State<T> {
    var t := s.(calls := s.calls + 1);
    if s.items != [] then t.(items := s.items[1..], answers := s.answers[s.calls := Item(s.items[0])])
    else if s.ended then t.(answers := s.answers[s.calls := Finished])
    else t.(waiters := s.waiters + [s.calls])
  }

  function Step<T>(s: State<T>, op: Op<T>): State<T> {
    match op
    case Push(x) => PushItem(s, x)
    case End => EndQueue(s)
    case Next => NextCall(s)
  }

  function Run<T>(ops: seq<Op<T>>): State<T> {
    if ops == [] then Empty()
    else Step(Run(ops[..|ops| - 1]), ops[|ops| - 1])
  }

  // ---- the reference: three facts read off the list of operations ----

  predicate Ended<T>(ops: seq<Op<T>>) {
    exists i :: 0 <= i < |ops| && ops[i].End?
  }

  /** The items pushed before the first `end`. */
  function Pushed<T>(ops: seq<Op<T>>): seq<T> {
    if ops == [] then []
    else
      var front, last := ops[..|ops| - 1], ops[|ops| - 1];
      if last.Push? && !Ended(front) then Pushed(front) + [last.item] else Pushed(front)
  }

  function Calls<T>(ops: seq<Op<T>>): nat {
    if ops == [] then 0
    else Calls(ops[..|ops| - 1]) + if ops[|ops| - 1].Next? then 1 else 0
  }

  /** Call n receives the n-th item pushed before the first `end`; failing that it is told the
      end if there was one; failing that it is pending. */
  ghost predicate Answered<T>(s: State<T>, pushed: seq<T>, ended: bool) {
    forall n: nat ::
      if n < s.calls && n < |pushed| then n in s.answers && s.answers[n] == Item(pushed[n])
      else if n < s.calls && ended then n in s.answers && s.answers[n] == Finished
      else n !in s.answers
  }

  /** The state of a queue that has seen these items, this end and this many calls. */
  ghost predicate Matches<T>(s: State<T>, pushed: seq<T>, ended: bool, calls: nat) {
    && s.calls == calls
    && s.ended == ended
    && Answered(s, pushed, ended)
    && s.items == (if calls < |pushed| then pushed[calls..] else [])
    && s.waiters == (if ended || calls < |pushed| then [] else seq(calls - |pushed|, i => |pushed| + i))
  }

  lemma PushMatches<T>(s: State<T>, pushed: seq<T>, calls: nat, x: T)
    requires Matches(s, pushed, false, calls)
    ensures Matches(PushItem(s, x), pushed + [x], false, calls)
  {
  }

  lemma EndMatches<T>(s: State<T>, pushed: seq<T>, calls: nat)
    requires Matches(s, pushed, false, calls)
    ensures Matches(EndQueue(s), pushed, true, calls)
  {
    forall n: nat
      ensures n in s.waiters <==> |pushed| <= n < calls
    {
      if |pushed| <= n < calls {
        assert s.waiters[n - |pushed|] == n;
      }
    }
  }

  lemma NextMatches<T>(s: State<T>, pushed: seq<T>, ended: bool, calls: nat)
    requires Matches(s, pushed, ended, calls)
    ensures Matches(NextCall(s), pushed, ended, calls + 1)
  {
  }

  /** The queue refines a sequence, whatever the interleaving of push, end and next. */
  lemma {:induction false} RefinesSequence<T>(ops: seq<Op<T>>)
    ensures Matches(Run(ops), Pushed(ops), Ended(ops), Calls(ops))
  {
    if ops != [] {
      var front, last := ops[..|ops| - 1], ops[|ops| - 1];
      RefinesSequence(front);
      EndedAppend(front, last);
      assert ops == front + [last];
      var s := Run(front);
      match last
      case Push(x) => if !Ended(front) { PushMatches(s, Pushed(front), Calls(front), x); }
      case End => if !Ended(front) { EndMatches(s, Pushed(front), Calls(front)); }
      case Next => NextMatches(s, Pushed(front), Ended(front), Calls(front));
    }
  }

  lemma EndedAppend<T>(front: seq<Op<T>>, last: Op<T>)
    ensures Ended(front + [last]) <==> Ended(front) || last.End?
  {
    var ops := front + [last];
    if Ended(front) {
      var i :| 0 <= i < |front| && front[i].End?;
      assert ops[i].End?;
    }
    assert ops[|front|] == last;
  }

  /** Buffered items and waiters are never both present, and no item is lost, duplicated or
      reordered: what was handed out followed by what is buffered is what was pushed. */
  lemma NothingLost<T>(ops: seq<Op<T>>)
    ensures var s := Run(ops); s.items == [] || s.waiters == []
    ensures var s, pushed := Run(ops), Pushed(ops);
      var out := if s.calls < |pushed| then s.calls else |pushed|;
      && (forall n: nat :: n < out <==> n in s.answers && s.answers[n].Item?)
      && pushed == seq(out, n requires 0 <= n < out && n in s.answers && s.answers[n].Item? => s.answers[n].value) +
          s.items
  {
    RefinesSequence(ops);
  }

  class AsyncQueue<T> {
    var items: seq<T>
    var waiters: seq<nat>
    var ended: bool
    var calls: nat
    var answers: map<nat, Answer<T>>
    ghost var ops: seq<Op<T>>

    ghost function View(): State<T>
      reads this
    {
      State(items, waiters, ended, calls, answers)
    }

    /** The queue has seen exactly the operations `ops`. */
    ghost predicate Valid()
      reads this
    {
      View() == Run(ops)
    }

    constructor ()
      ensures Valid() && ops == []
    {
      items, waiters, ended, calls, answers, ops := [], [], false, 0, map[], [];
    }

    /** The ghost record of one more operation. */
    ghost method Record(op: Op<T>, before: State<T>)
      requires before == Run(ops) && View() == Step(before, op)
      modifies this`ops
      ensures Valid() && ops == old(ops) + [op]
    {
      assert (ops + [op])[..|ops|] == ops;
      ops := ops + [op];
    }

    method Push(item: T)
      requires Valid()
      modifies this
      ensures View() == PushItem(old(View()), item)
      ensures Valid() && ops == old(ops) + [Op.Push(item)]
    {
      ghost var before := View();
      if ended {
        Record(Op.Push(item), before);
        return;
      }
      if |waiters| > 0 {
        var waiter := waiters[0];
        waiters := waiters[1..];
        answers := answers[waiter := Item(item)];
      } else {
        items := items + [item];
      }
      Record(Op.Push(item), before);
    }

    method End()
      requires Valid()
      modifies this
      ensures View() == EndQueue(old(View()))
      ensures Valid() && ops == old(ops) + [Op.End]
    {
      ghost var before := View();
      if ended {
        Record(Op.End, before);
        return;
      }
      ended := true;
      Wake();
      Record(Op.End, before);
    }

    /** The end, told to every waiter. */
    method Wake()
      modifies this`waiters, this`answers
      ensures waiters == [] && answers == old(answers) + map w | w in old(waiters) :: Finished
    {
      var woken := waiters;
      waiters := [];
      ghost var told := [];
      for i := 0 to |woken|
        invariant told == woken[..i] && waiters == []
        invariant answers == old(answers) + map w | w in told :: Finished
      {
        answers := answers[woken[i] := Finished];
        told := told + [woken[i]];
      }
    }

    /** One call of the iterator's `next`; its promise is known by the call's number. */
    method Next() returns (call: nat)
      requires Valid()
      modifies this
      ensures call == old(calls)
      ensures View() == NextCall(old(View()))
      ensures Valid() && ops == old(ops) + [Op.Next]
    {
      ghost var before := View();
      call := calls;
      calls := calls + 1;
      if |items| > 0 {
        var item := items[0];
        items := items[1..];
        answers := answers[call := Item(item)];
      } else if ended {
        answers := answers[call := Finished];
      } else {
        waiters := waiters + [call];
      }
      Record(Op.Next, before);
    }
  }

  /** So whatever a queue object went through, it holds and has answered what the list of pushes says. */
  lemma ObjectRefinesSequence<T>(q: AsyncQueue<T>)
    requires q.Valid()
    ensures Matches(q.View(), Pushed(q.ops), Ended(q.ops), Calls(q.ops))
  {
    RefinesSequence(q.ops);
  }
}
