/** An unbounded queue between producers that never wait and one consumer. */
module EventQueue {
  import opened Wrappers
  import opened Runs

  /** Where the consumer is: about to take the lock, asleep on the condition, handling what it took, or returned. */
  datatype Consumer<T> = AtLock | Asleep | Handling(batch: seq<T>) | Returned

  /** `wakeups` are closers that have yet to broadcast. History: what push accepted, and what was handled. */
  datatype State<T> = State(
    items: seq<T>, closed: bool, consumer: Consumer<T>, wakeups: nat, accepted: seq<T>, handled: seq<T>)

  datatype Action<T> = Push(v: T) | Close | Broadcast | Look | Handle

  function Start<T>(): State<T> { State([], false, AtLock, 0, [], []) }

  predicate Enabled<T>(s: State<T>, a: Action<T>) {
    match a
    case Push(_) => true
    case Close => true
    case Broadcast => s.wakeups > 0
    case Look => s.consumer.AtLock?
    case Handle => s.consumer.Handling?
  }

  function Wake<T>(c: Consumer<T>): Consumer<T> { if c.Asleep? then AtLock else c }

  function Apply<T>(s: State<T>, a: Action<T>): State<T>
    requires Enabled(s, a)
  {
    match a
    case Push(v) =>
      if s.closed then s
      else s.(items := s.items + [v], consumer := Wake(s.consumer), accepted := s.accepted + [v])
    case Close => s.(closed := true, wakeups := s.wakeups + 1)
    case Broadcast => s.(consumer := Wake(s.consumer), wakeups := s.wakeups - 1)
    case Look =>
      if s.items == [] && !s.closed then s.(consumer := Asleep)
      else s.(items := [], consumer := if s.items == [] && s.closed then Returned else Handling(s.items))
    case Handle =>
      var batch := s.consumer.batch;
      if batch == [] then s.(consumer := AtLock)
      else s.(consumer := Handling(batch[1..]), handled := s.handled + [batch[0]])
  }

  function Taken<T>(c: Consumer<T>): seq<T> { if c.Handling? then c.batch else [] }

  ghost predicate Inv<T>(s: State<T>) {
    && s.accepted == s.handled + Taken(s.consumer) + s.items
    && (s.consumer.Asleep? ==> s.items == [] && (s.closed ==> s.wakeups > 0))
    && (s.consumer.Returned? ==> s.closed && s.items == [])
  }

  lemma StepKeepsInv<T>(s: State<T>, a: Action<T>)
    requires Inv(s) && Enabled(s, a)
    ensures Inv(Apply(s, a))
    ensures s.accepted <= Apply(s, a).accepted && s.handled <= Apply(s, a).handled
    ensures s.closed ==> Apply(s, a).closed && Apply(s, a).accepted == s.accepted
  {
    if a.Handle? && s.consumer.batch != [] {
      var batch := s.consumer.batch;
      assert batch == [batch[0]] + batch[1..];
      assert s.handled + batch == s.handled + [batch[0]] + batch[1..];
    }
  }

  function Step<T>(s: State<T>, a: Action<T>): Option<State<T>> {
    if Enabled(s, a) then Some(Apply(s, a)) else None
  }

  /** In every interleaving: items are handled once each, in the order they were pushed, and none is dropped; the consumer
      sleeps only while there is nothing to do or a wake-up is on its way; and it returns only when all was handled. */
  lemma {:induction false} FirstInFirstOut<T>(states: seq<State<T>>, acts: seq<Action<T>>, i: nat)
    requires IsRun(Step<T>, states, acts) && states[0] == Start() && i <= |acts|
    ensures Inv(states[i]) && states[i].handled <= states[i].accepted
    ensures states[i].consumer.Returned? ==> states[i].handled == states[i].accepted
  {
    if i > 0 {
      FirstInFirstOut(states, acts, i - 1);
      StepAt(Step<T>, states, acts, i - 1);
      StepKeepsInv(states[i - 1], acts[i - 1]);
    } else {
      assert Inv<T>(Start());
    }
    HandledIsPrefix(states[i]);
  }

  lemma HandledIsPrefix<T>(s: State<T>)
    requires Inv(s)
    ensures s.handled <= s.accepted && (s.consumer.Returned? ==> s.handled == s.accepted)
  {
    assert s.handled + Taken(s.consumer) + s.items == s.handled + (Taken(s.consumer) + s.items);
  }

  predicate NoneCloses<T>(acts: seq<Action<T>>) { forall j | 0 <= j < |acts| :: !acts[j].Close? }

  /** What was pushed before the queue was closed. */
  function Pushed<T>(acts: seq<Action<T>>): seq<T> {
    if acts == [] then []
    else
      var before, a := acts[..|acts| - 1], acts[|acts| - 1];
      Pushed(before) + if a.Push? && NoneCloses(before) then [a.v] else []
  }

  /** Everything is accepted that is pushed before the queue is closed, and nothing else. */
  lemma {:induction false} PushesAreAccepted<T>(states: seq<State<T>>, acts: seq<Action<T>>, i: nat)
    requires IsRun(Step<T>, states, acts) && states[0] == Start() && i <= |acts|
    ensures states[i].accepted == Pushed(acts[..i])
    ensures !states[i].closed <==> NoneCloses(acts[..i])
  {
    if i > 0 {
      PushesAreAccepted(states, acts, i - 1);
      StepAt(Step<T>, states, acts, i - 1);
      StepAccepts(states[i - 1], acts[i - 1]);
      PushedOneMore(acts, i - 1);
    }
  }

  lemma StepAccepts<T>(s: State<T>, a: Action<T>)
    requires Enabled(s, a)
    ensures Apply(s, a).accepted == s.accepted + if a.Push? && !s.closed then [a.v] else []
    ensures Apply(s, a).closed <==> s.closed || a.Close?
  {
    assert s.accepted + [] == s.accepted;
  }

  lemma PushedOneMore<T>(acts: seq<Action<T>>, i: nat)
    requires i < |acts|
    ensures Pushed(acts[..i + 1]) == Pushed(acts[..i]) + if acts[i].Push? && NoneCloses(acts[..i]) then [acts[i].v] else []
    ensures NoneCloses(acts[..i + 1]) <==> NoneCloses(acts[..i]) && !acts[i].Close?
  {
    var more := acts[..i + 1];
    assert more[..i] == acts[..i] && more[i] == acts[i];
    assert forall j | 0 <= j < i :: more[j] == acts[..i][j];
  }

  /** What the consumer still has to do once the queue is closed. */
  function Work<T>(s: State<T>): nat {
    match s.consumer
    case Returned => 0
    case AtLock => 2 * |s.items| + (if s.items == [] then 1 else 3)
    case Asleep => 2 * |s.items| + 4
    case Handling(batch) => |batch| + 2 * |s.items| + (if s.items == [] then 2 else 4)
  }

  predicate ConsumerStep<T>(a: Action<T>) { a.Look? || a.Handle? }

  function ConsumerSteps<T>(acts: seq<Action<T>>): nat {
    if acts == [] then 0 else (if ConsumerStep(acts[0]) then 1 else 0) + ConsumerSteps(acts[1..])
  }

  /** On a closed queue every step of the consumer leaves it less to do, and no other step gives it more. */
  lemma StepShrinks<T>(s: State<T>, a: Action<T>)
    requires Inv(s) && s.closed && Enabled(s, a)
    ensures Work(Apply(s, a)) + (if ConsumerStep(a) then 1 else 0) <= Work(s)
  {
  }

  /** Nothing is left to run: neither the consumer nor a closer that has yet to broadcast. */
  predicate Rests<T>(s: State<T>) { !Enabled(s, Look) && !Enabled(s, Handle) && !Enabled(s, Broadcast) }

  /** Once the queue is closed the consumer returns in every schedule: it takes a bounded number of steps whatever else
      happens, and where nothing is left to run it has returned and has handled everything that was accepted. */
  lemma {:induction false} DrainReturns<T>(s: State<T>, acts: seq<Action<T>>, t: State<T>)
    requires Inv(s) && s.closed && Leads(Step<T>, s, acts, t)
    ensures ConsumerSteps(acts) + Work(t) <= Work(s)
    ensures Rests(t) ==> t.consumer.Returned?
    ensures t.consumer.Returned? ==> t.handled == t.accepted == s.accepted
    decreases |acts|
  {
    if acts == [] {
      HandledIsPrefix(s);
    } else {
      StepKeepsInv(s, acts[0]);
      StepShrinks(s, acts[0]);
      DrainReturns(Apply(s, acts[0]), acts[1..], t);
    }
  }

  // ---- the queue as it runs ----

  class Queue<T> {
    var items: seq<T>
    var closed: bool

    constructor ()
      ensures items == [] && !closed
    {
      items, closed := [], false;
    }

    method Push(v: T)
      modifies this
      ensures closed == old(closed)
      ensures items == if old(closed) then old(items) else old(items) + [v]
    {
      if closed { return; }
      items := items + [v];
    }

    method Close()
      modifies this`closed
      ensures closed
    {
      closed := true;
    }

    /** The locked part of a round; the consumer would have to wait when the result is nothing. */
    method Take() returns (batch: Option<seq<T>>)
      modifies this`items
      ensures batch.None? <==> old(items) == [] && !closed
      ensures batch.Some? ==> batch.value == old(items) && items == []
      ensures batch.None? ==> items == old(items)
    {
      if |items| == 0 && !closed { return None; }
      batch := Some(items);
      items := [];
    }

    /** Hands over every item in order until the queue is closed and empty. `later` is what is pushed, one list at a time,
        while the consumer waits; a wait after that ends with a close. */
    method Drain(before: seq<T>, later: seq<seq<T>>) returns (handled: seq<T>)
      modifies this
      ensures handled == before + old(items) + (if old(closed) then [] else Flat(later))
      ensures closed && items == []
    {
      handled := before;
      var n: nat := 0;
      ghost var all := before + Coming(later, 0);
      assert later[0..] == later;
      assert all == before + items + if closed then [] else Flat(later);
      while true
        invariant n <= |later| && (closed ==> n == |later| || old(closed))
        invariant handled + Coming(later, n) == all
        decreases if closed then 0 else 1 + |later| - n, |items|
      {
        ghost var was, more := handled, if closed then [] else Flat(later[n..]);
        var round := Take();
        if round.None? {
          n := Wait(later, n);
          continue;
        }
        if |round.value| == 0 {
          assert handled + ([] + []) == handled;
          break;
        }
        handled := HandOver(handled, round.value);
        assert was + (round.value + more) == handled + ([] + more);
      }
    }

    /** What is queued, and what will be. */
    ghost function Coming(later: seq<seq<T>>, n: nat): seq<T>
      requires n <= |later|
      reads this
    {
      items + if closed then [] else Flat(later[n..])
    }

    static method HandOver(before: seq<T>, batch: seq<T>) returns (handled: seq<T>)
      ensures handled == before + batch
    {
      handled := before;
      for i := 0 to |batch|
        invariant handled == before + batch[..i]
      {
        handled := handled + [batch[i]];
      }
    }

    method Wait(later: seq<seq<T>>, n: nat) returns (next: nat)
      requires items == [] && !closed && n <= |later|
      modifies this
      ensures if n < |later| then next == n + 1 && items == later[n] && !closed else next == n && items == [] && closed
    {
      if n == |later| {
        Close();
        return n;
      }
      for i := 0 to |later[n]|
        invariant !closed && items == later[n][..i]
      {
        Push(later[n][i]);
      }
      return n + 1;
    }
  }

  function Flat<T>(lists: seq<seq<T>>): seq<T> { if lists == [] then [] else lists[0] + Flat(lists[1..]) }
}
