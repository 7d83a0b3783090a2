/**
 * The bounded FIFO channel of channel/BufferedChannel.java: a queue of at most
 * `capacity` messages, a one-way `open` flag, a list of at most 25
 * AfterWriteActions run after every successful write and on close, and the
 * channel's iterator, marked done on close.
 *
 * Each operation is first given as a function on the abstract state
 * (`ChanState`); the class methods are proved to do what those functions say.
 * Where a call would wait for another thread, the model stops: an untimed call
 * reports `WouldBlock`, a timed call its timeout, and the state is unchanged.
 */
module Channels {
  import opened Common
  import opened Iteration

  /** An empirical cap on AfterWriteActions per channel. */
  const MaxAfterWriteActions := 25

  /** The abstract state of a channel: its capacity, the queued messages (head
      first), the open flag, the registered hooks in order, and its iterator's
      `done` flag. */
  datatype ChanState<T> = ChanState(capacity: nat, queue: seq<T>, open: bool, hooks: seq<HookId>, iterDone: bool)

  /** What one operation does: the state after it, what it returns, and the
      hooks it ran, in order (their `onWrite` for a write, their `close` for a
      close). */
  datatype Effect<T, R> = Effect(next: ChanState<T>, result: R, ran: seq<HookId>)

  /** What `forEach` hands to its action, and how it ends. */
  datatype Drain<T> = Drain(applied: seq<T>, result: Outcome<()>)

  /** The invariant every channel keeps. */
  predicate Inv<T>(s: ChanState<T>) {
    && 1 <= s.capacity
    && |s.queue| <= s.capacity
    && |s.hooks| <= MaxAfterWriteActions
    && (!s.open ==> s.iterDone)
  }

  /** A fresh channel of the given capacity. */
  function Fresh<T>(capacity: nat): ChanState<T> {
    ChanState(capacity, [], true, [], false)
  }

  /** `tryWrite(message)`. */
  function TryWriteStep<T>(s: ChanState<T>, msg: Option<T>): (e: Effect<T, Outcome<bool>>)
    ensures msg.None? ==> e == Effect(s, Fail(NullPointer), [])
    ensures msg.Some? && !s.open ==> e == Effect(s, Fail(ClosedChannel), [])
    ensures msg.Some? && s.open ==> e.result == Ok(|s.queue| < s.capacity)
    ensures e.result == Ok(true) ==> e.next == s.(queue := s.queue + [msg.value]) && e.ran == s.hooks
    ensures e.result != Ok(true) ==> e.next == s && e.ran == []
  {
    if msg.None? then Effect(s, Fail(NullPointer), [])
    else if !s.open then Effect(s, Fail(ClosedChannel), [])
    else if |s.queue| < s.capacity then Effect(s.(queue := s.queue + [msg.value]), Ok(true), s.hooks)
    else Effect(s, Ok(false), [])
  }

  /** `write(message)` (`timed` false) and `write(message, timeout, unit)`
      (`timed` true), as far as they go without waiting: when the queue is full
      the untimed write waits for a reader and the timed one is taken to time
      out. */
  function WriteStep<T>(s: ChanState<T>, msg: Option<T>, timed: bool): (e: Effect<T, Outcome<()>>)
    ensures msg.None? ==> e == Effect(s, Fail(NullPointer), [])
    ensures msg.Some? && !s.open ==> e == Effect(s, Fail(ClosedChannel), [])
    ensures e.result == Ok(()) <==> msg.Some? && s.open && |s.queue| < s.capacity
    ensures e.result == Ok(()) ==> e.next == s.(queue := s.queue + [msg.value]) && e.ran == s.hooks
    ensures e.result != Ok(()) ==> e.next == s && e.ran == []
    ensures e.result == WouldBlock ==> !timed
    ensures e.result == Fail(Timeout) ==> timed
  {
    if msg.None? then Effect(s, Fail(NullPointer), [])
    else if !s.open then Effect(s, Fail(ClosedChannel), [])
    else if |s.queue| < s.capacity then Effect(s.(queue := s.queue + [msg.value]), Ok(()), s.hooks)
    else if timed then Effect(s, Fail(Timeout), [])
    else Effect(s, WouldBlock, [])
  }

  /** `tryRead()`: None stands for the null it returns on an empty open channel. */
  function TryReadStep<T>(s: ChanState<T>): (e: Effect<T, Outcome<Option<T>>>)
    ensures !s.open && s.queue == [] ==> e == Effect(s, Fail(NoSuchChannelElement), [])
    ensures s.open && s.queue == [] ==> e == Effect(s, Ok(None), [])
    ensures s.queue != [] ==> e == Effect(s.(queue := s.queue[1..]), Ok(Some(s.queue[0])), [])
  {
    if !s.open && s.queue == [] then Effect(s, Fail(NoSuchChannelElement), [])
    else if s.queue == [] then Effect(s, Ok(None), [])
    else Effect(s.(queue := s.queue[1..]), Ok(Some(s.queue[0])), [])
  }

  /** `read()` (`timed` false) and `read(timeout, unit)` (`timed` true), as far as
      they go without waiting. */
  function ReadStep<T>(s: ChanState<T>, timed: bool): (e: Effect<T, Outcome<T>>)
    ensures !s.open && s.queue == [] ==> e == Effect(s, Fail(NoSuchChannelElement), [])
    ensures s.queue != [] ==> e == Effect(s.(queue := s.queue[1..]), Ok(s.queue[0]), [])
    ensures s.open && s.queue == [] ==> e == Effect(s, if timed then Fail(Timeout) else WouldBlock, [])
  {
    if !s.open && s.queue == [] then Effect(s, Fail(NoSuchChannelElement), [])
    else if s.queue != [] then Effect(s.(queue := s.queue[1..]), Ok(s.queue[0]), [])
    else if timed then Effect(s, Fail(Timeout), [])
    else Effect(s, WouldBlock, [])
  }

  /** `close()`: the channel stops accepting writes for good, every hook's
      `close` runs, the iterator is marked done, and the queue is kept so
      readers can drain it. */
  function CloseStep<T>(s: ChanState<T>): (e: Effect<T, ()>)
    ensures !e.next.open && e.next.iterDone
    ensures e.next.queue == s.queue && e.next.capacity == s.capacity && e.next.hooks == s.hooks
    ensures e.ran == s.hooks
  {
    Effect(s.(open := false, iterDone := true), (), s.hooks)
  }

  /** `registerAfterWriteAction(afw)`. */
  function RegisterStep<T>(s: ChanState<T>, h: HookId): (e: Effect<T, Outcome<()>>)
    ensures |s.hooks| >= MaxAfterWriteActions ==> e == Effect(s, Fail(TooManySelector), [])
    ensures |s.hooks| < MaxAfterWriteActions ==> e == Effect(s.(hooks := s.hooks + [h]), Ok(()), [])
  {
    if |s.hooks| >= MaxAfterWriteActions then Effect(s, Fail(TooManySelector), [])
    else Effect(s.(hooks := s.hooks + [h]), Ok(()), [])
  }

  /** `forEach(action)`: reads and hands to the action every queued message in
      order; on a closed channel it then returns normally, on an open one the
      next `read()` waits. */
  function ForEachStep<T>(s: ChanState<T>): (e: Effect<T, Drain<T>>)
    ensures e.result.applied == s.queue && e.next == s.(queue := [])
    ensures e.result.result == if s.open then WouldBlock else Ok(())
    ensures e.ran == []
  {
    Effect(s.(queue := []), Drain(s.queue, if s.open then WouldBlock else Ok(())), [])
  }

  // ---------------------------------------------------------------------------
  // Sequences of operations

  datatype Op<T> =
    | TryWriteOp(msg: Option<T>)
    | WriteOp(msg: Option<T>, timed: bool)
    | TryReadOp
    | ReadOp(timed: bool)
    | CloseOp
    | RegisterOp(hook: HookId)
    | ForEachOp

  /** The state after one operation, the messages it enqueued and the messages
      it handed out to its caller. */
  datatype Moved<T> = Moved(next: ChanState<T>, enqueued: seq<T>, delivered: seq<T>)

  function Apply<T>(s: ChanState<T>, op: Op<T>): Moved<T> {
    match op
    case TryWriteOp(m) =>
      var e := TryWriteStep(s, m);
      Moved(e.next, if e.result == Ok(true) then [m.value] else [], [])
    case WriteOp(m, timed) =>
      var e := WriteStep(s, m, timed);
      Moved(e.next, if e.result == Ok(()) then [m.value] else [], [])
    case TryReadOp =>
      var e := TryReadStep(s);
      Moved(e.next, [], if e.result.Ok? && e.result.value.Some? then [e.result.value.value] else [])
    case ReadOp(timed) =>
      var e := ReadStep(s, timed);
      Moved(e.next, [], if e.result.Ok? then [e.result.value] else [])
    case CloseOp => Moved(CloseStep(s).next, [], [])
    case RegisterOp(h) => Moved(RegisterStep(s, h).next, [], [])
    case ForEachOp =>
      var e := ForEachStep(s);
      Moved(e.next, [], e.result.applied)
  }

  function RunOps<T>(s: ChanState<T>, ops: seq<Op<T>>): Moved<T>
    decreases |ops|
  {
    if ops == [] then Moved(s, [], [])
    else
      var m := Apply(s, ops[0]);
      var rest := RunOps(m.next, ops[1..]);
      Moved(rest.next, m.enqueued + rest.enqueued, m.delivered + rest.delivered)
  }

  /** Every operation keeps the invariant: in particular the queue never holds
      more than `capacity` messages and at most 25 hooks are registered. */
  lemma ApplyKeepsInv<T>(s: ChanState<T>, op: Op<T>)
    requires Inv(s)
    ensures Inv(Apply(s, op).next)
    ensures Apply(s, op).next.capacity == s.capacity
  {
  }

  lemma {:induction false} RunKeepsInv<T>(s: ChanState<T>, ops: seq<Op<T>>)
    requires Inv(s)
    ensures Inv(RunOps(s, ops).next)
    ensures RunOps(s, ops).next.capacity == s.capacity
    decreases |ops|
  {
    if ops != [] {
      ApplyKeepsInv(s, ops[0]);
      RunKeepsInv(Apply(s, ops[0]).next, ops[1..]);
    }
  }

  /** One operation moves messages in FIFO order. */
  lemma ApplyIsFifo<T>(s: ChanState<T>, op: Op<T>)
    ensures s.queue + Apply(s, op).enqueued == Apply(s, op).delivered + Apply(s, op).next.queue
  {
    match op
    case TryReadOp =>
      if s.queue != [] {
        assert [s.queue[0]] + s.queue[1..] == s.queue;
      }
    case ReadOp(_) =>
      if s.queue != [] {
        assert [s.queue[0]] + s.queue[1..] == s.queue;
      }
    case _ =>
  }

  /** The first operation of a run, then the rest. */
  lemma RunOpsFirst<T>(s: ChanState<T>, ops: seq<Op<T>>)
    requires ops != []
    ensures var m := Apply(s, ops[0]); var rest := RunOps(m.next, ops[1..]);
            RunOps(s, ops) == Moved(rest.next, m.enqueued + rest.enqueued, m.delivered + rest.delivered)
  {
  }

  /** Two FIFO stages in a row make one. */
  lemma FifoChains<T>(q0: seq<T>, in1: seq<T>, out1: seq<T>, q1: seq<T>, in2: seq<T>, out2: seq<T>, q2: seq<T>)
    requires q0 + in1 == out1 + q1 && q1 + in2 == out2 + q2
    ensures q0 + (in1 + in2) == (out1 + out2) + q2
  {
    calc {
      q0 + (in1 + in2);
      (q0 + in1) + in2;
      (out1 + q1) + in2;
      out1 + (q1 + in2);
      out1 + (out2 + q2);
      (out1 + out2) + q2;
    }
  }

  /** FIFO: whatever the operations, the messages queued before them followed by
      the messages they enqueue are exactly the messages they hand out followed
      by what is still queued. Nothing is lost, duplicated or reordered. */
  lemma {:induction false} RunIsFifo<T>(s: ChanState<T>, ops: seq<Op<T>>)
    ensures s.queue + RunOps(s, ops).enqueued == RunOps(s, ops).delivered + RunOps(s, ops).next.queue
    decreases |ops|
  {
    if ops != [] {
      var m := Apply(s, ops[0]);
      var rest := RunOps(m.next, ops[1..]);
      RunOpsFirst(s, ops);
      ApplyIsFifo(s, ops[0]);
      RunIsFifo(m.next, ops[1..]);
      FifoChains(s.queue, m.enqueued, m.delivered, m.next.queue, rest.enqueued, rest.delivered, rest.next.queue);
    }
  }

  /** Once closed, a channel stays closed and accepts no message, whatever
      operations follow. */
  lemma {:induction false} ClosedStaysClosed<T>(s: ChanState<T>, ops: seq<Op<T>>)
    requires !s.open
    ensures !RunOps(s, ops).next.open
    ensures RunOps(s, ops).enqueued == []
    decreases |ops|
  {
    if ops != [] {
      ClosedStaysClosed(Apply(s, ops[0]).next, ops[1..]);
    }
  }

  /** Untimed writes of the messages `xs`, in order. */
  function Writes<T>(xs: seq<T>): (ops: seq<Op<T>>)
    ensures |ops| == |xs|
  {
    if xs == [] then [] else [WriteOp(Some(xs[0]), false)] + Writes(xs[1..])
  }

  /** `n` untimed reads. */
  function Reads<T>(n: nat): (ops: seq<Op<T>>)
    ensures |ops| == n
  {
    if n == 0 then [] else [ReadOp(false)] + Reads(n - 1)
  }

  /** Writes into an open channel with room for all of them never wait: each
      runs every hook once and lands at the tail. */
  lemma {:induction false} WritesWithRoom<T>(s: ChanState<T>, xs: seq<T>)
    requires s.open && |s.queue| + |xs| <= s.capacity
    ensures RunOps(s, Writes(xs)).next == s.(queue := s.queue + xs)
    ensures RunOps(s, Writes(xs)).enqueued == xs
    decreases |xs|
  {
    if xs != [] {
      var s1 := s.(queue := s.queue + [xs[0]]);
      var ops := Writes(xs);
      assert ops[0] == WriteOp(Some(xs[0]), false) && ops[1..] == Writes(xs[1..]);
      WriteWithRoom(s, xs[0]);
      RunOpsFirst(s, ops);
      WritesWithRoom(s1, xs[1..]);
      HeadThenTail(s.queue, xs);
    }
  }

  lemma HeadThenTail<T>(q: seq<T>, xs: seq<T>)
    requires xs != []
    ensures (q + [xs[0]]) + xs[1..] == q + xs && [xs[0]] + xs[1..] == xs
  {
    assert [xs[0]] + xs[1..] == xs;
  }

  /** One untimed write into an open channel with room lands at the tail. */
  lemma WriteWithRoom<T>(s: ChanState<T>, x: T)
    requires s.open && |s.queue| < s.capacity
    ensures Apply(s, WriteOp(Some(x), false)) == Moved(s.(queue := s.queue + [x]), [x], [])
  {
  }

  /** A fresh channel of capacity c takes c writes without waiting, and the
      next write waits for a reader. */
  lemma FillThenWait<T>(c: nat, xs: seq<T>, x: T)
    requires 1 <= c && |xs| == c
    ensures RunOps(Fresh<T>(c), Writes(xs)).next.queue == xs
    ensures WriteStep(RunOps(Fresh<T>(c), Writes(xs)).next, Some(x), false).result == WouldBlock
  {
    WritesWithRoom(Fresh<T>(c), xs);
  }

  /** After close, reads still hand out the queued messages in order; once the
      queue is drained the next read throws NoSuchChannelElementException. */
  lemma {:induction false} DrainAfterClose<T>(s: ChanState<T>)
    requires !s.open
    ensures RunOps(s, Reads(|s.queue|)).delivered == s.queue
    ensures RunOps(s, Reads(|s.queue|)).next.queue == []
    ensures ReadStep(RunOps(s, Reads(|s.queue|)).next, false).result == Fail(NoSuchChannelElement)
    decreases |s.queue|
  {
    if s.queue != [] {
      var s1 := s.(queue := s.queue[1..]);
      assert Reads<T>(|s.queue|)[1..] == Reads<T>(|s1.queue|);
      DrainAfterClose(s1);
      assert [s.queue[0]] + s.queue[1..] == s.queue;
    }
  }

  /** A write succeeds exactly when a `tryWrite` of the same message would, with
      the same new state and the same hooks run; they differ only in how a full
      queue is reported. */
  lemma WriteAgreesWithTryWrite<T>(s: ChanState<T>, msg: Option<T>, timed: bool)
    ensures (WriteStep(s, msg, timed).result == Ok(())) <==> (TryWriteStep(s, msg).result == Ok(true))
    ensures WriteStep(s, msg, timed).next == TryWriteStep(s, msg).next
    ensures WriteStep(s, msg, timed).ran == TryWriteStep(s, msg).ran
    ensures TryWriteStep(s, msg).result == Ok(false) ==>
              WriteStep(s, msg, timed).result == if timed then Fail(Timeout) else WouldBlock
  {
  }

  /** A read and a `tryRead` take the same message; they differ only on an empty
      open channel, where `tryRead` returns null at once. */
  lemma ReadAgreesWithTryRead<T>(s: ChanState<T>, timed: bool)
    ensures ReadStep(s, timed).next == TryReadStep(s).next
    ensures s.queue != [] ==> ReadStep(s, timed).result == Ok(s.queue[0]) && TryReadStep(s).result == Ok(Some(s.queue[0]))
    ensures !s.open && s.queue == [] ==>
              ReadStep(s, timed).result == Fail(NoSuchChannelElement) && TryReadStep(s).result == Fail(NoSuchChannelElement)
  {
  }

  // ---------------------------------------------------------------------------
  // The channel object

  class BufferedChannel<T> {
    const capacity: nat
    const id: ChannelId
    var queue: seq<T>
    var open: bool
    var afterWriteActions: seq<HookId>
    const iter: ChannelIterator<T>

    ghost function State(): ChanState<T>
      reads this, iter
    {
      ChanState(capacity, queue, open, afterWriteActions, iter.done)
    }

    ghost predicate Valid()
      reads this, iter
    {
      Inv(State())
    }

    /** `new BufferedChannel(capacity, clazz)`; `id` is the random UUID the
        channel draws for itself. The backing ArrayBlockingQueue refuses a
        capacity below 1. */
    constructor(capacity: nat, id: ChannelId)
      requires 1 <= capacity
      ensures Valid() && fresh(iter)
      ensures State() == Fresh(capacity) && this.id == id
    {
      this.capacity := capacity;
      this.id := id;
      queue := [];
      open := true;
      afterWriteActions := [];
      iter := new ChannelIterator();
    }

    /** `internalQueue.offer(message)`. */
    method Offer(x: T) returns (success: bool)
      requires Valid()
      modifies this`queue
      ensures Valid()
      ensures success == (|old(queue)| < capacity)
      ensures queue == if success then old(queue) + [x] else old(queue)
    {
      success := |queue| < capacity;
      if success {
        queue := queue + [x];
      }
    }

    /** `runAfterWriteActions()`: every registered hook's `onWrite`, in order. */
    method RunAfterWriteActions() returns (ran: seq<HookId>)
      ensures ran == afterWriteActions
    {
      ran := [];
      for i := 0 to |afterWriteActions|
        invariant ran == afterWriteActions[..i]
      {
        ran := ran + [afterWriteActions[i]];
      }
    }

    method TryWrite(msg: Option<T>) returns (r: Outcome<bool>, ran: seq<HookId>)
      requires Valid()
      modifies this
      ensures Valid()
      ensures Effect(State(), r, ran) == TryWriteStep(old(State()), msg)
    {
      if msg.None? {
        return Fail(NullPointer), [];
      }
      if !open {
        return Fail(ClosedChannel), [];
      }
      var success := Offer(msg.value);
      ran := [];
      if success {
        ran := RunAfterWriteActions();
      }
      r := Ok(success);
    }

    /** `blockedWrite(message, timeout, unit)` up to the point where it would wait. */
    method BlockedWrite(msg: Option<T>, timed: bool) returns (r: Outcome<()>, ran: seq<HookId>)
      requires Valid()
      modifies this
      ensures Valid()
      ensures Effect(State(), r, ran) == WriteStep(old(State()), msg, timed)
    {
      if msg.None? {
        return Fail(NullPointer), [];
      }
      if !open {
        return Fail(ClosedChannel), [];
      }
      var success := Offer(msg.value);
      if success {
        ran := RunAfterWriteActions();
        return Ok(()), ran;
      }
      ran := [];
      r := if timed then Fail(Timeout) else WouldBlock;
    }

    /** `write(message)`: it never reports a timeout. */
    method Write(msg: Option<T>) returns (r: Outcome<()>, ran: seq<HookId>)
      requires Valid()
      modifies this
      ensures Valid()
      ensures Effect(State(), r, ran) == WriteStep(old(State()), msg, false)
      ensures r != Fail(Timeout)
    {
      r, ran := BlockedWrite(msg, false);
    }

    /** `write(message, timeout, unit)`. */
    method WriteWithTimeout(msg: Option<T>) returns (r: Outcome<()>, ran: seq<HookId>)
      requires Valid()
      modifies this
      ensures Valid()
      ensures Effect(State(), r, ran) == WriteStep(old(State()), msg, true)
    {
      r, ran := BlockedWrite(msg, true);
    }

    method TryRead() returns (r: Outcome<Option<T>>)
      requires Valid()
      modifies this
      ensures Valid()
      ensures Effect(State(), r, []) == TryReadStep(old(State()))
    {
      if !open && queue == [] {
        return Fail(NoSuchChannelElement);
      }
      if queue == [] {
        return Ok(None);
      }
      r := Ok(Some(queue[0]));
      queue := queue[1..];
    }

    /** `blockedRead(timeout, unit)` up to the point where it would wait. */
    method BlockedRead(timed: bool) returns (r: Outcome<T>)
      requires Valid()
      modifies this
      ensures Valid()
      ensures Effect(State(), r, []) == ReadStep(old(State()), timed)
    {
      if !open && queue == [] {
        return Fail(NoSuchChannelElement);
      }
      if queue != [] {
        r := Ok(queue[0]);
        queue := queue[1..];
        return;
      }
      r := if timed then Fail(Timeout) else WouldBlock;
    }

    method Read() returns (r: Outcome<T>)
      requires Valid()
      modifies this
      ensures Valid()
      ensures Effect(State(), r, []) == ReadStep(old(State()), false)
    {
      r := BlockedRead(false);
    }

    method ReadWithTimeout() returns (r: Outcome<T>)
      requires Valid()
      modifies this
      ensures Valid()
      ensures Effect(State(), r, []) == ReadStep(old(State()), true)
    {
      r := BlockedRead(true);
    }

    /** `canWrite()`: writes are possible exactly while the channel is open. */
    method CanWrite() returns (b: bool)
      ensures b == open
      ensures forall x: T :: b <==> !TryWriteStep(State(), Some(x)).result.Fail?
    {
      b := open;
    }

    /** `canRead()`: true exactly when `tryRead()` would not throw, so after a
        close it stays true until the queue is drained. */
    method CanRead() returns (b: bool)
      ensures b <==> open || queue != []
      ensures b <==> !TryReadStep(State()).result.Fail?
    {
      b := open || queue != [];
    }

    /** `isOpen()`. */
    function IsOpen(): (b: bool)
      requires Valid()
      reads this, iter
      ensures b <==> CloseStep(State()).next != State()
    {
      open
    }

    /** `getCapacity()`. */
    method GetCapacity() returns (c: nat)
      requires Valid()
      ensures c == capacity && 1 <= c
    {
      c := capacity;
    }

    /** `getAvailable()`: the free slots, which lie between 0 and the capacity. */
    method GetAvailable() returns (n: int)
      requires Valid()
      ensures n == capacity - |queue|
      ensures 0 <= n <= capacity
    {
      n := capacity - |queue|;
    }

    /** `close()`. Interrupting the blocked readers and writers is not modelled. */
    method Close() returns (ran: seq<HookId>)
      requires Valid()
      modifies this, iter
      ensures Valid()
      ensures Effect(State(), (), ran) == CloseStep(old(State()))
    {
      open := false;
      ran := [];
      for i := 0 to |afterWriteActions|
        invariant ran == afterWriteActions[..i]
      {
        ran := ran + [afterWriteActions[i]];
      }
      iter.MarkDone();
    }

    method RegisterAfterWriteAction(h: HookId) returns (r: Outcome<()>)
      requires Valid()
      modifies this
      ensures Valid()
      ensures Effect(State(), r, []) == RegisterStep(old(State()), h)
      ensures queue == old(queue) && open == old(open)
      ensures afterWriteActions == if r.Ok? then old(afterWriteActions) + [h] else old(afterWriteActions)
    {
      if |afterWriteActions| >= MaxAfterWriteActions {
        return Fail(TooManySelector);
      }
      afterWriteActions := afterWriteActions + [h];
      r := Ok(());
    }

    /** `iterator()`: always the same iterator object. */
    method Iterator() returns (it: ChannelIterator<T>)
      ensures it == iter
    {
      it := iter;
    }

    /** `forEach(action)`; `applied` lists the messages handed to the action. */
    method ForEach() returns (applied: seq<T>, r: Outcome<()>)
      requires Valid()
      modifies this
      ensures Valid()
      ensures Effect(State(), Drain(applied, r), []) == ForEachStep(old(State()))
    {
      ghost var s0 := State();
      applied := [];
      while open || queue != []
        invariant Valid()
        invariant State() == s0.(queue := queue)
        invariant s0.queue == applied + queue
        decreases |queue|
      {
        if queue != [] {
          HeadThenTail(applied, queue);
        }
        var msg := Read();
        if msg.WouldBlock? {
          assert applied + queue == applied;
          return applied, WouldBlock;
        }
        applied := applied + [msg.value];
      }
      assert applied + queue == applied;
      r := Ok(());
    }
  }
}
