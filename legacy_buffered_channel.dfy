/**
 * The older bounded channel, io/github/daichim/jach/BufferedChannel.java: the
 * same FIFO queue and one-way open flag as the channel of module Channels, but
 * without AfterWriteActions, `tryWrite`/`tryRead` or timeouts, and with a
 * different error for a read on a closed, drained channel.
 */
module LegacyChannels {
  import opened Common
  import opened Iteration
  import Channels

  /** The abstract state: capacity, queued messages (head first), `openState`,
      and the iterator's `done` flag. */
  datatype LegacyState<T> = LegacyState(capacity: nat, queue: seq<T>, open: bool, iterDone: bool)

  /** What one operation does: the state after it and what it returns. */
  datatype Step<T, R> = Step(next: LegacyState<T>, result: R)

  predicate Inv<T>(s: LegacyState<T>) {
    1 <= s.capacity && |s.queue| <= s.capacity && (!s.open ==> s.iterDone)
  }

  /** `write(msg)`, as far as it goes without waiting for a reader. */
  function WriteStep<T>(s: LegacyState<T>, msg: Option<T>): (e: Step<T, Outcome<()>>)
    ensures msg.None? ==> e == Step(s, Fail(NullPointer))
    ensures msg.Some? && !s.open ==> e == Step(s, Fail(ClosedChannel))
    ensures e.result == Ok(()) <==> msg.Some? && s.open && |s.queue| < s.capacity
    ensures e.result == Ok(()) ==> e.next == s.(queue := s.queue + [msg.value])
    ensures e.result != Ok(()) ==> e.next == s
  {
    if msg.None? then Step(s, Fail(NullPointer))
    else if !s.open then Step(s, Fail(ClosedChannel))
    else if |s.queue| < s.capacity then Step(s.(queue := s.queue + [msg.value]), Ok(()))
    else Step(s, WouldBlock)
  }

  /** `read()`, as far as it goes without waiting for a writer: a closed, drained
      channel throws ClosedChannelException. */
  function ReadStep<T>(s: LegacyState<T>): (e: Step<T, Outcome<T>>)
    ensures !s.open && s.queue == [] ==> e == Step(s, Fail(ClosedChannel))
    ensures s.queue != [] ==> e == Step(s.(queue := s.queue[1..]), Ok(s.queue[0]))
    ensures s.open && s.queue == [] ==> e == Step(s, WouldBlock)
  {
    if !s.open && s.queue == [] then Step(s, Fail(ClosedChannel))
    else if s.queue != [] then Step(s.(queue := s.queue[1..]), Ok(s.queue[0]))
    else Step(s, WouldBlock)
  }

  /** `close()`: closed for good, the iterator marked done, the queue kept. */
  function CloseStep<T>(s: LegacyState<T>): (e: Step<T, ()>)
    ensures !e.next.open && e.next.iterDone
    ensures e.next.queue == s.queue && e.next.capacity == s.capacity
  {
    Step(s.(open := false, iterDone := true), ())
  }

  /** `forEach(action)`: every queued message goes to the action in order; on a
      closed channel it then returns, on an open one the next `read()` waits. */
  function ForEachStep<T>(s: LegacyState<T>): (e: Step<T, Channels.Drain<T>>)
    ensures e.result.applied == s.queue && e.next == s.(queue := [])
    ensures e.result.result == if s.open then WouldBlock else Ok(())
  {
    Step(s.(queue := []), Channels.Drain(s.queue, if s.open then WouldBlock else Ok(())))
  }

  /** The same state seen as a channel of module Channels with no hooks. */
  function AsChannel<T>(s: LegacyState<T>): Channels.ChanState<T> {
    Channels.ChanState(s.capacity, s.queue, s.open, [], s.iterDone)
  }

  /** The legacy channel behaves as the newer one with no hooks registered,
      except that a read on a closed, drained channel throws
      ClosedChannelException where the newer one throws
      NoSuchChannelElementException. */
  lemma LegacyRefinesChannel<T>(s: LegacyState<T>, msg: Option<T>)
    ensures Inv(s) <==> Channels.Inv(AsChannel(s))
    ensures AsChannel(WriteStep(s, msg).next) == Channels.WriteStep(AsChannel(s), msg, false).next
    ensures WriteStep(s, msg).result == Channels.WriteStep(AsChannel(s), msg, false).result
    ensures Channels.WriteStep(AsChannel(s), msg, false).ran == []
    ensures AsChannel(ReadStep(s).next) == Channels.ReadStep(AsChannel(s), false).next
    ensures !s.open && s.queue == [] ==>
              ReadStep(s).result == Fail(ClosedChannel) &&
              Channels.ReadStep(AsChannel(s), false).result == Fail(NoSuchChannelElement)
    ensures s.open || s.queue != [] ==> ReadStep(s).result == Channels.ReadStep(AsChannel(s), false).result
    ensures AsChannel(CloseStep(s).next) == Channels.CloseStep(AsChannel(s)).next
    ensures AsChannel(ForEachStep(s).next) == Channels.ForEachStep(AsChannel(s)).next
    ensures ForEachStep(s).result == Channels.ForEachStep(AsChannel(s)).result
  {
  }

  /** `n` successive reads: the messages they return, and the state after them;
      the reads stop at the first one that does not return a message. */
  function Reads<T>(s: LegacyState<T>, n: nat): (r: (seq<T>, LegacyState<T>))
    ensures |r.0| <= n
    decreases n
  {
    if n == 0 then ([], s)
    else
      var e := ReadStep(s);
      if e.result.Ok? then
        var rest := Reads(e.next, n - 1);
        ([e.result.value] + rest.0, rest.1)
      else ([], s)
  }

  /** After close, reads hand out the queued messages in order, and the read
      after that throws ClosedChannelException. */
  lemma {:induction false} DrainAfterClose<T>(s: LegacyState<T>)
    requires !s.open
    ensures Reads(s, |s.queue|).0 == s.queue
    ensures Reads(s, |s.queue|).1 == s.(queue := [])
    ensures ReadStep(Reads(s, |s.queue|).1).result == Fail(ClosedChannel)
    decreases |s.queue|
  {
    if s.queue != [] {
      DrainAfterClose(s.(queue := s.queue[1..]));
      assert [s.queue[0]] + s.queue[1..] == s.queue;
    }
  }

  /** The legacy channel owns a single iterator, and `close()` marks it done, so
      after close that iterator hands the action nothing, whatever its parent's
      reads would return, and its `next()` throws NoSuchChannelElementException
      at once; `forEach` on the same closed channel still drains the queue. */
  lemma IteratingAfterClose<T>(s: LegacyState<T>, script: seq<Outcome<T>>)
    ensures var c := CloseStep(s).next;
            ForEachRemainingStep(c.iterDone, script) == Remaining([], Ok(()), 0, true)
            && NextStep(c.iterDone, script) == Pulled(Fail(NoSuchChannelElement), 0, true)
            && ForEachStep(c).result == Channels.Drain(s.queue, Ok(()))
  {
  }

  class LegacyBufferedChannel<T> {
    const capacity: nat
    var queue: seq<T>
    var openState: bool
    const iter: ChannelIterator<T>

    ghost function State(): LegacyState<T>
      reads this, iter
    {
      LegacyState(capacity, queue, openState, iter.done)
    }

    ghost predicate Valid()
      reads this, iter
    {
      Inv(State())
    }

    /** `new BufferedChannel(capacity)`; the backing ArrayBlockingQueue refuses a
        capacity below 1. */
    constructor(capacity: nat)
      requires 1 <= capacity
      ensures Valid() && fresh(iter)
      ensures State() == LegacyState(capacity, [], true, false)
    {
      this.capacity := capacity;
      queue := [];
      openState := true;
      iter := new ChannelIterator();
    }

    method Write(msg: Option<T>) returns (r: Outcome<()>)
      requires Valid()
      modifies this
      ensures Valid()
      ensures Step(State(), r) == WriteStep(old(State()), msg)
    {
      if msg.None? {
        return Fail(NullPointer);
      }
      if !openState {
        return Fail(ClosedChannel);
      }
      if |queue| < capacity {
        queue := queue + [msg.value];
        return Ok(());
      }
      r := WouldBlock;
    }

    method Read() returns (r: Outcome<T>)
      requires Valid()
      modifies this
      ensures Valid()
      ensures Step(State(), r) == ReadStep(old(State()))
    {
      if !openState && |queue| == 0 {
        return Fail(ClosedChannel);
      }
      if queue != [] {
        r := Ok(queue[0]);
        queue := queue[1..];
        return;
      }
      r := WouldBlock;
    }

    /** `close()`. Interrupting the blocked readers and writers is not modelled. */
    method Close()
      requires Valid()
      modifies this, iter
      ensures Valid()
      ensures Step(State(), ()) == CloseStep(old(State()))
    {
      openState := false;
      iter.MarkDone();
    }

    /** `isClosed()`: true exactly once `close()` has run. */
    function IsClosed(): (b: bool)
      requires Valid()
      reads this, iter
      ensures b <==> CloseStep(State()).next == State()
    {
      !openState
    }

    method GetCapacity() returns (c: nat)
      requires Valid()
      ensures c == capacity && 1 <= c
    {
      c := capacity;
    }

    /** `getAvailable()`: the free slots, between 0 and the capacity. */
    method GetAvailable() returns (n: int)
      requires Valid()
      ensures n == capacity - |queue|
      ensures 0 <= n <= capacity
    {
      n := capacity - |queue|;
    }

    method Iterator() returns (it: ChannelIterator<T>)
      ensures it == iter
    {
      it := iter;
    }

    /** `forEach(action)`; `applied` lists the messages handed to the action. */
    method ForEach() returns (applied: seq<T>, r: Outcome<()>)
      requires Valid()
      modifies this
      ensures Valid()
      ensures Step(State(), Channels.Drain(applied, r)) == ForEachStep(old(State()))
    {
      ghost var s0 := State();
      applied := [];
      while !(IsClosed() && queue == [])
        invariant Valid()
        invariant State() == s0.(queue := queue)
        invariant s0.queue == applied + queue
        decreases |queue|
      {
        if queue != [] {
          Channels.HeadThenTail(applied, queue);
        }
        var msg := Read();
        if msg.WouldBlock? {
          assert applied + queue == applied;
          return applied, WouldBlock;
        }
        applied := applied + [msg.value];
      }
      assert applied + queue == applied;
      r := Ok(());
    }
  }
}
