/**
 * The blocking iterator handed out by a channel (internal/ChannelIterator.java).
 * Its only state is a `done` flag that only ever goes from false to true.
 *
 * The parent channel's `read()` is given as a script: the outcomes that the
 * successive calls of `read()` produce, in order. A script that runs out stands
 * for a `read()` that waits for a writer.
 */
module Iteration {
  import opened Common

  /** What one `next()` call does: its outcome, how many parent reads it made, and
      the value of `done` afterwards. */
  datatype Pulled<T> = Pulled(result: Outcome<T>, used: nat, done: bool)

  /** What `forEachRemaining(action)` does: the values handed to the action in
      order, how it ends, how many parent reads it made, and `done` afterwards. */
  datatype Remaining<T> = Remaining(applied: seq<T>, result: Outcome<()>, used: nat, done: bool)

  /** A script of parent reads that all return a value. */
  function Values<T>(vs: seq<T>): (s: seq<Outcome<T>>)
    ensures |s| == |vs| && forall i :: 0 <= i < |vs| ==> s[i] == Ok(vs[i])
  {
    seq(|vs|, i requires 0 <= i < |vs| => Ok(vs[i]))
  }

  /** `next()`: a done iterator throws NoSuchChannelElementException without
      reading the parent. Otherwise the parent's value is returned; a
      ClosedChannelException or IllegalStateException of the parent marks the
      iterator done and becomes NoSuchChannelElementException; a
      NullPointerException makes `next()` start over; any other exception of
      the parent passes through. */
  function NextStep<T>(done: bool, script: seq<Outcome<T>>): (p: Pulled<T>)
    decreases |script|
    ensures p.used <= |script|
    ensures done ==> p == Pulled(Fail(NoSuchChannelElement), 0, true)
    ensures done ==> p.done
    ensures p.done && !done ==> p.result == Fail(NoSuchChannelElement)
    ensures p.result.Ok? ==> 1 <= p.used && !p.done
    ensures p.result.Fail? ==> p.result.error !in {NullPointer, ClosedChannel, IllegalState}
    ensures !done && script == [] ==> p == Pulled(WouldBlock, 0, false)
    ensures !done && script != [] && script[0].Ok? ==> p == Pulled(script[0], 1, false)
    ensures !done && script != [] && script[0].WouldBlock? ==> p == Pulled(WouldBlock, 1, false)
    ensures !done && script != [] && script[0] in {Fail(ClosedChannel), Fail(IllegalState)}
            ==> p == Pulled(Fail(NoSuchChannelElement), 1, true)
    ensures !done && script != [] && script[0].Fail?
            && script[0].error !in {NullPointer, ClosedChannel, IllegalState}
            ==> p == Pulled(script[0], 1, false)
    ensures !done && script != [] && script[0] == Fail(NullPointer) ==> 1 <= p.used
  {
    if done then Pulled(Fail(NoSuchChannelElement), 0, true)
    else if script == [] then Pulled(WouldBlock, 0, false)
    else match script[0]
      case Ok(v) => Pulled(Ok(v), 1, false)
      case WouldBlock => Pulled(WouldBlock, 1, false)
      case Fail(e) =>
        if e == ClosedChannel || e == IllegalState then Pulled(Fail(NoSuchChannelElement), 1, true)
        else if e == NullPointer then
          var p := NextStep(false, script[1..]);
          Pulled(p.result, p.used + 1, p.done)
        else Pulled(Fail(e), 1, false)
  }

  /** A value returned by `next()` is what the parent's read returned, after
      reads that all threw NullPointerException. */
  lemma {:induction false} NextReturnsRead<T>(done: bool, script: seq<Outcome<T>>)
    decreases |script|
    ensures var p := NextStep(done, script);
            p.result.Ok? ==> script[p.used - 1] == Ok(p.result.value)
                             && forall j :: 0 <= j < p.used - 1 ==> script[j] == Fail(NullPointer)
  {
    if !done && script != [] && script[0] == Fail(NullPointer) {
      NextReturnsRead(false, script[1..]);
    }
  }

  /** `forEachRemaining(action)`: `next()` while `hasNext()`, handing each value to
      the action; a NoSuchElementException (NoSuchChannelElementException is one)
      ends the loop normally. */
  function ForEachRemainingStep<T>(done: bool, script: seq<Outcome<T>>): (r: Remaining<T>)
    decreases |script|
    ensures r.used <= |script|
    ensures done ==> r == Remaining([], Ok(()), 0, true)
    ensures done ==> r.done
  {
    if done then Remaining([], Ok(()), 0, true)
    else
      var p := NextStep(false, script);
      match p.result
      case Ok(v) =>
        var rest := ForEachRemainingStep(p.done, script[p.used..]);
        Remaining([v] + rest.applied, rest.result, p.used + rest.used, rest.done)
      case WouldBlock => Remaining([], WouldBlock, p.used, p.done)
      case Fail(e) =>
        Remaining([], if e == NoSuchChannelElement then Ok(()) else Fail(e), p.used, p.done)
  }

  /** A parent that yields the values `vs` and then reports the channel closed
      makes `forEachRemaining` apply the action to exactly `vs`, in order, and
      return normally with the iterator done. */
  lemma {:induction false} ForEachRemainingDrains<T>(vs: seq<T>)
    ensures ForEachRemainingStep(false, Values(vs) + [Fail(ClosedChannel)])
         == Remaining(vs, Ok(()), |vs| + 1, true)
  {
    var script := Values(vs) + [Fail(ClosedChannel)];
    if vs == [] {
      assert script == [Fail(ClosedChannel)];
    } else {
      assert script[0] == Ok(vs[0]);
      assert script[1..] == Values(vs[1..]) + [Fail(ClosedChannel)];
      ForEachRemainingDrains(vs[1..]);
      assert [vs[0]] + vs[1..] == vs;
    }
  }

  /** What `k` successive `next()` calls do: their outcomes, how many parent
      reads they made in all, and `done` afterwards. */
  datatype Taken<T> = Taken(results: seq<Outcome<T>>, used: nat, done: bool)

  function NextTimes<T>(done: bool, script: seq<Outcome<T>>, k: nat): (t: Taken<T>)
    decreases k
    ensures |t.results| == k && t.used <= |script|
    ensures done ==> t.done && t.used == 0
  {
    if k == 0 then Taken([], 0, done)
    else
      var p := NextStep(done, script);
      var rest := NextTimes(p.done, script[p.used..], k - 1);
      Taken([p.result] + rest.results, p.used + rest.used, rest.done)
  }

  /** `k` `next()` calls on a parent whose reads start with the values `vs`
      return the first `k` of them, one read each, and leave the iterator not
      done. */
  lemma {:induction false} NextTimesValues<T>(vs: seq<T>, tail: seq<Outcome<T>>, k: nat)
    requires k <= |vs|
    ensures NextTimes(false, Values(vs) + tail, k) == Taken(Values(vs[..k]), k, false)
    decreases k
  {
    if k > 0 {
      var script := Values(vs) + tail;
      assert script[0] == Ok(vs[0]);
      assert NextStep(false, script) == Pulled(Ok(vs[0]), 1, false);
      assert script[1..] == Values(vs[1..]) + tail;
      NextTimesValues(vs[1..], tail, k - 1);
      ValuesCons(vs, k);
    }
  }

  /** The first `k` values as reads: the first value, then the next `k - 1`. */
  lemma ValuesCons<T>(vs: seq<T>, k: nat)
    requires 0 < k <= |vs|
    ensures Values(vs[..k]) == [Ok(vs[0])] + Values(vs[1..][..k - 1])
  {
    assert vs[1..][..k - 1] == vs[1..k];
  }

  /** After `k` values have been taken with `next()`, `forEachRemaining` applies
      the action to the rest: in the iterator test, 100 values with 20 already
      taken give 80 calls. */
  lemma ForEachRemainingAfterTaking<T>(vs: seq<T>, k: nat)
    requires k <= |vs|
    ensures var script := Values(vs) + [Fail(ClosedChannel)];
            var t := NextTimes(false, script, k);
            t.results == Values(vs[..k])
            && ForEachRemainingStep(t.done, script[t.used..]) == Remaining(vs[k..], Ok(()), |vs| - k + 1, true)
  {
    NextTimesValues(vs, [Fail(ClosedChannel)], k);
    DropValues(vs, k);
    ForEachRemainingDrains(vs[k..]);
  }

  /** Dropping `k` reads from a script of values followed by a close. */
  lemma DropValues<T>(vs: seq<T>, k: nat)
    requires k <= |vs|
    ensures (Values(vs) + [Fail(ClosedChannel)])[k..] == Values(vs[k..]) + [Fail(ClosedChannel)]
  {
  }

  /** The outcome of a loop that has already handed `applied` to the action and
      made `used` parent reads, followed by the outcome `rest` of the remainder. */
  function After<T>(applied: seq<T>, used: nat, rest: Remaining<T>): Remaining<T> {
    Remaining(applied + rest.applied, rest.result, used + rest.used, rest.done)
  }

  /** How `forEachRemaining` ends when `next()` did not return a value. */
  function LoopEnd<T>(result: Outcome<T>): Outcome<()>
    requires !result.Ok?
  {
    if result.WouldBlock? then WouldBlock
    else if result.error == NoSuchChannelElement then Ok(())
    else Fail(result.error)
  }

  /** One round of the `forEachRemaining` loop, after `applied` and `used`:
      the `next()` outcome `p` either extends what was applied, or ends the
      loop. */
  lemma ForEachRemainingRound<T>(applied: seq<T>, used: nat, tail: seq<Outcome<T>>, p: Pulled<T>)
    requires p == NextStep(false, tail)
    ensures p.result.Ok? ==>
              After(applied, used, ForEachRemainingStep(false, tail))
              == After(applied + [p.result.value], used + p.used, ForEachRemainingStep(p.done, tail[p.used..]))
    ensures !p.result.Ok? ==>
              After(applied, used, ForEachRemainingStep(false, tail)) == Remaining(applied, LoopEnd(p.result), used + p.used, p.done)
  {
    if p.result.Ok? {
      var rest := ForEachRemainingStep(p.done, tail[p.used..]);
      assert ForEachRemainingStep(false, tail) == After([p.result.value], p.used, rest);
      assert applied + ([p.result.value] + rest.applied) == (applied + [p.result.value]) + rest.applied;
    } else {
      assert applied + [] == applied;
    }
  }

  class ChannelIterator<T> {
    var done: bool

    constructor()
      ensures !done
    {
      done := false;
    }

    /** `hasNext()`: true until the iterator is marked done. */
    function HasNext(): (b: bool)
      reads this
      ensures b <==> !done
    {
      !done
    }

    /** `next()`, reading from the parent whose successive outcomes are `script`. */
    method Next(script: seq<Outcome<T>>) returns (r: Outcome<T>, used: nat)
      modifies this
      decreases |script|
      ensures Pulled(r, used, done) == NextStep(old(done), script)
    {
      if !HasNext() {
        return Fail(NoSuchChannelElement), 0;
      }
      if script == [] {
        return WouldBlock, 0;
      }
      match script[0]
      case Ok(v) =>
        r, used := Ok(v), 1;
      case WouldBlock =>
        r, used := WouldBlock, 1;
      case Fail(e) =>
        if e == ClosedChannel || e == IllegalState {
          done := true;
          r, used := Fail(NoSuchChannelElement), 1;
        } else if e == NullPointer {
          var u;
          r, u := Next(script[1..]);
          used := u + 1;
        } else {
          r, used := Fail(e), 1;
        }
    }

    /** `remove()` is not supported on a channel. */
    method Remove() returns (r: Outcome<()>)
      ensures r == Fail(UnsupportedOperation)
    {
      r := Fail(UnsupportedOperation);
    }

    /** `forEachRemaining(action)`: `applied` lists the values the action receives. */
    method ForEachRemaining(script: seq<Outcome<T>>) returns (applied: seq<T>, r: Outcome<()>, used: nat)
      modifies this
      ensures Remaining(applied, r, used, done) == ForEachRemainingStep(old(done), script)
    {
      applied, used := [], 0;
      var pending := script;
      ghost var whole := ForEachRemainingStep(done, script);
      while HasNext()
        invariant used <= |script| && pending == script[used..]
        invariant whole == After(applied, used, ForEachRemainingStep(done, pending))
        decreases |pending|
      {
        var v, u := Next(pending);
        ForEachRemainingRound(applied, used, pending, Pulled(v, u, done));
        if v.Ok? {
          applied, used, pending := applied + [v.value], used + u, pending[u..];
        } else {
          r, used := LoopEnd(v), used + u;
          return;
        }
      }
      assert applied + [] == applied;
      r := Ok(());
    }

    /** `markDone()`: the parent channel has been closed. */
    method MarkDone()
      modifies this
      ensures done
    {
      done := true;
    }
  }
}
