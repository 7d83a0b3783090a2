/**
 * The multiplexer of channel/Selector.java. A selector watches several
 * channels, each with an action. It registers one AfterWriteAction on each of
 * them; every write to a watched channel then pushes that channel's id into
 * the selector's own ready-queue (a channel of capacity 2048), and a close
 * pushes a close marker, the id prefixed with "__CLOSE__". Dispatch takes
 * entries off the ready-queue, reads one message from the channel named by the
 * entry and applies that channel's action to it.
 *
 * The behaviour is given first on an abstract view of the selector and its
 * channels (`View`); the class `Selector` is proved to do what those functions
 * say.
 */
module Selectors {
  import opened Common
  import Channels

  /** Capacity of the ready-queue. */
  const ChanSize := 2048

  /** Prefix of a close marker. */
  const ClosePrefix := "__CLOSE__"

  /** What a channel's action is: a callback (named by `cb`), BREAK_ACTION or
      CONTINUE_ACTION. */
  datatype Act = Invoke(cb: nat) | Break | Continue

  /** A channel and the action to run on its messages. */
  datatype ChannelAction<T> = ChannelAction(channel: Channels.BufferedChannel<T>, action: Act)

  /** A watched channel as dispatch sees it: its action and its state. */
  datatype Origin<T> = Origin(action: Act, state: Channels.ChanState<T>)

  /** The selector as dispatch sees it: the ready-queue's entries (oldest
      first), the watched channels by id, and the `active` flag. */
  datatype View<T> = View(ready: seq<string>, origins: map<string, Origin<T>>, active: bool)

  /** Something dispatch did outside the selector: a callback invoked with a
      message (None is a null message), or the default action run. */
  datatype Event<T> = Called(cb: nat, arg: Option<T>) | DefaultRan

  /** How a dispatch call ends: it returned; it waits in `read()` on an empty
      ready-queue; it is still looping after the rounds it was given; or it
      threw. */
  datatype Ending = Returned | Waiting | Pending | Failed(error: Error)

  /** The selector after a dispatch call, how the call ended, and what it did. */
  datatype Dispatch<T> = Dispatch(view: View<T>, ending: Ending, events: seq<Event<T>>)

  ghost predicate IsSuffix<X>(a: seq<X>, b: seq<X>) {
    |a| <= |b| && a == b[|b| - |a|..]
  }

  // ---------------------------------------------------------------------------
  // The hooks and the close marker

  /** What either hook does to the ready-queue: `tryWrite(x)`, and when the
      queue is full, `tryRead()` to drop the oldest entry and `tryWrite(x)` again. */
  function Push(q: seq<string>, x: string): (r: seq<string>)
    requires |q| <= ChanSize
    ensures |r| <= ChanSize && |r| == if |q| < ChanSize then |q| + 1 else ChanSize
    ensures r[|r| - 1] == x
  {
    if |q| < ChanSize then q + [x] else q[1..] + [x]
  }

  /** A push keeps the newest entries: the ready-queue after it is a suffix of
      the old queue followed by the new entry, so only the oldest is dropped. */
  lemma PushKeepsNewest(q: seq<string>, x: string)
    requires |q| <= ChanSize
    ensures IsSuffix(Push(q, x), q + [x])
    ensures |q| < ChanSize ==> Push(q, x) == q + [x]
  {
  }

  /** The entry the close hook pushes for channel `id`. */
  function CloseMarker(id: string): string {
    ClosePrefix + id
  }

  /** `chanId.startsWith(CLOSE_CHAN_PREFIX)`. */
  predicate IsMarker(s: string) {
    |ClosePrefix| <= |s| && s[..|ClosePrefix|] == ClosePrefix
  }

  /** Java's `s.replace(pat, rep)`: every occurrence of `pat`, scanning left to
      right without overlaps, is replaced by `rep`. */
  function ReplaceAll(s: string, pat: string, rep: string): string
    requires pat != []
    decreases |s|
  {
    if |s| < |pat| then s
    else if s[..|pat|] == pat then rep + ReplaceAll(s[|pat|..], pat, rep)
    else [s[0]] + ReplaceAll(s[1..], pat, rep)
  }

  /** The channel id a close marker names: `chanId.replace(CLOSE_CHAN_PREFIX, EMPTY)`. */
  function MarkerTarget(s: string): string {
    ReplaceAll(s, ClosePrefix, "")
  }

  lemma {:induction false} ReplaceAllSkipsIds(s: ChannelId, rep: string)
    ensures ReplaceAll(s, ClosePrefix, rep) == s
    decreases |s|
  {
    if |ClosePrefix| <= |s| {
      assert s[0] in IdAlphabet;
      assert s[..|ClosePrefix|][0] != ClosePrefix[0];
      ReplaceAllSkipsIds(s[1..], rep);
      assert [s[0]] + s[1..] == s;
    }
  }

  /** Channel ids (UUID text) never look like close markers, and the close
      marker of an id decodes back to that id. */
  lemma MarkerRoundTrip(id: ChannelId)
    ensures !IsMarker(id)
    ensures IsMarker(CloseMarker(id))
    ensures MarkerTarget(CloseMarker(id)) == id
  {
    if |ClosePrefix| <= |id| {
      assert id[0] in IdAlphabet;
      assert id[..|ClosePrefix|][0] != ClosePrefix[0];
    }
    var m := CloseMarker(id);
    assert m[..|ClosePrefix|] == ClosePrefix;
    assert m[|ClosePrefix|..] == id;
    ReplaceAllSkipsIds(id, "");
  }

  /** Removing every occurrence of `pat` never lengthens a string. */
  lemma {:induction false} ReplaceNoLonger(s: string, pat: string)
    requires pat != []
    ensures |ReplaceAll(s, pat, "")| <= |s|
    decreases |s|
  {
    if |s| >= |pat| {
      if s[..|pat|] == pat {
        ReplaceNoLonger(s[|pat|..], pat);
      } else {
        ReplaceNoLonger(s[1..], pat);
      }
    }
  }

  /** A string with an occurrence of `pat` at index `i` gets shorter when
      every occurrence of `pat` is removed. */
  lemma {:induction false} ReplaceDropsOccurrence(s: string, pat: string, i: nat)
    requires pat != [] && i + |pat| <= |s| && s[i..i + |pat|] == pat
    ensures |ReplaceAll(s, pat, "")| < |s|
    decreases |s|
  {
    if s[..|pat|] == pat {
      ReplaceNoLonger(s[|pat|..], pat);
    } else {
      assert i != 0;
      assert s[1..][i - 1..i - 1 + |pat|] == s[i..i + |pat|];
      ReplaceDropsOccurrence(s[1..], pat, i - 1);
    }
  }

  /** The decoding relies on ids not containing the prefix: the close marker
      of any string holding "__CLOSE__" decodes to a shorter string, not to
      that string (the marker of "a__CLOSE__" names channel "a"). */
  lemma MarkerOfUnsafeId(s: string, i: nat)
    requires i + |ClosePrefix| <= |s| && s[i..i + |ClosePrefix|] == ClosePrefix
    ensures |MarkerTarget(CloseMarker(s))| < |s|
    ensures MarkerTarget(CloseMarker(s)) != s
  {
    var m := CloseMarker(s);
    assert m[..|ClosePrefix|] == ClosePrefix && m[|ClosePrefix|..] == s;
    assert MarkerTarget(m) == ReplaceAll(s, ClosePrefix, "");
    ReplaceDropsOccurrence(s, ClosePrefix, i);
  }

  // ---------------------------------------------------------------------------
  // Dispatch

  /** `closeChannel(channel)`: forget the channel; with none left, close the
      selector. */
  function CloseChannelSpec<T>(v: View<T>, id: string): (r: View<T>)
    ensures id !in r.origins && r.origins.Keys == v.origins.Keys - {id}
    ensures forall k :: k in r.origins ==> r.origins[k] == v.origins[k]
    ensures r.ready == v.ready
    ensures r.active <==> v.active && r.origins != map[]
  {
    var m := v.origins - {id};
    View(v.ready, m, v.active && m != map[])
  }

  /** The view with the ready-queue's head taken off. */
  function Dequeued<T>(v: View<T>): View<T>
    requires v.ready != []
  {
    v.(ready := v.ready[1..])
  }

  /** The view after `tryRead()` on origin `id`, and what it returned. */
  function ReadOrigin<T>(v: View<T>, id: string): (View<T>, Outcome<Option<T>>)
    requires id in v.origins
  {
    var o := v.origins[id];
    var e := Channels.TryReadStep(o.state);
    (v.(origins := v.origins[id := o.(state := e.next)]), e.result)
  }

  /** `select()`, exactly as written: after the retry for an origin that turned
      out empty it does not return, so the origin's action still runs, and a
      callback then receives null. */
  function SelectSpec<T>(v: View<T>): (d: Dispatch<T>)
    decreases |v.ready|
    ensures |d.view.ready| <= |v.ready|
    ensures !v.active ==> d == Dispatch(v, Failed(IllegalState), [])
    ensures d.ending.Failed? ==> d.ending.error == IllegalState
  {
    if !v.active then Dispatch(v, Failed(IllegalState), [])
    else if v.ready == [] then Dispatch(v, Waiting, [])
    else
      var id := v.ready[0];
      var v1 := Dequeued(v);
      if IsMarker(id) then Dispatch(CloseChannelSpec(v1, MarkerTarget(id)), Returned, [])
      else if id !in v1.origins then Dispatch(v1, Failed(IllegalState), [])
      else
        var (v2, msg) := ReadOrigin(v1, id);
        if msg.Fail? then Dispatch(v2, Failed(IllegalState), [])
        else
          var first := if msg.value.None? then SelectSpec(v2) else Dispatch(v2, Returned, []);
          if first.ending != Returned then first
          else match v1.origins[id].action
            case Break => first
            case Continue =>
              var second := SelectSpec(first.view);
              Dispatch(second.view, second.ending, first.events + second.events)
            case Invoke(cb) => Dispatch(first.view, Returned, first.events + [Called(cb, msg.value)])
  }

  /** What `select()` does once the origin's `tryRead()` returned `msg`
      (null when None) and left the view `v2`: on null, `select()` again; then,
      unless that failed or waits, the origin's action. */
  ghost function SelectReadTail<T>(v2: View<T>, action: Act, msg: Option<T>): Dispatch<T> {
    var first := if msg.None? then SelectSpec(v2) else Dispatch(v2, Returned, []);
    if first.ending != Returned then first
    else match action
      case Break => first
      case Continue =>
        var second := SelectSpec(first.view);
        Dispatch(second.view, second.ending, first.events + second.events)
      case Invoke(cb) => Dispatch(first.view, Returned, first.events + [Called(cb, msg)])
  }

  lemma SelectAfterTryRead<T>(v: View<T>)
    requires v.active && v.ready != [] && !IsMarker(v.ready[0]) && v.ready[0] in v.origins
    ensures var id := v.ready[0]; var r := ReadOrigin(Dequeued(v), id);
            SelectSpec(v) == if r.1.Fail? then Dispatch(r.0, Failed(IllegalState), [])
                             else SelectReadTail(r.0, v.origins[id].action, r.1.value)
  {
  }

  /** One round of the `untilDone()` loop. */
  function UntilDoneRound<T>(v: View<T>): (d: Dispatch<T>)
    ensures d.ending == Returned ==> |d.view.ready| < |v.ready|
    ensures d.ending == Waiting ==> d.view == v && v.ready == []
    ensures d.ending.Failed? ==> d.ending.error == IllegalState
    ensures d.ending != Pending
  {
    if v.ready == [] then Dispatch(v, Waiting, [])
    else
      var id := v.ready[0];
      var v1 := Dequeued(v);
      if IsMarker(id) then Dispatch(CloseChannelSpec(v1, MarkerTarget(id)), Returned, [])
      else if id !in v1.origins then Dispatch(v1, Failed(IllegalState), [])
      else
        var (v2, msg) := ReadOrigin(v1, id);
        if msg.Fail? || msg.value.None? then Dispatch(v2, Returned, [])
        else match v1.origins[id].action
          case Break => Dispatch(v2.(active := false), Returned, [])
          case Continue => Dispatch(v2, Returned, [])
          case Invoke(cb) => Dispatch(v2, Returned, [Called(cb, msg.value)])
  }

  /** The `while (isActive())` loop of `untilDone()`. */
  function UntilDoneLoop<T>(v: View<T>): (d: Dispatch<T>)
    decreases |v.ready|
  {
    if !v.active then Dispatch(v, Returned, [])
    else
      var d := UntilDoneRound(v);
      if d.ending != Returned then d
      else
        var rest := UntilDoneLoop(d.view);
        Dispatch(rest.view, rest.ending, d.events + rest.events)
  }

  /** `untilDone()`. */
  function UntilDoneSpec<T>(v: View<T>): (d: Dispatch<T>)
    ensures !v.active ==> d == Dispatch(v, Failed(IllegalState), [])
  {
    if !v.active then Dispatch(v, Failed(IllegalState), []) else UntilDoneLoop(v)
  }

  /** One round of the `untilOrDefault(defaultAction)` loop: like a round of
      `untilDone()`, but an empty ready-queue or an origin that yields null
      runs the default action instead of waiting or skipping. */
  function UntilOrDefaultRound<T>(v: View<T>): (d: Dispatch<T>)
    ensures d.ending == Returned && v.ready != [] ==> |d.view.ready| < |v.ready|
    ensures v.ready == [] ==> d == Dispatch(v, Returned, [DefaultRan])
    ensures d.ending != Waiting && d.ending != Pending
  {
    if v.ready == [] then Dispatch(v, Returned, [DefaultRan])
    else
      var id := v.ready[0];
      var v1 := Dequeued(v);
      if IsMarker(id) then Dispatch(CloseChannelSpec(v1, MarkerTarget(id)), Returned, [])
      else if id !in v1.origins then Dispatch(v1, Failed(IllegalState), [])
      else
        var (v2, msg) := ReadOrigin(v1, id);
        if msg.Fail? then Dispatch(v2, Returned, [])
        else if msg.value.None? then Dispatch(v2, Returned, [DefaultRan])
        else match v1.origins[id].action
          case Break => Dispatch(v2.(active := false), Returned, [])
          case Continue => Dispatch(v2, Returned, [])
          case Invoke(cb) => Dispatch(v2, Returned, [Called(cb, msg.value)])
  }

  /** At most `rounds` rounds of the `while (isActive())` loop of
      `untilOrDefault(defaultAction)`. */
  function UntilOrDefaultLoop<T>(v: View<T>, rounds: nat): (d: Dispatch<T>)
    decreases rounds
  {
    if !v.active then Dispatch(v, Returned, [])
    else if rounds == 0 then Dispatch(v, Pending, [])
    else
      var d := UntilOrDefaultRound(v);
      if d.ending != Returned then d
      else
        var rest := UntilOrDefaultLoop(d.view, rounds - 1);
        Dispatch(rest.view, rest.ending, d.events + rest.events)
  }

  /** `untilOrDefault(defaultAction)`, followed for at most `rounds` rounds. */
  function UntilOrDefaultSpec<T>(v: View<T>, rounds: nat): (d: Dispatch<T>)
    ensures !v.active ==> d == Dispatch(v, Failed(IllegalState), [])
  {
    if !v.active then Dispatch(v, Failed(IllegalState), []) else UntilOrDefaultLoop(v, rounds)
  }

  /** A dispatch `d` preceded by the events `events`. */
  function Then<T>(events: seq<Event<T>>, d: Dispatch<T>): Dispatch<T> {
    Dispatch(d.view, d.ending, events + d.events)
  }

  lemma ThenThen<T>(a: seq<Event<T>>, b: seq<Event<T>>, d: Dispatch<T>)
    ensures Then(a, Then(b, d)) == Then(a + b, d)
  {
    assert a + (b + d.events) == (a + b) + d.events;
  }

  // ---------------------------------------------------------------------------
  // Properties of dispatch

  /** How dispatch may change a selector: the ready-queue is only consumed from
      its head, `active` only goes from true to false, channels are only
      forgotten, never added or given another action, and a watched channel
      only loses messages from its head. */
  ghost predicate Evolves<T>(v: View<T>, w: View<T>) {
    && IsSuffix(w.ready, v.ready)
    && (w.active ==> v.active)
    && w.origins.Keys <= v.origins.Keys
    && forall k :: k in w.origins ==>
         && w.origins[k].action == v.origins[k].action
         && w.origins[k].state == v.origins[k].state.(queue := w.origins[k].state.queue)
         && IsSuffix(w.origins[k].state.queue, v.origins[k].state.queue)
  }

  lemma EvolvesTrans<T>(u: View<T>, v: View<T>, w: View<T>)
    requires Evolves(u, v) && Evolves(v, w)
    ensures Evolves(u, w)
  {
    forall k | k in w.origins
      ensures IsSuffix(w.origins[k].state.queue, u.origins[k].state.queue)
    {
      var a, b, c := u.origins[k].state.queue, v.origins[k].state.queue, w.origins[k].state.queue;
      assert c == b[|b| - |c|..] == a[|a| - |b|..][|b| - |c|..];
    }
    assert w.ready == v.ready[|v.ready| - |w.ready|..] == u.ready[|u.ready| - |v.ready|..][|v.ready| - |w.ready|..];
  }

  /** Taking the ready-queue's head, then reading that origin or forgetting
      a channel, only changes the selector as `Evolves` allows. */
  lemma TakingOneEvolves<T>(v: View<T>, id: string)
    requires v.ready != []
    ensures Evolves(v, Dequeued(v))
    ensures id in v.origins ==> Evolves(v, ReadOrigin(Dequeued(v), id).0)
    ensures Evolves(v, CloseChannelSpec(Dequeued(v), id))
  {
    DequeuedEvolves(v);
    if id in v.origins {
      ReadAfterTaking(v, id);
    }
    ForgetAfterTaking(v, id);
  }

  lemma ForgetAfterTaking<T>(v: View<T>, id: string)
    requires v.ready != []
    ensures Evolves(v, CloseChannelSpec(Dequeued(v), id))
  {
    DequeuedEvolves(v);
    ForgetEvolves(Dequeued(v), id);
    EvolvesTrans(v, Dequeued(v), CloseChannelSpec(Dequeued(v), id));
  }

  lemma ReadAfterTaking<T>(v: View<T>, id: string)
    requires v.ready != [] && id in v.origins
    ensures Evolves(v, ReadOrigin(Dequeued(v), id).0)
    ensures Evolves(v, ReadOrigin(Dequeued(v), id).0.(active := false))
  {
    var w := ReadOrigin(Dequeued(v), id).0;
    DequeuedEvolves(v);
    ReadOriginEvolves(Dequeued(v), id);
    EvolvesTrans(v, Dequeued(v), w);
    DeactivateEvolves(v, w);
  }

  lemma DequeuedEvolves<T>(v: View<T>)
    requires v.ready != []
    ensures Evolves(v, Dequeued(v))
  {
  }

  lemma ReadOriginEvolves<T>(v: View<T>, id: string)
    requires id in v.origins
    ensures Evolves(v, ReadOrigin(v, id).0)
  {
  }

  lemma ForgetEvolves<T>(v: View<T>, id: string)
    ensures Evolves(v, CloseChannelSpec(v, id))
  {
  }

  lemma {:induction false} SelectEvolves<T>(v: View<T>)
    ensures Evolves(v, SelectSpec(v).view)
    decreases |v.ready|, 1
  {
    if !v.active || v.ready == [] {
      assert SelectSpec(v).view == v;
    } else {
      var id := v.ready[0];
      TakingOneEvolves(v, id);
      if !IsMarker(id) && id in v.origins {
        var (v2, msg) := ReadOrigin(Dequeued(v), id);
        if msg.Fail? {
          assert SelectSpec(v).view == v2;
        } else {
          SelectEvolvesAfterRead(v, id, v2, msg.value);
        }
      }
    }
  }

  /** What `select()` does once the origin has been read: the retry for an
      empty origin, then the action. */
  function Retried<T>(v2: View<T>, msg: Option<T>): Dispatch<T> {
    if msg.None? then SelectSpec(v2) else Dispatch(v2, Returned, [])
  }

  lemma SelectAfterRead<T>(v: View<T>, id: string, v2: View<T>, msg: Option<T>)
    requires v.active && v.ready != [] && id == v.ready[0] && !IsMarker(id) && id in v.origins
    requires (v2, Ok(msg)) == ReadOrigin(Dequeued(v), id)
    ensures Retried(v2, msg).ending == Returned && v.origins[id].action.Continue? ==>
              SelectSpec(v).view == SelectSpec(Retried(v2, msg).view).view
    ensures !(Retried(v2, msg).ending == Returned && v.origins[id].action.Continue?) ==>
              SelectSpec(v).view == Retried(v2, msg).view
  {
  }

  /** `SelectEvolves` once the origin has been read. */
  lemma {:induction false} SelectEvolvesAfterRead<T>(v: View<T>, id: string, v2: View<T>, msg: Option<T>)
    requires v.active && v.ready != [] && id == v.ready[0] && !IsMarker(id) && id in v.origins
    requires (v2, Ok(msg)) == ReadOrigin(Dequeued(v), id)
    requires Evolves(v, v2)
    ensures Evolves(v, SelectSpec(v).view)
    decreases |v.ready|, 0
  {
    var first := Retried(v2, msg);
    if msg.None? {
      SelectEvolves(v2);
      EvolvesTrans(v, v2, first.view);
    }
    SelectAfterRead(v, id, v2, msg);
    if first.ending == Returned && v.origins[id].action.Continue? {
      SelectEvolves(first.view);
      EvolvesTrans(v, first.view, SelectSpec(first.view).view);
    }
  }

  /** An entry for a callback whose channel holds a message: `select()` takes
      the channel's head and passes exactly that value to the callback; the
      entry and that message are all it consumes, and the selector stays
      active with its other channels untouched. */
  lemma SelectInvokesWithHead<T>(v: View<T>, cb: nat)
    requires v.active && v.ready != [] && !IsMarker(v.ready[0])
    requires v.ready[0] in v.origins
    requires v.origins[v.ready[0]].action == Invoke(cb) && v.origins[v.ready[0]].state.queue != []
    ensures SelectSpec(v).ending == Returned
    ensures SelectSpec(v).events == [Called(cb, Some(v.origins[v.ready[0]].state.queue[0]))]
    ensures SelectSpec(v).view.origins[v.ready[0]].state.queue == v.origins[v.ready[0]].state.queue[1..]
    ensures SelectSpec(v).view.ready == v.ready[1..]
    ensures var o := v.origins[v.ready[0]];
            SelectSpec(v).view == v.(ready := v.ready[1..],
                                     origins := v.origins[v.ready[0] := o.(state := o.state.(queue := o.state.queue[1..]))])
  {
  }

  /** BREAK_ACTION in `select()` returns without invoking anything, and leaves
      the selector active. */
  lemma SelectBreakKeepsActive<T>(v: View<T>)
    requires v.active && v.ready != [] && !IsMarker(v.ready[0])
    requires v.ready[0] in v.origins
    requires v.origins[v.ready[0]].action == Break && v.origins[v.ready[0]].state.queue != []
    ensures SelectSpec(v) == Dispatch(ReadOrigin(Dequeued(v), v.ready[0]).0, Returned, [])
    ensures SelectSpec(v).view.active
  {
  }

  /** A close marker at the head makes `select()` forget that channel and
      return. */
  lemma SelectCloseMarker<T>(v: View<T>, id: ChannelId)
    requires v.active && v.ready != [] && v.ready[0] == CloseMarker(id)
    ensures SelectSpec(v) == Dispatch(CloseChannelSpec(Dequeued(v), id), Returned, [])
    ensures id !in SelectSpec(v).view.origins
  {
    MarkerRoundTrip(id);
  }

  /** When the origin turns out empty, `select()` dispatches the next entry and
      then still invokes the first origin's callback, with null. */
  lemma SelectPassesNullAfterRetry<T>(v: View<T>, cb: nat)
    requires v.active && v.ready != [] && !IsMarker(v.ready[0])
    requires v.ready[0] in v.origins
    requires v.origins[v.ready[0]].action == Invoke(cb)
    requires v.origins[v.ready[0]].state.queue == [] && v.origins[v.ready[0]].state.open
    requires SelectSpec(Dequeued(v)).ending == Returned
    ensures SelectSpec(v).ending == Returned
    ensures SelectSpec(v).events == SelectSpec(Dequeued(v)).events + [Called(cb, None)]
  {
    var id := v.ready[0];
    var o := v.origins[id];
    assert Channels.TryReadStep(o.state).next == o.state;
    assert Dequeued(v).origins[id := o] == Dequeued(v).origins;
  }

  /** Nothing a round of `untilDone()` invokes receives null. */
  ghost predicate NoNull<T>(events: seq<Event<T>>) {
    forall i :: 0 <= i < |events| ==> events[i].Called? && events[i].arg.Some?
  }

  /** `untilDone()` ends normally exactly when the selector has become
      inactive; it waits only on an empty ready-queue of an active selector; it
      never passes null to a callback; and it only changes the selector as
      `Evolves` allows. */
  lemma {:induction false} UntilDoneLoopEnds<T>(v: View<T>)
    ensures v.active ==> (UntilDoneLoop(v).ending == Returned <==> !UntilDoneLoop(v).view.active)
    ensures UntilDoneLoop(v).ending == Waiting ==> UntilDoneLoop(v).view.active && UntilDoneLoop(v).view.ready == []
    ensures UntilDoneLoop(v).ending != Pending
    ensures NoNull(UntilDoneLoop(v).events)
    ensures Evolves(v, UntilDoneLoop(v).view)
    decreases |v.ready|
  {
    if v.active {
      var d := UntilDoneRound(v);
      UntilDoneRoundEnds(v);
      if d.ending == Returned {
        UntilDoneLoopEnds(d.view);
        EvolvesTrans(v, d.view, UntilDoneLoop(d.view).view);
      }
    }
  }

  /** One round of `untilDone()` on an active selector: it passes no null, only
      changes the selector as `Evolves` allows, and leaves it active unless it
      returns. */
  lemma UntilDoneRoundEnds<T>(v: View<T>)
    requires v.active
    ensures NoNull(UntilDoneRound(v).events)
    ensures Evolves(v, UntilDoneRound(v).view)
    ensures UntilDoneRound(v).ending != Returned ==> UntilDoneRound(v).view.active
  {
    UntilDoneRoundCalls(v);
    UntilDoneRoundEvolves(v);
  }

  /** One round of `untilDone()` changes the selector only as `Evolves` allows. */
  lemma UntilDoneRoundEvolves<T>(v: View<T>)
    requires v.active
    ensures Evolves(v, UntilDoneRound(v).view)
  {
    if v.ready == [] {
      assert UntilDoneRound(v).view == v;
    } else if IsMarker(v.ready[0]) {
      ForgetAfterTaking(v, MarkerTarget(v.ready[0]));
      UntilDoneRoundOnMarker(v);
    } else if v.ready[0] in v.origins {
      ReadAfterTaking(v, v.ready[0]);
      UntilDoneRoundOnRead(v);
    } else {
      DequeuedEvolves(v);
      assert UntilDoneRound(v).view == Dequeued(v);
    }
  }

  /** A close marker at the head: the round forgets the channel it names. */
  lemma UntilDoneRoundOnMarker<T>(v: View<T>)
    requires v.active && v.ready != [] && IsMarker(v.ready[0])
    ensures UntilDoneRound(v).view == CloseChannelSpec(Dequeued(v), MarkerTarget(v.ready[0]))
  {
  }

  /** A watched channel at the head: the round leaves the selector as reading
      that channel left it, closed or not. */
  lemma UntilDoneRoundOnRead<T>(v: View<T>)
    requires v.active && v.ready != [] && !IsMarker(v.ready[0]) && v.ready[0] in v.origins
    ensures var w := ReadOrigin(Dequeued(v), v.ready[0]).0;
            UntilDoneRound(v).view == w || UntilDoneRound(v).view == w.(active := false)
  {
  }

  /** Closing the selector is a change `Evolves` allows. */
  lemma DeactivateEvolves<T>(v: View<T>, w: View<T>)
    requires Evolves(v, w)
    ensures Evolves(v, w.(active := false))
  {
  }

  /** BREAK_ACTION with a message waiting closes the selector, and `untilDone()`
      returns right after that round. */
  lemma UntilDoneBreakCloses<T>(v: View<T>)
    requires v.active && v.ready != [] && !IsMarker(v.ready[0])
    requires v.ready[0] in v.origins
    requires v.origins[v.ready[0]].action == Break && v.origins[v.ready[0]].state.queue != []
    ensures UntilDoneSpec(v) == Dispatch(ReadOrigin(Dequeued(v), v.ready[0]).0.(active := false), Returned, [])
  {
    var d := UntilDoneRound(v);
    assert d == Dispatch(ReadOrigin(Dequeued(v), v.ready[0]).0.(active := false), Returned, []);
    assert UntilDoneLoop(d.view) == Dispatch(d.view, Returned, []);
  }

  /** Whether a round of `untilOrDefault` finds nothing to do: the ready-queue
      is empty, or its head names a watched channel whose `tryRead()` returns
      null. */
  ghost predicate NothingReady<T>(v: View<T>) {
    || v.ready == []
    || (!IsMarker(v.ready[0]) && v.ready[0] in v.origins &&
        ReadOrigin(Dequeued(v), v.ready[0]).1 == Ok(None))
  }

  /** A round of `untilOrDefault` runs the default action exactly when nothing
      is ready; otherwise it does what a round of `untilDone()` does, and on a
      non-empty ready-queue both leave the same selector behind. */
  lemma UntilOrDefaultRoundIsUntilDoneRound<T>(v: View<T>)
    ensures (DefaultRan in UntilOrDefaultRound(v).events) <==> NothingReady(v)
    ensures NothingReady(v) ==> UntilOrDefaultRound(v).events == [DefaultRan]
    ensures !NothingReady(v) ==> UntilOrDefaultRound(v) == UntilDoneRound(v)
    ensures v.ready != [] ==>
              UntilOrDefaultRound(v).view == UntilDoneRound(v).view &&
              UntilOrDefaultRound(v).ending == UntilDoneRound(v).ending
  {
  }

  /** `untilOrDefault` keeps looping while the selector is active: when it
      returns, the selector is inactive. */
  lemma {:induction false} UntilOrDefaultLoopEnds<T>(v: View<T>, rounds: nat)
    ensures UntilOrDefaultLoop(v, rounds).ending == Returned ==> !UntilOrDefaultLoop(v, rounds).view.active
    ensures UntilOrDefaultLoop(v, rounds).ending == Pending ==> UntilOrDefaultLoop(v, rounds).view.active
    ensures UntilOrDefaultLoop(v, rounds).ending != Waiting
    decreases rounds
  {
    if v.active && rounds > 0 {
      var d := UntilOrDefaultRound(v);
      if d.ending == Returned {
        UntilOrDefaultLoopEnds(d.view, rounds - 1);
      }
    }
  }

  /** A round of `untilOrDefault` on an active selector changes it only as
      `Evolves` allows. */
  lemma UntilOrDefaultRoundEvolves<T>(v: View<T>)
    requires v.active
    ensures Evolves(v, UntilOrDefaultRound(v).view)
  {
    if v.ready == [] {
      assert UntilOrDefaultRound(v).view == v;
    } else {
      UntilOrDefaultRoundIsUntilDoneRound(v);
      UntilDoneRoundEnds(v);
    }
  }

  /** Looping `untilOrDefault` changes the selector only as `Evolves` allows:
      in particular an inactive selector never becomes active again. */
  lemma {:induction false} UntilOrDefaultLoopEvolves<T>(v: View<T>, rounds: nat)
    ensures Evolves(v, UntilOrDefaultLoop(v, rounds).view)
    decreases rounds
  {
    if v.active && rounds > 0 {
      var d := UntilOrDefaultRound(v);
      UntilOrDefaultRoundEvolves(v);
      if d.ending == Returned {
        UntilOrDefaultLoopEvolves(d.view, rounds - 1);
        EvolvesTrans(v, d.view, UntilOrDefaultLoop(d.view, rounds - 1).view);
      }
    } else {
      assert UntilOrDefaultLoop(v, rounds).view == v;
      assert v.ready[|v.ready| - |v.ready|..] == v.ready;
    }
  }

  /** A round of `untilDone()` invokes something exactly when the head names a
      watched channel with a callback and a message waiting, and then it
      passes that channel's head to that callback; BREAK_ACTION,
      CONTINUE_ACTION, close markers and empty channels invoke nothing. */
  lemma UntilDoneRoundCalls<T>(v: View<T>)
    ensures UntilDoneRound(v).events != [] <==>
              && v.ready != [] && !IsMarker(v.ready[0]) && v.ready[0] in v.origins
              && v.origins[v.ready[0]].action.Invoke? && v.origins[v.ready[0]].state.queue != []
    ensures UntilDoneRound(v).events != [] ==>
              UntilDoneRound(v).events
              == [Called(v.origins[v.ready[0]].action.cb, Some(v.origins[v.ready[0]].state.queue[0]))]
  {
  }

  // ---------------------------------------------------------------------------
  // Building a selector

  /** The action map `of(actions)` builds: each action filed under its
      channel's id, a later action for the same channel replacing an earlier one. */
  function ActionMap<T>(actions: seq<ChannelAction<T>>): map<string, ChannelAction<T>> {
    if actions == [] then map[]
    else
      var last := actions[|actions| - 1];
      ActionMap(actions[..|actions| - 1])[last.channel.id := last]
  }

  /** Every action's channel is in the map, and each entry is one of the
      actions, filed under its channel's id. */
  lemma {:induction false} ActionMapFiles<T>(actions: seq<ChannelAction<T>>)
    ensures forall i :: 0 <= i < |actions| ==> actions[i].channel.id in ActionMap(actions)
    ensures forall id :: id in ActionMap(actions) ==>
              ActionMap(actions)[id].channel.id == id && ActionMap(actions)[id] in actions
    decreases |actions|
  {
    if actions != [] {
      var n := |actions| - 1;
      var init := actions[..n];
      ActionMapFiles(init);
      assert forall i :: 0 <= i < n ==> init[i] == actions[i];
      assert forall a :: a in init ==> a in actions;
    }
  }

  /** The last action on a channel is the one kept. */
  lemma {:induction false} ActionMapLastWins<T>(actions: seq<ChannelAction<T>>, i: nat)
    requires i < |actions|
    requires forall j :: i < j < |actions| ==> actions[j].channel.id != actions[i].channel.id
    ensures actions[i].channel.id in ActionMap(actions)
    ensures ActionMap(actions)[actions[i].channel.id] == actions[i]
    decreases |actions|
  {
    var n := |actions| - 1;
    if i < n {
      var init := actions[..n];
      assert init[i] == actions[i];
      ActionMapLastWins(init, i);
    }
  }

  /** The channels the actions watch. */
  ghost function Chans<T>(actions: seq<ChannelAction<T>>): set<Channels.BufferedChannel<T>> {
    set i | 0 <= i < |actions| :: actions[i].channel
  }

  /** How many of the actions are on channel `c`. */
  function Count<T>(actions: seq<ChannelAction<T>>, c: Channels.BufferedChannel<T>): nat {
    if actions == [] then 0
    else Count(actions[..|actions| - 1], c) + if actions[|actions| - 1].channel == c then 1 else 0
  }

  /** Every channel of `chans` is valid and its queue, open flag and hook list
      are as recorded. */
  ghost predicate Tracked<T>(chans: set<Channels.BufferedChannel<T>>, queues: map<Channels.BufferedChannel<T>, seq<T>>,
                             opens: map<Channels.BufferedChannel<T>, bool>, hooks: map<Channels.BufferedChannel<T>, seq<HookId>>)
    reads chans, set c | c in chans :: c.iter
  {
    forall c | c in chans ::
      && c.Valid() && c in queues && c.queue == queues[c] && c in opens && c.open == opens[c]
      && c in hooks && c.afterWriteActions == hooks[c]
  }

  /** The action map files only the actions' channels, each under its own id. */
  lemma ActionMapValid<T>(actions: seq<ChannelAction<T>>)
    requires forall i :: 0 <= i < |actions| ==> actions[i].channel.Valid()
    ensures forall id | id in ActionMap(actions) ::
              ActionMap(actions)[id].channel.id == id && ActionMap(actions)[id].channel.Valid()
  {
    ActionMapFiles(actions);
  }

  /** Every action's channel is open. */
  ghost predicate AllOpen<T>(actions: seq<ChannelAction<T>>)
    reads Chans(actions)
  {
    forall i :: 0 <= i < |actions| ==> actions[i].channel.open
  }

  /** Every action's channel can take one more hook per action on it without
      going over the 25-hook cap. */
  ghost predicate HasRoom<T>(actions: seq<ChannelAction<T>>)
    reads Chans(actions)
  {
    forall i :: 0 <= i < |actions| ==>
      |actions[i].channel.afterWriteActions| + Count(actions, actions[i].channel) <= Channels.MaxAfterWriteActions
  }

  /** `HasRoom` over recorded hook lists `hooks`. */
  ghost predicate RoomIn<T>(hooks: map<Channels.BufferedChannel<T>, seq<HookId>>, actions: seq<ChannelAction<T>>) {
    forall i :: 0 <= i < |actions| ==>
      actions[i].channel in hooks
      && |hooks[actions[i].channel]| + Count(actions, actions[i].channel) <= Channels.MaxAfterWriteActions
  }

  /** `AllOpen` over recorded open flags `opens`. */
  ghost predicate OpenIn<T>(opens: map<Channels.BufferedChannel<T>, bool>, actions: seq<ChannelAction<T>>) {
    forall i :: 0 <= i < |actions| ==> actions[i].channel in opens && opens[actions[i].channel]
  }

  /** The hook lists and open flags recorded for the actions' channels are
      theirs. */
  lemma RoomAgrees<T>(actions: seq<ChannelAction<T>>, chans: set<Channels.BufferedChannel<T>>)
    requires forall i :: 0 <= i < |actions| ==> actions[i].channel in chans
    ensures HasRoom(actions) <==> RoomIn(HooksOf(chans), actions)
    ensures AllOpen(actions) <==> OpenIn(OpensOf(chans), actions)
  {
  }

  /** The actions before index `i` on channel `c`, plus the one at `i` if it is
      on `c`, are among all the actions on `c`. */
  lemma {:induction false} CountPrefix<T>(actions: seq<ChannelAction<T>>, i: nat, c: Channels.BufferedChannel<T>)
    requires i < |actions|
    ensures Count(actions[..i], c) + (if actions[i].channel == c then 1 else 0) <= Count(actions, c)
    decreases |actions|
  {
    if i + 1 < |actions| {
      var init := actions[..|actions| - 1];
      assert init[..i] == actions[..i];
      CountPrefix(init, i, c);
    } else {
      assert actions[..|actions| - 1] == actions[..i];
    }
  }

  /** Why the loop stops at action `i`: its channel is closed, so not all
      channels are open, or it is full, although it holds only the hooks it
      had on entry plus one per earlier action on it, so it had no room for
      all of its actions. */
  lemma StopCause<T>(hooks0: map<Channels.BufferedChannel<T>, seq<HookId>>, opens: map<Channels.BufferedChannel<T>, bool>,
                     actions: seq<ChannelAction<T>>, i: nat, h: HookId)
    requires i < |actions| && actions[i].channel in hooks0 && actions[i].channel in opens
    ensures !opens[actions[i].channel] ==> !OpenIn(opens, actions)
    ensures var c := actions[i].channel; var hooks := Expected(hooks0, actions[..i], h);
            c in hooks && (|hooks[c]| >= Channels.MaxAfterWriteActions ==>
                           |hooks0[c]| + Count(actions, c) > Channels.MaxAfterWriteActions && !RoomIn(hooks0, actions))
  {
    ExpectedExtends(hooks0, actions[..i], h);
    CountPrefix(actions, i, actions[i].channel);
  }

  /** Valid channels holding `hooks0` plus one hook per action had room for
      those hooks. */
  lemma RoomAfter<T>(chans: set<Channels.BufferedChannel<T>>, queues: map<Channels.BufferedChannel<T>, seq<T>>,
                     opens: map<Channels.BufferedChannel<T>, bool>, hooks0: map<Channels.BufferedChannel<T>, seq<HookId>>,
                     actions: seq<ChannelAction<T>>, h: HookId)
    requires forall i :: 0 <= i < |actions| ==> actions[i].channel in chans
    requires hooks0.Keys == chans
    requires Tracked(chans, queues, opens, Expected(hooks0, actions, h))
    ensures RoomIn(hooks0, actions)
  {
    ExpectedExtends(hooks0, actions, h);
    forall i | 0 <= i < |actions|
      ensures |hooks0[actions[i].channel]| + Count(actions, actions[i].channel) <= Channels.MaxAfterWriteActions
    {
      var c := actions[i].channel;
      assert c in chans && c.Valid();
    }
  }

  /** The actions up to `i` are on open channels when those before `i` are and
      the one at `i` is. */
  lemma OpensStep<T>(opens: map<Channels.BufferedChannel<T>, bool>, actions: seq<ChannelAction<T>>, i: nat)
    requires i < |actions| && actions[i].channel in opens && opens[actions[i].channel]
    requires OpenIn(opens, actions[..i])
    ensures OpenIn(opens, actions[..i + 1])
  {
    assert forall j :: 0 <= j < i ==> actions[..i + 1][j] == actions[..i][j];
  }

  /** The queues, open flags and hook lists of `chans`. */
  ghost function QueuesOf<T>(chans: set<Channels.BufferedChannel<T>>): map<Channels.BufferedChannel<T>, seq<T>>
    reads chans
  {
    map c | c in chans :: c.queue
  }

  ghost function OpensOf<T>(chans: set<Channels.BufferedChannel<T>>): map<Channels.BufferedChannel<T>, bool>
    reads chans
  {
    map c | c in chans :: c.open
  }

  ghost function HooksOf<T>(chans: set<Channels.BufferedChannel<T>>): map<Channels.BufferedChannel<T>, seq<HookId>>
    reads chans
  {
    map c | c in chans :: c.afterWriteActions
  }

  lemma TrackedStart<T>(chans: set<Channels.BufferedChannel<T>>)
    requires forall c | c in chans :: c.Valid()
    ensures Tracked(chans, QueuesOf(chans), OpensOf(chans), HooksOf(chans))
    ensures OpensOf(chans).Keys == chans && HooksOf(chans).Keys == chans
  {
  }

  /** At the end of the loop: every channel is as recorded in `queues` and
      `opens`, and its hooks are those of `hooks0` plus the ones registered for
      `done`. */
  lemma TrackedEnd<T>(chans: set<Channels.BufferedChannel<T>>, queues: map<Channels.BufferedChannel<T>, seq<T>>,
                      opens: map<Channels.BufferedChannel<T>, bool>, hooks0: map<Channels.BufferedChannel<T>, seq<HookId>>,
                      done: seq<ChannelAction<T>>, h: HookId)
    requires hooks0.Keys == chans
    requires Tracked(chans, queues, opens, Expected(hooks0, done, h))
    ensures forall c | c in chans ::
              && c.Valid() && c.queue == queues[c] && c.open == opens[c]
              && c.afterWriteActions == hooks0[c] + Repeat(h, Count(done, c))
              && hooks0[c] <= c.afterWriteActions
  {
    ExpectedExtends(hooks0, done, h);
  }

  /** One more action on the prefix `actions[..i]` extends the expected hook
      lists by that action. */
  lemma PrefixStep<T>(hooks0: map<Channels.BufferedChannel<T>, seq<HookId>>, actions: seq<ChannelAction<T>>, i: nat, h: HookId,
                      hooks: map<Channels.BufferedChannel<T>, seq<HookId>>)
    requires i < |actions| && hooks == Expected(hooks0, actions[..i], h) && actions[i].channel in hooks
    ensures Expected(hooks0, actions[..i + 1], h) == hooks[actions[i].channel := hooks[actions[i].channel] + [h]]
  {
    assert actions[..i + 1][..i] == actions[..i];
  }

  /** The hook lists after registering `h` once per action, from `hooks0`. */
  ghost function Expected<T>(hooks0: map<Channels.BufferedChannel<T>, seq<HookId>>, actions: seq<ChannelAction<T>>, h: HookId)
    : map<Channels.BufferedChannel<T>, seq<HookId>>
  {
    if actions == [] then hooks0
    else
      var before := Expected(hooks0, actions[..|actions| - 1], h);
      var c := actions[|actions| - 1].channel;
      if c in before then before[c := before[c] + [h]] else before
  }

  /** Registering once per action adds `Count(actions, c)` copies of the hook
      to the end of channel `c`'s list, and nothing else. */
  lemma {:induction false} ExpectedExtends<T>(hooks0: map<Channels.BufferedChannel<T>, seq<HookId>>, actions: seq<ChannelAction<T>>, h: HookId)
    ensures Expected(hooks0, actions, h).Keys == hooks0.Keys
    ensures forall c | c in hooks0 :: Expected(hooks0, actions, h)[c] == hooks0[c] + Repeat(h, Count(actions, c))
    decreases |actions|
  {
    if actions != [] {
      var init := actions[..|actions| - 1];
      ExpectedExtends(hooks0, init, h);
      var before := Expected(hooks0, init, h);
      var last := actions[|actions| - 1].channel;
      forall c | c in hooks0 ensures Expected(hooks0, actions, h)[c] == hooks0[c] + Repeat(h, Count(actions, c)) {
        if c == last {
          assert Count(actions, c) == Count(init, c) + 1;
          assert Repeat(h, Count(actions, c)) == Repeat(h, Count(init, c)) + [h];
        } else {
          assert Count(actions, c) == Count(init, c);
        }
      }
    }
  }

  /** `n` copies of hook `h`. */
  function Repeat(h: HookId, n: nat): (hs: seq<HookId>)
    ensures |hs| == n && forall i :: 0 <= i < n ==> hs[i] == h
  {
    if n == 0 then [] else Repeat(h, n - 1) + [h]
  }

  /** `small` is `big` with some keys dropped. */
  ghost predicate SubMap<K, V>(small: map<K, V>, big: map<K, V>) {
    forall k :: k in small ==> k in big && small[k] == big[k]
  }

  /** The hooks' write into the ready-queue `q`: `tryWrite(entry)`, and when
      that fails, `tryRead()` and `tryWrite(entry)` again. */
  method PushInto(q: Channels.BufferedChannel<string>, entry: string)
    requires q.Valid() && q.capacity == ChanSize && q.open && q.afterWriteActions == []
    modifies q
    ensures q.Valid() && q.State() == old(q.State()).(queue := Push(old(q.queue), entry))
  {
    var ok, ran := q.TryWrite(Some(entry));
    if ok != Ok(true) {
      var dropped := q.TryRead();
      ok, ran := q.TryWrite(Some(entry));
    }
  }

  // ---------------------------------------------------------------------------
  // The selector object

  class Selector<T> {
    var channelActions: map<string, ChannelAction<T>>
    const ready: Channels.BufferedChannel<string>
    var active: bool
    /** Names the AfterWriteActions this selector registers; a channel that
        reports having run `handle` ran this selector's `OnWrite` or `OnClose`
        with its own id. */
    const handle: HookId

    /** The watched channels. */
    ghost function Watched(): set<Channels.BufferedChannel<T>>
      reads this
    {
      set id | id in channelActions :: channelActions[id].channel
    }

    /** The watched channels and their iterators. */
    ghost function OriginsRepr(): set<object>
      reads this
    {
      Watched() + (set id | id in channelActions :: channelActions[id].channel.iter)
    }

    ghost function Repr(): set<object>
      reads this
    {
      {this, ready, ready.iter} + OriginsRepr()
    }

    /** Every watched channel is valid and filed under its own id. */
    ghost predicate OriginsValid()
      reads this, OriginsRepr()
    {
      forall id :: id in channelActions ==>
        channelActions[id].channel.id == id && channelActions[id].channel.Valid()
    }

    ghost predicate Valid()
      reads Repr()
    {
      && ready.Valid() && ready.capacity == ChanSize && ready.open && ready.afterWriteActions == []
      && ready !in OriginsRepr()
      && OriginsValid()
    }

    /** The watched channels as dispatch sees them. */
    ghost function Origins(): map<string, Origin<T>>
      reads this, OriginsRepr()
    {
      map id | id in channelActions :: Origin(channelActions[id].action, channelActions[id].channel.State())
    }

    ghost function Abs(): View<T>
      reads Repr()
    {
      View(ready.queue, Origins(), active)
    }

    /** `new Selector()` together with the fields `of` fills in: the
        ready-queue, whose random id is `readyId`, and the action map. */
    constructor(handle: HookId, readyId: ChannelId, channelActions: map<string, ChannelAction<T>>)
      requires forall id | id in channelActions ::
                 channelActions[id].channel.id == id && channelActions[id].channel.Valid()
      ensures Valid() && fresh(ready) && fresh(ready.iter)
      ensures active && ready.State() == Channels.Fresh(ChanSize)
      ensures this.channelActions == channelActions && this.handle == handle
    {
      this.channelActions := channelActions;
      active := true;
      this.handle := handle;
      ready := new Channels.BufferedChannel<string>(ChanSize, readyId);
    }

    /** `Selector.of(actions)`: a closed channel makes it throw
        IllegalStateException, a channel with 25 hooks already
        TooManySelectorException; hooks registered before the failing action
        stay registered. Each channel gets one hook per action on it. */
    static method Of(actions: seq<ChannelAction<T>>, handle: HookId, readyId: ChannelId) returns (r: Outcome<Selector<T>>)
      requires forall c | c in Chans(actions) :: c.Valid()
      modifies Chans(actions)
      ensures r.Ok? ==> fresh(r.value) && r.value.Valid() && r.value.handle == handle
      ensures r.Ok? ==> r.value.channelActions == ActionMap(actions) && r.value.active && r.value.ready.queue == []
      ensures r.Ok? ==> forall c | c in Chans(actions) ::
                c.afterWriteActions == old(c.afterWriteActions) + Repeat(handle, Count(actions, c))
      ensures r.Fail? ==> r.error == IllegalState || r.error == TooManySelector
      ensures r == Fail(IllegalState) ==> !old(AllOpen(actions))
      ensures !old(AllOpen(actions)) ==> r.Fail?
      ensures r == Fail(TooManySelector) ==> !old(HasRoom(actions))
      ensures r.Ok? <==> old(AllOpen(actions)) && old(HasRoom(actions))
      ensures forall c | c in Chans(actions) ::
                && c.Valid() && c.queue == old(c.queue) && c.open == old(c.open)
                && old(c.afterWriteActions) <= c.afterWriteActions
    {
      var reg := RegisterHooks(actions, handle);
      if reg.Fail? {
        return Fail(reg.error);
      }
      var sel := Build(actions, handle, readyId);
      r := Ok(sel);
    }

    /** The registration loop of `of(actions)` as its callers see it: every
        channel keeps its queue and open flag and gains one hook per action on
        it, or the loop stops at the first closed or full channel. */
    static method RegisterHooks(actions: seq<ChannelAction<T>>, handle: HookId) returns (r: Outcome<()>)
      requires forall c | c in Chans(actions) :: c.Valid()
      modifies Chans(actions)
      ensures r.Ok? || r.Fail?
      ensures r.Ok? ==> forall c | c in Chans(actions) ::
                c.afterWriteActions == old(c.afterWriteActions) + Repeat(handle, Count(actions, c))
      ensures r.Fail? ==> r.error == IllegalState || r.error == TooManySelector
      ensures r == Fail(IllegalState) ==> !old(AllOpen(actions))
      ensures !old(AllOpen(actions)) ==> r.Fail?
      ensures r == Fail(TooManySelector) ==> !old(HasRoom(actions))
      ensures r.Ok? <==> old(AllOpen(actions)) && old(HasRoom(actions))
      ensures forall c | c in Chans(actions) ::
                && c.Valid() && c.queue == old(c.queue) && c.open == old(c.open)
                && old(c.afterWriteActions) <= c.afterWriteActions
    {
      ghost var chans := Chans(actions);
      TrackedStart(chans);
      ghost var queues, opens, hooks0 := QueuesOf(chans), OpensOf(chans), HooksOf(chans);
      assert forall c | c in chans :: queues[c] == c.queue && opens[c] == c.open && hooks0[c] == c.afterWriteActions;
      RoomAgrees(actions, chans);
      ghost var hooks; var done;
      r, hooks, done := RegisterAll(actions, handle, chans, queues, opens, hooks0);
      if r.Fail? {
        TrackedEnd(chans, queues, opens, hooks0, actions[..done], handle);
        if r.error == IllegalState {
          assert !opens[actions[done].channel];
        }
        return;
      }
      assert actions[..done] == actions;
      TrackedEnd(chans, queues, opens, hooks0, actions, handle);
    }

    /** The selector `of(actions)` returns once every hook is registered. */
    static method Build(actions: seq<ChannelAction<T>>, handle: HookId, readyId: ChannelId) returns (sel: Selector<T>)
      requires forall c | c in Chans(actions) :: c.Valid()
      ensures fresh(sel) && sel.Valid() && sel.handle == handle
      ensures sel.channelActions == ActionMap(actions) && sel.active && sel.ready.queue == []
    {
      assert forall i | 0 <= i < |actions| :: actions[i].channel in Chans(actions);
      ActionMapValid(actions);
      sel := new Selector(handle, readyId, ActionMap(actions));
    }

    /** The loop of `of(actions)`: register the selector's hook on each action's
        channel, stopping at the first closed or full channel (the action map
        the loop also fills is `ActionMap(actions)`, and is dropped on failure). `chans` holds the channels of the actions, and
        `queues`, `opens` and `hooks0` their state on entry; `done` actions
        were registered and `hooks` are the hook lists on exit. */
    static method RegisterAll(actions: seq<ChannelAction<T>>, handle: HookId, ghost chans: set<Channels.BufferedChannel<T>>,
                              ghost queues: map<Channels.BufferedChannel<T>, seq<T>>, ghost opens: map<Channels.BufferedChannel<T>, bool>,
                              ghost hooks0: map<Channels.BufferedChannel<T>, seq<HookId>>)
      returns (r: Outcome<()>, ghost hooks: map<Channels.BufferedChannel<T>, seq<HookId>>, done: nat)
      requires forall i :: 0 <= i < |actions| ==> actions[i].channel in chans
      requires Tracked(chans, queues, opens, hooks0) && opens.Keys == chans && hooks0.Keys == chans
      modifies chans
      ensures done <= |actions| && hooks == Expected(hooks0, actions[..done], handle) && Tracked(chans, queues, opens, hooks)
      ensures OpenIn(opens, actions[..done])
      ensures r.Ok? ==> done == |actions|
      ensures r.Ok? || r.Fail?
      ensures r.Fail? ==> r.error == IllegalState || r.error == TooManySelector
      ensures r == Fail(IllegalState) ==> done < |actions| && !opens[actions[done].channel]
      ensures r == Fail(TooManySelector) ==>
                (done < |actions|
                 && |hooks0[actions[done].channel]| + Count(actions, actions[done].channel) > Channels.MaxAfterWriteActions)
      ensures r == Fail(TooManySelector) ==> !RoomIn(hooks0, actions)
      ensures r.Ok? <==> OpenIn(opens, actions) && RoomIn(hooks0, actions)
    {
      hooks := hooks0;
      done := 0;
      while done < |actions|
        invariant done <= |actions|
        invariant hooks == Expected(hooks0, actions[..done], handle)
        invariant OpenIn(opens, actions[..done])
        invariant Tracked(chans, queues, opens, hooks)
      {
        var ca := actions[done];
        var step;
        ghost var before := hooks;
        step, hooks := RegisterOne(ca.channel, handle, chans, queues, opens, hooks);
        if step.Fail? {
          StopCause(hooks0, opens, actions, done, handle);
          return step, hooks, done;
        }
        PrefixStep(hooks0, actions, done, handle, before);
        OpensStep(opens, actions, done);
        done := done + 1;
      }
      assert actions[..done] == actions;
      RoomAfter(chans, queues, opens, hooks0, actions, handle);
      r := Ok(());
    }

    /** One iteration of `of(actions)` for an action on channel `c`: the
        `isOpen()` check, then `registerAfterWriteAction`. The expected hook
        lists `hooks` gain `h` on `c` when the hook is accepted. */
    static method RegisterOne(c: Channels.BufferedChannel<T>, h: HookId, ghost chans: set<Channels.BufferedChannel<T>>,
                              ghost queues: map<Channels.BufferedChannel<T>, seq<T>>, ghost opens: map<Channels.BufferedChannel<T>, bool>,
                              ghost hooks: map<Channels.BufferedChannel<T>, seq<HookId>>)
      returns (r: Outcome<()>, ghost hooks': map<Channels.BufferedChannel<T>, seq<HookId>>)
      requires c in chans && Tracked(chans, queues, opens, hooks)
      modifies c
      ensures Tracked(chans, queues, opens, hooks')
      ensures r.Ok? || r.Fail?
      ensures r.Ok? ==> c in opens && opens[c] && c in hooks && hooks' == hooks[c := hooks[c] + [h]]
      ensures r.Fail? ==> hooks' == hooks
      ensures r.Fail? ==> (r.error == IllegalState <==> !opens[c]) && (r.error == IllegalState || r.error == TooManySelector)
      ensures opens[c] && |hooks[c]| < Channels.MaxAfterWriteActions ==> r.Ok?
      ensures r == Fail(TooManySelector) ==> |hooks[c]| >= Channels.MaxAfterWriteActions
    {
      hooks' := hooks;
      assert c.Valid() && c.open == opens[c];
      if !c.IsOpen() {
        return Fail(IllegalState), hooks';
      }
      var reg := c.RegisterAfterWriteAction(h);
      if reg.Fail? {
        r := Fail(TooManySelector);
      } else {
        r := Ok(());
        hooks' := hooks[c := hooks[c] + [h]];
      }
      forall d | d in chans
        ensures d.Valid() && d.queue == queues[d] && d.open == opens[d] && d in hooks' && d.afterWriteActions == hooks'[d]
      {
        if d != c {
          assert d.State() == old(d.State());
        }
      }
    }

    /** Both hooks' body: put `entry` into the ready-queue, dropping the oldest
        entry when it is full. */
    method PushReady(entry: string)
      requires Valid()
      modifies ready
      ensures Valid()
      ensures Abs() == old(Abs()).(ready := Push(old(Abs()).ready, entry))
    {
      ghost var origins := Origins();
      PushInto(ready, entry);
      assert Origins() == origins;
    }

    /** The AfterWriteAction's `onWrite()` for the watched channel `id`. */
    method OnWrite(id: ChannelId)
      requires Valid()
      modifies ready
      ensures Valid()
      ensures Abs() == old(Abs()).(ready := Push(old(Abs()).ready, id))
    {
      PushReady(id);
    }

    /** The AfterWriteAction's `close()` for the watched channel `id`. */
    method OnClose(id: ChannelId)
      requires Valid()
      modifies ready
      ensures Valid()
      ensures Abs() == old(Abs()).(ready := Push(old(Abs()).ready, CloseMarker(id)))
    {
      PushReady(CloseMarker(id));
    }

    /** `isActive()`: an inactive selector refuses to dispatch. */
    function IsActive(): (b: bool)
      requires Valid()
      reads Repr()
      ensures b == Abs().active
      ensures !b ==> SelectSpec(Abs()).ending == Failed(IllegalState)
    {
      active
    }

    /** `close()`. */
    method Close()
      requires Valid()
      modifies this
      ensures Valid() && channelActions == old(channelActions)
      ensures Abs() == old(Abs()).(active := false)
    {
      active := false;
    }

    /** `closeChannel(channel)`. */
    method CloseChannel(id: string)
      requires Valid()
      modifies this
      ensures Valid() && SubMap(channelActions, old(channelActions))
      ensures Abs() == CloseChannelSpec(old(Abs()), id)
    {
      ghost var before, repr := Origins(), OriginsRepr();
      channelActions := channelActions - {id};
      assert OriginsRepr() <= repr;
      assert Origins() == before - {id};
      if channelActions == map[] {
        Close();
      }
    }

    /** `selectorChannel.read()`: the ready-queue's head, or waiting when it is
        empty (the queue is never closed). */
    method TakeReady() returns (r: Outcome<string>)
      requires Valid()
      modifies ready
      ensures Valid()
      ensures old(Abs()).ready == [] ==> r == WouldBlock && Abs() == old(Abs())
      ensures old(Abs()).ready != [] ==> r == Ok(old(Abs()).ready[0]) && Abs() == Dequeued(old(Abs()))
    {
      ghost var origins := Origins();
      r := ready.Read();
      assert Origins() == origins;
    }

    /** `selectorChannel.tryRead()`: the ready-queue's head, or null when it is
        empty. */
    method TryTakeReady() returns (r: Outcome<Option<string>>)
      requires Valid()
      modifies ready
      ensures Valid()
      ensures old(Abs()).ready == [] ==> r == Ok(None) && Abs() == old(Abs())
      ensures old(Abs()).ready != [] ==> r == Ok(Some(old(Abs()).ready[0])) && Abs() == Dequeued(old(Abs()))
    {
      ghost var origins := Origins();
      r := ready.TryRead();
      assert Origins() == origins;
    }

    /** `tryRead()` on the channel filed under `id`. */
    method ReadFrom(id: string) returns (msg: Outcome<Option<T>>)
      requires Valid() && id in channelActions
      modifies channelActions[id].channel
      ensures Valid()
      ensures (Abs(), msg) == ReadOrigin(old(Abs()), id)
    {
      var c := channelActions[id].channel;
      ghost var before := Origins();
      msg := c.TryRead();
      forall k | k in channelActions && k != id
        ensures channelActions[k].channel.State() == old(channelActions[k].channel.State())
      {
        assert channelActions[k].channel != c;
      }
      assert Origins() == before[id := before[id].(state := c.State())];
    }

    /** `select()`: one dispatch, as written (see `SelectSpec`). */
    method Select() returns (ending: Ending, events: seq<Event<T>>)
      requires Valid()
      modifies this, ready, Watched()
      decreases |ready.queue|, 0
      ensures Valid() && SubMap(channelActions, old(channelActions))
      ensures Dispatch(Abs(), ending, events) == SelectSpec(old(Abs()))
    {
      if !IsActive() {
        return Failed(IllegalState), [];
      }
      ghost var v := Abs();
      var entry := TakeReady();
      if !entry.Ok? {
        return Waiting, [];
      }
      var id := entry.value;
      if IsMarker(id) {
        CloseChannel(MarkerTarget(id));
        return Returned, [];
      }
      if id !in channelActions {
        return Failed(IllegalState), [];
      }
      SelectAfterTryRead(v);
      var action := channelActions[id].action;
      var msg := ReadFrom(id);
      if msg.Fail? {
        return Failed(IllegalState), [];
      }
      ending, events := RunAction(action, msg.value);
    }

    /** The rest of `select()` after the origin's `tryRead()` returned `msg`
        (see `SelectReadTail`). */
    method RunAction(action: Act, msg: Option<T>) returns (ending: Ending, events: seq<Event<T>>)
      requires Valid()
      modifies this, ready, Watched()
      decreases |ready.queue|, 1
      ensures Valid() && SubMap(channelActions, old(channelActions))
      ensures Dispatch(Abs(), ending, events) == SelectReadTail(old(Abs()), action, msg)
    {
      if msg.None? {
        ending, events := Select();
      } else {
        ending, events := Returned, [];
      }
      if ending != Returned {
        return;
      }
      match action
      case Break =>
      case Continue =>
        var more, later := Select();
        ending, events := more, events + later;
      case Invoke(cb) =>
        events := events + [Called(cb, msg)];
    }

    /** One round of the `untilDone()` loop (see `UntilDoneRound`). */
    method RoundUntilDone() returns (ending: Ending, events: seq<Event<T>>)
      requires Valid()
      modifies this, ready, Watched()
      ensures Valid() && SubMap(channelActions, old(channelActions))
      ensures Dispatch(Abs(), ending, events) == UntilDoneRound(old(Abs()))
    {
      var entry := TakeReady();
      if !entry.Ok? {
        return Waiting, [];
      }
      var id := entry.value;
      if IsMarker(id) {
        CloseChannel(MarkerTarget(id));
        return Returned, [];
      }
      if id !in channelActions {
        return Failed(IllegalState), [];
      }
      var action := channelActions[id].action;
      var msg := ReadFrom(id);
      if msg.Fail? || msg.value.None? {
        return Returned, [];
      }
      match action
      case Break =>
        Close();
        return Returned, [];
      case Continue =>
        return Returned, [];
      case Invoke(cb) =>
        return Returned, [Called(cb, msg.value)];
    }

    /** `untilDone()`: rounds while the selector is active (see `UntilDoneSpec`). */
    method UntilDone() returns (ending: Ending, events: seq<Event<T>>)
      requires Valid()
      modifies this, ready, Watched()
      ensures Valid() && SubMap(channelActions, old(channelActions))
      ensures Dispatch(Abs(), ending, events) == UntilDoneSpec(old(Abs()))
    {
      if !IsActive() {
        return Failed(IllegalState), [];
      }
      events := [];
      ghost var whole := UntilDoneLoop(Abs());
      while IsActive()
        invariant Valid() && SubMap(channelActions, old(channelActions))
        invariant whole == Then(events, UntilDoneLoop(Abs()))
        decreases |ready.queue|
      {
        ghost var before := events;
        var e, evs := RoundUntilDone();
        ThenThen(before, evs, UntilDoneLoop(Abs()));
        events := events + evs;
        if e != Returned {
          return e, events;
        }
      }
      assert events + [] == events;
      ending := Returned;
    }

    /** One round of the `untilOrDefault(defaultAction)` loop (see
        `UntilOrDefaultRound`). */
    method RoundUntilOrDefault() returns (ending: Ending, events: seq<Event<T>>)
      requires Valid()
      modifies this, ready, Watched()
      ensures Valid() && SubMap(channelActions, old(channelActions))
      ensures Dispatch(Abs(), ending, events) == UntilOrDefaultRound(old(Abs()))
    {
      var entry := TryTakeReady();
      if !entry.Ok? || entry.value.None? {
        return Returned, [DefaultRan];
      }
      var id := entry.value.value;
      if IsMarker(id) {
        CloseChannel(MarkerTarget(id));
        return Returned, [];
      }
      if id !in channelActions {
        return Failed(IllegalState), [];
      }
      var action := channelActions[id].action;
      var msg := ReadFrom(id);
      if msg.Fail? {
        return Returned, [];
      }
      if msg.value.None? {
        return Returned, [DefaultRan];
      }
      match action
      case Break =>
        Close();
        return Returned, [];
      case Continue =>
        return Returned, [];
      case Invoke(cb) =>
        return Returned, [Called(cb, msg.value)];
    }

    /** `untilOrDefault(defaultAction)`, followed for at most `rounds` rounds
        (see `UntilOrDefaultSpec`). */
    method UntilOrDefault(rounds: nat) returns (ending: Ending, events: seq<Event<T>>)
      requires Valid()
      modifies this, ready, Watched()
      ensures Valid() && SubMap(channelActions, old(channelActions))
      ensures Dispatch(Abs(), ending, events) == UntilOrDefaultSpec(old(Abs()), rounds)
    {
      if !IsActive() {
        return Failed(IllegalState), [];
      }
      events := [];
      var left := rounds;
      ghost var whole := UntilOrDefaultLoop(Abs(), rounds);
      while IsActive()
        invariant Valid() && SubMap(channelActions, old(channelActions))
        invariant whole == Then(events, UntilOrDefaultLoop(Abs(), left))
        decreases left
      {
        if left == 0 {
          return Pending, events;
        }
        ghost var before := events;
        var e, evs := RoundUntilOrDefault();
        ThenThen(before, evs, UntilOrDefaultLoop(Abs(), left - 1));
        events, left := events + evs, left - 1;
        if e != Returned {
          return e, events;
        }
      }
      assert events + [] == events;
      ending := Returned;
    }
  }
}
