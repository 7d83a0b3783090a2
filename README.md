# jach channels, iterator and selector in Dafny

This project models the sequential core of jach, a Java library of Go-style
channels:

- **`Channels`** (`buffered_channel.dfy`) is the bounded FIFO channel of
  `channel/BufferedChannel.java`. It has a fixed capacity, a one-way `open`
  flag and at most 25 AfterWriteActions. The hooks run after every successful
  write and again on close. The channel also owns an iterator, which close
  marks done.
- **`Iteration`** (`channel_iterator.dfy`) is the blocking iterator of
  `internal/ChannelIterator.java`. Its only state is a `done` flag that only
  goes from false to true.
- **`LegacyChannels`** (`legacy_buffered_channel.dfy`) is the older
  `io.github.daichim.jach.BufferedChannel`. It has the same queue, but no hooks,
  no `tryWrite`/`tryRead` and no timeouts, and it throws a different error on
  a closed, drained channel.
- **`Selectors`** (`selector.dfy`) is the multiplexer of `channel/Selector.java`.
  - `of` registers one AfterWriteAction on each watched channel.
  - After that, a write pushes the channel's id into the selector's ready-queue
    (a channel of capacity 2048), and a close pushes `"__CLOSE__" + id`. When
    the ready-queue is full, the oldest entry is dropped first.
  - `select`, `untilDone` and `untilOrDefault` take entries off that queue,
    `tryRead` the channel an entry names, and apply its action: a callback,
    BREAK_ACTION or CONTINUE_ACTION.
- **`Common`** (`common.dfy`) holds the exceptions as an `Error` datatype, plus
  `Option` (None is Java's null) and `Outcome`.

Every operation is written twice:

1. as a function on an abstract state (`ChanState`, `LegacyState`, the
   iterator's `done` flag, or the selector's `View`);
2. as a method of a class whose fields the Java object updates in place.

Each method's `ensures` ties its results and the new state to that function
applied to the old state. Lemmas then state what the source promises about the
functions:

- FIFO order, the capacity bound and the 25-hook cap are kept;
- closing is one-way, and reads drain a closed channel;
- the legacy channel behaves as the new one except for one error;
- `forEachRemaining` hands out exactly the remaining values;
- close markers decode back to the channel id;
- dispatch only consumes the ready-queue and the watched channels from their
  heads, and `active` never becomes true again (callbacks are taken not to
  touch channels or selectors; see "Left out");
- `untilDone` ends exactly when the selector is inactive;
- `untilOrDefault` runs its default action exactly when nothing is ready.

A call that would make the calling thread wait stops in the model:

- an untimed call reports `WouldBlock` and leaves the state unchanged;
- a timed call reports `Fail(Timeout)`;
- a dispatch that would wait on an empty ready-queue ends `Waiting`.

The parent channel's `read()` that the iterator calls is given as a script: the
list of outcomes its successive calls produce. Callbacks are named by numbers.
Calling one is recorded as an `Event`.

Where the documentation and the code disagree, the model follows the code:

- `close()` on a channel is not a no-op the second time. Every call runs every
  hook's `close()` again, so a selector receives another close marker.
- `of` registers a single AfterWriteAction per action. That one object does
  both the write and the close handling.
- In `select()`, a close marker makes it return after forgetting the channel.
  It does not dispatch again.
- In `select()`, BREAK_ACTION returns without closing the selector. Only the
  loops close it.
- After the retry for an origin that turned out empty, `select()` does not
  return. The origin's action still runs, so a callback receives null
  (`Selectors.SelectPassesNullAfterRetry`).

## Model

| member | source | states |
|---|---|---|
| Channels.TryWriteStep | src/main/java/io/github/daichim/jach/channel/BufferedChannel.java:135-145 | a null message gives NullPointer and a closed channel ClosedChannel, both with no change and no hook run; otherwise the result is true exactly when the queue has room; on true the message is at the tail and every hook ran once, in order; on false nothing changed |
| Channels.WriteStep | src/main/java/io/github/daichim/jach/channel/BufferedChannel.java:148-171 | the same null and closed errors; success exactly when open with room, appending at the tail and running every hook; otherwise the state is unchanged, no hook runs, and a full queue waits (untimed) or times out (timed) |
| Channels.TryReadStep | src/main/java/io/github/daichim/jach/channel/BufferedChannel.java:245-250 | closed and empty throws NoSuchChannelElement; open and empty returns null with no change; otherwise the head is removed and returned |
| Channels.ReadStep | src/main/java/io/github/daichim/jach/channel/BufferedChannel.java:262-286 | closed and empty throws NoSuchChannelElement; a non-empty queue yields its head at once, closed or not; open and empty waits or times out with no change |
| Channels.CloseStep | src/main/java/io/github/daichim/jach/channel/BufferedChannel.java:305-334 | the channel is closed and its iterator done; queue, capacity and hooks are kept; every hook's close ran, in order |
| Channels.RegisterStep | src/main/java/io/github/daichim/jach/channel/BufferedChannel.java:365-371 | with 25 hooks it throws TooManySelector and changes nothing; otherwise it appends exactly the one hook |
| Channels.ForEachStep | src/main/java/io/github/daichim/jach/channel/BufferedChannel.java:417-428 | the action gets the queued messages in order and the queue is emptied; a closed channel then returns normally, an open one waits |
| Channels.ApplyKeepsInv | src/main/java/io/github/daichim/jach/channel/BufferedChannel.java:70-77 | every operation keeps the queue within capacity, the hooks within 25, and a closed channel's iterator done |
| Channels.RunKeepsInv | src/main/java/io/github/daichim/jach/channel/BufferedChannel.java:70-77 | the same for any sequence of operations |
| Channels.ApplyIsFifo | src/main/java/io/github/daichim/jach/channel/BufferedChannel.java:77 | for one operation, queue before + enqueued == delivered + queue after |
| Channels.RunIsFifo | src/main/java/io/github/daichim/jach/channel/BufferedChannel.java:77 | for any sequence of operations, queue before + enqueued == delivered + queue after: nothing is lost, duplicated or reordered |
| Channels.ClosedStaysClosed | src/main/java/io/github/daichim/jach/channel/BufferedChannel.java:305-306 | after close, no sequence of operations reopens the channel or enqueues a message |
| Channels.WriteWithRoom | src/main/java/io/github/daichim/jach/channel/BufferedChannel.java:157-160 | one untimed write into an open channel with room lands at the tail without waiting |
| Channels.WritesWithRoom | src/main/java/io/github/daichim/jach/channel/BufferedChannel.java:157-160 | writes of xs into an open channel with room for them all append exactly xs, in order |
| Channels.FillThenWait | src/main/java/io/github/daichim/jach/channel/BufferedChannel.java:157-170 | a fresh channel of capacity c takes c writes without waiting, and the next write waits |
| Channels.DrainAfterClose | src/main/java/io/github/daichim/jach/channel/BufferedChannel.java:264-273 | after close, reads return the buffered messages in FIFO order, and then NoSuchChannelElement |
| Channels.WriteAgreesWithTryWrite | src/main/java/io/github/daichim/jach/channel/BufferedChannel.java:135-160 | a write succeeds exactly when a tryWrite would, with the same new state and hooks; a full queue is false for tryWrite and waiting or a timeout for write |
| Channels.ReadAgreesWithTryRead | src/main/java/io/github/daichim/jach/channel/BufferedChannel.java:245-273 | read and tryRead leave the same state, take the same head, and throw the same error on a closed, drained channel |
| Channels.BufferedChannel.constructor | src/main/java/io/github/daichim/jach/channel/BufferedChannel.java:74-86 | a fresh channel: open, empty, no hooks, iterator not done |
| Channels.BufferedChannel.Offer | src/main/java/io/github/daichim/jach/channel/BufferedChannel.java:140 | succeeds exactly when there is room, appending at the tail; nothing else changes |
| Channels.BufferedChannel.RunAfterWriteActions | src/main/java/io/github/daichim/jach/channel/BufferedChannel.java:192-196 | runs exactly the registered hooks, in order |
| Channels.BufferedChannel.TryWrite | src/main/java/io/github/daichim/jach/channel/BufferedChannel.java:135-145 | result, new state and hooks run are those of TryWriteStep on the old state; the invariant is kept |
| Channels.BufferedChannel.BlockedWrite | src/main/java/io/github/daichim/jach/channel/BufferedChannel.java:148-171 | as WriteStep on the old state |
| Channels.BufferedChannel.Write | src/main/java/io/github/daichim/jach/channel/BufferedChannel.java:100-105 | as the untimed WriteStep; it never reports a timeout |
| Channels.BufferedChannel.WriteWithTimeout | src/main/java/io/github/daichim/jach/channel/BufferedChannel.java:120-122 | as the timed WriteStep |
| Channels.BufferedChannel.TryRead | src/main/java/io/github/daichim/jach/channel/BufferedChannel.java:245-250 | as TryReadStep on the old state |
| Channels.BufferedChannel.BlockedRead | src/main/java/io/github/daichim/jach/channel/BufferedChannel.java:262-295 | as ReadStep on the old state |
| Channels.BufferedChannel.Read | src/main/java/io/github/daichim/jach/channel/BufferedChannel.java:209-211 | as the untimed ReadStep |
| Channels.BufferedChannel.ReadWithTimeout | src/main/java/io/github/daichim/jach/channel/BufferedChannel.java:231-233 | as the timed ReadStep |
| Channels.BufferedChannel.CanWrite | src/main/java/io/github/daichim/jach/channel/BufferedChannel.java:188-190 | equals `open`, and is true exactly when a tryWrite of any message would not throw |
| Channels.BufferedChannel.CanRead | src/main/java/io/github/daichim/jach/channel/BufferedChannel.java:258-260 | open or non-empty, which is exactly when tryRead would not throw |
| Channels.BufferedChannel.IsOpen | src/main/java/io/github/daichim/jach/channel/BufferedChannel.java:342-344 | true exactly when a close would still change the channel |
| Channels.BufferedChannel.GetCapacity | src/main/java/io/github/daichim/jach/channel/BufferedChannel.java:379-381 | the capacity, at least 1 |
| Channels.BufferedChannel.GetAvailable | src/main/java/io/github/daichim/jach/channel/BufferedChannel.java:389-391 | capacity minus queue length, between 0 and the capacity |
| Channels.BufferedChannel.Close | src/main/java/io/github/daichim/jach/channel/BufferedChannel.java:305-334 | as CloseStep: closed, iterator done, queue kept, every hook's close run in order |
| Channels.BufferedChannel.RegisterAfterWriteAction | src/main/java/io/github/daichim/jach/channel/BufferedChannel.java:365-371 | as RegisterStep; queue and open flag unchanged; the hook list gains exactly h on success |
| Channels.BufferedChannel.Iterator | src/main/java/io/github/daichim/jach/channel/BufferedChannel.java:404-406 | always the channel's one iterator |
| Channels.BufferedChannel.ForEach | src/main/java/io/github/daichim/jach/channel/BufferedChannel.java:417-428 | the loop hands the action exactly what ForEachStep says, in order, and ends as it says |
| Iteration.NextStep | src/main/java/io/github/daichim/jach/internal/ChannelIterator.java:49-61 | a done iterator throws NoSuchChannelElement without a read; otherwise an empty script waits, a value at the head is returned after one read with the iterator not done, a ClosedChannel or IllegalState at the head marks the iterator done and becomes NoSuchChannelElement, a NullPointer at the head makes next() read again, and any other exception passes through unchanged after one read; NullPointer, ClosedChannel and IllegalState never come out |
| Iteration.NextReturnsRead | src/main/java/io/github/daichim/jach/internal/ChannelIterator.java:49-61 | a value returned by next() is what the parent's last read returned, and every read before it threw NullPointer |
| Iteration.ForEachRemainingStep | src/main/java/io/github/daichim/jach/internal/ChannelIterator.java:80-88 | a done iterator applies nothing and returns normally; it never reads past the script |
| Iteration.ForEachRemainingDrains | src/main/java/io/github/daichim/jach/internal/ChannelIterator.java:80-88 | a parent yielding vs and then ClosedChannel makes forEachRemaining apply exactly vs, in order, and return normally with the iterator done |
| Iteration.ForEachRemainingAfterTaking | src/test/java/io/github/daichim/jach/internal/ChannelIteratorTest.java:65-93 | on a parent yielding vs and then ClosedChannel, k next() calls return the first k values, and forEachRemaining on the reads left applies exactly the remaining vs[k..] and ends normally with the iterator done (100 values, 20 taken, 80 applied) |
| Iteration.NextTimesValues | src/main/java/io/github/daichim/jach/internal/ChannelIterator.java:49-61 | k next() calls on reads that start with the values vs return the first k of them, one read each, and leave the iterator not done |
| Iteration.ForEachRemainingRound | src/main/java/io/github/daichim/jach/internal/ChannelIterator.java:82-87 | one loop round either extends what was applied by next()'s value or ends the loop as next()'s outcome says |
| Iteration.ChannelIterator.constructor | src/main/java/io/github/daichim/jach/internal/ChannelIterator.java:21-24 | a new iterator is not done |
| Iteration.ChannelIterator.HasNext | src/main/java/io/github/daichim/jach/internal/ChannelIterator.java:34-36 | true exactly when not done |
| Iteration.ChannelIterator.Next | src/main/java/io/github/daichim/jach/internal/ChannelIterator.java:49-61 | outcome, reads used and new `done` are those of NextStep |
| Iteration.ChannelIterator.Remove | src/main/java/io/github/daichim/jach/internal/ChannelIterator.java:70-72 | always UnsupportedOperation |
| Iteration.ChannelIterator.ForEachRemaining | src/main/java/io/github/daichim/jach/internal/ChannelIterator.java:80-88 | the while loop applies, ends and reads as ForEachRemainingStep says |
| Iteration.ChannelIterator.MarkDone | src/main/java/io/github/daichim/jach/internal/ChannelIterator.java:93-95 | afterwards the iterator is done |
| LegacyChannels.WriteStep | src/main/java/io/github/daichim/jach/BufferedChannel.java:80-105 | null gives NullPointer and a closed channel ClosedChannel, unchanged; success exactly when open with room, appending at the tail; a full queue waits unchanged |
| LegacyChannels.ReadStep | src/main/java/io/github/daichim/jach/BufferedChannel.java:118-142 | closed and empty throws ClosedChannel; otherwise the head is taken at once; open and empty waits |
| LegacyChannels.CloseStep | src/main/java/io/github/daichim/jach/BufferedChannel.java:152-173 | closed, iterator done, queue and capacity kept |
| LegacyChannels.ForEachStep | src/main/java/io/github/daichim/jach/BufferedChannel.java:229-243 | the action gets the queued messages in order; closed: returns normally, open: waits |
| LegacyChannels.LegacyRefinesChannel | src/main/java/io/github/daichim/jach/BufferedChannel.java:118-121 | the legacy channel is the new one with no hooks: same invariant, writes, reads, close and forEach, except that a read of a closed, drained channel throws ClosedChannel instead of NoSuchChannelElement |
| LegacyChannels.DrainAfterClose | src/main/java/io/github/daichim/jach/BufferedChannel.java:119-125 | after close, reads return the buffered messages in order, and then ClosedChannel |
| LegacyChannels.IteratingAfterClose | src/main/java/io/github/daichim/jach/BufferedChannel.java:152-218 | the channel owns one iterator and close() marks it done, so after close its forEachRemaining applies nothing and its next() throws NoSuchChannelElement without reading, whatever the reads would return; forEach on the same closed channel still drains the buffered messages and returns normally |
| LegacyChannels.LegacyBufferedChannel.constructor | src/main/java/io/github/daichim/jach/BufferedChannel.java:59-66 | open, empty, iterator not done |
| LegacyChannels.LegacyBufferedChannel.Write | src/main/java/io/github/daichim/jach/BufferedChannel.java:80-105 | as WriteStep on the old state |
| LegacyChannels.LegacyBufferedChannel.Read | src/main/java/io/github/daichim/jach/BufferedChannel.java:118-142 | as ReadStep on the old state |
| LegacyChannels.LegacyBufferedChannel.Close | src/main/java/io/github/daichim/jach/BufferedChannel.java:152-173 | as CloseStep |
| LegacyChannels.LegacyBufferedChannel.IsClosed | src/main/java/io/github/daichim/jach/BufferedChannel.java:181-183 | true exactly when close would change nothing |
| LegacyChannels.LegacyBufferedChannel.GetCapacity | src/main/java/io/github/daichim/jach/BufferedChannel.java:191-193 | the capacity, at least 1 |
| LegacyChannels.LegacyBufferedChannel.GetAvailable | src/main/java/io/github/daichim/jach/BufferedChannel.java:201-203 | capacity minus queue length, between 0 and the capacity |
| LegacyChannels.LegacyBufferedChannel.Iterator | src/main/java/io/github/daichim/jach/BufferedChannel.java:216-218 | always the channel's one iterator |
| LegacyChannels.LegacyBufferedChannel.ForEach | src/main/java/io/github/daichim/jach/BufferedChannel.java:229-243 | the loop, which runs until the channel is closed and empty, hands the action what ForEachStep says, in order, and ends as it says |
| Selectors.Push | src/main/java/io/github/daichim/jach/channel/Selector.java:117-127 | the ready-queue stays within 2048 entries, grows by one when not full, and ends with the new entry |
| Selectors.PushKeepsNewest | src/main/java/io/github/daichim/jach/channel/Selector.java:119-127 | a push keeps the newest entries: the result is the old queue plus the new entry, minus the oldest entry when the queue was full |
| Selectors.MarkerRoundTrip | src/main/java/io/github/daichim/jach/channel/Selector.java:164-165 | a channel id is never taken for a close marker, its marker always is, and `replace` recovers the id from it |
| Selectors.MarkerOfUnsafeId | src/main/java/io/github/daichim/jach/channel/Selector.java:164-165 | for any string holding "__CLOSE__", decoding its close marker gives a strictly shorter string, so never the string itself: the decoding depends on ids not containing the prefix |
| Selectors.ReplaceDropsOccurrence | src/main/java/io/github/daichim/jach/channel/Selector.java:164-165 | removing every occurrence of a pattern from a string that holds one makes it strictly shorter |
| Selectors.ReplaceAllSkipsIds | src/main/java/io/github/daichim/jach/channel/Selector.java:165 | `replace` of the prefix leaves a channel id unchanged |
| Selectors.CloseChannelSpec | src/main/java/io/github/daichim/jach/channel/Selector.java:291-297 | only the id is forgotten; the ready-queue is kept; the selector stays active exactly when it was active and some channel is left |
| Selectors.SelectSpec | src/main/java/io/github/daichim/jach/channel/Selector.java:158-192 | an inactive selector throws IllegalState and changes nothing; every error is IllegalState; the ready-queue never grows |
| Selectors.SelectAfterTryRead | src/main/java/io/github/daichim/jach/channel/Selector.java:174-185 | once the origin is read, select() throws or goes on with the retry and the action |
| Selectors.UntilDoneRound | src/main/java/io/github/daichim/jach/channel/Selector.java:209-234 | a round that goes on consumes a ready entry; one that waits changes nothing on an empty queue; errors are IllegalState |
| Selectors.UntilDoneSpec | src/main/java/io/github/daichim/jach/channel/Selector.java:201-205 | an inactive selector throws IllegalState and changes nothing |
| Selectors.UntilOrDefaultRound | src/main/java/io/github/daichim/jach/channel/Selector.java:257-287 | an empty ready-queue runs the default action and changes nothing; a round never waits; a round that goes on consumes an entry |
| Selectors.UntilOrDefaultSpec | src/main/java/io/github/daichim/jach/channel/Selector.java:251-253 | an inactive selector throws IllegalState and changes nothing |
| Selectors.TakingOneEvolves | src/main/java/io/github/daichim/jach/channel/Selector.java:163-174 | taking an entry, then reading its origin or forgetting a channel, only consumes heads and forgets channels |
| Selectors.SelectEvolves | src/main/java/io/github/daichim/jach/channel/Selector.java:158-192 | select() only consumes the ready-queue and watched channels from their heads, forgets channels without adding or re-assigning any, and never reactivates |
| Selectors.SelectEvolvesAfterRead | src/main/java/io/github/daichim/jach/channel/Selector.java:174-185 | the same once the origin has been read |
| Selectors.SelectInvokesWithHead | src/main/java/io/github/daichim/jach/channel/Selector.java:174-184 | for a callback whose channel holds a message, select() returns after passing exactly that channel's head to the callback; the new selector is the old one with the entry dequeued and that head removed from that channel, every other channel, the action map and `active` unchanged |
| Selectors.SelectBreakKeepsActive | src/main/java/io/github/daichim/jach/channel/Selector.java:179-180 | BREAK_ACTION in select() returns without invoking anything and leaves the selector active |
| Selectors.SelectCloseMarker | src/main/java/io/github/daichim/jach/channel/Selector.java:164-166 | a close marker at the head makes select() forget that channel and return |
| Selectors.SelectPassesNullAfterRetry | src/main/java/io/github/daichim/jach/channel/Selector.java:175-184 | when the origin turns out empty, select() dispatches the next entry and then still calls the first callback, with null |
| Selectors.UntilDoneLoopEnds | src/main/java/io/github/daichim/jach/channel/Selector.java:207-235 | untilDone returns exactly when the selector has become inactive; it waits only when active with an empty ready-queue; no callback gets null; it only changes the selector as select() may |
| Selectors.UntilDoneRoundEnds | src/main/java/io/github/daichim/jach/channel/Selector.java:209-234 | one round passes no null, changes the selector only as select() may, and leaves it active unless it returns |
| Selectors.UntilDoneRoundEvolves | src/main/java/io/github/daichim/jach/channel/Selector.java:209-234 | one untilDone round changes the selector only as select() may: it consumes ready entries and channel heads from the front and forgets channels |
| Selectors.UntilDoneRoundCalls | src/main/java/io/github/daichim/jach/channel/Selector.java:219-229 | a round invokes something exactly when the head names a callback whose channel holds a message, and then exactly that callback with that channel's head; BREAK_ACTION, CONTINUE_ACTION, markers and empty channels invoke nothing |
| Selectors.UntilDoneBreakCloses | src/main/java/io/github/daichim/jach/channel/Selector.java:222-224 | BREAK_ACTION with a message closes the selector and untilDone returns after that round |
| Selectors.UntilOrDefaultRoundIsUntilDoneRound | src/main/java/io/github/daichim/jach/channel/Selector.java:257-282 | the default action runs exactly when the ready-queue is empty or the origin's tryRead returns null; otherwise the round is the untilDone round |
| Selectors.UntilOrDefaultLoopEnds | src/main/java/io/github/daichim/jach/channel/Selector.java:255-288 | untilOrDefault returns only once the selector is inactive, is still active when cut off, and never waits |
| Selectors.UntilOrDefaultRoundEvolves | src/main/java/io/github/daichim/jach/channel/Selector.java:257-287 | one round changes the selector only as select() may |
| Selectors.UntilOrDefaultLoopEvolves | src/main/java/io/github/daichim/jach/channel/Selector.java:255-288 | the loop changes the selector only as select() may; it never reactivates |
| Selectors.ActionMapFiles | src/main/java/io/github/daichim/jach/channel/Selector.java:107 | every action's channel id is in the map, and every entry is one of the actions, filed under its own channel's id |
| Selectors.ActionMapLastWins | src/main/java/io/github/daichim/jach/channel/Selector.java:107 | for a channel listed more than once, the last action is the one kept |
| Selectors.ExpectedExtends | src/main/java/io/github/daichim/jach/channel/Selector.java:103-109 | registering once per action adds, for each channel, one copy of the hook per action on it at the end of its list, and nothing else |
| Selectors.StopCause | src/main/java/io/github/daichim/jach/channel/Selector.java:103-109 | the loop stops at a closed channel only when not all channels are open, and at a full channel only when that channel lacked room for one hook per action on it |
| Selectors.CountPrefix | src/main/java/io/github/daichim/jach/channel/Selector.java:103-109 | the actions on a channel before a given one, plus that one if it is on the channel, are among all the actions on it |
| Selectors.PushInto | src/main/java/io/github/daichim/jach/channel/Selector.java:119-127 | tryWrite, and on failure tryRead then tryWrite, leave the ready-queue as Push says and change nothing else |
| Selectors.Selector.constructor | src/main/java/io/github/daichim/jach/channel/Selector.java:82-86 | active, with a fresh empty ready-queue of capacity 2048 and the given action map |
| Selectors.Selector.Of | src/main/java/io/github/daichim/jach/channel/Selector.java:96-111 | it returns a selector exactly when every channel is open and has room for one more hook per action on it; the selector is fresh and active, with an empty ready-queue and the action map, and each channel has gained one hook per action on it; a closed channel makes it fail with IllegalState, and IllegalState only comes from one; the only other failure is TooManySelector, which means some channel lacked room for its hooks; queues and open flags are untouched and hooks are only appended |
| Selectors.Selector.RegisterHooks | src/main/java/io/github/daichim/jach/channel/Selector.java:103-109 | the registration loop succeeds exactly when every channel is open and has room for one hook per action on it, and then each channel has gained those hooks; it stops with IllegalState only at a closed channel and with TooManySelector only when some channel lacked room; queues and open flags are untouched |
| Selectors.Selector.Build | src/main/java/io/github/daichim/jach/channel/Selector.java:99-107 | a fresh, valid, active selector with an empty ready-queue and the action map of the actions |
| Selectors.Selector.RegisterAll | src/main/java/io/github/daichim/jach/channel/Selector.java:103-109 | the loop over the actions succeeds exactly when all their channels are open and have room for all their hooks; every action before the stop had an open channel and got its hook; IllegalState means the stopping channel is closed; TooManySelector means the stopping channel had too little room for its actions |
| Selectors.Selector.RegisterOne | src/main/java/io/github/daichim/jach/channel/Selector.java:104-108 | an open channel with fewer than 25 hooks takes the hook; a closed channel gives IllegalState and a channel with 25 hooks TooManySelector, each with nothing registered; on success that channel's list gains exactly h; no other channel changes |
| Selectors.Selector.PushReady | src/main/java/io/github/daichim/jach/channel/Selector.java:119-127 | the ready-queue becomes Push of the entry; the watched channels and `active` are unchanged |
| Selectors.Selector.OnWrite | src/main/java/io/github/daichim/jach/channel/Selector.java:117-128 | the write hook pushes the channel's id, dropping the oldest entry when full |
| Selectors.Selector.OnClose | src/main/java/io/github/daichim/jach/channel/Selector.java:131-143 | the close hook pushes the channel's close marker, dropping the oldest entry when full |
| Selectors.Selector.IsActive | src/main/java/io/github/daichim/jach/channel/Selector.java:78-79 | the `active` flag; when false, select() throws IllegalState |
| Selectors.Selector.Close | src/main/java/io/github/daichim/jach/channel/Selector.java:303-305 | the selector becomes inactive and nothing else changes |
| Selectors.Selector.CloseChannel | src/main/java/io/github/daichim/jach/channel/Selector.java:291-297 | the view after it is CloseChannelSpec of the old one |
| Selectors.Selector.TakeReady | src/main/java/io/github/daichim/jach/channel/Selector.java:163 | the ready-queue's head is taken off, or the call waits on an empty queue with nothing changed |
| Selectors.Selector.TryTakeReady | src/main/java/io/github/daichim/jach/channel/Selector.java:257 | the ready-queue's head, or null on an empty queue with nothing changed |
| Selectors.Selector.ReadFrom | src/main/java/io/github/daichim/jach/channel/Selector.java:174 | tryRead on the channel filed under the id; only that channel changes |
| Selectors.Selector.Select | src/main/java/io/github/daichim/jach/channel/Selector.java:158-192 | the selector after it, how it ends and the callbacks it made are those of SelectSpec; entries are only removed from the action map |
| Selectors.Selector.RunAction | src/main/java/io/github/daichim/jach/channel/Selector.java:175-185 | the retry and the action, as SelectReadTail says |
| Selectors.Selector.RoundUntilDone | src/main/java/io/github/daichim/jach/channel/Selector.java:209-234 | one loop body of untilDone, as UntilDoneRound says |
| Selectors.Selector.UntilDone | src/main/java/io/github/daichim/jach/channel/Selector.java:201-236 | the while loop does what UntilDoneSpec says |
| Selectors.Selector.RoundUntilOrDefault | src/main/java/io/github/daichim/jach/channel/Selector.java:257-287 | one loop body of untilOrDefault, as UntilOrDefaultRound says |
| Selectors.Selector.UntilOrDefault | src/main/java/io/github/daichim/jach/channel/Selector.java:249-289 | the while loop, followed for at most `rounds` rounds, does what UntilOrDefaultSpec says |

## Left out

- Blocking, timeouts and interrupts are left out: `put`, `take`, `offer` and
  `poll` with a timeout, the blocked-reader and blocked-writer maps, and the
  `interrupt()` loops in `close()`. A call that would wait ends with
  `WouldBlock`, `Fail(Timeout)` or `Waiting`, and the state is unchanged. What
  happens once another thread wakes it is not modelled.
- Concurrency is left out: every operation is one atomic step. Races between
  concurrent `select()` callers show up only as the sequential empty-origin
  branch.
- Null channels, actions and callbacks are left out, because they cannot be
  written in the model. A null message is `Option.None`, and a null ready
  entry is an id missing from the action map.
- Exceptions thrown by callbacks, the default action or hooks are left out.
  Hooks are names (`HookId`), and the selector's own hooks are the methods
  `OnWrite` and `OnClose`.
- Logging is left out. So are `getId`, `getDataType` and the channel's `Class`
  token.
- Copy strategies are left out: stored values are the written values.
- Selectors.SelectSpec, Selectors.SelectEvolves, Selectors.UntilDoneLoopEnds and
  the other `Evolves` lemmas assume that callbacks, the default action and
  other hooks do not write to, read from or close any watched channel or
  selector. In Java they run on the caller's thread and could: a write from a
  callback reaches `OnWrite` and grows the ready-queue, and a close can end the
  selector in the middle of `select()`. The model records a call as an `Event`
  with no effect, so "the ready-queue never grows", "dispatch only consumes"
  and "never reactivates" hold only for such callbacks.
- Channels.BufferedChannel.constructor and
  LegacyChannels.LegacyBufferedChannel.constructor require a capacity of at
  least 1. The IllegalArgumentException that `ArrayBlockingQueue` throws for a
  smaller capacity is not modelled, because a Dafny constructor cannot fail.
- Selectors.Selector.UntilOrDefault: takes a `rounds` bound, and ends `Pending`
  once the bound is used up, because the Java loop need not terminate.
- Selectors.Selector.Of: the action map is built by `ActionMap` once the hooks
  are registered, not entry by entry inside the loop. When `of` throws, that map
  and the half-built selector are not observable.
- Selectors.Selector.Of: the ready-queue's random UUID is a parameter.
  `Common.ChannelId` limits channel ids to UUID characters, so that an id is
  never taken for a close marker.
- Iteration.ChannelIterator.Next: the parent channel's `read()` is a script of
  outcomes rather than a call into the channel object. An exhausted script
  stands for a read that waits.
- Channels.BufferedChannel.ForEach: only the drain is modelled. The loop guard
  means `read()` never throws inside it in a sequential run, so the missing
  NoSuchChannelElementException in its `catch` never shows.
- `UnbufferedChannel` (a capacity-1 channel), Timer, Ticker, the factories and
  the duplicate or stub classes are not part of this model.
