# BufferedOne2OneChannel, modelled in Dafny

JCSP's `BufferedOne2OneChannel` is a one-to-one channel: one writing process,
one reading process, and a pluggable buffering strategy (`ChannelDataStore`)
that holds the values in transit and reports EMPTY, NONEMPTY or FULL. The
reading process may also select on the channel with an `Alternative`.
`enable` registers that alternative in the channel's single `alt` slot,
`disable` clears it, and a `write` that finds an alternative registered wakes
it with `alt.schedule()` instead of `rwMonitor.notify()`.

Every public method runs inside `synchronized (rwMonitor)`, so the channel is
a sequential state machine whose state is the store's contents plus the `alt`
slot. The model has four modules:

- `DataStore` (`data_store.dfy`): the three store states and the store as a
  FIFO class `FifoStore` with `Put`, `Get`, `GetState` and `Clone`. Its
  capacity is a bound of at least one, or unbounded. A bound of 1 gives the
  states of the zero-buffer store: EMPTY or FULL, never NONEMPTY.
- `ChannelModel` (`channel_model.dfy`): the channel's state as a value `Chan`,
  with one step function per monitor-atomic step, plus traces of steps (`Run`).
  A blocking `read` or `write` is split at its `rwMonitor.wait()`:
  - `ReadBegin` and `WriteBegin` run up to the first wait.
  - `ReadResume` and `WriteResume` model one return from the wait, followed
    by the re-check of the store's state.
  - The `interrupted` argument is the `InterruptedException`.

  `notify` and `schedule` are recorded in a log of `Signal`s. Ghost records
  of every value put (`sent`) and read (`received`) support the FIFO proofs.
- `ChannelProperties` (`channel_properties.dfy`): the lemmas.
- `BufferedChannel` (`buffered_channel.dfy`): the class
  `BufferedOne2OneChannel`, with the fields `data` and `alt`, the signal log,
  and where the reader and the writer are. Its methods change those fields
  step by step. Each method's postcondition says that the new state and the
  outcome are those of the matching step function.

What is proved:
- Reads deliver exactly the written values, in write order, with nothing lost
  or duplicated, across any interleaving of steps.
- `read` never calls `get` on an EMPTY store.
- A write waits exactly when it leaves the store FULL, and it sends exactly
  one signal of the right kind.
- An interruption changes nothing in the store.
- `enable`, `disable` and `pending` report the same readiness.
- No wakeup is lost between `enable` and `disable`: every write in between
  schedules the registered alternative, and `disable` then reports the
  channel ready.

## Model

| member | source | states |
|---|---|---|
| `DataStore.StateMeaning` | src/org/jcsp/lang/BufferedOne2OneChannel.java:89 | EMPTY means no values, FULL means exactly at the bound, and an unbounded store is never FULL |
| `DataStore.PutKeepsFit` | src/org/jcsp/lang/BufferedOne2OneChannel.java:117 | a put into a store that is not FULL stays within capacity and leaves the store non-EMPTY |
| `DataStore.GetFreesSlot` | src/org/jcsp/lang/BufferedOne2OneChannel.java:106 | a get from a non-EMPTY store stays within capacity and leaves the store not FULL |
| `DataStore.FifoStore.Put` | src/org/jcsp/lang/BufferedOne2OneChannel.java:117 | `data.put(value)` appends the value, called only when the store is not FULL |
| `DataStore.FifoStore.Get` | src/org/jcsp/lang/BufferedOne2OneChannel.java:106 | `data.get()` removes and returns the oldest value, called only when the store is not EMPTY |
| `DataStore.FifoStore.GetState` | src/org/jcsp/lang/BufferedOne2OneChannel.java:89 | `data.getState()` reports EMPTY exactly for no values and FULL exactly at the bound, and changes nothing |
| `DataStore.FifoStore.Clone` | src/org/jcsp/lang/BufferedOne2OneChannel.java:79 | `data.clone()` is a new object with the same capacity and contents |
| `BufferedChannel.BufferedOne2OneChannel.Create` | src/org/jcsp/lang/BufferedOne2OneChannel.java:74-80 | a null store gives IllegalArgument, and only a null store does; otherwise a new channel over a new store with the template's capacity and contents, no alternative, no signals |
| `BufferedChannel.BufferedOne2OneChannel.constructor` | src/org/jcsp/lang/BufferedOne2OneChannel.java:79 | the channel's store is a fresh clone of the template, so it never aliases the caller's store |
| `BufferedChannel.RunChannel` | src/org/jcsp/lang/BufferedOne2OneChannel.java:74-217 | builds a channel from any template, whatever it holds, and drives it through any allowed run of steps by calling the class's methods. The caller's store stays as it was throughout, which fails if the channel shares it. The channel ends in the state `Run` gives, so values read then values buffered are the template's contents then the values written |
| `BufferedChannel.BufferedOne2OneChannel.Read` | src/org/jcsp/lang/BufferedOne2OneChannel.java:87-106 | `read` up to its first wait: suspend on an EMPTY store, otherwise notify and take the oldest value (the step function `ReadBegin`), keeping the FIFO invariant |
| `BufferedChannel.BufferedOne2OneChannel.ResumeRead` | src/org/jcsp/lang/BufferedOne2OneChannel.java:91-106 | one return from the read's wait: raise if interrupted, stay suspended while EMPTY, otherwise notify and take (`ReadResume`) |
| `BufferedChannel.BufferedOne2OneChannel.TakeValue` | src/org/jcsp/lang/BufferedOne2OneChannel.java:105-106 | the common tail of read: one notify, then `data.get()` (`TakeOldest`) |
| `BufferedChannel.BufferedOne2OneChannel.Write` | src/org/jcsp/lang/BufferedOne2OneChannel.java:115-125 | `write` up to its first wait: put, schedule the registered alternative or else notify, and suspend if the store is now FULL (`WriteBegin`) |
| `BufferedChannel.BufferedOne2OneChannel.ResumeWrite` | src/org/jcsp/lang/BufferedOne2OneChannel.java:125-137 | one return from the write's wait: raise if interrupted, stay suspended while FULL, otherwise return (`WriteResume`) |
| `BufferedChannel.BufferedOne2OneChannel.Enable` | src/org/jcsp/lang/BufferedOne2OneChannel.java:151-161 | `enable(alt)` as the step function `Enable`, keeping the invariant |
| `BufferedChannel.BufferedOne2OneChannel.Disable` | src/org/jcsp/lang/BufferedOne2OneChannel.java:171-176 | `disable()` as the step function `Disable`, keeping the invariant |
| `BufferedChannel.BufferedOne2OneChannel.Pending` | src/org/jcsp/lang/BufferedOne2OneChannel.java:213-217 | `pending()` is true exactly when the store holds a value, and changes nothing |
| `ChannelProperties.ReadBeginOutcome` | src/org/jcsp/lang/BufferedOne2OneChannel.java:88-106 | read suspends exactly when the store is EMPTY, and then changes nothing else. Otherwise it sends one notify, removes exactly the oldest value and returns it (the next value in write order), leaving the store not FULL |
| `ChannelProperties.ReadResumeOutcome` | src/org/jcsp/lang/BufferedOne2OneChannel.java:91-106 | an interruption raises before any get and leaves store, slot and signals unchanged. A wakeup on a still-EMPTY store changes nothing and waits again. Otherwise the read completes with the oldest value, leaving the store not FULL |
| `ChannelProperties.WriteBeginOutcome` | src/org/jcsp/lang/BufferedOne2OneChannel.java:115-125 | write appends v and sends exactly one signal: `schedule` on the registered alternative if there is one, else `notify`. It leaves the slot unchanged and completes at once exactly when the store is not FULL afterwards. A completed write leaves room for the next one |
| `ChannelProperties.WriteResumeOutcome` | src/org/jcsp/lang/BufferedOne2OneChannel.java:125-137 | an interruption raises and changes nothing else. Otherwise the write returns exactly when the store is no longer FULL, and a wakeup on a still-FULL store changes nothing and waits again |
| `ChannelProperties.UnboundedWriteNeverWaits` | src/org/jcsp/lang/BufferedOne2OneChannel.java:123 | over an unbounded store a write never waits |
| `ChannelProperties.EnableOutcome` | src/org/jcsp/lang/BufferedOne2OneChannel.java:151-161 | enable returns true exactly when the store holds a value, and then changes nothing. Otherwise it registers the alternative and changes nothing else |
| `ChannelProperties.DisableOutcome` | src/org/jcsp/lang/BufferedOne2OneChannel.java:171-176 | disable always leaves the slot null, changes nothing else, and returns exactly "store not EMPTY" |
| `ChannelProperties.ReadinessAgrees` | src/org/jcsp/lang/BufferedOne2OneChannel.java:213-217 | pending, enable and disable report the same readiness: the store holds a value |
| `ChannelProperties.EnableThenDisable` | src/org/jcsp/lang/BufferedOne2OneChannel.java:151-176 | enable followed at once by disable restores the slot to null, leaves everything else unchanged, and both report the same |
| `ChannelProperties.StepKeepsInv` | src/org/jcsp/lang/BufferedOne2OneChannel.java:87-217 | every step keeps the store within capacity and keeps "values read, then values buffered, is every value put" |
| `ChannelProperties.StepRecordsWrite` | src/org/jcsp/lang/BufferedOne2OneChannel.java:117 | only a write step adds a value to the record of values put, and it adds exactly its own |
| `ChannelProperties.RunKeepsInv` | src/org/jcsp/lang/BufferedOne2OneChannel.java:87-217 | every run of steps keeps the invariant |
| `ChannelProperties.RunRecordsWrites` | src/org/jcsp/lang/BufferedOne2OneChannel.java:115-117 | a run puts exactly the values its write steps carry, in order, and never changes the capacity |
| `ChannelProperties.DeliveredInWriteOrder` | src/org/jcsp/lang/BufferedOne2OneChannel.java:87-140 | on a new channel, after any interleaving of steps, the values read so far followed by those still buffered are the initial contents followed by the values written. So reads deliver, in write order, a prefix of what was written |
| `ChannelProperties.WriterOnlyTail` | src/org/jcsp/lang/BufferedOne2OneChannel.java:115-140 | dropping the first step of a run of writer steps leaves a run of writer steps |
| `ChannelProperties.WritesWhileRegistered` | src/org/jcsp/lang/BufferedOne2OneChannel.java:117-122 | while an alternative is registered, each write schedules that alternative (never a plain notify), exactly once per write. The writer's steps never change the slot or remove a value |
| `ChannelProperties.NoLostWakeup` | src/org/jcsp/lang/BufferedOne2OneChannel.java:117-176 | after enable on an EMPTY channel returns false, every write before disable schedules the registered alternative. disable then clears the slot and returns true exactly when some write came in between |
| `ChannelProperties.WritesComplete` | src/org/jcsp/lang/BufferedOne2OneChannel.java:117-123 | writes into a store with room for all of them and one more all complete without waiting, appending their values in order |
| `ChannelProperties.LastSlotBlocks` | src/org/jcsp/lang/BufferedOne2OneChannel.java:123-131 | a write into the last free slot leaves the store FULL and waits. Wakeups without a read keep it waiting. After a read, its next wakeup completes it |
| `ChannelProperties.FillThenBlock` | src/org/jcsp/lang/BufferedOne2OneChannel.java:117-131 | on a new channel over an EMPTY store of capacity n, the first n - 1 writes complete and leave exactly the last slot free |
| `ChannelProperties.StepKeepsWriterMayPut` | src/org/jcsp/lang/BufferedOne2OneChannel.java:87-217 | every step except an interrupted write keeps "a writer outside write never faces a FULL store" |
| `ChannelProperties.NoWriteInterruptTail` | src/org/jcsp/lang/BufferedOne2OneChannel.java:133-136 | dropping the first step of a run without interrupted writes leaves a run without interrupted writes |
| `ChannelProperties.RunKeepsWriterMayPut` | src/org/jcsp/lang/BufferedOne2OneChannel.java:87-217 | every run without an interrupted write keeps "a writer outside write never faces a FULL store" |
| `ChannelProperties.WriterNeverFindsFull` | src/org/jcsp/lang/BufferedOne2OneChannel.java:117-131 | on a new channel over a store that is not FULL, after any run without an interrupted write, a writer outside write may start a write with any value. So `data.put` at line 117 never meets a FULL store |

## Left out

- Real suspension and wakeup (`rwMonitor.wait()` and `notify()`) and thread
  interleaving. A suspended process is a `Waiting` phase. `ResumeRead` and
  `ResumeWrite` may be taken at any time, which covers notifies, schedules
  and spurious wakeups alike. The proved properties therefore hold for more
  behaviours than the JVM allows. The model does not say which waiting thread
  a `notify` wakes.
- `Spurious.logging` and `SpuriousLog.record`: diagnostic logging with no
  effect on the channel.
- The `Alternative` class: only its identity is modelled. `alt.schedule()` is
  recorded as a `Schedule` signal; what the alternative does with it is not
  part of this model. The `alt` field is declared in `One2OneChannelImpl`,
  which is not part of this model; the null it starts with is assumed.
- The concrete `ChannelDataStore` classes are not part of this model. The
  store is a FIFO with a positive bound or no bound. Overwriting stores, whose
  `put` on a full store evicts a value, are left out.
- `DataStore.FifoStore.Clone`: copies capacity and contents, as a deep copy
  would. JCSP's store classes document `clone` as returning a new EMPTY store
  with the same parameters. The two agree on the empty template a channel is
  normally given.
- `BufferedChannel.BufferedOne2OneChannel.Write`: requires the store not
  FULL, because `data.put` must not be called on a FULL bounded store.
  `WriterNeverFindsFull` proves this always holds when write is called,
  provided the channel was built from a store that was not FULL and no write
  was interrupted. Two cases fall outside that. A channel built from a FULL
  template cannot accept a first write: the model's `Clone` copies the
  contents. A write after an interrupted write may find the store FULL, but
  `ProcessInterruptedException` ends the writing process, so that write does
  not happen.
- `enable` while another alternative is registered: the code just overwrites
  the slot. It does not reject the call or report a protocol error, and the
  model follows the code.
- Filling a bounded store of capacity C: after its put, the code makes the
  C-th write itself wait, because the store is then FULL (`LastSlotBlocks`).
  A looser description would say the (C+1)-th write blocks. The model follows
  the code.
- `src/org/jcsp/lang/Channel.java`: static factory methods that only
  delegate to a factory that is not part of this model.
- `src/org/jcsp/demos/missionControl/MissionControl.java`: a GUI demo.
