/**
 * The state of a buffered one-to-one channel as a value, and each of its
 * operations as one atomic step on that value.
 *
 * In the program every public method of the channel runs inside
 * synchronized (rwMonitor), so the channel moves from one such value to the
 * next one step at a time.  A blocked read or write is split at its
 * rwMonitor.wait(): the first step runs up to the wait, and every later step
 * is one return from the wait (a notify, a schedule, a spurious wakeup or an
 * interruption) followed by the re-check of the store's state.
 */
module ChannelModel {
  import opened DataStore

  datatype Option<T> = None | Some(value: T)

  /** The identity of a selecting process (JCSP's Alternative); its selection logic is elsewhere. */
  class Alternative {
    constructor () {}
  }

  /** The wakeup a write or read sends: alt.schedule() or rwMonitor.notify(). */
  datatype Signal = Notify | Schedule(alt: Alternative)

  /** Whether a channel end's single process is outside the monitor's wait or suspended in it. */
  datatype Phase = Outside | Waiting

  /** How one step of read ends: still suspended, returned a value, or raised ProcessInterruptedException. */
  datatype ReadStep<T> = ReadBlocked | Delivered(value: T) | ReadInterrupted

  /** How one step of write ends: still suspended, returned, or raised ProcessInterruptedException. */
  datatype WriteStep = WriteBlocked | WriteDone | WriteInterrupted

  /**
   * The channel: the store's contents and capacity, the pending-alternative
   * slot, the log of signals sent, where the reader and the writer are, and
   * (for the proofs only) every value ever put and every value ever read.
   */
  datatype Chan<T> = Chan(
    items: seq<T>,
    cap: Capacity,
    alt: Alternative?,
    signals: seq<Signal>,
    reader: Phase,
    writer: Phase,
    sent: seq<T>,
    received: seq<T>)

  /** What every reachable channel satisfies: the store fits, and nothing is lost or reordered. */
  ghost predicate Inv<T>(c: Chan<T>)
  {
    Fits(c.items, c.cap) && c.sent == c.received + c.items
  }

  /** The channel right after construction around a store holding items. */
  function Initial<T>(items: seq<T>, cap: Capacity): Chan<T>
  {
    Chan(items, cap, null, [], Outside, Outside, items, [])
  }

  function State<T>(c: Chan<T>): BufferState
  {
    StateOf(c.items, c.cap)
  }

  /** The tail of read once the store is non-EMPTY: notify, then get. */
  function TakeOldest<T>(c: Chan<T>): (Chan<T>, ReadStep<T>)
    requires c.items != []
  {
    (c.(items := c.items[1..],
        signals := c.signals + [Notify],
        reader := Outside,
        received := c.received + [c.items[0]]),
     Delivered(c.items[0]))
  }

  /** read, up to its first wait. */
  function ReadBegin<T>(c: Chan<T>): (Chan<T>, ReadStep<T>)
    requires c.reader == Outside
  {
    if State(c) == Empty then (c.(reader := Waiting), ReadBlocked)
    else TakeOldest(c)
  }

  /** read, one return from rwMonitor.wait() and the re-check that follows. */
  function ReadResume<T>(c: Chan<T>, interrupted: bool): (Chan<T>, ReadStep<T>)
    requires c.reader == Waiting
  {
    if interrupted then (c.(reader := Outside), ReadInterrupted)
    else if State(c) == Empty then (c, ReadBlocked)
    else TakeOldest(c)
  }

  /** The signal a write sends: schedule the pending alternative if there is one, else notify. */
  function WriteSignal<T>(c: Chan<T>): Signal
  {
    if c.alt != null then Schedule(c.alt) else Notify
  }

  /** write, up to its first wait: put, signal, then wait only if the store is now FULL. */
  function WriteBegin<T>(c: Chan<T>, v: T): (Chan<T>, WriteStep)
    requires c.writer == Outside && State(c) != Full
  {
    var d := c.(items := c.items + [v], sent := c.sent + [v], signals := c.signals + [WriteSignal(c)]);
    if State(d) == Full then (d.(writer := Waiting), WriteBlocked) else (d, WriteDone)
  }

  /** write, one return from rwMonitor.wait() and the re-check that follows. */
  function WriteResume<T>(c: Chan<T>, interrupted: bool): (Chan<T>, WriteStep)
    requires c.writer == Waiting
  {
    if interrupted then (c.(writer := Outside), WriteInterrupted)
    else if State(c) == Full then (c, WriteBlocked)
    else (c.(writer := Outside), WriteDone)
  }

  /** enable(alt): register alt on an EMPTY store, else report ready. */
  function Enable<T>(c: Chan<T>, a: Alternative): (Chan<T>, bool)
  {
    if State(c) == Empty then (c.(alt := a), false) else (c, true)
  }

  /** disable(): clear the slot and report whether data is ready. */
  function Disable<T>(c: Chan<T>): (Chan<T>, bool)
  {
    (c.(alt := null), State(c) != Empty)
  }

  /** pending(): whether data is ready. */
  function Pending<T>(c: Chan<T>): bool
  {
    State(c) != Empty
  }

  /** One monitor-atomic step of some process using the channel. */
  datatype Op<T> =
    | StartRead
    | WakeReader(interrupted: bool)
    | StartWrite(value: T)
    | WakeWriter(interrupted: bool)
    | EnableAlt(alt: Alternative)
    | DisableAlt
    | QueryPending

  /** Whether the step can happen now: exactly the preconditions of the step functions. */
  predicate Allowed<T>(c: Chan<T>, op: Op<T>)
  {
    match op
    case StartRead => c.reader == Outside
    case WakeReader(_) => c.reader == Waiting
    case StartWrite(_) => c.writer == Outside && State(c) != Full
    case WakeWriter(_) => c.writer == Waiting
    case _ => true
  }

  function Apply<T>(c: Chan<T>, op: Op<T>): Chan<T>
    requires Allowed(c, op)
  {
    match op
    case StartRead => ReadBegin(c).0
    case WakeReader(i) => ReadResume(c, i).0
    case StartWrite(v) => WriteBegin(c, v).0
    case WakeWriter(i) => WriteResume(c, i).0
    case EnableAlt(a) => Enable(c, a).0
    case DisableAlt => Disable(c).0
    case QueryPending => c
  }

  /** The channel after the steps ops, or None if some step could not happen when its turn came. */
  function Run<T>(c: Chan<T>, ops: seq<Op<T>>): Option<Chan<T>>
    decreases |ops|
  {
    if ops == [] then Some(c)
    else if Allowed(c, ops[0]) then Run(Apply(c, ops[0]), ops[1..])
    else None
  }

  /** The values written by the steps ops, in order. */
  function Written<T>(ops: seq<Op<T>>): seq<T>
    decreases |ops|
  {
    if ops == [] then []
    else if ops[0].StartWrite? then [ops[0].value] + Written(ops[1..])
    else Written(ops[1..])
  }

  /** One write step per value. */
  function Writes<T>(vs: seq<T>): seq<Op<T>>
    decreases |vs|
  {
    if vs == [] then [] else [StartWrite(vs[0])] + Writes(vs[1..])
  }

  /** Steps the writing process takes on its own while the reader is selecting. */
  predicate WriterOnly<T>(ops: seq<Op<T>>)
  {
    forall i :: 0 <= i < |ops| ==> ops[i].StartWrite? || ops[i].WakeWriter?
  }

  /** What write's put relies on: a writer outside write never faces a FULL store. */
  predicate WriterMayPut<T>(c: Chan<T>)
  {
    c.writer == Outside ==> State(c) != Full
  }

  /** No step is an interruption of a suspended write. */
  predicate NoWriteInterrupt<T>(ops: seq<Op<T>>)
  {
    forall i :: 0 <= i < |ops| ==> !(ops[i].WakeWriter? && ops[i].interrupted)
  }
}
