/**
 * What the channel promises, proved about the step functions of
 * ChannelModel: each step on its own, and runs of steps.
 */
module ChannelProperties {
  import opened DataStore
  import opened ChannelModel

  // ---------------------------------------------------------------------
  // read

  /**
   * read never calls get on an EMPTY store: it suspends exactly when the
   * store is EMPTY, and otherwise notifies once and removes the oldest value,
   * which is the earliest written value not yet read.
   */
  lemma ReadBeginOutcome<T>(c: Chan<T>)
    requires Inv(c) && c.reader == Outside
    ensures var (d, r) := ReadBegin(c);
      && (r == ReadBlocked <==> c.items == [])
      && (r == ReadBlocked ==> d == c.(reader := Waiting))
      && (r.Delivered? <==> c.items != [])
      && (r.Delivered? ==>
            && r.value == c.items[0] == c.sent[|c.received|]
            && d.items == c.items[1..]
            && d.signals == c.signals + [Notify]
            && d.alt == c.alt && d.writer == c.writer && d.reader == Outside
            && State(d) != Full)
      && Inv(d)
  {
  }

  /**
   * One wakeup of a suspended read: an interruption raises before any get and
   * changes nothing but the reader's position; a spurious wakeup on a store
   * that is still EMPTY changes nothing and waits again; otherwise the read
   * completes with the oldest value.
   */
  lemma ReadResumeOutcome<T>(c: Chan<T>, interrupted: bool)
    requires Inv(c) && c.reader == Waiting
    ensures var (d, r) := ReadResume(c, interrupted);
      && (interrupted ==> r == ReadInterrupted && d == c.(reader := Outside))
      && (!interrupted && c.items == [] ==> r == ReadBlocked && d == c)
      && (r.Delivered? <==> !interrupted && c.items != [])
      && (r.Delivered? ==>
            && r.value == c.items[0] == c.sent[|c.received|]
            && d.items == c.items[1..]
            && d.signals == c.signals + [Notify]
            && d.reader == Outside
            && State(d) != Full)
      && Inv(d)
  {
  }

  // ---------------------------------------------------------------------
  // write

  /**
   * write puts v at the back, sends exactly one signal (a schedule of the
   * registered alternative if there is one, a notify otherwise), leaves the
   * slot as it was, and completes at once exactly when the store is not FULL
   * afterwards; a completed write leaves room for the next one.
   */
  lemma WriteBeginOutcome<T>(c: Chan<T>, v: T)
    requires Inv(c) && c.writer == Outside && State(c) != Full
    ensures var (d, w) := WriteBegin(c, v);
      && d.items == c.items + [v]
      && d.signals == c.signals + [if c.alt != null then Schedule(c.alt) else Notify]
      && d.alt == c.alt && d.reader == c.reader && d.received == c.received
      && w != WriteInterrupted
      && (w == WriteDone <==> State(d) != Full)
      && (w == WriteDone ==> d.writer == Outside && (forall x :: Allowed(d, StartWrite(x))))
      && (w == WriteBlocked ==> d.writer == Waiting)
      && State(d) != Empty
      && Inv(d)
  {
  }

  /**
   * One wakeup of a suspended write: an interruption raises and changes
   * nothing but the writer's position; otherwise the write returns exactly
   * when the store is no longer FULL, and a spurious wakeup changes nothing.
   */
  lemma WriteResumeOutcome<T>(c: Chan<T>, interrupted: bool)
    requires Inv(c) && c.writer == Waiting
    ensures var (d, w) := WriteResume(c, interrupted);
      && (interrupted ==> w == WriteInterrupted && d == c.(writer := Outside))
      && (!interrupted ==> (w == WriteDone <==> State(c) != Full))
      && (w == WriteBlocked ==> d == c)
      && d.items == c.items && d.signals == c.signals && d.alt == c.alt
      && Inv(d)
  {
  }

  /** An unbounded store is never FULL, so a write never waits. */
  lemma UnboundedWriteNeverWaits<T>(c: Chan<T>, v: T)
    requires c.cap.Unbounded? && c.writer == Outside
    ensures WriteBegin(c, v).1 == WriteDone
    ensures WriteBegin(c, v).0.writer == Outside
  {
  }

  // ---------------------------------------------------------------------
  // enable, disable, pending

  /** enable on an EMPTY store registers a and reports not ready; otherwise nothing changes. */
  lemma EnableOutcome<T>(c: Chan<T>, a: Alternative)
    ensures var (d, ready) := Enable(c, a);
      && (ready <==> c.items != [])
      && (!ready ==> d.alt == a && d.(alt := c.alt) == c)
      && (ready ==> d == c)
  {
  }

  /** disable always clears the slot, touches nothing else, and reports store not EMPTY. */
  lemma DisableOutcome<T>(c: Chan<T>)
    ensures var (d, ready) := Disable(c);
      && d.alt == null && d.(alt := c.alt) == c
      && (ready <==> c.items != [])
  {
  }

  /** pending, enable and disable all report the same readiness, so pending is enable without registering. */
  lemma ReadinessAgrees<T>(c: Chan<T>, a: Alternative)
    ensures Pending(c) == Enable(c, a).1 == Disable(c).1
    ensures Pending(c) <==> c.items != []
  {
  }

  /** enable then disable with nothing between: the slot ends empty, the store is unchanged, and both report alike. */
  lemma EnableThenDisable<T>(c: Chan<T>, a: Alternative)
    ensures var (d, ready) := Enable(c, a);
      && Disable(d).1 == ready
      && Disable(d).0 == c.(alt := null)
  {
  }

  // ---------------------------------------------------------------------
  // runs of steps

  /** Every step keeps the invariant. */
  lemma StepKeepsInv<T>(c: Chan<T>, op: Op<T>)
    requires Inv(c) && Allowed(c, op)
    ensures Inv(Apply(c, op))
  {
  }

  /** A step adds to the record of written values exactly the value it writes. */
  lemma StepRecordsWrite<T>(c: Chan<T>, op: Op<T>)
    requires Allowed(c, op)
    ensures Apply(c, op).sent == c.sent + (if op.StartWrite? then [op.value] else [])
    ensures Apply(c, op).cap == c.cap
  {
  }

  /** Every run keeps the invariant. */
  lemma {:induction false} RunKeepsInv<T>(c: Chan<T>, ops: seq<Op<T>>)
    requires Inv(c) && Run(c, ops).Some?
    ensures Inv(Run(c, ops).value)
    decreases |ops|
  {
    if ops != [] {
      StepKeepsInv(c, ops[0]);
      RunKeepsInv(Apply(c, ops[0]), ops[1..]);
    }
  }

  /** A run puts exactly the values its write steps carry, in order. */
  lemma {:induction false} RunRecordsWrites<T>(c: Chan<T>, ops: seq<Op<T>>)
    requires Run(c, ops).Some?
    ensures Run(c, ops).value.sent == c.sent + Written(ops)
    ensures Run(c, ops).value.cap == c.cap
    decreases |ops|
  {
    if ops != [] {
      StepRecordsWrite(c, ops[0]);
      RunRecordsWrites(Apply(c, ops[0]), ops[1..]);
    }
  }

  /**
   * FIFO delivery: after any interleaving of reads, writes, wakeups,
   * interruptions and selections on a new channel, the values read so far
   * followed by the values still buffered are exactly the initial contents
   * followed by the values written, in order; so the reads return a prefix
   * of that sequence, and no value is lost, duplicated or reordered.
   */
  lemma DeliveredInWriteOrder<T>(initial: seq<T>, cap: Capacity, ops: seq<Op<T>>)
    requires Fits(initial, cap) && Run(Initial(initial, cap), ops).Some?
    ensures var d := Run(Initial(initial, cap), ops).value;
      && d.received + d.items == initial + Written(ops)
      && d.received <= initial + Written(ops)
      && Fits(d.items, cap)
  {
    var c := Initial(initial, cap);
    RunKeepsInv(c, ops);
    RunRecordsWrites(c, ops);
  }

  /** The steps of a run after its first one satisfy WriterOnly if the whole run does. */
  lemma WriterOnlyTail<T>(ops: seq<Op<T>>)
    requires ops != [] && WriterOnly(ops)
    ensures WriterOnly(ops[1..])
  {
    forall i | 0 <= i < |ops[1..]|
      ensures ops[1..][i].StartWrite? || ops[1..][i].WakeWriter?
    {
      assert ops[1..][i] == ops[i + 1];
    }
  }

  /**
   * While an alternative is registered, every write the writer makes
   * schedules that alternative (never a plain notify), once per write, and
   * the writer's steps neither change the slot nor remove anything.
   */
  lemma {:induction false} WritesWhileRegistered<T>(c: Chan<T>, ops: seq<Op<T>>)
    requires c.alt != null && WriterOnly(ops) && Run(c, ops).Some?
    ensures var d := Run(c, ops).value;
      && d.alt == c.alt
      && d.items == c.items + Written(ops)
      && |d.signals| == |c.signals| + |Written(ops)|
      && d.signals[..|c.signals|] == c.signals
      && forall i :: |c.signals| <= i < |d.signals| ==> d.signals[i] == Schedule(c.alt)
    decreases |ops|
  {
    if ops != [] {
      var c' := Apply(c, ops[0]);
      WriterOnlyTail(ops);
      WritesWhileRegistered(c', ops[1..]);
      var d := Run(c, ops).value;
      assert d == Run(c', ops[1..]).value;
      if ops[0].StartWrite? {
        assert c'.signals == c.signals + [Schedule(c.alt)];
        assert c'.items == c.items + [ops[0].value];
        assert Written(ops) == [ops[0].value] + Written(ops[1..]);
        assert d.signals[..|c'.signals|] == c'.signals;
        assert d.signals[..|c.signals|] == c'.signals[..|c.signals|];
      } else {
        assert ops[0].WakeWriter?;
        assert c'.signals == c.signals && c'.items == c.items;
      }
    }
  }

  /**
   * No lost wakeup in the selection protocol: once enable on an EMPTY
   * channel has registered a and reported not ready, each write the writer
   * makes before disable schedules a, and disable then clears the slot and
   * reports ready exactly when some write arrived in between.
   */
  lemma NoLostWakeup<T>(c: Chan<T>, a: Alternative, ops: seq<Op<T>>)
    requires c.items == [] && WriterOnly(ops) && Run(Enable(c, a).0, ops).Some?
    ensures !Enable(c, a).1
    ensures var d := Run(Enable(c, a).0, ops).value;
      && (Disable(d).1 <==> Written(ops) != [])
      && Disable(d).0.alt == null
      && |d.signals| == |c.signals| + |Written(ops)|
      && forall i :: |c.signals| <= i < |d.signals| ==> d.signals[i] == Schedule(a)
  {
    WritesWhileRegistered(Enable(c, a).0, ops);
  }

  /** Writes into a store with room for all of them and one more each complete without waiting. */
  lemma {:induction false} WritesComplete<T>(c: Chan<T>, vs: seq<T>)
    requires c.writer == Outside && Fits(c.items, c.cap)
    requires c.cap.Bounded? ==> |c.items| + |vs| < c.cap.limit
    ensures Run(c, Writes(vs)).Some?
    ensures Run(c, Writes(vs)).value.items == c.items + vs
    ensures Run(c, Writes(vs)).value.writer == Outside
    ensures Run(c, Writes(vs)).value.reader == c.reader
    ensures Run(c, Writes(vs)).value.cap == c.cap
    decreases |vs|
  {
    if vs != [] {
      var ops := Writes(vs);
      assert ops[0] == StartWrite(vs[0]) && ops[1..] == Writes(vs[1..]);
      var c' := Apply(c, ops[0]);
      assert c'.items == c.items + [vs[0]] && c'.writer == Outside && c'.reader == c.reader && c'.cap == c.cap;
      WritesComplete(c', vs[1..]);
      assert c.items + vs == c'.items + vs[1..];
    }
  }

  /**
   * A write into the last free slot puts its value, leaves the store FULL and
   * waits; spurious wakeups keep it waiting, and once a read has taken a
   * value its next wakeup completes it.
   */
  lemma LastSlotBlocks<T>(d: Chan<T>, v: T)
    requires Fits(d.items, d.cap) && d.cap.Bounded? && |d.items| + 1 == d.cap.limit
    requires d.writer == Outside && d.reader == Outside
    ensures State(d) != Full
    ensures var (e, w) := WriteBegin(d, v);
      && w == WriteBlocked && e.items == d.items + [v] && State(e) == Full
      && WriteResume(e, false) == (e, WriteBlocked)
      && e.reader == Outside
      && WriteResume(ReadBegin(e).0, false).1 == WriteDone
  {
  }

  /**
   * On a new channel over an EMPTY store of capacity n, the first n - 1
   * writes complete and leave the last slot free, so the n-th write is the
   * one that waits (LastSlotBlocks).
   */
  lemma FillThenBlock<T>(n: nat, vs: seq<T>)
    requires n >= 1 && |vs| == n - 1
    ensures Run(Initial([], Bounded(n)), Writes(vs)).Some?
    ensures var d := Run(Initial([], Bounded(n)), Writes(vs)).value;
      && d.items == vs && d.cap == Bounded(n) && d.writer == Outside && d.reader == Outside
      && Fits(d.items, d.cap)
  {
    var c := Initial([], Bounded(n));
    WritesComplete(c, vs);
  }

  /**
   * Every step but an interrupted write keeps WriterMayPut: a completed
   * write leaves room, a read only frees room, and the other steps leave the
   * store alone.
   */
  lemma StepKeepsWriterMayPut<T>(c: Chan<T>, op: Op<T>)
    requires Inv(c) && WriterMayPut(c) && Allowed(c, op)
    requires !(op.WakeWriter? && op.interrupted)
    ensures WriterMayPut(Apply(c, op))
  {
  }

  /** The steps of a run after its first one have no interrupted write if the whole run has none. */
  lemma NoWriteInterruptTail<T>(ops: seq<Op<T>>)
    requires ops != [] && NoWriteInterrupt(ops)
    ensures NoWriteInterrupt(ops[1..])
  {
    forall i | 0 <= i < |ops[1..]|
      ensures !(ops[1..][i].WakeWriter? && ops[1..][i].interrupted)
    {
      assert ops[1..][i] == ops[i + 1];
    }
  }

  /** Every run without an interrupted write keeps WriterMayPut. */
  lemma {:induction false} RunKeepsWriterMayPut<T>(c: Chan<T>, ops: seq<Op<T>>)
    requires Inv(c) && WriterMayPut(c) && NoWriteInterrupt(ops) && Run(c, ops).Some?
    ensures WriterMayPut(Run(c, ops).value)
    decreases |ops|
  {
    if ops != [] {
      StepKeepsWriterMayPut(c, ops[0]);
      StepKeepsInv(c, ops[0]);
      NoWriteInterruptTail(ops);
      RunKeepsWriterMayPut(Apply(c, ops[0]), ops[1..]);
    }
  }

  /**
   * write's put is never made on a FULL store: on a new channel over a store
   * that is not FULL, after any run without an interrupted write, a writer
   * outside write may start a write with any value.
   */
  lemma WriterNeverFindsFull<T>(initial: seq<T>, cap: Capacity, ops: seq<Op<T>>)
    requires Fits(initial, cap) && StateOf(initial, cap) != Full
    requires NoWriteInterrupt(ops) && Run(Initial(initial, cap), ops).Some?
    ensures var d := Run(Initial(initial, cap), ops).value;
      d.writer == Outside ==> forall x :: Allowed(d, StartWrite(x))
  {
    RunKeepsWriterMayPut(Initial(initial, cap), ops);
  }
}
