/**
 * BufferedOne2OneChannel: a one-to-one channel over a pluggable store.  Each
 * method is one monitor-atomic step, and its postcondition says that the new
 * state and the outcome are those of the matching step function of
 * ChannelModel.
 */
module BufferedChannel {
  import opened DataStore
  import opened ChannelModel
  import opened ChannelProperties

  /** The outcome of construction: a channel, or IllegalArgumentException for a null store. */
  datatype Creation<T> = Created(channel: BufferedOne2OneChannel<T>) | IllegalArgument

  class BufferedOne2OneChannel<T> {
    /** The channel's own copy of the store it was given. */
    const data: FifoStore<T>
    /** The alternative registered by enable and cleared by disable, if any. */
    var alt: Alternative?
    /** Every alt.schedule() and rwMonitor.notify() sent so far. */
    var signals: seq<Signal>
    /** Whether the reading process is suspended inside read. */
    var reader: Phase
    /** Whether the writing process is suspended inside write. */
    var writer: Phase
    /** Every value put, and every value read, so far. */
    ghost var sent: seq<T>
    ghost var received: seq<T>

    ghost function Snapshot(): Chan<T>
      reads this, data
    {
      Chan(data.items, data.capacity, alt, signals, reader, writer, sent, received)
    }

    ghost predicate Valid()
      reads this, data
    {
      Inv(Snapshot())
    }

    /** Wraps a clone of template, so that the channel never shares the caller's store. */
    constructor (template: FifoStore<T>)
      requires template.Valid()
      ensures Valid() && fresh(data)
      ensures Snapshot() == Initial(template.items, template.capacity)
    {
      var copy := template.Clone();
      data := copy;
      alt := null;
      signals := [];
      reader, writer := Outside, Outside;
      sent, received := copy.items, [];
    }

    /** The constructor's check: a null store is an illegal argument. */
    static method Create(template: FifoStore?<T>) returns (r: Creation<T>)
      requires template != null ==> template.Valid()
      ensures template == null <==> r.IllegalArgument?
      ensures r.Created? ==> fresh(r.channel) && fresh(r.channel.data) && r.channel.Valid()
      ensures r.Created? ==> r.channel.Snapshot() == Initial(template.items, template.capacity)
    {
      if template == null {
        r := IllegalArgument;
      } else {
        var ch := new BufferedOne2OneChannel(template);
        r := Created(ch);
      }
    }

    /** read, up to its first wait: take the oldest value now, or suspend on an EMPTY store. */
    method Read() returns (r: ReadStep<T>)
      requires Valid() && reader == Outside
      modifies this, data
      ensures Valid()
      ensures (Snapshot(), r) == ReadBegin(old(Snapshot()))
    {
      var s := data.GetState();
      if s == Empty {
        reader := Waiting;
        r := ReadBlocked;
      } else {
        r := TakeValue();
      }
    }

    /** read, after one return from rwMonitor.wait(): fail if interrupted, re-check, then take or wait again. */
    method ResumeRead(interrupted: bool) returns (r: ReadStep<T>)
      requires Valid() && reader == Waiting
      modifies this, data
      ensures Valid()
      ensures (Snapshot(), r) == ReadResume(old(Snapshot()), interrupted)
    {
      if interrupted {
        reader := Outside;
        r := ReadInterrupted;
        return;
      }
      var s := data.GetState();
      if s == Empty {
        r := ReadBlocked;
      } else {
        r := TakeValue();
      }
    }

    /** The end of read: notify, then return data.get(). */
    method TakeValue() returns (r: ReadStep<T>)
      requires Valid() && data.items != []
      modifies this, data
      ensures Valid()
      ensures (Snapshot(), r) == TakeOldest(old(Snapshot()))
    {
      GetFreesSlot(data.items, data.capacity);
      signals := signals + [Notify];
      var v := data.Get();
      received := received + [v];
      reader := Outside;
      r := Delivered(v);
      assert old(data.items) == [v] + data.items;
    }

    /** write, up to its first wait: put, schedule or notify, and suspend if the store is now FULL. */
    method Write(v: T) returns (w: WriteStep)
      requires Valid() && writer == Outside && StateOf(data.items, data.capacity) != Full
      modifies this, data
      ensures Valid()
      ensures (Snapshot(), w) == WriteBegin(old(Snapshot()), v)
    {
      data.Put(v);
      sent := sent + [v];
      if alt != null {
        signals := signals + [Schedule(alt)];
      } else {
        signals := signals + [Notify];
      }
      var s := data.GetState();
      if s == Full {
        writer := Waiting;
        w := WriteBlocked;
      } else {
        w := WriteDone;
      }
    }

    /** write, after one return from rwMonitor.wait(): fail if interrupted, re-check, then return or wait again. */
    method ResumeWrite(interrupted: bool) returns (w: WriteStep)
      requires Valid() && writer == Waiting
      modifies this
      ensures Valid()
      ensures (Snapshot(), w) == WriteResume(old(Snapshot()), interrupted)
    {
      if interrupted {
        writer := Outside;
        w := WriteInterrupted;
        return;
      }
      var s := data.GetState();
      if s == Full {
        w := WriteBlocked;
      } else {
        writer := Outside;
        w := WriteDone;
      }
    }

    /** enable(a): register a on an EMPTY store and report not ready; otherwise report ready. */
    method Enable(a: Alternative) returns (ready: bool)
      requires Valid()
      modifies this`alt
      ensures Valid()
      ensures (Snapshot(), ready) == ChannelModel.Enable(old(Snapshot()), a)
    {
      var s := data.GetState();
      if s == Empty {
        alt := a;
        ready := false;
      } else {
        ready := true;
      }
    }

    /** disable(): clear the registration and report whether data is ready. */
    method Disable() returns (ready: bool)
      requires Valid()
      modifies this`alt
      ensures Valid()
      ensures (Snapshot(), ready) == ChannelModel.Disable(old(Snapshot()))
    {
      alt := null;
      var s := data.GetState();
      ready := s != Empty;
    }

    /** pending(): whether data is ready; changes nothing. */
    method Pending() returns (p: bool)
      requires Valid()
      ensures p <==> data.items != []
      ensures p == ChannelModel.Pending(Snapshot())
    {
      var s := data.GetState();
      p := s != Empty;
    }
  }

  /**
   * Drives a channel built from template through the steps ops, one method
   * call per step.  The channel ends in the state Run gives, so what is
   * proved about Run holds of the class too.  The caller's store is never
   * touched, whatever the steps do to the channel's own store.
   */
  method RunChannel<T>(template: FifoStore<T>, ops: seq<Op<T>>) returns (ch: BufferedOne2OneChannel<T>)
    requires template.Valid()
    requires Run(Initial(template.items, template.capacity), ops).Some?
    modifies template
    ensures fresh(ch) && fresh(ch.data) && ch.Valid()
    ensures template.items == old(template.items)
    ensures ch.Snapshot() == Run(Initial(template.items, template.capacity), ops).value
    ensures ch.received + ch.data.items == template.items + Written(ops)
  {
    ghost var final := Run(Initial(template.items, template.capacity), ops);
    ch := new BufferedOne2OneChannel(template);
    var i := 0;
    while i < |ops|
      invariant 0 <= i <= |ops|
      invariant fresh(ch) && fresh(ch.data) && ch.Valid()
      invariant template.items == old(template.items)
      invariant Run(ch.Snapshot(), ops[i..]) == final
    {
      var op := ops[i];
      assert ops[i..][0] == op && ops[i..][1..] == ops[i + 1..];
      match op {
        case StartRead =>
          var r := ch.Read();
        case WakeReader(interrupted) =>
          var r := ch.ResumeRead(interrupted);
        case StartWrite(v) =>
          var w := ch.Write(v);
        case WakeWriter(interrupted) =>
          var w := ch.ResumeWrite(interrupted);
        case EnableAlt(a) =>
          var ready := ch.Enable(a);
        case DisableAlt =>
          var ready := ch.Disable();
        case QueryPending =>
          var p := ch.Pending();
      }
      i := i + 1;
    }
    assert ops[i..] == [];
    DeliveredInWriteOrder(template.items, template.capacity, ops);
  }
}
