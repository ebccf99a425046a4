/**
 * The buffering strategy a channel plugs in (JCSP's ChannelDataStore), seen
 * through exactly the interface the channel uses: put, get, getState and
 * clone.  The reference instance is a FIFO store whose capacity is either a
 * positive bound or unbounded.  A bound of 1 gives the states of the
 * zero-buffer rendezvous store (EMPTY or FULL, never NONEMPTY).
 */
module DataStore {

  /** The three states getState reports. */
  datatype BufferState = Empty | NonEmpty | Full

  /** How many values a store may hold. */
  datatype Capacity = Bounded(limit: nat) | Unbounded

  /** A bounded store holds at least one value, so EMPTY and FULL never coincide. */
  predicate ValidCapacity(cap: Capacity)
  {
    cap.Bounded? ==> cap.limit >= 1
  }

  /** The contents respect the capacity. */
  predicate Fits<T>(items: seq<T>, cap: Capacity)
  {
    ValidCapacity(cap) && (cap.Bounded? ==> |items| <= cap.limit)
  }

  /** The state a FIFO store with these contents reports. */
  function StateOf<T>(items: seq<T>, cap: Capacity): BufferState
  {
    if |items| == 0 then Empty
    else if cap.Bounded? && |items| == cap.limit then Full
    else NonEmpty
  }

  /** EMPTY means no values, FULL means exactly at the bound, and an unbounded store is never FULL. */
  lemma StateMeaning<T>(items: seq<T>, cap: Capacity)
    requires Fits(items, cap)
    ensures StateOf(items, cap) == Empty <==> items == []
    ensures StateOf(items, cap) == Full <==> cap.Bounded? && |items| == cap.limit
    ensures cap.Unbounded? ==> StateOf(items, cap) != Full
  {
  }

  /** Putting into a store that is not FULL keeps it within capacity and makes it non-EMPTY. */
  lemma PutKeepsFit<T>(items: seq<T>, cap: Capacity, v: T)
    requires Fits(items, cap) && StateOf(items, cap) != Full
    ensures Fits(items + [v], cap)
    ensures StateOf(items + [v], cap) != Empty
  {
  }

  /** Taking from a non-EMPTY store keeps it within capacity and makes it not FULL. */
  lemma GetFreesSlot<T>(items: seq<T>, cap: Capacity)
    requires Fits(items, cap) && items != []
    ensures Fits(items[1..], cap)
    ensures StateOf(items[1..], cap) != Full
  {
  }

  /** A FIFO buffering strategy; the channel owns one and mutates it in place. */
  class FifoStore<T> {
    var items: seq<T>
    const capacity: Capacity

    ghost predicate Valid()
      reads this
    {
      Fits(items, capacity)
    }

    /** A new, EMPTY store of the given capacity. */
    constructor (cap: Capacity)
      requires ValidCapacity(cap)
      ensures Valid() && items == [] && capacity == cap
    {
      items := [];
      capacity := cap;
    }

    /** Appends a value; calling it on a FULL store breaks the store's contract. */
    method Put(v: T)
      requires Valid() && StateOf(items, capacity) != Full
      modifies this
      ensures Valid()
      ensures items == old(items) + [v]
    {
      items := items + [v];
    }

    /** Removes and returns the oldest value; never called on an EMPTY store. */
    method Get() returns (v: T)
      requires Valid() && items != []
      modifies this
      ensures Valid()
      ensures v == old(items)[0] && items == old(items)[1..]
    {
      v := items[0];
      items := items[1..];
    }

    /** Reports EMPTY, NONEMPTY or FULL without changing anything. */
    method GetState() returns (s: BufferState)
      requires Valid()
      ensures s == Empty <==> items == []
      ensures s == Full <==> capacity.Bounded? && |items| == capacity.limit
      ensures s == StateOf(items, capacity)
    {
      if |items| == 0 {
        s := Empty;
      } else if capacity.Bounded? && |items| == capacity.limit {
        s := Full;
      } else {
        s := NonEmpty;
      }
    }

    /** A new store object with the same capacity and contents; nothing is shared. */
    method Clone() returns (c: FifoStore<T>)
      requires Valid()
      ensures fresh(c) && c.Valid()
      ensures c.items == items && c.capacity == capacity
    {
      c := new FifoStore(capacity);
      c.items := items;
    }
  }
}
