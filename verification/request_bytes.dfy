/**
 * The request envelope of the transport layer (`JRequestBytes`) and the
 * counter that hands out its invoke ids. The counter is a Java `long` that
 * starts at 0 and is advanced with two's-complement wrap-around, so ids run
 * from 0 up to `Long.MAX_VALUE`, continue at `Long.MIN_VALUE` and come back
 * to 0 only after 2^64 draws. The envelope keeps its id for life and carries
 * a settable timestamp.
 */
module RequestBytes {

  const LONG_MIN: int := -0x8000_0000_0000_0000
  const LONG_MAX: int := 0x7FFF_FFFF_FFFF_FFFF
  /** The number of distinct `long` values. */
  const LONG_RANGE: int := 0x1_0000_0000_0000_0000

  /** A Java `long`. */
  type Long = x: int | LONG_MIN <= x <= LONG_MAX

  /** Narrowing of a mathematical integer to a `long`, as Java's 64-bit arithmetic does it. */
  function Wrap(v: int): Long {
    (v - LONG_MIN) % LONG_RANGE + LONG_MIN
  }

  /** The update of `getAndIncrement`: `long` addition of one. */
  function Increment(x: Long): (r: Long)
    ensures x < LONG_MAX ==> r == x + 1
    ensures x == LONG_MAX ==> r == LONG_MIN
  {
    Wrap(x + 1)
  }

  /** The counter's value after `k` increments starting from `start`. */
  function Advance(start: Long, k: nat): Long {
    if k == 0 then start else Increment(Advance(start, k - 1))
  }

  /**
   * Up to a full cycle, `k` increments add `k` to the start and subtract 2^64
   * once the sum passes `Long.MAX_VALUE`.
   */
  lemma {:induction false} AdvanceClosedForm(start: Long, k: nat)
    requires k <= LONG_RANGE
    ensures Advance(start, k) == if start + k <= LONG_MAX then start + k else start + k - LONG_RANGE
  {
    if k > 0 {
      AdvanceClosedForm(start, k - 1);
    }
  }

  /** Any two of 2^64 consecutive draws differ. */
  lemma AdvanceDistinct(start: Long, i: nat, j: nat)
    requires i < j < LONG_RANGE
    ensures Advance(start, i) != Advance(start, j)
  {
    AdvanceClosedForm(start, i);
    AdvanceClosedForm(start, j);
  }

  /** After exactly 2^64 draws the counter is back where it started, so an id is reused only after a full cycle. */
  lemma AdvanceFullCycle(start: Long)
    ensures Advance(start, LONG_RANGE) == start
  {
    AdvanceClosedForm(start, LONG_RANGE);
  }

  /** The process-wide invoke-id counter: an `AtomicLong` initialised to 0. */
  class InvokeIdGenerator {
    var value: Long
    /** The ids handed out so far, oldest first. */
    ghost var issued: seq<Long>

    /** The counter has been advanced once per id handed out, from 0. */
    ghost predicate Valid()
      reads this
    {
      && value == Advance(0, |issued|)
      && forall k :: 0 <= k < |issued| ==> issued[k] == Advance(0, k)
    }

    constructor ()
      ensures Valid()
      ensures value == 0 && issued == []
    {
      value := 0;
      issued := [];
    }

    /**
     * `getAndIncrement`: return the current value and advance the counter by
     * one, wrapping from `Long.MAX_VALUE` to `Long.MIN_VALUE`. While at most
     * 2^64 ids have been handed out, the new one differs from every earlier one.
     */
    method GetAndIncrement() returns (id: Long)
      requires Valid()
      modifies this
      ensures Valid()
      ensures id == old(value) && value == Increment(old(value))
      ensures issued == old(issued) + [id]
      ensures |issued| <= LONG_RANGE ==> id !in old(issued)
    {
      id := value;
      value := Increment(value);
      ghost var n := |issued|;
      if n < LONG_RANGE {
        forall k | 0 <= k < n ensures issued[k] != id {
          AdvanceDistinct(0, k, n);
        }
      }
      issued := issued + [id];
    }
  }

  /** Every id a valid generator has handed out, up to a full cycle, is distinct from every other. */
  lemma IssuedIdsDistinct(generator: InvokeIdGenerator, i: nat, j: nat)
    requires generator.Valid()
    requires i < j < |generator.issued| <= LONG_RANGE
    ensures generator.issued[i] != generator.issued[j]
  {
    AdvanceDistinct(0, i, j);
  }

  /** A request envelope: a fixed invoke id and a timestamp the transport sets once decoding is done. */
  class JRequestBytes {
    const invokeId: Long
    var timestamp: Long

    /** The default constructor: take the next id from the generator. */
    constructor (generator: InvokeIdGenerator)
      requires generator.Valid()
      modifies generator
      ensures generator.Valid()
      ensures invokeId == old(generator.value) && generator.value == Increment(old(generator.value))
      ensures generator.issued == old(generator.issued) + [invokeId]
      ensures |generator.issued| <= LONG_RANGE ==> invokeId !in old(generator.issued)
      ensures timestamp == 0
    {
      var id := generator.GetAndIncrement();
      invokeId := id;
      timestamp := 0;
    }

    /** The constructor taking an explicit id; the generator is not touched. */
    constructor WithInvokeId(invokeId: Long)
      ensures this.invokeId == invokeId && timestamp == 0
    {
      this.invokeId := invokeId;
      timestamp := 0;
    }

    /** `invokeId()`. */
    method InvokeId() returns (id: Long)
      ensures id == invokeId
    {
      id := invokeId;
    }

    /** `timestamp()`. */
    method Timestamp() returns (t: Long)
      ensures t == timestamp
    {
      t := timestamp;
    }

    /** `timestamp(long)`: overwrite the timestamp and nothing else. */
    method SetTimestamp(t: Long)
      modifies this`timestamp
      ensures timestamp == t
    {
      timestamp := t;
    }
  }

  /**
   * A fresh process: the first two default-constructed requests get ids 0 and 1,
   * an explicit id leaves the counter alone, and reading the timestamp after
   * setting it gives back the value set while the id stays put.
   */
  method FirstRequests(stamp: Long) returns (first: JRequestBytes, second: JRequestBytes, explicit: JRequestBytes, read: Long, id: Long)
    ensures first.invokeId == 0 && second.invokeId == 1
    ensures explicit.invokeId == LONG_MAX
    ensures read == stamp && id == 0
  {
    var generator := new InvokeIdGenerator();
    first := new JRequestBytes(generator);
    explicit := new JRequestBytes.WithInvokeId(LONG_MAX);
    assert generator.value == 1;
    second := new JRequestBytes(generator);
    first.SetTimestamp(stamp);
    read := first.Timestamp();
    id := first.InvokeId();
  }

  /** Past `Long.MAX_VALUE` the generator hands out `Long.MIN_VALUE` and carries on without failing. */
  method WrapAround(generator: InvokeIdGenerator) returns (last: Long, next: Long)
    requires generator.Valid() && generator.value == LONG_MAX
    modifies generator
    ensures last == LONG_MAX && next == LONG_MIN && generator.value == LONG_MIN + 1
  {
    last := generator.GetAndIncrement();
    next := generator.GetAndIncrement();
  }
}
