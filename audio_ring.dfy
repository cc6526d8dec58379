/**
 * The single-producer, single-consumer sample ring of libdvi/audio_ring.c.
 * `read` and `write` are offsets into a buffer of `size` samples; one slot is
 * always left empty so that `read == write` means "empty". All three are
 * `uint32_t`, so every expression below wraps modulo 2^32 as the C code does.
 * The wrap of an advanced offset is a bitmask with `size - 1`, which is
 * reduction modulo `size` only when `size` is a power of two.
 */
module AudioRing {
  import opened CArith

  /** Offsets inside a ring of `size` samples. */
  predicate RingIndices(size: int, rp: int, wp: int)
  {
    1 < size < TWO32 && 0 <= rp < size && 0 <= wp < size
  }

  /**
   * `get_write_size`: the room the producer has. With `full` it counts the
   * whole free space; without, only the run up to the end of the buffer.
   */
  function WriteSpace(size: nat, rp: nat, wp: nat, full: bool): (r: nat)
    ensures IsU32(r)
    ensures RingIndices(size, rp, wp) ==> r < size
    ensures RingIndices(size, rp, wp) && !full ==> wp + r <= size
    ensures RingIndices(size, rp, wp) && wp < rp ==> wp + r + 1 == rp
  {
    if wp < rp then U32(rp - wp - 1)
    else U32(size - wp + (if full then rp - 1 else if rp == 0 then -1 else 0))
  }

  /**
   * `get_read_size`: the samples the consumer may take. With `full` it counts
   * all of them; without, only the run up to the end of the buffer.
   */
  function ReadSpace(size: nat, rp: nat, wp: nat, full: bool): (r: nat)
    ensures IsU32(r)
    ensures RingIndices(size, rp, wp) ==> r < size
    ensures RingIndices(size, rp, wp) && !full ==> rp + r <= size
    ensures RingIndices(size, rp, wp) && rp <= wp ==> rp + r == wp
  {
    if wp < rp then U32(size - rp + (if full then wp else 0))
    else U32(wp - rp)
  }

  /** The bitmask wrap of lines 60 and 65: `(p + n) & (size - 1)` in 32-bit arithmetic. */
  function Advance(size: nat, p: nat, n: nat): (r: nat)
    ensures IsU32(r)
    ensures 0 < size <= TWO32 ==> r < size
  {
    BitAnd(U32(p + n), U32(size - 1))
  }

  /** A `uint32_t` ring size the bitmask wrap is correct for: 2^k for some k below 32. */
  ghost predicate PowerOfTwoSize(size: nat, k: nat)
  {
    k < 32 && size == Pow2(k) && size < TWO32
  }

  // --------------------------------------------------------------- lemmas

  /** The whole free space and the whole content add up to one slot less than the buffer. */
  lemma SpaceAddsUp(size: nat, rp: nat, wp: nat)
    requires RingIndices(size, rp, wp)
    ensures WriteSpace(size, rp, wp, true) + ReadSpace(size, rp, wp, true) == size - 1
  {
  }

  /** The content is the distance from the read to the write offset, around the ring. */
  lemma ReadSpaceIsDistance(size: nat, rp: nat, wp: nat)
    requires RingIndices(size, rp, wp)
    ensures ReadSpace(size, rp, wp, true) == (wp - rp) % size
  {
    if wp < rp {
      DivModUnique(wp - rp, size, -1, size - rp + wp);
    } else {
      DivModUnique(wp - rp, size, 0, wp - rp);
    }
  }

  /** An empty ring has nothing to read and all but one slot to write. */
  lemma EmptyRing(size: nat, p: nat)
    requires RingIndices(size, p, p)
    ensures ReadSpace(size, p, p, true) == 0 && ReadSpace(size, p, p, false) == 0
    ensures WriteSpace(size, p, p, true) == size - 1
    ensures WriteSpace(size, p, p, false) == if p == 0 then size - 1 else size - p
  {
  }

  /**
   * The contiguous runs never exceed the totals nor the end of the buffer,
   * and the write run stops one short of the end when `read` is 0 (line 43
   * turns that `-1` into 2^32 - 1, which the wrap of the sum cancels).
   */
  lemma ContiguousRuns(size: nat, rp: nat, wp: nat)
    requires RingIndices(size, rp, wp)
    ensures WriteSpace(size, rp, wp, false) <= WriteSpace(size, rp, wp, true)
    ensures ReadSpace(size, rp, wp, false) <= ReadSpace(size, rp, wp, true)
    ensures wp + WriteSpace(size, rp, wp, false) <= size
    ensures rp + ReadSpace(size, rp, wp, false) <= size
    ensures rp <= wp ==> WriteSpace(size, rp, wp, false) == size - wp - (if rp == 0 then 1 else 0)
    ensures rp <= wp ==> ReadSpace(size, rp, wp, false) == ReadSpace(size, rp, wp, true)
    ensures wp < rp ==> WriteSpace(size, rp, wp, false) == WriteSpace(size, rp, wp, true)
  {
  }

  lemma Pow2Is32Bits()
    ensures Pow2(32) == TWO32
  {
    Pow2Add(16, 16);
    Pow2Add(8, 8);
    assert Pow2(8) == 256;
  }

  /** With a power-of-two size the bitmask wrap is reduction modulo the size. */
  lemma AdvanceIsMod(size: nat, k: nat, p: nat, n: nat)
    requires PowerOfTwoSize(size, k)
    ensures Advance(size, p, n) == (p + n) % size
    ensures Advance(size, p, n) < size
  {
    Pow2Is32Bits();
    MaskIsMod(U32(p + n), k);
    ModPow2Nested(p + n, k, 32);
  }

  /** Writing `n` samples the ring has room for makes exactly `n` more readable. */
  lemma WriteAdvance(size: nat, k: nat, rp: nat, wp: nat, n: nat)
    requires RingIndices(size, rp, wp) && PowerOfTwoSize(size, k)
    requires n <= WriteSpace(size, rp, wp, true)
    ensures RingIndices(size, rp, Advance(size, wp, n))
    ensures ReadSpace(size, rp, Advance(size, wp, n), true) == ReadSpace(size, rp, wp, true) + n
    ensures WriteSpace(size, rp, Advance(size, wp, n), true) == WriteSpace(size, rp, wp, true) - n
  {
    var w := Advance(size, wp, n);
    AdvanceIsMod(size, k, wp, n);
    if wp + n < size {
      DivModUnique(wp + n, size, 0, wp + n);
    } else {
      DivModUnique(wp + n, size, 1, wp + n - size);
    }
    SpaceAddsUp(size, rp, wp);
    SpaceAddsUp(size, rp, w);
  }

  /** Reading `n` samples the ring holds frees exactly `n` slots for writing. */
  lemma ReadAdvance(size: nat, k: nat, rp: nat, wp: nat, n: nat)
    requires RingIndices(size, rp, wp) && PowerOfTwoSize(size, k)
    requires n <= ReadSpace(size, rp, wp, true)
    ensures RingIndices(size, Advance(size, rp, n), wp)
    ensures ReadSpace(size, Advance(size, rp, n), wp, true) == ReadSpace(size, rp, wp, true) - n
    ensures WriteSpace(size, Advance(size, rp, n), wp, true) == WriteSpace(size, rp, wp, true) + n
  {
    var r := Advance(size, rp, n);
    AdvanceIsMod(size, k, rp, n);
    if rp + n < size {
      DivModUnique(rp + n, size, 0, rp + n);
    } else {
      DivModUnique(rp + n, size, 1, rp + n - size);
    }
    SpaceAddsUp(size, rp, wp);
    SpaceAddsUp(size, r, wp);
  }

  /**
   * The mask is not a modulus when the size is not a power of two: with size
   * 3, advancing offset 2 by one gives `3 & 2 == 2` instead of wrapping to 0,
   * so the producer can never leave the last slot. `audio_ring_set` checks
   * only `size > 1`.
   */
  lemma MaskNeedsPowerOfTwo()
    ensures RingIndices(3, 0, 2)
    ensures Advance(3, 2, 1) == 2 && (2 + 1) % 3 == 0
  {
    assert BitAnd(3, 2) == 2 * BitAnd(1, 1) + 0;
    assert BitAnd(1, 1) == 2 * BitAnd(0, 0) + 1;
  }

  /**
   * An offset stored at or past `size` by `set_write_offset` breaks the
   * accounting: with `write == size` and `read == 0` the free space wraps to
   * 2^32 - 1 and the two sizes no longer add up to `size - 1`.
   */
  lemma UnmaskedOffsetWraps(size: nat)
    requires 1 < size < TWO32
    ensures WriteSpace(size, 0, size, true) == TWO32 - 1
    ensures ReadSpace(size, 0, size, true) == size
  {
  }

  // -------------------------------------------------------------- the ring

  /** `audio_ring_t`: the sample buffer and the two offsets into it. */
  class Ring {
    var buffer: array?<int>
    var size: Uint32
    var read: Uint32
    var write: Uint32

    /** The zero-initialised ring before `audio_ring_set`. */
    constructor()
      ensures buffer == null && size == 0 && read == 0 && write == 0
    {
      buffer, size, read, write := null, 0, 0, 0;
    }

    ghost predicate Valid()
      reads this
    {
      RingIndices(size, read, write)
    }

    /** `audio_ring_set`: the caller must give more than one slot; the ring starts empty. */
    method Set(buf: array<int>, n: Uint32)
      requires n > 1
      modifies this
      ensures buffer == buf && size == n && read == 0 && write == 0
      ensures Valid() && ReadSpace(size, read, write, true) == 0
    {
      buffer := buf;
      size := n;
      read := 0;
      write := 0;
      EmptyRing(size, 0);
    }

    /** `increase_write_pointer`. */
    method IncreaseWritePointer(n: Uint32)
      modifies this`write
      ensures write == Advance(size, old(write), n)
    {
      write := BitAnd(U32(write + n), U32(size - 1));
    }

    /** `increase_read_pointer`. */
    method IncreaseReadPointer(n: Uint32)
      modifies this`read
      ensures read == Advance(size, old(read), n)
    {
      read := BitAnd(U32(read + n), U32(size - 1));
    }

    /** `set_write_offset`: the value is stored as given, without the mask. */
    method SetWriteOffset(v: Uint32)
      modifies this`write
      ensures write == v
    {
      write := v;
    }

    /** `set_read_offset`: the value is stored as given, without the mask. */
    method SetReadOffset(v: Uint32)
      modifies this`read
      ensures read == v
    {
      read := v;
    }
  }
}
