/**
 * The sound sub-sampler of firmware/a2c/a2c.c (`process_sound_sub_samples_eight_x`):
 * every captured value becomes a signed sample offset by -2000; the samples
 * are summed in `s_sub_sample_value`, and every eighth call returns their
 * mean, truncated toward zero as C's `/` does, and empties the sum.
 * `s_sub_sample_count` is a `uint32_t` that wraps.
 */
module A2cSound {
  import opened CArith

  /** A value of `int16_t`. */
  predicate IsInt16(x: int)
  {
    -0x8000 <= x < 0x8000
  }

  /** Line 1458: the captured word cast to `int16_t`, less 2000, stored back into an `int16_t`. */
  function SubSample(data: Uint32): (r: int)
    ensures IsInt16(r)
    ensures Int16(data) >= -0x8000 + 2000 ==> r == Int16(data) - 2000
    ensures data < 0x8000 ==> r == data - 2000
  {
    Int16(Int16(data) - 2000)
  }

  /** The sum of the samples in order. */
  function Sum(s: seq<int>): int
  {
    if s == [] then 0 else Sum(s[..|s| - 1]) + s[|s| - 1]
  }

  /** Line 1465: the sum of eight samples divided by 8, truncated toward zero. */
  function Mean(s: seq<int>): int
  {
    CDiv(Sum(s), 8)
  }

  /** Every sample lies between `lo` and `hi`. */
  predicate Within(s: seq<int>, lo: int, hi: int)
  {
    forall i :: 0 <= i < |s| ==> lo <= s[i] <= hi
  }

  // --------------------------------------------------------------- lemmas

  /** A sum of samples between `lo` and `hi` lies between `|s| * lo` and `|s| * hi`. */
  lemma {:induction false} SumBounds(s: seq<int>, lo: int, hi: int)
    requires Within(s, lo, hi)
    ensures |s| * lo <= Sum(s) <= |s| * hi
  {
    if s != [] {
      var init := s[..|s| - 1];
      assert Within(init, lo, hi) by {
        forall i | 0 <= i < |init|
          ensures lo <= init[i] <= hi
        {
          assert init[i] == s[i];
        }
      }
      SumBounds(init, lo, hi);
      assert Sum(s) == Sum(init) + s[|s| - 1];
      assert |s| * lo == |init| * lo + lo && |s| * hi == |init| * hi + hi;
    }
  }

  /**
   * The mean of eight samples lies between the smallest and the largest of
   * them; in particular the mean of `int16_t` samples is an `int16_t`, so the
   * assignment at line 1465 does not truncate.
   */
  lemma MeanWithin(s: seq<int>, lo: int, hi: int)
    requires |s| == 8 && Within(s, lo, hi)
    ensures lo <= Mean(s) <= hi
  {
    SumBounds(s, lo, hi);
    var t := Sum(s);
    if t >= 0 {
      assert Mean(s) == t / 8;
      DivModUnique(t, 8, t / 8, t % 8);
    } else {
      assert Mean(s) == -((-t) / 8);
      DivModUnique(-t, 8, (-t) / 8, (-t) % 8);
    }
  }

  /**
   * `s_sub_sample_count` wraps at 2^32, a multiple of 8, so the wrap does not
   * disturb the every-eighth-call cadence.
   */
  lemma CountWrapKeepsCadence(c: Uint32)
    ensures U32(c + 1) % 8 == (c + 1) % 8
  {
    if c + 1 == TWO32 {
      assert U32(c + 1) == 0;
    }
  }

  /** The accumulator of fewer than eight `int16_t` samples, plus one more, fits an `int32_t`. */
  lemma SumFitsInt32(s: seq<int>)
    requires |s| <= 8 && Within(s, -0x8000, 0x7fff)
    ensures -0x8000_0000 <= Sum(s) < 0x8000_0000
  {
    SumBounds(s, -0x8000, 0x7fff);
  }

  // -------------------------------------------------------- the sub-sampler

  /** `s_sub_sample_value` and `s_sub_sample_count`, with the samples summed since the last mean. */
  class SubSampler {
    var value: int
    var count: Uint32
    ghost var pending: seq<int>

    ghost predicate Valid()
      reads this
    {
      |pending| == count % 8 && value == Sum(pending) && Within(pending, -0x8000, 0x7fff)
    }

    /** The zero-initialised globals. */
    constructor()
      ensures value == 0 && count == 0 && pending == []
      ensures Valid()
    {
      value := 0;
      count := 0;
      pending := [];
    }

    /** `process_sound_sub_samples_eight_x`, lines 1456-1470. */
    method Process(data: Uint32) returns (sample: int)
      requires Valid()
      modifies this
      ensures Valid()
      ensures count == U32(old(count) + 1)
      ensures count % 8 == 0 <==> |old(pending)| == 7
      ensures count % 8 != 0 ==> sample == SubSample(data) && pending == old(pending) + [SubSample(data)]
      ensures count % 8 == 0 ==> sample == Mean(old(pending) + [SubSample(data)]) && pending == [] && value == 0
      ensures IsInt16(sample)
      ensures -0x8000_0000 <= old(value) + SubSample(data) < 0x8000_0000
    {
      var s := Int16(Int16(data) - 2000);
      ghost var summed := pending + [s];
      assert summed[..|summed| - 1] == pending;
      assert Within(summed, -0x8000, 0x7fff);
      SumFitsInt32(summed);
      value := value + s;
      CountWrapKeepsCadence(count);
      count := U32(count + 1);
      sample := s;
      pending := summed;
      if count % 8 == 0 {
        MeanWithin(summed, -0x8000, 0x7fff);
        sample := Int16(CDiv(value, 8));
        value := 0;
        pending := [];
      }
    }
  }
}
