/**
 * Pixel-clock synthesis for the I2S parallel output: the search for the audio
 * PLL's output divider `odir` and fixed-point multiplier `sdm`.
 *
 * The PLL runs at 40 MHz * (4 + sdm / 2^16) / (2 * (odir + 2)), with `sdm` a
 * fixed-point number with a 16-bit fraction. The search computes, for each
 * divider, `sdm = freq / (20 MHz / (odir + 2)) * 2^16 - 4 * 2^16`.
 *
 * The source computes that quotient in `double` and truncates it. This model
 * uses exact integer floor division instead (all operands are non-negative), so
 * where the double rounding error crosses an integer boundary the model's `sdm`
 * can differ from the source's by one unit of the last fraction bit.
 */
module ClockSynth {

  /** Highest sample rate the search accepts; higher requests are capped to it. */
  const MaxSampleRate: nat := 36249999
  /** Half the 40 MHz crystal frequency. */
  const HalfXtal: nat := 20000000
  /** 1.0 in the multiplier's 16-bit fixed-point format. */
  const SdmOne: nat := 0x10000
  /** The "+4" term of the PLL formula, in the multiplier's fixed-point format. */
  const SdmBias: nat := 0x40000
  /** The search keeps increasing `odir` while `sdm` is below this ... */
  const SdmLimit: int := 0x8c0ec
  /** ... and the next divider's `sdm` would stay below this ... */
  const SdmNextLimit: int := 0xA7fff
  /** ... and `odir` is below its 5-bit maximum. */
  const MaxOdir: nat := 31

  /** Lowest sample rate for which the chosen multiplier is not negative. */
  const MinSampleRate: nat := 303031

  datatype Option<T> = None | Some(value: T)

  /** The arguments passed to the audio PLL: three multiplier bytes and the divider. */
  datatype ApllSetting = ApllSetting(sdm0: int, sdm1: int, sdm2: int, odir: nat)

  /** The request clamped to the maximum rate, times the pipeline's factor 8. */
  function ScaledFrequency(sampleRate: nat): (freq: nat)
    ensures freq <= 8 * MaxSampleRate
    ensures sampleRate <= MaxSampleRate ==> freq == 8 * sampleRate
    ensures sampleRate > MaxSampleRate ==> freq == 8 * MaxSampleRate
  {
    (if sampleRate < MaxSampleRate then sampleRate else MaxSampleRate) * 8
  }

  /**
   * The multiplier for divider `odir`: the largest `sdm` whose PLL output,
   * 20 MHz * (sdm + 2^18) / (2^16 * (odir + 2)), does not exceed `freq`.
   */
  function Sdm(freq: nat, odir: nat): (sdm: int)
    ensures (sdm + SdmBias) * HalfXtal <= freq * (odir + 2) * SdmOne
    ensures freq * (odir + 2) * SdmOne < (sdm + SdmBias + 1) * HalfXtal
  {
    freq * (odir + 2) * SdmOne / HalfXtal - SdmBias
  }

  /** The do-while condition of the search, evaluated at divider `odir`. */
  predicate KeepSearching(freq: nat, odir: nat)
  {
    Sdm(freq, odir) < SdmLimit && odir < MaxOdir && Sdm(freq, odir + 1) < SdmNextLimit
  }

  /**
   * The divider search: `odir` is the first divider at which the continue
   * condition fails, so it held for every smaller divider.
   */
  method SearchDivider(freq: nat) returns (odir: nat, sdm: int)
    ensures odir <= MaxOdir
    ensures sdm == Sdm(freq, odir)
    ensures !KeepSearching(freq, odir)
    ensures forall k :: 0 <= k < odir ==> KeepSearching(freq, k)
  {
    odir := 0;
    sdm := freq * (odir + 2) * SdmOne / HalfXtal - SdmBias;
    var sdmn := freq * (odir + 2 + 1) * SdmOne / HalfXtal - SdmBias;
    while sdm < SdmLimit && odir < MaxOdir && sdmn < SdmNextLimit
      invariant odir <= MaxOdir
      invariant sdm == Sdm(freq, odir) && sdmn == Sdm(freq, odir + 1)
      invariant forall k :: 0 <= k < odir ==> KeepSearching(freq, k)
      decreases MaxOdir - odir
    {
      odir := odir + 1;
      sdm := freq * (odir + 2) * SdmOne / HalfXtal - SdmBias;
      sdmn := freq * (odir + 2 + 1) * SdmOne / HalfXtal - SdmBias;
    }
  }

  /**
   * The PLL arguments `sdm & 255`, `(sdm >> 8) & 255`, `sdm >> 16`: on a two's
   * complement `int` these are Euclidean remainder and floor division.
   */
  function ApllArgs(sdm: int, odir: nat): (a: ApllSetting)
    ensures 0 <= a.sdm0 <= 255 && 0 <= a.sdm1 <= 255
    ensures a.sdm2 * 0x10000 + a.sdm1 * 0x100 + a.sdm0 == sdm
    ensures a.odir == odir
  {
    var hi := sdm / 0x100;
    assert sdm / 0x10000 == hi / 0x100;
    ApllSetting(sdm % 0x100, hi % 0x100, sdm / 0x10000, odir)
  }

  /**
   * The PLL setting the search picks for a request: the first divider at which
   * the continue condition fails (31 at most), and that divider's multiplier
   * split into the PLL's arguments.
   */
  predicate ChosenSetting(sampleRate: nat, a: ApllSetting)
  {
    && a.odir <= MaxOdir
    && a == ApllArgs(Sdm(ScaledFrequency(sampleRate), a.odir), a.odir)
    && !KeepSearching(ScaledFrequency(sampleRate), a.odir)
    && forall k :: 0 <= k < a.odir ==> KeepSearching(ScaledFrequency(sampleRate), k)
  }

  /**
   * For a request at or above the minimum rate, the setting the search picks
   * has every PLL argument within its 8/8/6-bit field.
   */
  lemma ChosenSettingInRange(sampleRate: nat, a: ApllSetting)
    requires sampleRate >= MinSampleRate && ChosenSetting(sampleRate, a)
    ensures 0 <= a.sdm0 <= 255 && 0 <= a.sdm1 <= 255 && 0 <= a.sdm2 <= 63
  {
    SearchResultBelowCeiling(sampleRate, a.odir);
    SearchResultNonNegative(sampleRate, a.odir);
  }

  /** Clamp, search, and split the multiplier into the PLL's arguments. */
  method SynthesizeClock(sampleRate: nat) returns (a: ApllSetting)
    ensures a.odir <= MaxOdir
    ensures a == ApllArgs(Sdm(ScaledFrequency(sampleRate), a.odir), a.odir)
    ensures !KeepSearching(ScaledFrequency(sampleRate), a.odir)
    ensures forall k :: 0 <= k < a.odir ==> KeepSearching(ScaledFrequency(sampleRate), k)
  {
    var freq := ScaledFrequency(sampleRate);
    var odir, sdm := SearchDivider(freq);
    a := ApllArgs(sdm, odir);
  }

  /** A larger divider never needs a smaller multiplier. */
  lemma SdmMonotoneInDivider(freq: nat, k1: nat, k2: nat)
    requires k1 <= k2
    ensures Sdm(freq, k1) <= Sdm(freq, k2)
  {
    assert freq * (k1 + 2) * SdmOne <= freq * (k2 + 2) * SdmOne by {
      assert freq * (k2 + 2) == freq * (k1 + 2) + freq * (k2 - k1);
    }
    QuotientMonotone(freq * (k1 + 2) * SdmOne, freq * (k2 + 2) * SdmOne);
  }

  /** A higher frequency never needs a smaller multiplier. */
  lemma SdmMonotoneInFrequency(f1: nat, f2: nat, k: nat)
    requires f1 <= f2
    ensures Sdm(f1, k) <= Sdm(f2, k)
  {
    assert f1 * (k + 2) * SdmOne <= f2 * (k + 2) * SdmOne by {
      assert f2 * (k + 2) == f1 * (k + 2) + (f2 - f1) * (k + 2);
    }
    QuotientMonotone(f1 * (k + 2) * SdmOne, f2 * (k + 2) * SdmOne);
  }

  /** Floor division by the half crystal frequency is monotone. */
  lemma QuotientMonotone(x: nat, y: nat)
    requires x <= y
    ensures x / HalfXtal <= y / HalfXtal
  {
  }

  /** The multiplier is below 2^22 whatever the request, so `sdm >> 16` fits 6 bits from above. */
  lemma SearchResultBelowCeiling(sampleRate: nat, odir: nat)
    requires odir <= MaxOdir
    requires forall k :: 0 <= k < odir ==> KeepSearching(ScaledFrequency(sampleRate), k)
    ensures Sdm(ScaledFrequency(sampleRate), odir) < 0x400000
  {
    var f := ScaledFrequency(sampleRate);
    if odir == 0 {
      SdmMonotoneInFrequency(f, 8 * MaxSampleRate, 0);
      assert Sdm(8 * MaxSampleRate, 0) == 1638399;
    } else {
      assert KeepSearching(f, odir - 1);
    }
  }

  /** When the next divider's multiplier reaches its limit, the current one is not negative. */
  lemma NextLimitImpliesNonNegative(f: nat, k: nat)
    requires Sdm(f, k + 1) >= SdmNextLimit
    ensures Sdm(f, k) >= 0
  {
    var x := f * SdmOne;
    var nk := f * (k + 2) * SdmOne;
    var nk1 := f * (k + 3) * SdmOne;
    assert nk == x * (k + 2) && nk1 == x * (k + 3);
    assert nk1 >= (SdmNextLimit + SdmBias) * HalfXtal;
    assert 3 * nk >= 2 * nk1 by {
      assert 3 * nk - 2 * nk1 == x * k;
    }
    assert nk >= SdmBias * HalfXtal;
    assert nk / HalfXtal >= SdmBias by {
      QuotientMonotone(SdmBias * HalfXtal, nk);
    }
  }

  /**
   * From the minimum rate upwards the chosen multiplier is not negative, so
   * with `SearchResultBelowCeiling` every PLL argument is within its 8/8/6/5-bit range.
   */
  lemma SearchResultNonNegative(sampleRate: nat, odir: nat)
    requires sampleRate >= MinSampleRate
    requires odir <= MaxOdir
    requires !KeepSearching(ScaledFrequency(sampleRate), odir)
    ensures Sdm(ScaledFrequency(sampleRate), odir) >= 0
  {
    var f := ScaledFrequency(sampleRate);
    if Sdm(f, odir) >= SdmLimit {
    } else if odir == MaxOdir {
      SdmMonotoneInFrequency(8 * MinSampleRate, f, MaxOdir);
      assert Sdm(8 * MinSampleRate, MaxOdir) == 0;
    } else {
      NextLimitImpliesNonNegative(f, odir);
    }
  }

  /** Below the minimum rate every multiplier up to the last divider is negative, so the search never stops early. */
  lemma LowRateKeepsSearching(sampleRate: nat, k: nat)
    requires sampleRate < MinSampleRate
    requires k < MaxOdir
    ensures Sdm(ScaledFrequency(sampleRate), MaxOdir) < 0
    ensures KeepSearching(ScaledFrequency(sampleRate), k)
  {
    var f := ScaledFrequency(sampleRate);
    SdmMonotoneInFrequency(f, 8 * (MinSampleRate - 1), MaxOdir);
    assert Sdm(8 * (MinSampleRate - 1), MaxOdir) == -1;
    SdmMonotoneInDivider(f, k, MaxOdir);
    SdmMonotoneInDivider(f, k + 1, MaxOdir);
  }

  /** Below the minimum rate the search runs to the last divider and ends with a negative multiplier. */
  lemma LowRateGivesNegativeSdm(sampleRate: nat, odir: nat)
    requires sampleRate < MinSampleRate
    requires odir <= MaxOdir
    requires !KeepSearching(ScaledFrequency(sampleRate), odir)
    ensures odir == MaxOdir
    ensures Sdm(ScaledFrequency(sampleRate), odir) < 0
  {
    LowRateKeepsSearching(sampleRate, 0);
    forall k | 0 <= k < MaxOdir
      ensures KeepSearching(ScaledFrequency(sampleRate), k)
    {
      LowRateKeepsSearching(sampleRate, k);
    }
  }

  /**
   * As written, a request below the minimum rate hands the PLL a negative
   * top multiplier byte: `sdm >> 16` is below 0, outside its 0..63 range.
   */
  lemma LowRateApllOutOfRange(sampleRate: nat, a: ApllSetting)
    requires sampleRate < MinSampleRate
    requires a.odir <= MaxOdir
    requires a == ApllArgs(Sdm(ScaledFrequency(sampleRate), a.odir), a.odir)
    requires !KeepSearching(ScaledFrequency(sampleRate), a.odir)
    ensures a.odir == MaxOdir && a.sdm2 < 0
  {
    LowRateGivesNegativeSdm(sampleRate, a.odir);
  }

  /** The concrete instance: 303030 Hz ends the search at divider 31 with `sdm == -1`. */
  lemma LowRateExample(a: ApllSetting)
    requires a.odir <= MaxOdir
    requires a == ApllArgs(Sdm(ScaledFrequency(MinSampleRate - 1), a.odir), a.odir)
    requires !KeepSearching(ScaledFrequency(MinSampleRate - 1), a.odir)
    ensures a == ApllSetting(255, 255, -1, 31)
  {
    LowRateGivesNegativeSdm(MinSampleRate - 1, a.odir);
    assert Sdm(ScaledFrequency(MinSampleRate - 1), MaxOdir) == -1;
  }

  /**
   * The clock synthesis with the range check the PLL needs: it fails exactly
   * for the requests below the minimum rate, and otherwise every argument is
   * within its 8/8/6/5-bit field.
   */
  method SynthesizeClockChecked(sampleRate: nat) returns (r: Option<ApllSetting>)
    ensures r.Some? <==> sampleRate >= MinSampleRate
    ensures r.Some? ==> r.value.odir <= MaxOdir
    ensures r.Some? ==> 0 <= r.value.sdm0 <= 255 && 0 <= r.value.sdm1 <= 255
    ensures r.Some? ==> 0 <= r.value.sdm2 <= 63
    ensures r.Some? ==> r.value == ApllArgs(Sdm(ScaledFrequency(sampleRate), r.value.odir), r.value.odir)
  {
    var freq := ScaledFrequency(sampleRate);
    var odir, sdm := SearchDivider(freq);
    SearchResultBelowCeiling(sampleRate, odir);
    if sdm < 0 {
      if sampleRate >= MinSampleRate {
        SearchResultNonNegative(sampleRate, odir);
      }
      return None;
    }
    if sampleRate < MinSampleRate {
      LowRateGivesNegativeSdm(sampleRate, odir);
    }
    r := Some(ApllArgs(sdm, odir));
  }
}
