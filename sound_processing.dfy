/**
 * sound_processing.py, apply_equalizer: every band of the table is turned into
 * band edges, checked against the Nyquist frequency, filtered and weighted, and
 * the weighted band signals are summed. The Butterworth design with zero-phase
 * filtering (scipy) and the dB-to-linear law 10 ** (gain / 20) are abstract; the
 * two ValueErrors scipy raises on the way (a critical frequency outside (0, 1), an
 * input too short for filtfilt's padding) are modelled.
 */
module SoundProcessing {
  import opened Constants
  import opened Wrappers

  datatype EqError =
    | ZeroDivisionError
      /** ValueError("Invalid filter band limits"), with the normalised edges. */
    | InvalidBandLimits(low: real, high: real)
      /** butter's ValueError: digital critical frequencies must satisfy 0 < Wn < 1. */
    | CriticalFrequencyError
      /** filtfilt's ValueError: the input must be longer than padlen. */
    | InputTooShort

  /**
   * filtfilt pads by 3 * max(len(a), len(b)) samples; an order-4 band-pass design has
   * nine coefficients on each side, so the input must be longer than 27 samples.
   */
  const FiltfiltPadLen: nat := 27

  /**
   * The numerical collaborators: bandpass(lowFreq, highFreq, fs, x) stands for
   * filtfilt(butter(4, [lowFreq, highFreq], 'bandpass', fs=fs), x) on arguments both
   * accept; dbToLinear(g) for 10 ** (g / 20).
   */
  datatype Dsp = Dsp(bandpass: (real, real, real, seq<real>) -> seq<real>, dbToLinear: real -> real)

  /** Filtering keeps the length of the signal. */
  ghost predicate LengthPreserving(dsp: Dsp) {
    forall lo, hi, fs, x :: |dsp.bandpass(lo, hi, fs, x)| == |x|
  }

  /** The band's edges in Hz: an interval of width freq / q centred on freq. */
  function BandEdges(b: Band): (edges: (real, real))
    requires b.q != 0.0
    ensures edges.1 - edges.0 == b.freq / b.q
    ensures edges.0 + edges.1 == 2.0 * b.freq
  {
    var bandwidth := b.freq / b.q;
    (b.freq - bandwidth / 2.0, b.freq + bandwidth / 2.0)
  }

  /**
   * The per-band part of apply_equalizer before any filtering: the edges, the
   * normalisation by nyquist = samplerate / 2, the check 0 <= low < high <= 1 of
   * line 70, then butter's own check 0 < Wn < 1 on the same normalised edges
   * (Wn / (fs / 2) with fs = samplerate). For a positive rate this accepts exactly the
   * bands whose edges lie strictly inside (0, samplerate / 2).
   */
  function CheckBand(b: Band, samplerate: real): (r: Result<(real, real), EqError>)
    ensures b.q == 0.0 || samplerate == 0.0 ==> r == Err(ZeroDivisionError)
    ensures r.Ok? ==> b.q != 0.0 && r.value == BandEdges(b)
    ensures samplerate > 0.0 && b.q != 0.0 ==>
              (r.Ok? <==> 0.0 < BandEdges(b).0 < BandEdges(b).1 < samplerate / 2.0)
    ensures samplerate > 0.0 && b.q != 0.0 ==>
              (r.Err? && r.error.InvalidBandLimits? <==> !(0.0 <= BandEdges(b).0 < BandEdges(b).1 <= samplerate / 2.0))
  {
    if b.q == 0.0 then Err(ZeroDivisionError)
    else
      var edges := BandEdges(b);
      var nyquist := samplerate / 2.0;
      if nyquist == 0.0 then Err(ZeroDivisionError)
      else
        var low := edges.0 / nyquist;
        var high := edges.1 / nyquist;
        NormalisedBounds(edges.0, edges.1, nyquist);
        if !(0.0 <= low < high <= 1.0) then Err(InvalidBandLimits(low, high))
        else if !(0.0 < low && high < 1.0) then Err(CriticalFrequencyError)
        else Ok(edges)
  }

  /** Dividing by a positive Nyquist frequency keeps the order of the edges and of 0 and 1. */
  lemma NormalisedBounds(lo: real, hi: real, nyquist: real)
    requires nyquist != 0.0
    ensures nyquist > 0.0 ==>
              (0.0 <= lo / nyquist < hi / nyquist <= 1.0 <==> 0.0 <= lo < hi <= nyquist)
    ensures nyquist > 0.0 ==>
              (0.0 < lo / nyquist < hi / nyquist < 1.0 <==> 0.0 < lo < hi < nyquist)
  {
    if nyquist > 0.0 {
      var l, h := lo / nyquist, hi / nyquist;
      assert lo == l * nyquist && hi == h * nyquist;
      SignOfProduct(l, nyquist);
      SignOfProduct(h - l, nyquist);
      SignOfProduct(1.0 - h, nyquist);
      assert (h - l) * nyquist == hi - lo;
      assert (1.0 - h) * nyquist == nyquist - hi;
    }
  }

  /** Multiplying by a positive number keeps the sign. */
  lemma SignOfProduct(a: real, n: real)
    requires n > 0.0
    ensures a > 0.0 <==> a * n > 0.0
    ensures a >= 0.0 <==> a * n >= 0.0
  {
  }

  /** The first example: freq 4000, q 1 at 192 kHz gives the edges 2000 and 6000, accepted. */
  lemma AcceptedExample(gain: real)
    ensures CheckBand(Band(4000.0, gain, 1.0), 192000.0) == Ok((2000.0, 6000.0))
  {
  }

  /** The second example: freq 4000, q 0.1 at 8 kHz gives low edge -16000 Hz (-4 normalised), rejected. */
  lemma RejectedExample(gain: real)
    ensures BandEdges(Band(4000.0, gain, 0.1)) == (-16000.0, 24000.0)
    ensures CheckBand(Band(4000.0, gain, 0.1), 8000.0) == Err(InvalidBandLimits(-4.0, 6.0))
  {
  }

  /** freq 1000, q 0.5 at 8 kHz: the low edge is exactly 0, which line 70 lets through and butter rejects. */
  lemma EdgeAtZeroExample(gain: real)
    ensures BandEdges(Band(1000.0, gain, 0.5)) == (0.0, 2000.0)
    ensures CheckBand(Band(1000.0, gain, 0.5), 8000.0) == Err(CriticalFrequencyError)
  {
  }

  function Zeros(n: nat): (z: seq<real>)
    ensures |z| == n && forall k :: 0 <= k < n ==> z[k] == 0.0
  {
    seq(n, k => 0.0)
  }

  /** acc += x * gain, element by element. */
  function AddScaled(acc: seq<real>, x: seq<real>, gain: real): (r: seq<real>)
    requires |x| == |acc|
    ensures |r| == |acc| && forall k :: 0 <= k < |acc| ==> r[k] == acc[k] + x[k] * gain
  {
    seq(|acc|, k requires 0 <= k < |acc| => acc[k] + x[k] * gain)
  }

  /** The weighted output of one band that passes the check. */
  function Contribution(data: seq<real>, samplerate: real, b: Band, dsp: Dsp): (c: seq<real>)
    requires LengthPreserving(dsp) && CheckBand(b, samplerate).Ok?
    ensures |c| == |data|
  {
    var edges := BandEdges(b);
    var filtered := dsp.bandpass(edges.0, edges.1, samplerate, data);
    AddScaled(Zeros(|data|), filtered, dsp.dbToLinear(b.gain))
  }

  /**
   * One band from line 59 to line 77: CheckBand, then filtfilt's refusal of an input
   * of n <= FiltfiltPadLen samples. The first failure decides the error.
   */
  function FilterCheck(b: Band, samplerate: real, n: nat): (r: Result<(real, real), EqError>)
    ensures r.Ok? <==> CheckBand(b, samplerate).Ok? && n > FiltfiltPadLen
    ensures r.Ok? ==> r.value == BandEdges(b)
    ensures CheckBand(b, samplerate).Err? ==> r == CheckBand(b, samplerate)
    ensures CheckBand(b, samplerate).Ok? && n <= FiltfiltPadLen ==> r == Err(InputTooShort)
  {
    match CheckBand(b, samplerate)
    case Err(e) => Err(e)
    case Ok(edges) => if n <= FiltfiltPadLen then Err(InputTooShort) else Ok(edges)
  }

  /**
   * The loop of apply_equalizer over the first |bands| bands: starting from zeros,
   * add each band's contribution in turn; the first band that fails raises.
   */
  function Accumulate(data: seq<real>, samplerate: real, bands: seq<Band>, dsp: Dsp): (r: Result<seq<real>, EqError>)
    requires LengthPreserving(dsp)
    ensures r.Ok? ==> |r.value| == |data|
  {
    if |bands| == 0 then Ok(Zeros(|data|))
    else
      match Accumulate(data, samplerate, bands[..|bands| - 1], dsp)
      case Err(e) => Err(e)
      case Ok(acc) =>
        var b := bands[|bands| - 1];
        match FilterCheck(b, samplerate, |data|)
        case Err(e) => Err(e)
        case Ok(edges) =>
          Ok(AddScaled(acc, dsp.bandpass(edges.0, edges.1, samplerate, data), dsp.dbToLinear(b.gain)))
  }

  /** apply_equalizer as a whole: an empty table returns the input itself, any other table the loop's outcome. */
  function Equalize(data: seq<real>, samplerate: real, bands: seq<Band>, dsp: Dsp): (r: Result<seq<real>, EqError>)
    requires LengthPreserving(dsp)
    ensures |bands| == 0 ==> r == Ok(data)
    ensures r.Ok? ==> |r.value| == |data|
  {
    if |bands| == 0 then Ok(data) else Accumulate(data, samplerate, bands, dsp)
  }

  /**
   * apply_equalizer(data, samplerate) over the band table's entries in iteration
   * order. (The table itself is read from the module's AudioSettings instance.)
   */
  method ApplyEqualizer(data: seq<real>, samplerate: real, bands: seq<Band>, dsp: Dsp)
    returns (r: Result<seq<real>, EqError>)
    requires LengthPreserving(dsp)
    ensures r == Equalize(data, samplerate, bands, dsp)
    ensures |bands| == 0 ==> r == Ok(data)
    ensures r.Ok? ==> |r.value| == |data|
  {
    if |bands| == 0 {
      return Ok(data);
    }
    var equalized := Zeros(|data|);
    var i := 0;
    while i < |bands|
      invariant 0 <= i <= |bands|
      invariant Accumulate(data, samplerate, bands[..i], dsp) == Ok(equalized)
    {
      var b := bands[i];
      assert bands[..i + 1][..i] == bands[..i];
      if b.q == 0.0 {
        AccumulateErrorSticks(data, samplerate, bands, dsp, i + 1);
        return Err(ZeroDivisionError);
      }
      var bandwidth := b.freq / b.q;
      var lowFreq := b.freq - bandwidth / 2.0;
      var highFreq := b.freq + bandwidth / 2.0;
      var nyquist := samplerate / 2.0;
      if nyquist == 0.0 {
        AccumulateErrorSticks(data, samplerate, bands, dsp, i + 1);
        return Err(ZeroDivisionError);
      }
      var low := lowFreq / nyquist;
      var high := highFreq / nyquist;
      if !(0.0 <= low < high <= 1.0) {
        AccumulateErrorSticks(data, samplerate, bands, dsp, i + 1);
        return Err(InvalidBandLimits(low, high));
      }
      // butter(N=4, Wn=[lowFreq, highFreq], fs=samplerate) divides by fs / 2 again: Wn is (low, high).
      if !(0.0 < low && high < 1.0) {
        AccumulateErrorSticks(data, samplerate, bands, dsp, i + 1);
        return Err(CriticalFrequencyError);
      }
      if |data| <= FiltfiltPadLen {
        AccumulateErrorSticks(data, samplerate, bands, dsp, i + 1);
        return Err(InputTooShort);
      }
      var bandFiltered := dsp.bandpass(lowFreq, highFreq, samplerate, data);
      equalized := AddScaled(equalized, bandFiltered, dsp.dbToLinear(b.gain));
      i := i + 1;
    }
    assert bands[..i] == bands;
    r := Ok(equalized);
  }

  /** Once a prefix of the table has raised, the whole table raises the same error. */
  lemma {:induction false} AccumulateErrorSticks(data: seq<real>, samplerate: real, bands: seq<Band>, dsp: Dsp, j: nat)
    requires LengthPreserving(dsp) && j <= |bands|
    requires Accumulate(data, samplerate, bands[..j], dsp).Err?
    ensures Accumulate(data, samplerate, bands, dsp) == Accumulate(data, samplerate, bands[..j], dsp)
    decreases |bands| - j
  {
    if j < |bands| {
      assert bands[..j + 1][..j] == bands[..j];
      AccumulateErrorSticks(data, samplerate, bands, dsp, j + 1);
    } else {
      assert bands[..j] == bands;
    }
  }

  /** Every band of the table passes the checks of lines 59-77 on an n-sample input. */
  predicate AllBandsPass(bands: seq<Band>, samplerate: real, n: nat) {
    forall b :: b in bands ==> FilterCheck(b, samplerate, n).Ok?
  }

  /**
   * The loop completes exactly when every band passes: one bad band anywhere makes
   * the call raise, and so does any band at all on an input of 27 samples or fewer.
   */
  lemma {:induction false} AccumulateOkIff(data: seq<real>, samplerate: real, bands: seq<Band>, dsp: Dsp)
    requires LengthPreserving(dsp)
    ensures Accumulate(data, samplerate, bands, dsp).Ok? <==> AllBandsPass(bands, samplerate, |data|)
    ensures Accumulate(data, samplerate, bands, dsp).Ok? <==>
              (|bands| == 0 || |data| > FiltfiltPadLen) && forall b :: b in bands ==> CheckBand(b, samplerate).Ok?
  {
    if |bands| > 0 {
      var init := bands[..|bands| - 1];
      AccumulateOkIff(data, samplerate, init, dsp);
      assert bands == init + [bands[|bands| - 1]];
    }
    AllBandsPassIff(bands, samplerate, |data|);
  }

  lemma AllBandsPassIff(bands: seq<Band>, samplerate: real, n: nat)
    ensures AllBandsPass(bands, samplerate, n) <==>
              (|bands| == 0 || n > FiltfiltPadLen) && forall b :: b in bands ==> CheckBand(b, samplerate).Ok?
  {
    if |bands| > 0 {
      assert bands[0] in bands;
    }
  }

  /** The error raised is the one of the first band, in iteration order, that fails the checks. */
  lemma AccumulateFirstError(data: seq<real>, samplerate: real, bands: seq<Band>, dsp: Dsp, j: nat)
    requires LengthPreserving(dsp) && j < |bands|
    requires FilterCheck(bands[j], samplerate, |data|).Err?
    requires forall i :: 0 <= i < j ==> FilterCheck(bands[i], samplerate, |data|).Ok?
    ensures Accumulate(data, samplerate, bands, dsp) == Err(FilterCheck(bands[j], samplerate, |data|).error)
  {
    AccumulateOkIff(data, samplerate, bands[..j], dsp);
    assert forall b :: b in bands[..j] ==> FilterCheck(b, samplerate, |data|).Ok?;
    assert bands[..j + 1][..j] == bands[..j];
    AccumulateErrorSticks(data, samplerate, bands, dsp, j + 1);
  }

  /** Sample k of one band's weighted output; a band that fails the check adds nothing. */
  function Term(data: seq<real>, samplerate: real, b: Band, dsp: Dsp, k: nat): real
    requires LengthPreserving(dsp) && k < |data|
  {
    if CheckBand(b, samplerate).Ok? then Contribution(data, samplerate, b, dsp)[k] else 0.0
  }

  /** Sample k of the sum over the bands of their weighted outputs. */
  function BandSum(data: seq<real>, samplerate: real, bands: seq<Band>, dsp: Dsp, k: nat): real
    requires LengthPreserving(dsp) && k < |data|
  {
    if |bands| == 0 then 0.0
    else Term(data, samplerate, bands[0], dsp, k) + BandSum(data, samplerate, bands[1..], dsp, k)
  }

  lemma {:induction false} BandSumSnoc(data: seq<real>, samplerate: real, bands: seq<Band>, b: Band, dsp: Dsp, k: nat)
    requires LengthPreserving(dsp) && k < |data|
    ensures BandSum(data, samplerate, bands + [b], dsp, k)
         == BandSum(data, samplerate, bands, dsp, k) + Term(data, samplerate, b, dsp, k)
  {
    if |bands| == 0 {
      assert ([] + [b])[1..] == [];
    } else {
      assert (bands + [b])[1..] == bands[1..] + [b];
      BandSumSnoc(data, samplerate, bands[1..], b, dsp, k);
    }
  }

  /** The equalized signal is, sample by sample, the sum of the bands' weighted outputs. */
  lemma {:induction false} AccumulateIsBandSum(data: seq<real>, samplerate: real, bands: seq<Band>, dsp: Dsp)
    requires LengthPreserving(dsp)
    requires Accumulate(data, samplerate, bands, dsp).Ok?
    ensures var out := Accumulate(data, samplerate, bands, dsp).value;
            |out| == |data| &&
            forall k :: 0 <= k < |data| ==> out[k] == BandSum(data, samplerate, bands, dsp, k)
  {
    if |bands| > 0 {
      var init, last := bands[..|bands| - 1], bands[|bands| - 1];
      AccumulateIsBandSum(data, samplerate, init, dsp);
      assert init + [last] == bands;
      forall k | 0 <= k < |data|
        ensures Accumulate(data, samplerate, bands, dsp).value[k] == BandSum(data, samplerate, bands, dsp, k)
      {
        BandSumSnoc(data, samplerate, init, last, dsp, k);
      }
    }
  }

  lemma {:induction false} BandSumRemove(data: seq<real>, samplerate: real, bands: seq<Band>, dsp: Dsp, i: nat, k: nat)
    requires LengthPreserving(dsp) && k < |data| && i < |bands|
    ensures BandSum(data, samplerate, bands, dsp, k)
         == Term(data, samplerate, bands[i], dsp, k) + BandSum(data, samplerate, bands[..i] + bands[i + 1..], dsp, k)
  {
    if i == 0 {
      assert bands[..0] + bands[1..] == bands[1..];
    } else {
      var tail := bands[1..];
      BandSumRemove(data, samplerate, tail, dsp, i - 1, k);
      var rest := bands[..i] + bands[i + 1..];
      assert rest[0] == bands[0];
      assert rest[1..] == tail[..i - 1] + tail[i..];
    }
  }

  /** Summation does not depend on the order in which the bands are visited. */
  lemma {:induction false} BandSumPermutation(data: seq<real>, samplerate: real, s: seq<Band>, t: seq<Band>, dsp: Dsp, k: nat)
    requires LengthPreserving(dsp) && k < |data|
    requires multiset(s) == multiset(t)
    ensures BandSum(data, samplerate, s, dsp, k) == BandSum(data, samplerate, t, dsp, k)
    decreases |s|
  {
    if |s| > 0 {
      assert s[0] in multiset(t);
      var i :| 0 <= i < |t| && t[i] == s[0];
      BandSumRemove(data, samplerate, t, dsp, i, k);
      MultisetTails(s, t, i);
      BandSumPermutation(data, samplerate, s[1..], t[..i] + t[i + 1..], dsp, k);
    }
  }

  /** Taking the same element off the front of s and out of t leaves equal multisets. */
  lemma MultisetTails<T>(s: seq<T>, t: seq<T>, i: nat)
    requires |s| > 0 && i < |t| && t[i] == s[0] && multiset(s) == multiset(t)
    ensures multiset(s[1..]) == multiset(t[..i] + t[i + 1..])
  {
    assert t == t[..i] + [t[i]] + t[i + 1..];
    assert s == [s[0]] + s[1..];
    assert multiset(t) == multiset(t[..i]) + multiset([t[i]]) + multiset(t[i + 1..]);
    assert multiset(s[1..]) == multiset(s) - multiset([s[0]]);
  }

  /**
   * apply_equalizer gives the same answer for any iteration order of the same bands:
   * it raises for both or for neither, and the sums agree.
   */
  lemma EqualizeOrderIndependent(data: seq<real>, samplerate: real, s: seq<Band>, t: seq<Band>, dsp: Dsp)
    requires LengthPreserving(dsp)
    requires multiset(s) == multiset(t)
    ensures Equalize(data, samplerate, s, dsp).Ok? <==> Equalize(data, samplerate, t, dsp).Ok?
    ensures Equalize(data, samplerate, s, dsp).Ok? ==>
              Equalize(data, samplerate, s, dsp).value == Equalize(data, samplerate, t, dsp).value
  {
    assert |s| == |multiset(s)| == |multiset(t)| == |t|;
    if |s| > 0 {
      AccumulateOkIff(data, samplerate, s, dsp);
      AccumulateOkIff(data, samplerate, t, dsp);
      assert AllBandsPass(s, samplerate, |data|) <==> AllBandsPass(t, samplerate, |data|) by {
        assert forall b :: b in s <==> b in t by {
          forall b ensures b in s <==> b in t {
            assert b in s <==> b in multiset(s);
            assert b in t <==> b in multiset(t);
          }
        }
      }
      if AllBandsPass(s, samplerate, |data|) {
        AccumulateIsBandSum(data, samplerate, s, dsp);
        AccumulateIsBandSum(data, samplerate, t, dsp);
        forall k | 0 <= k < |data|
          ensures BandSum(data, samplerate, s, dsp, k) == BandSum(data, samplerate, t, dsp, k)
        {
          BandSumPermutation(data, samplerate, s, t, dsp, k);
        }
      }
    }
  }
}
