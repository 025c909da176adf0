/**
 * filters.py, the filter classes: sample-type choice, channel de-interleaving and
 * re-interleaving, and the per-channel filter state that LowPassFilter,
 * HighPassFilter and BandFilter carry from one call to the next. The three classes
 * share one process method and differ only in their design and gain, so they are
 * one class here, built by three factory methods that raise as the constructors do.
 * scipy's butter, lfilter and lfilter_zi are abstract, apart from the checks butter
 * makes on its critical frequencies.
 */
module Filters {
  import opened Wrappers

  /** The NumPy sample types the code meets: the two integer types of get_numpy_dtype, and two float types. */
  datatype Dtype = Int8 | Int16 | Float32 | Float64

  predicate IsInteger(d: Dtype) {
    d == Int8 || d == Int16
  }

  /** get_numpy_dtype: one byte per sample is int8, everything else int16. */
  function GetNumpyDtype(sampleWidth: int): (d: Dtype)
    ensures d == Int8 <==> sampleWidth == 1
    ensures d == Int8 || d == Int16
  {
    if sampleWidth == 1 then Int8
    else if sampleWidth == 2 then Int16
    else Int16
  }

  /**
   * One designed filter: step(x, zi) is lfilter(b, a, x, zi=zi), returning the
   * filtered samples and the final state; initialState is lfilter_zi(b, a).
   */
  datatype Design = Design(step: (seq<real>, seq<real>) -> (seq<real>, seq<real>), initialState: seq<real>)

  /** lfilter returns as many samples as it is given. */
  ghost predicate LengthPreserving(design: Design) {
    forall x, zi :: |design.step(x, zi).0| == |x|
  }

  /** The request handed to butter, with frequencies already divided by the Nyquist frequency. */
  datatype Request = LowPass(cutoff: real) | HighPass(cutoff: real) | BandPass(low: real, high: real)

  /**
   * The checks butter makes before designing a digital filter, each raising
   * ValueError: every critical frequency strictly between 0 and 1, and for a band the
   * lower one below the upper one.
   */
  predicate ButterAccepts(request: Request) {
    match request
    case LowPass(w) => 0.0 < w < 1.0
    case HighPass(w) => 0.0 < w < 1.0
    case BandPass(lo, hi) => 0.0 < lo < hi < 1.0
  }

  /** butter(order, request) designs, for every request it accepts, a filter that keeps the length of a signal. */
  ghost predicate Butterworth(butter: (nat, Request) -> Design) {
    forall order, request :: ButterAccepts(request) ==> LengthPreserving(butter(order, request))
  }

  /** The exceptions a filter constructor raises: a zero sample rate, or a request butter refuses. */
  datatype FilterError = ZeroDivisionError | ValueError

  /** The smallest and largest value of an integer sample type. */
  function MinSample(d: Dtype): real
    requires IsInteger(d)
  {
    if d == Int8 then -128.0 else -32768.0
  }

  function MaxSample(d: Dtype): real
    requires IsInteger(d)
  {
    if d == Int8 then 127.0 else 32767.0
  }

  /** Float-to-integer conversion in NumPy: the fractional part is dropped, toward zero. */
  function TruncateTowardZero(x: real): (r: int)
    ensures x >= 0.0 ==> r as real <= x < r as real + 1.0
    ensures x < 0.0 ==> r as real - 1.0 < x <= r as real
  {
    if x >= 0.0 then x.Floor else -((-x).Floor)
  }

  /** How many values an integer sample type has: 2^8 or 2^16. */
  function Modulus(d: Dtype): int
    requires IsInteger(d)
  {
    if d == Int8 then 0x100 else 0x1_0000
  }

  /** Two's-complement wrap of a whole number into the range of an integer sample type. */
  function Wrap(n: int, d: Dtype): (r: int)
    requires IsInteger(d)
    ensures MinSample(d) <= r as real <= MaxSample(d)
    ensures (r - n) % Modulus(d) == 0
    ensures MinSample(d) <= n as real <= MaxSample(d) ==> r == n
  {
    if d == Int8 then WrapInt8(n) else WrapInt16(n)
  }

  function WrapInt8(n: int): (r: int)
    ensures -0x80 <= r < 0x80 && (r - n) % 0x100 == 0
    ensures -0x80 <= n < 0x80 ==> r == n
  {
    (n + 0x80) % 0x100 - 0x80
  }

  function WrapInt16(n: int): (r: int)
    ensures -0x8000 <= r < 0x8000 && (r - n) % 0x1_0000 == 0
    ensures -0x8000 <= n < 0x8000 ==> r == n
  {
    (n + 0x8000) % 0x1_0000 - 0x8000
  }

  /**
   * The value a float sample takes when it is stored into an array of type d, as in
   * filtered_data[i::channels] = channel: a float type keeps it, an integer type
   * truncates it toward zero, without clipping, and wraps what falls outside.
   */
  function StoreSample(x: real, d: Dtype): (r: real)
    ensures !IsInteger(d) ==> r == x
    ensures IsInteger(d) ==> MinSample(d) <= r <= MaxSample(d) && r == r.Floor as real
    ensures IsInteger(d) && MinSample(d) <= x <= MaxSample(d) ==> r == TruncateTowardZero(x) as real
  {
    if IsInteger(d) then Wrap(TruncateTowardZero(x), d) as real else x
  }

  function StoreAll(xs: seq<real>, d: Dtype): (r: seq<real>)
    ensures |r| == |xs| && forall k :: 0 <= k < |xs| ==> r[k] == StoreSample(xs[k], d)
  {
    seq(|xs|, k requires 0 <= k < |xs| => StoreSample(xs[k], d))
  }

  /** Stored into int16, 1.7 becomes 1 and -1.7 becomes -1 (no rounding), and 40000 wraps to -25536 (no clipping). */
  lemma StoreSampleExamples()
    ensures StoreSample(1.7, Int16) == 1.0 && StoreSample(-1.7, Int16) == -1.0
    ensures StoreSample(40000.0, Int16) == -25536.0
  {
    assert TruncateTowardZero(40000.0) == 40000;
  }

  /** Every sample of the buffer is a value of type d: whole and in range when d is an integer type. */
  predicate Representable(xs: seq<real>, d: Dtype) {
    IsInteger(d) ==> forall k :: 0 <= k < |xs| ==> xs[k] == xs[k].Floor as real && MinSample(d) <= xs[k] <= MaxSample(d)
  }

  /** Storing samples that are already values of the type changes nothing. */
  lemma StoreRepresentable(xs: seq<real>, d: Dtype)
    requires Representable(xs, d)
    ensures StoreAll(xs, d) == xs
  {
    if IsInteger(d) {
      forall k | 0 <= k < |xs|
        ensures StoreAll(xs, d)[k] == xs[k]
      {
        var x := xs[k];
        assert TruncateTowardZero(x) == x.Floor;
      }
    }
  }

  /** x * gain, element by element. */
  function Scale(x: seq<real>, gain: real): (r: seq<real>)
    ensures |r| == |x| && forall k :: 0 <= k < |x| ==> r[k] == x[k] * gain
  {
    seq(|x|, k requires 0 <= k < |x| => x[k] * gain)
  }

  lemma ScaleByOne(x: seq<real>)
    ensures Scale(x, 1.0) == x
  {
  }

  /** len(range(i, n, c)): how many positions of an n-sample buffer channel i owns. */
  function StrideLength(n: nat, i: nat, c: nat): nat
    requires c >= 1
    decreases n - i
  {
    if i >= n then 0 else 1 + StrideLength(n, i + c, c)
  }

  /** s[i::c]: the samples of channel i in an interleaved buffer of c channels. */
  function Stride(s: seq<real>, i: nat, c: nat): (r: seq<real>)
    requires c >= 1
    ensures |r| == StrideLength(|s|, i, c)
    decreases |s| - i
  {
    if i >= |s| then [] else [s[i]] + Stride(s, i + c, c)
  }

  /** Position j of channel i exists exactly when i + j * c is inside the buffer. */
  lemma {:induction false} StrideLengthIndex(n: nat, i: nat, c: nat, j: nat)
    requires c >= 1
    ensures j < StrideLength(n, i, c) <==> i + j * c < n
    decreases n - i
  {
    if i < n && j > 0 {
      StrideLengthIndex(n, i + c, c, j - 1);
      assert (i + c) + (j - 1) * c == i + j * c;
    } else if i >= n {
      assert j * c >= 0;
    }
  }

  /** Position j of channel i holds sample i + j * c. */
  lemma {:induction false} StrideAt(s: seq<real>, i: nat, c: nat, j: nat)
    requires c >= 1 && j < |Stride(s, i, c)|
    ensures i + j * c < |s| && Stride(s, i, c)[j] == s[i + j * c]
    decreases |s| - i
  {
    StrideLengthIndex(|s|, i, c, j);
    if j > 0 {
      StrideAt(s, i + c, c, j - 1);
      assert (i + c) + (j - 1) * c == i + j * c;
    }
  }

  /** [audio[i::c] for i in range(c)] */
  function Deinterleave(s: seq<real>, c: nat): (chans: seq<seq<real>>)
    requires c >= 1
    ensures |chans| == c
  {
    seq(c, i requires 0 <= i < c => Stride(s, i, c))
  }

  /** c channels, each exactly as long as its share of an n-sample buffer. */
  predicate Fits(chans: seq<seq<real>>, c: nat, n: nat)
    requires c >= 1
  {
    |chans| == c && forall i :: 0 <= i < c ==> |chans[i]| == StrideLength(n, i, c)
  }

  /** k = i + j * c with 0 <= i < c has remainder i and quotient j. */
  lemma DivModOf(i: int, j: int, c: int)
    requires 0 <= i < c && 0 <= j
    ensures (i + j * c) / c == j && (i + j * c) % c == i
  {
    var k := i + j * c;
    var q, r := k / c, k % c;
    assert k == r + q * c;
    assert (j - q) * c == r - i;
    if j > q {
      MulAtLeast(j - q, c);
    } else if j < q {
      MulAtLeast(q - j, c);
    }
  }

  lemma DivSplit(k: int, c: int)
    requires 0 <= k && 0 < c
    ensures k == k % c + (k / c) * c
  {
  }

  lemma MulAtLeast(a: int, c: int)
    requires a >= 1 && c > 0
    ensures a * c >= c
  {
  }

  /** Sample k of an n-sample buffer lies in channel k % c at position k / c. */
  lemma Covers(n: nat, c: nat, k: nat)
    requires c >= 1 && k < n
    ensures k / c < StrideLength(n, k % c, c)
  {
    StrideLengthIndex(n, k % c, c, k / c);
  }

  /** The buffer that interleaving fitting channels fills: sample k comes from channel k % c, position k / c. */
  function Interleave(chans: seq<seq<real>>, c: nat, n: nat): (out: seq<real>)
    requires c >= 1 && Fits(chans, c, n)
    ensures |out| == n
  {
    seq(n, k requires 0 <= k < n => Covers(n, c, k); chans[k % c][k / c])
  }

  /** Splitting into channels and interleaving them back gives the buffer unchanged. */
  lemma InterleaveDeinterleave(s: seq<real>, c: nat)
    requires c >= 1
    ensures Fits(Deinterleave(s, c), c, |s|)
    ensures Interleave(Deinterleave(s, c), c, |s|) == s
  {
    var chans := Deinterleave(s, c);
    forall k | 0 <= k < |s|
      ensures Interleave(chans, c, |s|)[k] == s[k]
    {
      var i, j := k % c, k / c;
      Covers(|s|, c, k);
      StrideAt(s, i, c, j);
      assert i + j * c == k;
    }
  }

  /** The filter state of one filter object: self.zi and self.channels. */
  datatype FilterState = FilterState(zi: Option<seq<seq<real>>>, channels: Option<int>)

  predicate WellFormed(st: FilterState) {
    (st.zi.Some? <==> st.channels.Some?) &&
    (st.zi.Some? ==> st.channels.value >= 1 && |st.zi.value| == st.channels.value)
  }

  /**
   * The per-channel states a call starts from: fresh ones, one per channel, when
   * there are none yet or the channel count changed; otherwise the carried ones.
   */
  function StartStates(design: Design, st: FilterState, c: nat): (states: seq<seq<real>>)
    requires WellFormed(st)
    ensures |states| == c
  {
    if st.zi.None? || st.channels != Some(c) then seq(c, _ => design.initialState)
    else st.zi.value
  }

  /** The filter output for each channel of a multi-channel call, with gain applied. */
  function FilteredChannels(design: Design, gain: real, states: seq<seq<real>>, audio: seq<real>, c: nat): (fs: seq<seq<real>>)
    requires c >= 1 && |states| == c && LengthPreserving(design)
    ensures Fits(fs, c, |audio|)
  {
    var chans := Deinterleave(audio, c);
    seq(c, i requires 0 <= i < c => Scale(design.step(chans[i], states[i]).0, gain))
  }

  /** The final per-channel states of a multi-channel call. */
  function FinalStates(design: Design, states: seq<seq<real>>, audio: seq<real>, c: nat): (zs: seq<seq<real>>)
    requires c >= 1 && |states| == c
    ensures |zs| == c
  {
    var chans := Deinterleave(audio, c);
    seq(c, i requires 0 <= i < c => design.step(chans[i], states[i]).1)
  }

  /**
   * What one process(audio_data, channels) call returns, and the filter state it
   * leaves, for audio of type dtype. Several channels are written back into an array
   * of the input's type; one channel is lfilter's float64 output as it is.
   */
  function ProcessSpec(design: Design, gain: real, st: FilterState, audio: seq<real>, dtype: Dtype, c: nat): (r: (seq<real>, FilterState))
    requires c >= 1 && WellFormed(st) && LengthPreserving(design)
    ensures |r.0| == |audio|
    ensures WellFormed(r.1) && r.1.channels == Some(c)
  {
    var states := StartStates(design, st, c);
    if c > 1 then
      (StoreAll(Interleave(FilteredChannels(design, gain, states, audio, c), c, |audio|), dtype),
       FilterState(Some(FinalStates(design, states, audio, c)), Some(c)))
    else
      var (y, zf) := design.step(audio, states[0]);
      (Scale(y, gain), FilterState(Some(states[0 := zf]), Some(c)))
  }

  /** The type of process's result: the input's type for several channels, float64 for one. */
  function ProcessType(dtype: Dtype, c: nat): Dtype {
    if c > 1 then dtype else Float64
  }

  /** With a filter that passes samples through and unit gain, process returns its input, for any channel count. */
  lemma PassThroughFilter(design: Design, st: FilterState, audio: seq<real>, dtype: Dtype, c: nat)
    requires c >= 1 && WellFormed(st) && LengthPreserving(design) && Representable(audio, dtype)
    requires forall x, zi :: design.step(x, zi).0 == x
    ensures ProcessSpec(design, 1.0, st, audio, dtype, c).0 == audio
  {
    var states := StartStates(design, st, c);
    if c > 1 {
      var fs := FilteredChannels(design, 1.0, states, audio, c);
      var chans := Deinterleave(audio, c);
      assert forall i :: 0 <= i < c ==> fs[i] == Scale(chans[i], 1.0) == chans[i];
      assert fs == chans;
      InterleaveDeinterleave(audio, c);
      StoreRepresentable(audio, dtype);
    } else {
      ScaleByOne(audio);
    }
  }

  /** A filter object of filters.py: LowPassFilter, HighPassFilter or BandFilter. */
  class ChannelFilter {
    const design: Design
    const gain: real
    var zi: Option<seq<seq<real>>>
    var channels: Option<int>

    ghost predicate Valid()
      reads this
    {
      LengthPreserving(design) && WellFormed(State())
    }

    function State(): FilterState
      reads this
    {
      FilterState(zi, channels)
    }

    /** A filter over an accepted design, with its gain and no state yet. */
    constructor(design: Design, gain: real)
      requires LengthPreserving(design)
      ensures Valid()
      ensures this.design == design && this.gain == gain && State() == FilterState(None, None)
    {
      this.design := design;
      this.gain := gain;
      zi := None;
      channels := None;
    }

    /**
     * process(audio_data, channels). The state is reset to one lfilter_zi entry per
     * channel when absent or when the channel count changed; then each channel is
     * filtered from its own state, which is updated, and the channels are put back
     * in their interleaved places.
     */
    method Process(audio: seq<real>, dtype: Dtype, c: int) returns (out: seq<real>, outType: Dtype)
      requires Valid() && c >= 1
      modifies this
      ensures Valid()
      ensures (out, State()) == ProcessSpec(design, gain, old(State()), audio, dtype, c)
      ensures outType == ProcessType(dtype, c)
      ensures |out| == |audio|
    {
      ghost var start := StartStates(design, State(), c);
      if zi.None? || channels != Some(c) {
        channels := Some(c);
        zi := Some(seq(c, _ => design.initialState));
      }
      assert zi.value == start;
      if c > 1 {
        var channelData := Deinterleave(audio, c);
        var filteredChannels: seq<seq<real>> := [];
        var i := 0;
        while i < c
          invariant 0 <= i <= c && |filteredChannels| == i
          invariant channels == Some(c) && zi.Some? && |zi.value| == c
          invariant forall j :: 0 <= j < i ==> zi.value[j] == design.step(channelData[j], start[j]).1
          invariant forall j :: i <= j < c ==> zi.value[j] == start[j]
          invariant forall j :: 0 <= j < i ==>
                      filteredChannels[j] == Scale(design.step(channelData[j], start[j]).0, gain)
        {
          var (filtered, zf) := design.step(channelData[i], zi.value[i]);
          zi := Some(zi.value[i := zf]);
          filteredChannels := filteredChannels + [Scale(filtered, gain)];
          i := i + 1;
        }
        assert filteredChannels == FilteredChannels(design, gain, start, audio, c);
        assert zi.value == FinalStates(design, start, audio, c);
        out := InterleaveInto(filteredChannels, c, |audio|, dtype);
        outType := dtype;
      } else {
        var (filtered, zf) := design.step(audio, zi.value[0]);
        zi := Some(zi.value[0 := zf]);
        out := Scale(filtered, gain);
        outType := Float64;
      }
    }
  }

  /**
   * filtered_data = np.empty(n, dtype); for i, channel in enumerate(chans):
   * filtered_data[i::c] = channel. Every sample is stored into the array's type.
   */
  method InterleaveInto(chans: seq<seq<real>>, c: nat, n: nat, dtype: Dtype) returns (out: seq<real>)
    requires c >= 1 && Fits(chans, c, n)
    ensures out == StoreAll(Interleave(chans, c, n), dtype)
  {
    ghost var target := StoreAll(Interleave(chans, c, n), dtype);
    var buffer := new real[n];
    var i := 0;
    while i < c
      invariant 0 <= i <= c
      invariant forall k :: 0 <= k < n && k % c < i ==> buffer[k] == target[k]
    {
      StoreStride(buffer, chans[i], i, c, dtype);
      i := i + 1;
    }
    out := buffer[..];
  }

  /** buffer[i::c] = channel: sample j of the channel is stored at i + j * c, and no other position changes. */
  method StoreStride(buffer: array<real>, channel: seq<real>, i: nat, c: nat, dtype: Dtype)
    requires c >= 1 && i < c && |channel| == StrideLength(buffer.Length, i, c)
    modifies buffer
    ensures forall k :: 0 <= k < buffer.Length && k % c == i ==>
              k / c < |channel| && buffer[k] == StoreSample(channel[k / c], dtype)
    ensures forall k :: 0 <= k < buffer.Length && k % c != i ==> buffer[k] == old(buffer[k])
  {
    var n := buffer.Length;
    var j := 0;
    while j < |channel|
      invariant 0 <= j <= |channel|
      invariant forall k :: 0 <= k < n && k % c != i ==> buffer[k] == old(buffer[k])
      invariant forall k :: 0 <= k < n && k % c == i && k / c < j ==> buffer[k] == StoreSample(channel[k / c], dtype)
    {
      var p := i + j * c;
      StrideLengthIndex(n, i, c, j);
      DivModOf(i, j, c);
      ghost var before := buffer[..];
      buffer[p] := StoreSample(channel[j], dtype);
      forall k | 0 <= k < n && k != p
        ensures buffer[k] == before[k] && (k % c == i && k / c <= j ==> k / c < j)
      {
        if k % c == i && k / c == j {
          DivSplit(k, c);
        }
      }
      j := j + 1;
    }
    forall k | 0 <= k < n && k % c == i
      ensures k / c < j
    {
      Covers(n, c, k);
    }
  }

  /** A cutoff or band edge divided by the Nyquist frequency of a positive rate lies in (0, 1) exactly when it lies in (0, nyquist). */
  lemma InsideNyquist(lo: real, hi: real, sampleRate: real)
    requires sampleRate > 0.0
    ensures var nyquist := 0.5 * sampleRate;
            (0.0 < lo / nyquist < 1.0 <==> 0.0 < lo < nyquist) &&
            (lo / nyquist < hi / nyquist <==> lo < hi)
  {
    var nyquist := 0.5 * sampleRate;
    assert nyquist > 0.0;
    var l, h := lo / nyquist, hi / nyquist;
    assert lo == l * nyquist && hi == h * nyquist;
    assert 0.0 < l < 1.0 <==> 0.0 < l && 0.0 < 1.0 - l;
    assert (h - l) * nyquist == hi - lo;
    assert (1.0 - l) * nyquist == nyquist - lo;
    PositiveProduct(l, nyquist);
    PositiveProduct(h - l, nyquist);
    PositiveProduct(1.0 - l, nyquist);
  }

  lemma PositiveProduct(a: real, n: real)
    requires n > 0.0
    ensures a > 0.0 <==> a * n > 0.0
  {
  }

  /** LowPassFilter(cutoff_freq, sample_rate, order=4): raises, or a low-pass filter with gain 1 and no state yet. */
  method LowPassFilter(cutoffFreq: real, sampleRate: real, butter: (nat, Request) -> Design, order: nat := 4)
    returns (r: Result<ChannelFilter, FilterError>)
    requires Butterworth(butter)
    ensures sampleRate == 0.0 <==> r == Err(ZeroDivisionError)
    ensures r.Ok? <==> sampleRate != 0.0 && ButterAccepts(LowPass(cutoffFreq / (0.5 * sampleRate)))
    ensures r.Ok? ==> fresh(r.value) && r.value.Valid() && r.value.gain == 1.0 &&
                      r.value.design == butter(order, LowPass(cutoffFreq / (0.5 * sampleRate))) &&
                      r.value.State() == FilterState(None, None)
  {
    var nyquist := 0.5 * sampleRate;
    if nyquist == 0.0 {
      return Err(ZeroDivisionError);
    }
    var request := LowPass(cutoffFreq / nyquist);
    if !ButterAccepts(request) {
      return Err(ValueError);
    }
    var f := new ChannelFilter(butter(order, request), 1.0);
    return Ok(f);
  }

  /** HighPassFilter(cutoff_freq, sample_rate, order=4): raises, or a high-pass filter with gain 1 and no state yet. */
  method HighPassFilter(cutoffFreq: real, sampleRate: real, butter: (nat, Request) -> Design, order: nat := 4)
    returns (r: Result<ChannelFilter, FilterError>)
    requires Butterworth(butter)
    ensures sampleRate == 0.0 <==> r == Err(ZeroDivisionError)
    ensures r.Ok? <==> sampleRate != 0.0 && ButterAccepts(HighPass(cutoffFreq / (0.5 * sampleRate)))
    ensures r.Ok? ==> fresh(r.value) && r.value.Valid() && r.value.gain == 1.0 &&
                      r.value.design == butter(order, HighPass(cutoffFreq / (0.5 * sampleRate))) &&
                      r.value.State() == FilterState(None, None)
  {
    var nyquist := 0.5 * sampleRate;
    if nyquist == 0.0 {
      return Err(ZeroDivisionError);
    }
    var request := HighPass(cutoffFreq / nyquist);
    if !ButterAccepts(request) {
      return Err(ValueError);
    }
    var f := new ChannelFilter(butter(order, request), 1.0);
    return Ok(f);
  }

  /**
   * BandFilter(low_freq, high_freq, sample_rate, gain_db=0, order=4): raises, or a
   * band-pass filter with gain 10 ** (gain_db / 20) (the abstract dbToLinear) and no
   * state yet.
   */
  method BandFilter(lowFreq: real, highFreq: real, sampleRate: real, butter: (nat, Request) -> Design,
                    dbToLinear: real -> real, gainDb: real := 0.0, order: nat := 4)
    returns (r: Result<ChannelFilter, FilterError>)
    requires Butterworth(butter)
    ensures sampleRate == 0.0 <==> r == Err(ZeroDivisionError)
    ensures r.Ok? <==> sampleRate != 0.0 && ButterAccepts(BandPass(lowFreq / (0.5 * sampleRate), highFreq / (0.5 * sampleRate)))
    ensures r.Ok? ==> fresh(r.value) && r.value.Valid() && r.value.gain == dbToLinear(gainDb) &&
                      r.value.design == butter(order, BandPass(lowFreq / (0.5 * sampleRate), highFreq / (0.5 * sampleRate))) &&
                      r.value.State() == FilterState(None, None)
  {
    var nyquist := 0.5 * sampleRate;
    if nyquist == 0.0 {
      return Err(ZeroDivisionError);
    }
    var request := BandPass(lowFreq / nyquist, highFreq / nyquist);
    if !ButterAccepts(request) {
      return Err(ValueError);
    }
    var f := new ChannelFilter(butter(order, request), dbToLinear(gainDb));
    return Ok(f);
  }

  /** For a positive rate a band filter is built exactly when 0 < low_freq < high_freq < sample_rate / 2. */
  lemma BandFilterAcceptsIff(lowFreq: real, highFreq: real, sampleRate: real)
    requires sampleRate > 0.0
    ensures ButterAccepts(BandPass(lowFreq / (0.5 * sampleRate), highFreq / (0.5 * sampleRate)))
        <==> 0.0 < lowFreq < highFreq < 0.5 * sampleRate
  {
    InsideNyquist(lowFreq, highFreq, sampleRate);
    InsideNyquist(highFreq, lowFreq, sampleRate);
  }

  /** For a positive rate a low-pass or high-pass filter is built exactly when 0 < cutoff < sample_rate / 2. */
  lemma CutoffAcceptedIff(cutoffFreq: real, sampleRate: real)
    requires sampleRate > 0.0
    ensures ButterAccepts(LowPass(cutoffFreq / (0.5 * sampleRate))) <==> 0.0 < cutoffFreq < 0.5 * sampleRate
    ensures ButterAccepts(HighPass(cutoffFreq / (0.5 * sampleRate))) <==> 0.0 < cutoffFreq < 0.5 * sampleRate
  {
    InsideNyquist(cutoffFreq, cutoffFreq, sampleRate);
  }
}
