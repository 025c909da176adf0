/**
 * filters.py, the equalizer: Equalizer (a list of BandFilter objects whose outputs
 * are summed and clipped back to the sample type), create_equalizer (band keys
 * "lo-hi" parsed into band edges) and the playback callback's mode dispatch.
 * float() is the abstract parameter parseFloat.
 */
module FilterBank {
  import opened Wrappers
  import opened Filters
  import opened Backend
  import Text
  import SoundProcessing

  /**
   * One sample of the conversion at the end of Equalizer.process: for int16 and int8
   * np.clip to the type's range, then astype; any other type is left as float32.
   * Out-of-range values saturate, they never wrap around.
   */
  function CastSample(x: real, d: Dtype): (r: real)
    ensures !IsInteger(d) ==> r == x
    ensures IsInteger(d) ==> MinSample(d) <= r <= MaxSample(d) && r == r.Floor as real
    ensures IsInteger(d) && x <= MinSample(d) ==> r == MinSample(d)
    ensures IsInteger(d) && x >= MaxSample(d) ==> r == MaxSample(d)
    ensures IsInteger(d) && MinSample(d) <= x <= MaxSample(d) ==> -1.0 < r - x < 1.0
  {
    if !IsInteger(d) then x
    else
      var clipped := if x < MinSample(d) then MinSample(d) else if x > MaxSample(d) then MaxSample(d) else x;
      TruncateTowardZero(clipped) as real
  }

  function CastAll(xs: seq<real>, d: Dtype): (r: seq<real>)
    ensures |r| == |xs| && forall k :: 0 <= k < |xs| ==> r[k] == CastSample(xs[k], d)
  {
    seq(|xs|, k requires 0 <= k < |xs| => CastSample(xs[k], d))
  }

  function Add(x: seq<real>, y: seq<real>): (r: seq<real>)
    requires |x| == |y|
    ensures |r| == |x| && forall k :: 0 <= k < |x| ==> r[k] == x[k] + y[k]
  {
    seq(|x|, k requires 0 <= k < |x| => x[k] + y[k])
  }

  /** Every filter keeps lengths and every state is well formed. */
  ghost predicate Consistent(filters: seq<ChannelFilter>, states: seq<FilterState>) {
    |filters| == |states| &&
    forall i :: 0 <= i < |filters| ==> LengthPreserving(filters[i].design) && WellFormed(states[i])
  }

  /** What each filter returns when run on the input, converted to float32, from its own state. */
  function Outputs(filters: seq<ChannelFilter>, states: seq<FilterState>, audio: seq<real>, c: nat): (outs: seq<seq<real>>)
    requires c >= 1 && Consistent(filters, states)
    ensures |outs| == |filters| && forall j :: 0 <= j < |outs| ==> |outs[j]| == |audio|
  {
    seq(|filters|, j requires 0 <= j < |filters| =>
      ProcessSpec(filters[j].design, filters[j].gain, states[j], audio, Float32, c).0)
  }

  /** The state each filter is left in by that run. */
  function NextStates(filters: seq<ChannelFilter>, states: seq<FilterState>, audio: seq<real>, c: nat): (next: seq<FilterState>)
    requires c >= 1 && Consistent(filters, states)
    ensures |next| == |filters| && forall j :: 0 <= j < |next| ==> WellFormed(next[j])
  {
    seq(|filters|, j requires 0 <= j < |filters| =>
      ProcessSpec(filters[j].design, filters[j].gain, states[j], audio, Float32, c).1)
  }

  /** The sample-wise sum of equally long signals, added in list order onto n zeros. */
  function Total(outs: seq<seq<real>>, n: nat): (r: seq<real>)
    requires forall j :: 0 <= j < |outs| ==> |outs[j]| == n
    ensures |r| == n
  {
    if |outs| == 0 then SoundProcessing.Zeros(n) else Add(Total(outs[..|outs| - 1], n), outs[|outs| - 1])
  }

  /** Adding one more signal to the sum: the total of the first i + 1 is the total of the first i plus signal i. */
  lemma TotalSnoc(outs: seq<seq<real>>, i: nat, n: nat)
    requires forall j :: 0 <= j < |outs| ==> |outs[j]| == n
    requires i < |outs|
    ensures Total(outs[..i + 1], n) == Add(Total(outs[..i], n), outs[i])
  {
    assert outs[..i + 1][..i] == outs[..i];
  }

  /** Sample k of the total is the sum of the signals' samples k. */
  function SumAt(outs: seq<seq<real>>, n: nat, k: nat): real
    requires forall j :: 0 <= j < |outs| ==> |outs[j]| == n
    requires k < n
  {
    if |outs| == 0 then 0.0 else SumAt(outs[..|outs| - 1], n, k) + outs[|outs| - 1][k]
  }

  lemma {:induction false} TotalAt(outs: seq<seq<real>>, n: nat, k: nat)
    requires forall j :: 0 <= j < |outs| ==> |outs[j]| == n
    requires k < n
    ensures Total(outs, n)[k] == SumAt(outs, n, k)
  {
    if |outs| > 0 {
      TotalAt(outs[..|outs| - 1], n, k);
    }
  }

  /** With no band filters the equalizer's sum is silence, not its input. */
  lemma NoBandsIsSilence(n: nat, d: Dtype)
    ensures CastAll(Total([], n), d) == SoundProcessing.Zeros(n)
  {
  }

  /** With one band the sum is that band's output. */
  lemma OneBandIsItsOutput(out: seq<real>)
    ensures Total([out], |out|) == out
  {
    assert [out][..0] == [];
  }

  /** Band keys such as "60-200": the two halves around the single "-", each parsed with float(). */
  function ParseBandKey(key: string, parseFloat: string -> Option<real>): Option<(real, real)>
  {
    var parts := Text.SplitOn(key, '-');
    if |parts| == 2 && parseFloat(parts[0]).Some? && parseFloat(parts[1]).Some? then
      Some((parseFloat(parts[0]).value, parseFloat(parts[1]).value))
    else None
  }

  /** A key written as lo + "-" + hi, with no "-" inside either half, parses to the two halves' values. */
  lemma ParseBandKeyOfJoin(lo: string, hi: string, parseFloat: string -> Option<real>)
    requires '-' !in lo && '-' !in hi
    ensures ParseBandKey(lo + "-" + hi, parseFloat)
         == if parseFloat(lo).Some? && parseFloat(hi).Some? then Some((parseFloat(lo).value, parseFloat(hi).value)) else None
  {
    Text.SplitJoin([lo, hi], '-');
    assert Text.JoinOn([lo, hi], '-') == lo + "-" + hi by {
      assert Text.JoinOn([lo, hi][1..], '-') == hi;
    }
  }

  /** A key that parses is two "-"-free halves joined by one "-". */
  lemma ParseBandKeyShape(key: string, parseFloat: string -> Option<real>)
    requires ParseBandKey(key, parseFloat).Some?
    ensures var parts := Text.SplitOn(key, '-');
            |parts| == 2 && key == parts[0] + "-" + parts[1] &&
            ParseBandKey(key, parseFloat).value == (parseFloat(parts[0]).value, parseFloat(parts[1]).value)
  {
    var parts := Text.SplitOn(key, '-');
    Text.JoinSplit(key, '-');
    assert Text.JoinOn(parts[1..], '-') == parts[1];
  }

  /** The six default bands of create_equalizer, flat. */
  const DefaultSettings: seq<(string, real)> := [
    ("20-60", 0.0), ("60-200", 0.0), ("200-600", 0.0),
    ("600-2000", 0.0), ("2000-6000", 0.0), ("6000-20000", 0.0)]

  /** The decimal digit strings, and their values, which float() accepts. */
  predicate IsDigits(s: string) {
    |s| > 0 && forall i :: 0 <= i < |s| ==> '0' <= s[i] <= '9'
  }

  function DigitsValue(s: string): nat
    requires forall i :: 0 <= i < |s| ==> '0' <= s[i] <= '9'
    decreases |s|
  {
    if |s| == 0 then 0 else 10 * DigitsValue(s[..|s| - 1]) + (s[|s| - 1] as int - '0' as int)
  }

  /** parseFloat agrees with float() on plain digit strings. */
  ghost predicate ParsesDigits(parseFloat: string -> Option<real>) {
    forall s :: IsDigits(s) ==> parseFloat(s) == Some(DigitsValue(s) as real)
  }

  /** The band edges, in Hz, of the six default bands. */
  const DefaultEdges: seq<(real, real)> := [
    (20.0, 60.0), (60.0, 200.0), (200.0, 600.0),
    (600.0, 2000.0), (2000.0, 6000.0), (6000.0, 20000.0)]

  /** create_equalizer(rate) with no settings: six bands with the edges above. */
  lemma DefaultBandEdges(parseFloat: string -> Option<real>, i: nat)
    requires ParsesDigits(parseFloat) && i < |DefaultSettings|
    ensures |DefaultEdges| == |DefaultSettings| == 6
    ensures ParseBandKey(DefaultSettings[i].0, parseFloat) == Some(DefaultEdges[i])
  {
    DigitValues();
    if i == 0 {
      assert DefaultSettings[0].0 == "20" + "-" + "60";
      DefaultKey("20", "60", 20, 60, parseFloat);
    } else if i == 1 {
      assert DefaultSettings[1].0 == "60" + "-" + "200";
      DefaultKey("60", "200", 60, 200, parseFloat);
    } else if i == 2 {
      assert DefaultSettings[2].0 == "200" + "-" + "600";
      DefaultKey("200", "600", 200, 600, parseFloat);
    } else if i == 3 {
      assert DefaultSettings[3].0 == "600" + "-" + "2000";
      DefaultKey("600", "2000", 600, 2000, parseFloat);
    } else if i == 4 {
      assert DefaultSettings[4].0 == "2000" + "-" + "6000";
      DefaultKey("2000", "6000", 2000, 6000, parseFloat);
    } else {
      assert DefaultSettings[5].0 == "6000" + "-" + "20000";
      DefaultKey("6000", "20000", 6000, 20000, parseFloat);
    }
  }

  lemma DigitValues()
    ensures DigitsValue("20") == 20 && DigitsValue("60") == 60
    ensures DigitsValue("200") == 200 && DigitsValue("600") == 600
    ensures DigitsValue("2000") == 2000 && DigitsValue("6000") == 6000
    ensures DigitsValue("20000") == 20000
  {
    assert "20000"[..4] == "2000" && "2000"[..3] == "200" && "200"[..2] == "20" && "20"[..1] == "2";
    assert "6000"[..3] == "600" && "600"[..2] == "60" && "60"[..1] == "6";
    assert DigitsValue("2") == 2 && DigitsValue("6") == 6;
  }

  lemma DefaultKey(lo: string, hi: string, loValue: nat, hiValue: nat, parseFloat: string -> Option<real>)
    requires ParsesDigits(parseFloat) && IsDigits(lo) && IsDigits(hi)
    requires DigitsValue(lo) == loValue && DigitsValue(hi) == hiValue
    ensures ParseBandKey(lo + "-" + hi, parseFloat) == Some((loValue as real, hiValue as real))
  {
    ParseBandKeyOfJoin(lo, hi, parseFloat);
  }

  /** The filter add_band builds: a 4th-order Butterworth band-pass over the edges normalised by Nyquist. */
  ghost predicate BuiltFrom(f: ChannelFilter, lowFreq: real, highFreq: real, gainDb: real, sampleRate: real,
                      butter: (nat, Request) -> Design, dbToLinear: real -> real)
    requires sampleRate != 0.0
  {
    f.design == butter(4, BandPass(lowFreq / (0.5 * sampleRate), highFreq / (0.5 * sampleRate))) &&
    f.gain == dbToLinear(gainDb)
  }

  /** A multi-band equalizer: band filters run side by side on the same input and summed. */
  class Equalizer {
    const sampleRate: real
    var bands: seq<ChannelFilter>
    ghost var Repr: set<ChannelFilter>

    /** The bands are distinct objects, all in Repr. */
    ghost predicate Owned()
      reads this
    {
      (forall i :: 0 <= i < |bands| ==> bands[i] in Repr) &&
      (forall i, j :: 0 <= i < j < |bands| ==> bands[i] != bands[j])
    }

    ghost predicate Valid()
      reads this, Repr
    {
      Owned() && forall i :: 0 <= i < |bands| ==> bands[i].Valid()
    }

    /** The filter state of every band, in list order. */
    ghost function States(): (r: seq<FilterState>)
      requires Valid()
      reads this, Repr
      ensures |r| == |bands| && forall i :: 0 <= i < |bands| ==> r[i] == bands[i].State()
      ensures Consistent(bands, r)
    {
      seq(|bands|, i requires 0 <= i < |bands| && bands[i] in Repr reads this, Repr => bands[i].State())
    }

    constructor(sampleRate: real)
      ensures Valid() && this.sampleRate == sampleRate && bands == [] && Repr == {}
    {
      this.sampleRate := sampleRate;
      bands := [];
      Repr := {};
    }

    /**
     * add_band: builds BandFilter(low_freq, high_freq, sample_rate, gain_db) and
     * appends it with its own fresh state; the existing bands are untouched. When the
     * constructor raises, nothing is appended.
     */
    method AddBand(lowFreq: real, highFreq: real, gainDb: real,
                   butter: (nat, Request) -> Design, dbToLinear: real -> real)
      returns (r: Outcome<FilterError>)
      requires Valid() && Butterworth(butter)
      modifies this
      ensures Valid()
      ensures sampleRate == 0.0 <==> r == Fail(ZeroDivisionError)
      ensures r.Pass? <==>
                sampleRate != 0.0 && ButterAccepts(BandPass(lowFreq / (0.5 * sampleRate), highFreq / (0.5 * sampleRate)))
      ensures r.Fail? ==> bands == old(bands) && Repr == old(Repr)
      ensures r.Pass? ==>
                |bands| == |old(bands)| + 1 && bands[..|old(bands)|] == old(bands) &&
                fresh(bands[|old(bands)|]) && Repr == old(Repr) + {bands[|old(bands)|]} &&
                BuiltFrom(bands[|old(bands)|], lowFreq, highFreq, gainDb, sampleRate, butter, dbToLinear) &&
                bands[|old(bands)|].State() == FilterState(None, None)
    {
      var band := BandFilter(lowFreq, highFreq, sampleRate, butter, dbToLinear, gainDb);
      if band.Err? {
        return Fail(band.error);
      }
      bands := bands + [band.value];
      Repr := Repr + {band.value};
      r := Pass;
    }

    /**
     * Runs every band on the input, sums the outputs in list order into zeros, and
     * clips and truncates the sum back to the input's integer sample type.
     */
    method Process(audio: seq<real>, dtype: Dtype, c: int) returns (out: seq<real>)
      requires Valid() && c >= 1
      modifies Repr
      ensures Valid()
      ensures out == CastAll(Total(Outputs(bands, old(States()), audio, c), |audio|), dtype)
      ensures States() == NextStates(bands, old(States()), audio, c)
    {
      var result := SumBands(audio, c);
      out := CastAll(result, dtype);
    }

    /** The loop of process: every band runs on the input in list order, its output added to the sum. */
    method SumBands(audio: seq<real>, c: int) returns (result: seq<real>)
      requires Valid() && c >= 1
      modifies Repr
      ensures Valid()
      ensures result == Total(Outputs(bands, old(States()), audio, c), |audio|)
      ensures States() == NextStates(bands, old(States()), audio, c)
    {
      ghost var start := States();
      ghost var outs := Outputs(bands, start, audio, c);
      ghost var next := NextStates(bands, start, audio, c);
      result := SoundProcessing.Zeros(|audio|);
      var i := 0;
      while i < |bands|
        invariant 0 <= i <= |bands|
        invariant Owned()
        invariant forall j :: 0 <= j < |bands| ==>
                    bands[j].Valid() && bands[j].State() == if j < i then next[j] else start[j]
        invariant result == Total(outs[..i], |audio|)
      {
        var y, _ := bands[i].Process(audio, Float32, c);
        TotalSnoc(outs, i, |audio|);
        result := Add(result, y);
        i := i + 1;
      }
      assert outs[..i] == outs;
    }
  }

  /**
   * What create_equalizer's loop makes of one settings entry: the band edges, or the
   * exception it raises. float() or the unpacking of band.split("-") raises
   * ValueError; then BandFilter raises ZeroDivisionError for a zero rate and
   * ValueError for edges butter refuses.
   */
  function EntryCheck(entry: (string, real), sampleRate: real, parseFloat: string -> Option<real>)
    : (r: Result<(real, real), FilterError>)
    ensures ParseBandKey(entry.0, parseFloat).None? ==> r == Err(ValueError)
    ensures r.Ok? ==> ParseBandKey(entry.0, parseFloat) == Some(r.value)
    ensures r.Ok? <==>
              (ParseBandKey(entry.0, parseFloat).Some? && sampleRate != 0.0 &&
               ButterAccepts(BandPass(ParseBandKey(entry.0, parseFloat).value.0 / (0.5 * sampleRate),
                                      ParseBandKey(entry.0, parseFloat).value.1 / (0.5 * sampleRate))))
    ensures r == Err(ZeroDivisionError) <==> ParseBandKey(entry.0, parseFloat).Some? && sampleRate == 0.0
  {
    match ParseBandKey(entry.0, parseFloat)
    case None => Err(ValueError)
    case Some(edges) =>
      if sampleRate == 0.0 then Err(ZeroDivisionError)
      else if ButterAccepts(BandPass(edges.0 / (0.5 * sampleRate), edges.1 / (0.5 * sampleRate))) then Ok(edges)
      else Err(ValueError)
  }

  /** Every entry of the settings passes. */
  predicate AllEntriesPass(settings: seq<(string, real)>, sampleRate: real, parseFloat: string -> Option<real>) {
    forall i :: 0 <= i < |settings| ==> EntryCheck(settings[i], sampleRate, parseFloat).Ok?
  }

  /** f is the band add_band builds for one settings entry. */
  ghost predicate BuiltForEntry(f: ChannelFilter, entry: (string, real), sampleRate: real,
                                parseFloat: string -> Option<real>, butter: (nat, Request) -> Design,
                                dbToLinear: real -> real)
    requires sampleRate != 0.0
  {
    var edges := ParseBandKey(entry.0, parseFloat);
    edges.Some? && BuiltFrom(f, edges.value.0, edges.value.1, entry.1, sampleRate, butter, dbToLinear)
  }

  /** The filters are the bands add_band builds for the first entries of the settings, in order. */
  ghost predicate BuiltFromSettings(filters: seq<ChannelFilter>, settings: seq<(string, real)>, sampleRate: real,
                                    parseFloat: string -> Option<real>, butter: (nat, Request) -> Design,
                                    dbToLinear: real -> real)
    requires sampleRate != 0.0 && |filters| <= |settings|
  {
    forall j :: 0 <= j < |filters| ==> BuiltForEntry(filters[j], settings[j], sampleRate, parseFloat, butter, dbToLinear)
  }

  lemma BuiltFromSettingsSnoc(filters: seq<ChannelFilter>, f: ChannelFilter, settings: seq<(string, real)>,
                              sampleRate: real, parseFloat: string -> Option<real>,
                              butter: (nat, Request) -> Design, dbToLinear: real -> real)
    requires sampleRate != 0.0 && |filters| < |settings|
    requires BuiltFromSettings(filters, settings, sampleRate, parseFloat, butter, dbToLinear)
    requires BuiltForEntry(f, settings[|filters|], sampleRate, parseFloat, butter, dbToLinear)
    ensures BuiltFromSettings(filters + [f], settings, sampleRate, parseFloat, butter, dbToLinear)
  {
    var extended := filters + [f];
    forall j | 0 <= j < |extended|
      ensures BuiltForEntry(extended[j], settings[j], sampleRate, parseFloat, butter, dbToLinear)
    {
      if j < |filters| {
        assert extended[j] == filters[j];
      }
    }
  }

  /** The settings create_equalizer uses: the given ones, or DefaultSettings when there are none. */
  function SettingsOrDefault(eqSettings: Option<seq<(string, real)>>): (r: seq<(string, real)>)
    ensures eqSettings.Some? ==> r == eqSettings.value
    ensures eqSettings.None? ==> r == DefaultSettings && |r| == 6
  {
    if eqSettings.Some? then eqSettings.value else DefaultSettings
  }

  /**
   * create_equalizer: one band per settings entry, in order, with the entry's gain in dB.
   * The first entry that fails raises, and no equalizer is returned.
   */
  method CreateEqualizer(sampleRate: real, eqSettings: Option<seq<(string, real)>>,
                         parseFloat: string -> Option<real>,
                         butter: (nat, Request) -> Design, dbToLinear: real -> real)
    returns (r: Result<Equalizer, FilterError>)
    requires Butterworth(butter)
    ensures var settings := SettingsOrDefault(eqSettings);
            r.Ok? <==> AllEntriesPass(settings, sampleRate, parseFloat)
    ensures var settings := SettingsOrDefault(eqSettings);
            r.Err? ==> exists j :: 0 <= j < |settings| && EntryCheck(settings[j], sampleRate, parseFloat) == Err(r.error) &&
                                  forall i :: 0 <= i < j ==> EntryCheck(settings[i], sampleRate, parseFloat).Ok?
    ensures var settings := SettingsOrDefault(eqSettings);
            r == Err(ZeroDivisionError) <==>
              |settings| > 0 && sampleRate == 0.0 && ParseBandKey(settings[0].0, parseFloat).Some?
    ensures var settings := SettingsOrDefault(eqSettings);
            r.Ok? ==>
              fresh(r.value) && fresh(r.value.Repr) && r.value.Valid() && r.value.sampleRate == sampleRate &&
              |r.value.bands| == |settings| &&
              (forall j :: 0 <= j < |settings| ==> r.value.bands[j].State() == FilterState(None, None)) &&
              (|settings| > 0 ==>
                 BuiltFromSettings(r.value.bands, settings, sampleRate, parseFloat, butter, dbToLinear))
  {
    r := AddBands(sampleRate, SettingsOrDefault(eqSettings), parseFloat, butter, dbToLinear);
  }

  /** The loop of create_equalizer: a new Equalizer, then add_band for each entry in turn. */
  method AddBands(sampleRate: real, settings: seq<(string, real)>,
                  parseFloat: string -> Option<real>,
                  butter: (nat, Request) -> Design, dbToLinear: real -> real)
    returns (r: Result<Equalizer, FilterError>)
    requires Butterworth(butter)
    ensures r.Ok? <==> AllEntriesPass(settings, sampleRate, parseFloat)
    ensures r.Err? ==> exists j :: 0 <= j < |settings| && EntryCheck(settings[j], sampleRate, parseFloat) == Err(r.error) &&
                                  forall i :: 0 <= i < j ==> EntryCheck(settings[i], sampleRate, parseFloat).Ok?
    ensures r == Err(ZeroDivisionError) <==>
              |settings| > 0 && sampleRate == 0.0 && ParseBandKey(settings[0].0, parseFloat).Some?
    ensures r.Ok? ==>
              fresh(r.value) && fresh(r.value.Repr) && r.value.Valid() && r.value.sampleRate == sampleRate &&
              |r.value.bands| == |settings| &&
              (forall j :: 0 <= j < |settings| ==> r.value.bands[j].State() == FilterState(None, None)) &&
              (|settings| > 0 ==>
                 BuiltFromSettings(r.value.bands, settings, sampleRate, parseFloat, butter, dbToLinear))
  {
    var eq := new Equalizer(sampleRate);
    var i := 0;
    while i < |settings|
      invariant 0 <= i <= |settings| && |eq.bands| == i
      invariant fresh(eq) && fresh(eq.Repr) && eq.Valid() && eq.sampleRate == sampleRate
      invariant i > 0 ==> sampleRate != 0.0
      invariant forall j :: 0 <= j < i ==> EntryCheck(settings[j], sampleRate, parseFloat).Ok?
      invariant forall j :: 0 <= j < i ==> eq.bands[j].State() == FilterState(None, None)
      invariant i > 0 ==> BuiltFromSettings(eq.bands, settings, sampleRate, parseFloat, butter, dbToLinear)
    {
      var edges := ParseBandKey(settings[i].0, parseFloat);
      if edges.None? {
        assert EntryCheck(settings[i], sampleRate, parseFloat) == Err(ValueError);
        return Err(ValueError);
      }
      ghost var before := eq.bands;
      var added := eq.AddBand(edges.value.0, edges.value.1, settings[i].1, butter, dbToLinear);
      if added.Fail? {
        assert added.error == if sampleRate == 0.0 then ZeroDivisionError else ValueError;
        assert EntryCheck(settings[i], sampleRate, parseFloat) == Err(added.error);
        return Err(added.error);
      }
      assert eq.bands == before + [eq.bands[i]];
      BuiltFromSettingsSnoc(before, eq.bands[i], settings, sampleRate, parseFloat, butter, dbToLinear);
      i := i + 1;
    }
    return Ok(eq);
  }

  /**
   * The default bands reach 20000 Hz, so create_equalizer with no settings succeeds
   * exactly when the rate is above 40000 Hz: at 8000 or 22050 Hz butter refuses the
   * 6000-20000 band (and lower rates refuse more).
   */
  lemma DefaultsNeedRateAbove40k(sampleRate: real, parseFloat: string -> Option<real>)
    requires ParsesDigits(parseFloat)
    ensures AllEntriesPass(DefaultSettings, sampleRate, parseFloat) <==> sampleRate > 40000.0
  {
    if sampleRate > 40000.0 {
      forall i | 0 <= i < |DefaultSettings|
        ensures EntryCheck(DefaultSettings[i], sampleRate, parseFloat).Ok?
      {
        DefaultBandEdges(parseFloat, i);
        BandFilterAcceptsIff(DefaultEdges[i].0, DefaultEdges[i].1, sampleRate);
      }
    } else {
      DefaultBandEdges(parseFloat, 5);
      if sampleRate > 0.0 {
        BandFilterAcceptsIff(6000.0, 20000.0, sampleRate);
      } else if sampleRate < 0.0 {
        NegativeQuotient(6000.0, 0.5 * sampleRate);
      }
      assert !EntryCheck(DefaultSettings[5], sampleRate, parseFloat).Ok?;
    }
  }

  lemma NegativeQuotient(a: real, n: real)
    requires a > 0.0 && n < 0.0
    ensures a / n < 0.0
  {
    assert (a / n) * n == a;
  }

  /**
   * The filter mode the command line selects: argv[2] lower-cased, except that
   * "lowpass" and "highpass" without a cutoff argument, and any other word but
   * "equalizer", fall back to "none"; with no argv[2] the mode stays "none".
   */
  function FilterMode(argv: seq<string>): (mode: string)
    ensures mode == "none" || mode == "lowpass" || mode == "highpass" || mode == "equalizer"
    ensures mode == "lowpass" <==> |argv| > 3 && Text.Lower(argv[2]) == "lowpass"
    ensures mode == "highpass" <==> |argv| > 3 && Text.Lower(argv[2]) == "highpass"
    ensures mode == "equalizer" <==> |argv| > 2 && Text.Lower(argv[2]) == "equalizer"
  {
    if |argv| <= 2 then "none"
    else
      var mode := Text.Lower(argv[2]);
      if mode == "lowpass" && |argv| > 3 then mode
      else if mode == "highpass" && |argv| > 3 then mode
      else if mode == "equalizer" then mode
      else "none"
  }

  /**
   * The playback callback: an empty read ends the stream; otherwise the frames go
   * through the filter that filterMode names ("lowpass", "highpass", "equalizer") and
   * any other mode plays them unchanged. Only the selected filter's state moves.
   * outType is the NumPy type of the returned array, whose bytes go to the stream.
   */
  method Callback(data: seq<real>, filterMode: string, lowpass: ChannelFilter, highpass: ChannelFilter,
                  equalizer: Equalizer, dtype: Dtype, channels: int)
    returns (out: seq<real>, outType: Dtype, signal: StreamSignal)
    requires lowpass.Valid() && highpass.Valid() && equalizer.Valid() && channels >= 1
    requires lowpass != highpass && lowpass !in equalizer.Repr && highpass !in equalizer.Repr
    modifies lowpass, highpass, equalizer.Repr
    ensures lowpass.Valid() && highpass.Valid() && equalizer.Valid()
    ensures signal == Complete <==> |data| == 0
    ensures filterMode == "lowpass" && |data| > 0 ==>
              (out, lowpass.State()) == ProcessSpec(lowpass.design, lowpass.gain, old(lowpass.State()), data, dtype, channels) &&
              outType == ProcessType(dtype, channels)
    ensures filterMode != "lowpass" || |data| == 0 ==> lowpass.State() == old(lowpass.State())
    ensures filterMode == "highpass" && |data| > 0 ==>
              (out, highpass.State()) == ProcessSpec(highpass.design, highpass.gain, old(highpass.State()), data, dtype, channels) &&
              outType == ProcessType(dtype, channels)
    ensures filterMode != "highpass" || |data| == 0 ==> highpass.State() == old(highpass.State())
    ensures filterMode == "equalizer" && |data| > 0 ==>
              out == CastAll(Total(Outputs(equalizer.bands, old(equalizer.States()), data, channels), |data|), dtype) &&
              equalizer.States() == NextStates(equalizer.bands, old(equalizer.States()), data, channels) &&
              outType == if IsInteger(dtype) then dtype else Float32
    ensures filterMode != "equalizer" || |data| == 0 ==> equalizer.States() == old(equalizer.States())
    ensures (filterMode != "lowpass" && filterMode != "highpass" && filterMode != "equalizer") || |data| == 0 ==>
              out == data && outType == dtype
  {
    if |data| == 0 {
      return data, dtype, Complete;
    }
    if filterMode == "lowpass" {
      out, outType := lowpass.Process(data, dtype, channels);
    } else if filterMode == "highpass" {
      out, outType := highpass.Process(data, dtype, channels);
    } else if filterMode == "equalizer" {
      out := equalizer.Process(data, dtype, channels);
      outType := if IsInteger(dtype) then dtype else Float32;
    } else {
      out, outType := data, dtype;
    }
    signal := Continue;
  }
}
