/**
 * The equalizer argument of filters.py's command line, such as "bass+6 mid-3 high+2":
 * whitespace-separated tokens, each classified by the first of "bass", "mid", "high"
 * found in its lower-cased text, which sets that band's gain to the number float()
 * reads from the token once the keyword is removed. float() is the abstract
 * parameter parseFloat. The settings are an ordered association list with the
 * update semantics of a Python dict.
 */
module EqArgument {
  import opened Wrappers
  import Text
  import FilterBank

  datatype Keyword = Bass | Mid | High

  function Word(k: Keyword): string {
    match k
    case Bass => "bass"
    case Mid => "mid"
    case High => "high"
  }

  /** The band key of eq_settings that a keyword sets. */
  function BandKey(k: Keyword): string {
    match k
    case Bass => "60-200"
    case Mid => "600-2000"
    case High => "6000-20000"
  }

  /** The keyword a token sets: the first of bass, mid, high whose text occurs in the lower-cased token. */
  function Classify(token: string): (r: Option<Keyword>)
    ensures r == Some(Bass) <==> Text.Contains(Text.Lower(token), "bass")
    ensures r == Some(Mid) <==>
              !Text.Contains(Text.Lower(token), "bass") && Text.Contains(Text.Lower(token), "mid")
    ensures r == Some(High) <==>
              !Text.Contains(Text.Lower(token), "bass") && !Text.Contains(Text.Lower(token), "mid") &&
              Text.Contains(Text.Lower(token), "high")
  {
    var low := Text.Lower(token);
    if Text.Contains(low, "bass") then Some(Bass)
    else if Text.Contains(low, "mid") then Some(Mid)
    else if Text.Contains(low, "high") then Some(High)
    else None
  }

  /**
   * How the keyword is removed before float(): AsWritten is part.replace(keyword, ""),
   * which only removes the lower-case spelling; IgnoringCase removes it in any case.
   */
  datatype Stripping = AsWritten | IgnoringCase

  function GainText(how: Stripping, token: string, k: Keyword): string {
    match how
    case AsWritten => Text.RemoveAll(token, Word(k))
    case IgnoringCase => Text.RemoveAllIgnoringCase(token, Word(k))
  }

  function Keys(settings: seq<(string, real)>): (keys: seq<string>)
    ensures |keys| == |settings| && forall i :: 0 <= i < |settings| ==> keys[i] == settings[i].0
  {
    seq(|settings|, i requires 0 <= i < |settings| => settings[i].0)
  }

  /** settings[key], or None when the key is absent. */
  function Lookup(settings: seq<(string, real)>, key: string): Option<real> {
    if |settings| == 0 then None
    else if settings[0].0 == key then Some(settings[0].1)
    else Lookup(settings[1..], key)
  }

  /** settings[key] = value: an existing key keeps its place, a new one goes last. */
  function Update(settings: seq<(string, real)>, key: string, value: real): (r: seq<(string, real)>)
    ensures Lookup(r, key) == Some(value)
    ensures forall other :: other != key ==> Lookup(r, other) == Lookup(settings, other)
  {
    if |settings| == 0 then [(key, value)]
    else if settings[0].0 == key then [(key, value)] + settings[1..]
    else
      var rest := Update(settings[1..], key, value);
      assert ([settings[0]] + rest)[1..] == rest;
      [settings[0]] + rest
  }

  /** Updating a key that is present keeps the keys and their order; a new key is appended. */
  lemma {:induction false} UpdateKeys(settings: seq<(string, real)>, key: string, value: real)
    ensures key in Keys(settings) ==> Keys(Update(settings, key, value)) == Keys(settings)
    ensures key !in Keys(settings) ==> Keys(Update(settings, key, value)) == Keys(settings) + [key]
  {
    if |settings| > 0 {
      var rest := settings[1..];
      UpdateKeys(rest, key, value);
      KeysCons(settings[0], rest);
      assert [settings[0]] + rest == settings;
      if settings[0].0 != key {
        KeysCons(settings[0], Update(rest, key, value));
      } else {
        KeysCons((key, value), rest);
      }
    }
  }

  lemma KeysCons(entry: (string, real), rest: seq<(string, real)>)
    ensures Keys([entry] + rest) == [entry.0] + Keys(rest)
  {
  }

  /** One token of the loop: a classified token sets its band's gain, or fails when float() does. */
  function Step(how: Stripping, settings: seq<(string, real)>, token: string,
                parseFloat: string -> Option<real>): Option<seq<(string, real)>>
  {
    match Classify(token)
    case None => Some(settings)
    case Some(k) =>
      match parseFloat(GainText(how, token, k))
      case None => None
      case Some(gain) => Some(Update(settings, BandKey(k), gain))
  }

  /** The loop over the tokens, from the left; the first float() that fails ends it with ValueError. */
  function Fold(how: Stripping, settings: seq<(string, real)>, tokens: seq<string>,
                parseFloat: string -> Option<real>): Option<seq<(string, real)>>
    decreases |tokens|
  {
    if |tokens| == 0 then Some(settings)
    else
      match Fold(how, settings, tokens[..|tokens| - 1], parseFloat)
      case None => None
      case Some(s) => Step(how, s, tokens[|tokens| - 1], parseFloat)
  }

  /** Once a token fails, the remaining tokens cannot bring the parse back. */
  lemma {:induction false} ErrorSticks(how: Stripping, settings: seq<(string, real)>, tokens: seq<string>, n: nat,
                                       parseFloat: string -> Option<real>)
    requires n <= |tokens| && Fold(how, settings, tokens[..n], parseFloat) == None
    ensures Fold(how, settings, tokens, parseFloat) == None
    decreases |tokens| - n
  {
    if n == |tokens| {
      assert tokens[..n] == tokens;
    } else {
      var prefix := tokens[..|tokens| - 1];
      assert prefix[..n] == tokens[..n];
      ErrorSticks(how, settings, prefix, n, parseFloat);
    }
  }

  /**
   * The parsing loop of filters.py's main: eq_settings starts as the six flat bands and
   * every token is read in turn. With AsWritten it is the program as it stands; with
   * IgnoringCase, the keyword is removed in any case, as the program evidently means.
   */
  method ParseEqArgument(how: Stripping, eqArg: string, parseFloat: string -> Option<real>)
    returns (r: Option<seq<(string, real)>>)
    ensures r == Fold(how, FilterBank.DefaultSettings, Text.Words(eqArg), parseFloat)
  {
    var settings := FilterBank.DefaultSettings;
    var parts := Text.Words(eqArg);
    var i := 0;
    while i < |parts|
      invariant 0 <= i <= |parts|
      invariant Fold(how, FilterBank.DefaultSettings, parts[..i], parseFloat) == Some(settings)
    {
      var part := parts[i];
      var low := Text.Lower(part);
      FoldStep(how, FilterBank.DefaultSettings, parts, i, parseFloat);
      if Text.Contains(low, "bass") {
        assert Classify(part) == Some(Bass);
        var gain := parseFloat(GainText(how, part, Bass));
        if gain.None? {
          ErrorSticks(how, FilterBank.DefaultSettings, parts, i + 1, parseFloat);
          return None;
        }
        settings := Update(settings, "60-200", gain.value);
      } else if Text.Contains(low, "mid") {
        assert Classify(part) == Some(Mid);
        var gain := parseFloat(GainText(how, part, Mid));
        if gain.None? {
          ErrorSticks(how, FilterBank.DefaultSettings, parts, i + 1, parseFloat);
          return None;
        }
        settings := Update(settings, "600-2000", gain.value);
      } else if Text.Contains(low, "high") {
        assert Classify(part) == Some(High);
        var gain := parseFloat(GainText(how, part, High));
        if gain.None? {
          ErrorSticks(how, FilterBank.DefaultSettings, parts, i + 1, parseFloat);
          return None;
        }
        settings := Update(settings, "6000-20000", gain.value);
      } else {
        assert Classify(part) == None;
      }
      i := i + 1;
    }
    assert parts[..i] == parts;
    return Some(settings);
  }

  /** One more token of the loop is one more Step. */
  lemma FoldStep(how: Stripping, settings: seq<(string, real)>, tokens: seq<string>, i: nat,
                 parseFloat: string -> Option<real>)
    requires i < |tokens| && Fold(how, settings, tokens[..i], parseFloat).Some?
    ensures Fold(how, settings, tokens[..i + 1], parseFloat)
         == Step(how, Fold(how, settings, tokens[..i], parseFloat).value, tokens[i], parseFloat)
  {
    assert tokens[..i + 1][..i] == tokens[..i];
  }

  /** The gain the last token classified as k sets, if any token is. */
  function LastGain(how: Stripping, tokens: seq<string>, k: Keyword, parseFloat: string -> Option<real>): Option<real>
    decreases |tokens|
  {
    if |tokens| == 0 then None
    else if Classify(tokens[|tokens| - 1]) == Some(k) then parseFloat(GainText(how, tokens[|tokens| - 1], k))
    else LastGain(how, tokens[..|tokens| - 1], k, parseFloat)
  }

  /** Later tokens override earlier ones: each band's gain is the last one given for it, else its start value. */
  lemma {:induction false} LastTokenWins(how: Stripping, settings: seq<(string, real)>, tokens: seq<string>,
                                         parseFloat: string -> Option<real>, k: Keyword)
    requires Fold(how, settings, tokens, parseFloat).Some?
    ensures Lookup(Fold(how, settings, tokens, parseFloat).value, BandKey(k))
         == if LastGain(how, tokens, k, parseFloat).Some? then LastGain(how, tokens, k, parseFloat)
            else Lookup(settings, BandKey(k))
    decreases |tokens|
  {
    if |tokens| > 0 {
      var prefix := tokens[..|tokens| - 1];
      LastTokenWins(how, settings, prefix, parseFloat, k);
      var c := Classify(tokens[|tokens| - 1]);
      if c.Some? && c != Some(k) {
        assert BandKey(c.value) != BandKey(k);
      }
    }
  }

  /** Keys other than the three a keyword can set keep their start values. */
  lemma {:induction false} OtherKeysUntouched(how: Stripping, settings: seq<(string, real)>, tokens: seq<string>,
                                              parseFloat: string -> Option<real>, key: string)
    requires Fold(how, settings, tokens, parseFloat).Some?
    requires key != BandKey(Bass) && key != BandKey(Mid) && key != BandKey(High)
    ensures Lookup(Fold(how, settings, tokens, parseFloat).value, key) == Lookup(settings, key)
    decreases |tokens|
  {
    if |tokens| > 0 {
      OtherKeysUntouched(how, settings, tokens[..|tokens| - 1], parseFloat, key);
    }
  }

  /** When the three band keys are present already, parsing changes values only, never the keys or their order. */
  lemma {:induction false} KeysKept(how: Stripping, settings: seq<(string, real)>, tokens: seq<string>,
                                    parseFloat: string -> Option<real>)
    requires Fold(how, settings, tokens, parseFloat).Some?
    requires BandKey(Bass) in Keys(settings) && BandKey(Mid) in Keys(settings) && BandKey(High) in Keys(settings)
    ensures Keys(Fold(how, settings, tokens, parseFloat).value) == Keys(settings)
    decreases |tokens|
  {
    if |tokens| > 0 {
      var prefix := tokens[..|tokens| - 1];
      KeysKept(how, settings, prefix, parseFloat);
      var c := Classify(tokens[|tokens| - 1]);
      if c.Some? {
        UpdateKeys(Fold(how, settings, prefix, parseFloat).value, BandKey(c.value),
                   parseFloat(GainText(how, tokens[|tokens| - 1], c.value)).value);
      }
    }
  }

  /** A token that names a band carries a number float() accepts. */
  ghost predicate GainParses(how: Stripping, token: string, parseFloat: string -> Option<real>) {
    Classify(token).Some? ==> parseFloat(GainText(how, token, Classify(token).value)).Some?
  }

  /** The tokens that name a band all carry a number float() accepts. */
  ghost predicate AllGainsParse(how: Stripping, tokens: seq<string>, parseFloat: string -> Option<real>) {
    forall i :: 0 <= i < |tokens| ==> GainParses(how, tokens[i], parseFloat)
  }

  /** One token fails exactly when it names a band and float() rejects its number. */
  lemma StepSucceedsIff(how: Stripping, settings: seq<(string, real)>, token: string,
                        parseFloat: string -> Option<real>)
    ensures Step(how, settings, token, parseFloat).Some? <==> GainParses(how, token, parseFloat)
  {
  }

  /** Parsing succeeds exactly when every token that names a band carries a number float() accepts. */
  lemma {:induction false} FoldSucceedsIff(how: Stripping, settings: seq<(string, real)>, tokens: seq<string>,
                                           parseFloat: string -> Option<real>)
    ensures Fold(how, settings, tokens, parseFloat).Some? <==> AllGainsParse(how, tokens, parseFloat)
    decreases |tokens|
  {
    if |tokens| > 0 {
      var prefix := tokens[..|tokens| - 1];
      var last := tokens[|tokens| - 1];
      FoldSucceedsIff(how, settings, prefix, parseFloat);
      var before := Fold(how, settings, prefix, parseFloat);
      if before.Some? {
        StepSucceedsIff(how, before.value, last, parseFloat);
      }
      AllGainsParseSnoc(how, tokens, parseFloat);
    }
  }

  lemma AllGainsParseSnoc(how: Stripping, tokens: seq<string>, parseFloat: string -> Option<real>)
    requires |tokens| > 0
    ensures AllGainsParse(how, tokens, parseFloat)
        <==> AllGainsParse(how, tokens[..|tokens| - 1], parseFloat) && GainParses(how, tokens[|tokens| - 1], parseFloat)
  {
    var prefix := tokens[..|tokens| - 1];
    if AllGainsParse(how, tokens, parseFloat) {
      forall i | 0 <= i < |prefix|
        ensures GainParses(how, prefix[i], parseFloat)
      {
        assert prefix[i] == tokens[i];
      }
    }
    if AllGainsParse(how, prefix, parseFloat) && GainParses(how, tokens[|tokens| - 1], parseFloat) {
      forall i | 0 <= i < |tokens|
        ensures GainParses(how, tokens[i], parseFloat)
      {
        if i < |prefix| {
          assert tokens[i] == prefix[i];
        }
      }
    }
  }

  /** Parsed settings keep the six default keys in order, so create_equalizer builds six bands from them. */
  lemma ParsedKeysAreDefaultKeys(how: Stripping, eqArg: string, parseFloat: string -> Option<real>)
    requires Fold(how, FilterBank.DefaultSettings, Text.Words(eqArg), parseFloat).Some?
    ensures Keys(Fold(how, FilterBank.DefaultSettings, Text.Words(eqArg), parseFloat).value)
         == Keys(FilterBank.DefaultSettings)
  {
    var d := FilterBank.DefaultSettings;
    assert Keys(d)[1] == BandKey(Bass) && Keys(d)[3] == BandKey(Mid) && Keys(d)[5] == BandKey(High);
    KeysKept(how, d, Text.Words(eqArg), parseFloat);
  }

  /** On tokens typed in lower case the as-written and the corrected parser agree. */
  lemma {:induction false} AgreeOnLowerCase(settings: seq<(string, real)>, tokens: seq<string>,
                                            parseFloat: string -> Option<real>)
    requires forall i :: 0 <= i < |tokens| ==> !Text.HasUpper(tokens[i])
    ensures Fold(AsWritten, settings, tokens, parseFloat) == Fold(IgnoringCase, settings, tokens, parseFloat)
    decreases |tokens|
  {
    if |tokens| > 0 {
      var last := tokens[|tokens| - 1];
      AgreeOnLowerCase(settings, tokens[..|tokens| - 1], parseFloat);
      var k := Classify(last);
      if k.Some? {
        Text.RemoveIgnoringCaseNoUpper(last, Word(k.value));
      }
    }
  }

  /** "Bass+6": named a bass token, yet the as-written parser hands all of "Bass+6" to float(). */
  lemma CapitalisedKeyword(parseFloat: string -> Option<real>)
    requires parseFloat("Bass+6") == None && parseFloat("+6") == Some(6.0)
    ensures Classify("Bass+6") == Some(Bass)
    ensures GainText(AsWritten, "Bass+6", Bass) == "Bass+6"
    ensures Fold(AsWritten, FilterBank.DefaultSettings, Text.Words("Bass+6"), parseFloat) == None
    ensures Fold(IgnoringCase, FilterBank.DefaultSettings, Text.Words("Bass+6"), parseFloat)
         == Some(Update(FilterBank.DefaultSettings, "60-200", 6.0))
  {
    CapitalisedIsBass();
    CapitalisedKeptAsWritten();
    CapitalisedStripped();
    CapitalisedIsOneWord();
    assert ["Bass+6"][..0] == [];
  }

  lemma CapitalisedIsBass()
    ensures Classify("Bass+6") == Some(Bass)
  {
    assert Text.Lower("Bass+6") == "bass+6";
    assert "bass" <= "bass+6";
  }

  lemma CapitalisedKeptAsWritten()
    ensures GainText(AsWritten, "Bass+6", Bass) == "Bass+6"
  {
    Text.RemoveAllAbsent("Bass+6", "bass");
  }

  lemma CapitalisedStripped()
    ensures GainText(IgnoringCase, "Bass+6", Bass) == "+6"
  {
    var t := "Bass+6";
    assert Text.Lower(t) == "bass+6";
    assert t[4..] == "+6";
    assert Text.RemoveAllIgnoringCase("+6", "bass") == "+6";
  }

  lemma CapitalisedIsOneWord()
    ensures Text.Words("Bass+6") == ["Bass+6"]
  {
    var t := "Bass+6";
    assert Text.TakeWord(t) == t;
    assert t[|t|..] == [];
  }

  /** float() reads a number the same way whatever the case of its letters (as in 1E3 and 1e3, or INF). */
  ghost predicate CaseBlind(parseFloat: string -> Option<real>) {
    forall s :: parseFloat(s) == parseFloat(Text.Lower(s))
  }

  function LowerAll(tokens: seq<string>): (r: seq<string>)
    ensures |r| == |tokens| && forall i :: 0 <= i < |tokens| ==> r[i] == Text.Lower(tokens[i])
  {
    seq(|tokens|, i requires 0 <= i < |tokens| => Text.Lower(tokens[i]))
  }

  /** One token: the corrected parser reads it as the as-written parser reads it in lower case. */
  lemma StepLowerCase(settings: seq<(string, real)>, token: string, parseFloat: string -> Option<real>)
    requires CaseBlind(parseFloat)
    ensures Step(IgnoringCase, settings, token, parseFloat) == Step(AsWritten, settings, Text.Lower(token), parseFloat)
  {
    assert Text.Lower(Text.Lower(token)) == Text.Lower(token);
    var k := Classify(token);
    if k.Some? {
      Text.LowerRemoveIgnoringCase(token, Word(k.value));
      assert parseFloat(GainText(IgnoringCase, token, k.value))
          == parseFloat(Text.Lower(GainText(IgnoringCase, token, k.value)));
    }
  }

  /**
   * The corrected parser reads every token as the as-written parser reads the same
   * token typed in lower case: the capitalisation of a keyword no longer matters.
   */
  lemma {:induction false} IgnoringCaseIsLowerCase(settings: seq<(string, real)>, tokens: seq<string>,
                                                   parseFloat: string -> Option<real>)
    requires CaseBlind(parseFloat)
    ensures Fold(IgnoringCase, settings, tokens, parseFloat) == Fold(AsWritten, settings, LowerAll(tokens), parseFloat)
    decreases |tokens|
  {
    if |tokens| > 0 {
      var n := |tokens|;
      var lowered := LowerAll(tokens);
      assert lowered[..n - 1] == LowerAll(tokens[..n - 1]);
      IgnoringCaseIsLowerCase(settings, tokens[..n - 1], parseFloat);
      var before := Fold(IgnoringCase, settings, tokens[..n - 1], parseFloat);
      if before.Some? {
        StepLowerCase(before.value, tokens[n - 1], parseFloat);
      }
    }
  }
}
