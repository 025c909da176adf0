/**
 * The handful of Python string operations the core uses:
 * str.split(sep), str.split(), "-".join, str.lower (ASCII letters only),
 * the `in` substring test and str.replace(pat, "").
 */
module Text {

  /** str.split(sep) for a one-character separator: never empty, keeps empty fields. */
  function SplitOn(s: string, sep: char): (parts: seq<string>)
    ensures |parts| >= 1
    ensures forall i :: 0 <= i < |parts| ==> sep !in parts[i]
  {
    if |s| == 0 then [""]
    else if s[0] == sep then [""] + SplitOn(s[1..], sep)
    else
      var rest := SplitOn(s[1..], sep);
      [[s[0]] + rest[0]] + rest[1..]
  }

  /** sep.join(parts) */
  function JoinOn(parts: seq<string>, sep: char): string
    requires |parts| >= 1
  {
    if |parts| == 1 then parts[0] else parts[0] + [sep] + JoinOn(parts[1..], sep)
  }

  /** Joining the fields of a split gives back the string. */
  lemma {:induction false} JoinSplit(s: string, sep: char)
    ensures JoinOn(SplitOn(s, sep), sep) == s
  {
    if |s| == 0 {
    } else if s[0] == sep {
      var rest := SplitOn(s[1..], sep);
      JoinSplit(s[1..], sep);
      assert SplitOn(s, sep)[1..] == rest;
    } else {
      var rest := SplitOn(s[1..], sep);
      JoinSplit(s[1..], sep);
      var parts := SplitOn(s, sep);
      if |rest| == 1 {
        assert parts == [[s[0]] + rest[0]];
      } else {
        assert parts[1..] == rest[1..];
        assert JoinOn(rest, sep) == rest[0] + [sep] + JoinOn(rest[1..], sep);
        assert s == [s[0]] + s[1..];
      }
    }
  }

  /** Splitting a join of separator-free fields gives back the fields. */
  lemma {:induction false} SplitJoin(parts: seq<string>, sep: char)
    requires |parts| >= 1
    requires forall i :: 0 <= i < |parts| ==> sep !in parts[i]
    ensures SplitOn(JoinOn(parts, sep), sep) == parts
  {
    if |parts| == 1 {
      SplitField(parts[0], [], sep);
      assert parts[0] + [] == parts[0];
    } else {
      SplitJoin(parts[1..], sep);
      var tail := JoinOn(parts[1..], sep);
      SplitField(parts[0], [sep] + tail, sep);
      assert parts[0] + [sep] + tail == parts[0] + ([sep] + tail);
      assert ([sep] + tail)[1..] == tail;
      var split := SplitOn([sep] + tail, sep);
      assert split == [""] + parts[1..];
      assert parts[0] + split[0] == parts[0];
      assert parts == [parts[0]] + split[1..];
    }
  }

  /** A separator-free field in front of a tail that is empty or starts with the separator. */
  lemma {:induction false} SplitField(field: string, tail: string, sep: char)
    requires sep !in field
    requires tail == [] || tail[0] == sep
    ensures var parts := SplitOn(tail, sep);
            SplitOn(field + tail, sep) == [field + parts[0]] + parts[1..]
  {
    if |field| == 0 {
      assert field + tail == tail;
    } else {
      SplitField(field[1..], tail, sep);
      assert (field + tail)[1..] == field[1..] + tail;
      assert [field[0]] + (field[1..] + SplitOn(tail, sep)[0]) == field + SplitOn(tail, sep)[0];
    }
  }

  /** A separator between two strings splits exactly there. */
  lemma {:induction false} SplitConcat(a: string, b: string, sep: char)
    ensures SplitOn(a + [sep] + b, sep) == SplitOn(a, sep) + SplitOn(b, sep)
  {
    if |a| == 0 {
      assert a + [sep] + b == [sep] + b;
      assert ([sep] + b)[1..] == b;
    } else {
      var s := a + [sep] + b;
      SplitConcat(a[1..], b, sep);
      assert s[0] == a[0] && s[1..] == a[1..] + [sep] + b;
      SplitCons(s, a, SplitOn(b, sep), sep);
    }
  }

  /** One inductive step of SplitConcat: s and a share their first character, and the rest of s splits as the rest of a followed by more fields. */
  lemma SplitCons(s: string, a: string, more: seq<string>, sep: char)
    requires |s| > 0 && |a| > 0 && s[0] == a[0]
    requires SplitOn(s[1..], sep) == SplitOn(a[1..], sep) + more
    ensures SplitOn(s, sep) == SplitOn(a, sep) + more
  {
    var left := SplitOn(a[1..], sep);
    if a[0] != sep {
      assert SplitOn(s[1..], sep)[1..] == left[1..] + more;
    }
  }

  /**
   * The characters str.split() with no argument treats as blanks, those for which
   * str.isspace() holds: the ASCII blanks, the four separators U+001C to U+001F,
   * NEL, no-break space and the Unicode spaces and line and paragraph separators.
   */
  predicate IsSpace(c: char) {
    c == ' ' || c == '\t' || c == '\n' || c == '\r' || c == '\U{B}' || c == '\U{C}' ||
    ('\U{1C}' <= c <= '\U{1F}') || c == '\U{85}' || c == '\U{A0}' || c == '\U{1680}' ||
    ('\U{2000}' <= c <= '\U{200A}') || c == '\U{2028}' || c == '\U{2029}' || c == '\U{202F}' ||
    c == '\U{205F}' || c == '\U{3000}'
  }

  /** The longest blank-free prefix of s. */
  function TakeWord(s: string): (w: string)
    ensures w <= s
    ensures forall i :: 0 <= i < |w| ==> !IsSpace(w[i])
    ensures |w| < |s| ==> IsSpace(s[|w|])
  {
    if |s| == 0 || IsSpace(s[0]) then [] else [s[0]] + TakeWord(s[1..])
  }

  /** str.split(): the maximal runs of non-blank characters, in order. */
  function Words(s: string): (ws: seq<string>)
    ensures forall i :: 0 <= i < |ws| ==> |ws[i]| > 0
    ensures forall i, j :: 0 <= i < |ws| && 0 <= j < |ws[i]| ==> !IsSpace(ws[i][j])
    decreases |s|
  {
    if |s| == 0 then []
    else if IsSpace(s[0]) then Words(s[1..])
    else
      var w := TakeWord(s);
      [w] + Words(s[|w|..])
  }

  /** The characters of s that are not blanks, in order. */
  function NonBlanks(s: string): string
    decreases |s|
  {
    if |s| == 0 then []
    else (if IsSpace(s[0]) then [] else [s[0]]) + NonBlanks(s[1..])
  }

  /** The strings of ws one after the other: "".join(ws). */
  function Concat(ws: seq<string>): string
    decreases |ws|
  {
    if |ws| == 0 then [] else ws[0] + Concat(ws[1..])
  }

  /** A blank-free prefix of s is kept whole by NonBlanks. */
  lemma {:induction false} NonBlanksAfterWord(s: string, k: nat)
    requires k <= |s| && forall i :: 0 <= i < k ==> !IsSpace(s[i])
    ensures NonBlanks(s) == s[..k] + NonBlanks(s[k..])
    decreases k
  {
    if k > 0 {
      NonBlanksAfterWord(s[1..], k - 1);
      assert s[1..][k - 1..] == s[k..];
      assert s[..k] == [s[0]] + s[1..][..k - 1];
    }
  }

  /** Nothing of s is lost or invented: the words, put back together, are its non-blank characters. */
  lemma {:induction false} WordsCoverNonBlanks(s: string)
    ensures Concat(Words(s)) == NonBlanks(s)
    decreases |s|
  {
    if |s| > 0 {
      if IsSpace(s[0]) {
        WordsCoverNonBlanks(s[1..]);
      } else {
        var w := TakeWord(s);
        WordsCoverNonBlanks(s[|w|..]);
        NonBlanksAfterWord(s, |w|);
        assert s[..|w|] == w;
        assert ([w] + Words(s[|w|..]))[1..] == Words(s[|w|..]);
      }
    }
  }

  /** w occurs in s at p as a whole run: a blank or an end of s on either side. */
  predicate RunAt(s: string, w: string, p: int) {
    0 <= p && p + |w| <= |s| && s[p..p + |w|] == w &&
    (p == 0 || IsSpace(s[p - 1])) && (p + |w| == |s| || IsSpace(s[p + |w|]))
  }

  /** A run of the suffix s[k..] is a run of s, when nothing but a blank or the start of s precedes the suffix. */
  lemma RunShift(s: string, k: nat, w: string, p: nat)
    requires k <= |s| && RunAt(s[k..], w, p)
    requires p == 0 ==> k == 0 || IsSpace(s[k - 1])
    ensures RunAt(s, w, p + k)
  {
    var t := s[k..];
    assert t[p..p + |w|] == s[p + k..p + k + |w|];
    if p > 0 {
      assert t[p - 1] == s[p + k - 1];
    }
    if p + |w| < |t| {
      assert t[p + |w|] == s[p + k + |w|];
    }
  }

  /** The positions ps, each moved k places on. */
  function Shift(ps: seq<nat>, k: nat): (r: seq<nat>)
    ensures |r| == |ps| && forall i :: 0 <= i < |ps| ==> r[i] == ps[i] + k
  {
    seq(|ps|, i requires 0 <= i < |ps| => ps[i] + k)
  }

  /** Where each word of Words(s) starts in s. */
  function WordStarts(s: string): (ps: seq<nat>)
    decreases |s|
  {
    if |s| == 0 then []
    else if IsSpace(s[0]) then Shift(WordStarts(s[1..]), 1)
    else [0] + Shift(WordStarts(s[|TakeWord(s)|..]), |TakeWord(s)|)
  }

  /** Runs of the suffix s[k..] stay runs of s when a blank or an end of s sits at the cut. */
  lemma RunsShift(s: string, k: nat, ws: seq<string>, ps: seq<nat>)
    requires k <= |s| && (k == 0 || k == |s| || IsSpace(s[k - 1]) || IsSpace(s[k]))
    requires |ps| == |ws|
    requires forall i :: 0 <= i < |ws| ==> |ws[i]| > 0 && !IsSpace(ws[i][0])
    requires forall i :: 0 <= i < |ws| ==> RunAt(s[k..], ws[i], ps[i])
    ensures forall i :: 0 <= i < |ws| ==> RunAt(s, ws[i], Shift(ps, k)[i])
  {
    forall i | 0 <= i < |ws|
      ensures RunAt(s, ws[i], ps[i] + k)
    {
      if ps[i] == 0 {
        assert s[k..][0] == ws[i][0];
      }
      RunShift(s, k, ws[i], ps[i]);
    }
  }

  /**
   * Every word is a maximal run: it is bounded by blanks or by the ends of s.
   * With WordsCoverNonBlanks this pins Words(s) down: the runs of s, in order.
   */
  lemma {:induction false} WordsAreRuns(s: string)
    ensures |WordStarts(s)| == |Words(s)|
    ensures forall i :: 0 <= i < |Words(s)| ==> RunAt(s, Words(s)[i], WordStarts(s)[i])
    decreases |s|
  {
    if |s| == 0 {
    } else if IsSpace(s[0]) {
      WordsAreRuns(s[1..]);
      RunsShift(s, 1, Words(s[1..]), WordStarts(s[1..]));
    } else {
      var w := TakeWord(s);
      WordsAreRuns(s[|w|..]);
      FirstWordIsRun(s);
    }
  }

  /** The step of WordsAreRuns for a string that starts with a word. */
  lemma FirstWordIsRun(s: string)
    requires |s| > 0 && !IsSpace(s[0])
    requires var t := s[|TakeWord(s)|..];
             |WordStarts(t)| == |Words(t)| &&
             forall i :: 0 <= i < |Words(t)| ==> RunAt(t, Words(t)[i], WordStarts(t)[i])
    ensures |WordStarts(s)| == |Words(s)|
    ensures forall i :: 0 <= i < |Words(s)| ==> RunAt(s, Words(s)[i], WordStarts(s)[i])
  {
    var w := TakeWord(s);
    var rest := Words(s[|w|..]);
    var starts := WordStarts(s[|w|..]);
    RunsShift(s, |w|, rest, starts);
    assert s[..|w|] == w;
    ConsRuns(s, w, rest, Shift(starts, |w|));
  }

  /** A run at the start of s, followed by more runs. */
  lemma ConsRuns(s: string, w: string, rest: seq<string>, ps: seq<nat>)
    requires RunAt(s, w, 0) && |ps| == |rest|
    requires forall i :: 0 <= i < |rest| ==> RunAt(s, rest[i], ps[i])
    ensures forall i :: 0 <= i < |rest| + 1 ==> RunAt(s, ([w] + rest)[i], ([0] + ps)[i])
  {
    forall i | 0 <= i < |rest| + 1
      ensures RunAt(s, ([w] + rest)[i], ([0] + ps)[i])
    {
      if i > 0 {
        assert ([w] + rest)[i] == rest[i - 1] && ([0] + ps)[i] == ps[i - 1];
      }
    }
  }

  /** str.lower() restricted to ASCII letters. */
  function LowerChar(c: char): (d: char)
    ensures 'A' <= c <= 'Z' ==> d as int == c as int + 32
    ensures !('A' <= c <= 'Z') ==> d == c
  {
    if 'A' <= c <= 'Z' then (c as int + 32) as char else c
  }

  function Lower(s: string): (t: string)
    ensures |t| == |s|
    ensures forall i :: 0 <= i < |s| ==> t[i] == LowerChar(s[i])
  {
    seq(|s|, i requires 0 <= i < |s| => LowerChar(s[i]))
  }

  predicate HasUpper(s: string) {
    exists i :: 0 <= i < |s| && 'A' <= s[i] <= 'Z'
  }

  /** pat occurs in s at position i. */
  predicate OccursAt(s: string, pat: string, i: int) {
    0 <= i <= |s| - |pat| && s[i..i + |pat|] == pat
  }

  /** Python's `pat in s`: pat is a prefix of s or of one of its suffixes. */
  function Contains(s: string, pat: string): bool
    decreases |s|
  {
    if pat <= s then true
    else if |s| == 0 then false
    else Contains(s[1..], pat)
  }

  /** Contains finds pat exactly when pat occurs at some position of s. */
  lemma {:induction false} ContainsIff(s: string, pat: string)
    ensures Contains(s, pat) <==> exists i :: OccursAt(s, pat, i)
    decreases |s|
  {
    if pat <= s {
      assert OccursAt(s, pat, 0);
    } else if |s| == 0 {
      assert forall i :: !OccursAt(s, pat, i);
    } else {
      ContainsIff(s[1..], pat);
      forall i ensures OccursAt(s, pat, i) <==> i > 0 && OccursAt(s[1..], pat, i - 1) {
        if 1 <= i <= |s| - |pat| {
          var t := s[1..];
          var a, b := s[i..i + |pat|], t[i - 1..i - 1 + |pat|];
          assert forall k :: 0 <= k < |a| ==> a[k] == b[k];
          assert a == b;
        }
      }
      if Contains(s, pat) {
        var j :| OccursAt(s[1..], pat, j);
        assert OccursAt(s, pat, j + 1);
      }
    }
  }

  /** s.replace(pat, ""): occurrences of pat are deleted, scanning left to right. */
  function RemoveAll(s: string, pat: string): (r: string)
    requires |pat| > 0
    ensures |r| <= |s|
    ensures !Contains(s, pat) ==> r == s
    ensures pat <= s ==> |r| <= |s| - |pat|
    decreases |s|
  {
    if |s| == 0 then []
    else if pat <= s then RemoveAll(s[|pat|..], pat)
    else [s[0]] + RemoveAll(s[1..], pat)
  }

  /** A string in which the pattern's first character never occurs is left as it is. */
  lemma {:induction false} RemoveAllAbsent(s: string, pat: string)
    requires |pat| > 0 && pat[0] !in s
    ensures RemoveAll(s, pat) == s
  {
    if |s| > 0 {
      assert !(pat <= s);
      RemoveAllAbsent(s[1..], pat);
      assert s == [s[0]] + s[1..];
    }
  }

  /** Lower-casing a string without upper-case letters changes nothing. */
  lemma LowerNoUpper(s: string)
    requires !HasUpper(s)
    ensures Lower(s) == s
  {
  }

  /** Deletes the occurrences of pat in s, scanning left to right and comparing letters without regard to case. */
  function RemoveAllIgnoringCase(s: string, pat: string): string
    requires |pat| > 0
    decreases |s|
  {
    if |s| == 0 then []
    else if pat <= Lower(s) then RemoveAllIgnoringCase(s[|pat|..], pat)
    else [s[0]] + RemoveAllIgnoringCase(s[1..], pat)
  }

  lemma LowerSuffix(s: string, k: nat)
    requires k <= |s|
    ensures Lower(s)[k..] == Lower(s[k..])
  {
  }

  lemma NoUpperSuffix(s: string, k: nat)
    requires k <= |s| && !HasUpper(s)
    ensures !HasUpper(s[k..])
  {
    var t := s[k..];
    assert forall i :: 0 <= i < |t| ==> t[i] == s[k + i];
  }

  /** On a string without upper-case letters, ignoring case removes exactly what replace removes. */
  lemma {:induction false} RemoveIgnoringCaseNoUpper(s: string, pat: string)
    requires |pat| > 0 && !HasUpper(s)
    ensures RemoveAllIgnoringCase(s, pat) == RemoveAll(s, pat)
    decreases |s|
  {
    if |s| > 0 {
      LowerNoUpper(s);
      if pat <= s {
        NoUpperSuffix(s, |pat|);
        RemoveIgnoringCaseNoUpper(s[|pat|..], pat);
      } else {
        NoUpperSuffix(s, 1);
        RemoveIgnoringCaseNoUpper(s[1..], pat);
      }
    }
  }

  lemma LowerCons(c: char, s: string)
    ensures Lower([c] + s) == [LowerChar(c)] + Lower(s)
  {
  }

  /** Removing without regard to case, then lower-casing, is lower-casing, then removing. */
  lemma {:induction false} LowerRemoveIgnoringCase(s: string, pat: string)
    requires |pat| > 0
    ensures Lower(RemoveAllIgnoringCase(s, pat)) == RemoveAll(Lower(s), pat)
    decreases |s|
  {
    if |s| > 0 {
      var low := Lower(s);
      if pat <= low {
        LowerSuffix(s, |pat|);
        LowerRemoveIgnoringCase(s[|pat|..], pat);
        assert RemoveAll(low, pat) == RemoveAll(low[|pat|..], pat);
      } else {
        LowerSuffix(s, 1);
        LowerRemoveIgnoringCase(s[1..], pat);
        var rest := RemoveAllIgnoringCase(s[1..], pat);
        assert RemoveAllIgnoringCase(s, pat) == [s[0]] + rest;
        assert RemoveAll(low, pat) == [low[0]] + RemoveAll(low[1..], pat);
        LowerCons(s[0], rest);
      }
    }
  }
}
