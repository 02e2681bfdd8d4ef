/**
 * The parts of Go's `strings` package and of RE2 literal matching that the
 * providers rely on, over Dafny strings (a character is a rune).
 */
module Strs {
  import opened Wrappers

  /**
   * unicode.ToLower on every character whose lower case is ASCII: the ASCII
   * capitals, U+0130 (capital I with dot above) and U+212A (Kelvin sign).
   * Other characters are kept.
   */
  function Lower(c: char): char {
    if 'A' <= c <= 'Z' then (c as int + 32) as char
    else if c == '\U{0130}' then 'i'
    else if c == '\U{212A}' then 'k'
    else c
  }

  /** strings.ToLower, as far as a comparison with an ASCII string can tell. */
  function ToLower(s: string): (r: string)
    ensures |r| == |s|
  {
    if s == [] then [] else [Lower(s[0])] + ToLower(s[1..])
  }

  /** ToLower works character by character. */
  lemma {:induction false} ToLowerAt(s: string)
    ensures forall i :: 0 <= i < |s| ==> ToLower(s)[i] == Lower(s[i])
  {
    if s != [] {
      ToLowerAt(s[1..]);
    }
  }

  /**
   * The simple case folding an RE2 `(?i)` literal applies, on every character
   * it relates to an ASCII character: the ASCII capitals, U+017F (long s),
   * which folds with 's', and U+212A (Kelvin sign), which folds with 'k'.
   */
  function Fold(c: char): char {
    if 'A' <= c <= 'Z' then (c as int + 32) as char
    else if c == '\U{017F}' then 's'
    else if c == '\U{212A}' then 'k'
    else c
  }

  function Folded(s: string): (r: string)
    ensures |r| == |s|
  {
    if s == [] then [] else [Fold(s[0])] + Folded(s[1..])
  }

  /** Folded works character by character. */
  lemma {:induction false} FoldedAt(s: string)
    ensures forall i :: 0 <= i < |s| ==> Folded(s)[i] == Fold(s[i])
  {
    if s != [] {
      FoldedAt(s[1..]);
    }
  }

  /** Two strings an RE2 `(?i)` literal cannot tell apart; exact when one of them is ASCII. */
  predicate EqualFold(a: string, b: string) {
    Folded(a) == Folded(b)
  }

  /** `p` is a case-insensitive prefix of `s`. */
  predicate HasPrefixFold(s: string, p: string) {
    |p| <= |s| && EqualFold(s[..|p|], p)
  }

  /** strings.Contains: `p` occurs in `s` at some position. */
  predicate Contains(s: string, p: string)
    decreases |s|
  {
    p <= s || (|s| > 0 && Contains(s[1..], p))
  }

  /** Case-insensitive strings.Contains (the matcher of a `(?i)literal` regexp). */
  predicate ContainsFold(s: string, p: string)
    decreases |s|
  {
    HasPrefixFold(s, p) || (|s| > 0 && ContainsFold(s[1..], p))
  }

  /** strings.Index: the first position at which `p` occurs. */
  function IndexOf(s: string, p: string): (r: Option<nat>)
    ensures r.Some? ==> r.value + |p| <= |s| && s[r.value..r.value + |p|] == p
    ensures r.Some? ==> forall j :: 0 <= j < r.value ==> !(p <= s[j..])
    ensures r.None? <==> !Contains(s, p)
    decreases |s|
  {
    if p <= s then
      assert s[0..|p|] == p;
      Some(0)
    else if |s| == 0 then None
    else
      match IndexOf(s[1..], p)
      case None => None
      case Some(i) =>
        assert s[i + 1..i + 1 + |p|] == s[1..][i..i + |p|];
        assert forall j :: 1 <= j <= i ==> s[j..] == s[1..][j - 1..];
        Some(i + 1)
  }

  /** The first position of a case-insensitive match of `p` (FindStringIndex of a `(?i)literal` regexp). */
  function IndexFold(s: string, p: string): (r: Option<nat>)
    ensures r.Some? ==> r.value <= |s| && HasPrefixFold(s[r.value..], p)
    ensures r.Some? ==> forall j :: 0 <= j < r.value ==> !HasPrefixFold(s[j..], p)
    ensures r.None? <==> !ContainsFold(s, p)
    decreases |s|
  {
    if HasPrefixFold(s, p) then Some(0)
    else if |s| == 0 then None
    else
      match IndexFold(s[1..], p)
      case None => None
      case Some(i) =>
        assert forall j :: 1 <= j <= i ==> s[j..] == s[1..][j - 1..];
        Some(i + 1)
  }

  /** strings.Replace(s, pat, rep, -1) for a non-empty `pat`: leftmost, non-overlapping. */
  function ReplaceAll(s: string, pat: string, rep: string): string
    requires |pat| > 0
    decreases |s|
  {
    if |s| == 0 then []
    else if pat <= s then rep + ReplaceAll(s[|pat|..], pat, rep)
    else [s[0]] + ReplaceAll(s[1..], pat, rep)
  }

  /** regexp `(?i)pat`.ReplaceAllString(s, rep) for a literal `pat` and a `rep` without `$`. */
  function ReplaceAllFold(s: string, pat: string, rep: string): string
    requires |pat| > 0
    decreases |s|
  {
    if |s| == 0 then []
    else if HasPrefixFold(s, pat) then rep + ReplaceAllFold(s[|pat|..], pat, rep)
    else [s[0]] + ReplaceAllFold(s[1..], pat, rep)
  }

  /** strings.Replace(s, pat, rep, 1); an empty `pat` matches at the start. */
  function ReplaceFirst(s: string, pat: string, rep: string): string {
    if pat == [] then rep + s
    else
      match IndexOf(s, pat)
      case None => s
      case Some(i) => s[..i] + rep + s[i + |pat|..]
  }

  /** strings.Join. */
  function Join(parts: seq<string>, sep: string): string {
    if parts == [] then []
    else if |parts| == 1 then parts[0]
    else parts[0] + sep + Join(parts[1..], sep)
  }

  /** The first position of `c` in `s`. */
  function IndexOfChar(s: string, c: char): (r: Option<nat>)
    ensures r.Some? ==> r.value < |s| && s[r.value] == c && c !in s[..r.value]
    ensures r.None? ==> c !in s
  {
    if s == [] then None
    else if s[0] == c then Some(0)
    else
      match IndexOfChar(s[1..], c)
      case None => None
      case Some(i) => Some(i + 1)
  }

  /** strings.Split with a one-character separator: n separators give n + 1 parts. */
  function Split(s: string, sep: char): (r: seq<string>)
    ensures |r| >= 1
    decreases |s|
  {
    match IndexOfChar(s, sep)
    case None => [s]
    case Some(i) => [s[..i]] + Split(s[i + 1..], sep)
  }

  /** Joining the parts of a split with its separator gives the string back. */
  lemma {:induction false} SplitJoin(s: string, sep: char)
    ensures Join(Split(s, sep), [sep]) == s
    ensures forall k :: 0 <= k < |Split(s, sep)| ==> sep !in Split(s, sep)[k]
    decreases |s|
  {
    match IndexOfChar(s, sep)
    case None =>
    case Some(i) =>
      var rest := Split(s[i + 1..], sep);
      SplitJoin(s[i + 1..], sep);
      assert Split(s, sep) == [s[..i]] + rest;
      assert Join(Split(s, sep), [sep]) == s[..i] + [sep] + Join(rest, [sep]);
      assert s == s[..i] + [sep] + s[i + 1..];
  }

  function Digit(d: nat): char
    requires d < 10
  {
    ('0' as int + d) as char
  }

  /** The decimal rendering of a natural number, as fmt's `%v` and `%d` print it. */
  function NatToString(n: nat): string
    decreases n
  {
    if n < 10 then [Digit(n)] else NatToString(n / 10) + [Digit(n % 10)]
  }

  /** The value of a string of decimal digits. */
  function DecimalValue(s: string): int
    decreases |s|
  {
    if s == [] then 0 else 10 * DecimalValue(s[..|s| - 1]) + (s[|s| - 1] as int - '0' as int)
  }

  /** NatToString writes a non-empty string of digits that reads back as `n`. */
  lemma {:induction false} NatToStringRoundTrip(n: nat)
    ensures |NatToString(n)| > 0
    ensures forall i :: 0 <= i < |NatToString(n)| ==> '0' <= NatToString(n)[i] <= '9'
    ensures DecimalValue(NatToString(n)) == n
    decreases n
  {
    if n >= 10 {
      NatToStringRoundTrip(n / 10);
      var s := NatToString(n);
      assert s[..|s| - 1] == NatToString(n / 10);
    }
  }

  // ---------------------------------------------------------------------------
  // Occurrence lemmas

  lemma ContainsPrefix(s: string, p: string)
    requires p <= s
    ensures Contains(s, p)
  {
  }

  lemma {:induction false} ContainsAppendLeft(a: string, b: string, p: string)
    requires Contains(b, p)
    ensures Contains(a + b, p)
    decreases |a|
  {
    if a == [] {
      assert a + b == b;
    } else {
      assert (a + b)[1..] == a[1..] + b;
      ContainsAppendLeft(a[1..], b, p);
    }
  }

  lemma {:induction false} ContainsAppendRight(a: string, b: string, p: string)
    requires Contains(a, p)
    ensures Contains(a + b, p)
    decreases |a|
  {
    if !(p <= a) {
      assert (a + b)[1..] == a[1..] + b;
      ContainsAppendRight(a[1..], b, p);
    }
  }

  lemma {:induction false} ContainsTrans(a: string, b: string, c: string)
    requires Contains(a, b) && Contains(b, c)
    ensures Contains(a, c)
    decreases |a|
  {
    if b <= a {
      assert a == b + a[|b|..];
      ContainsAppendRight(b, a[|b|..], c);
    } else {
      ContainsTrans(a[1..], b, c);
    }
  }

  /** Replacing every `pat` by `rep` leaves no text unchanged if `pat` does not occur. */
  lemma {:induction false} ReplaceAllNoMatch(s: string, pat: string, rep: string)
    requires |pat| > 0 && !Contains(s, pat)
    ensures ReplaceAll(s, pat, rep) == s
    decreases |s|
  {
    if |s| > 0 {
      ReplaceAllNoMatch(s[1..], pat, rep);
    }
  }

  /** If `pat` occurs, the replacement text occurs in the result. */
  lemma {:induction false} ReplaceAllIntroduces(s: string, pat: string, rep: string)
    requires |pat| > 0 && Contains(s, pat)
    ensures Contains(ReplaceAll(s, pat, rep), rep)
    decreases |s|
  {
    if pat <= s {
      ContainsAppendRight(rep, ReplaceAll(s[|pat|..], pat, rep), rep);
    } else {
      ReplaceAllIntroduces(s[1..], pat, rep);
      ContainsAppendLeft([s[0]], ReplaceAll(s[1..], pat, rep), rep);
    }
  }

  /** A prefix of `s` either survives the replacement or a replacement text is written. */
  lemma {:induction false} ReplaceAllPrefixKept(s: string, pat: string, rep: string, u: string)
    requires |pat| > 0 && u <= s
    ensures Contains(ReplaceAll(s, pat, rep), rep) || u <= ReplaceAll(s, pat, rep)
    decreases |u|
  {
    if u != [] {
      if pat <= s {
        ContainsAppendRight(rep, ReplaceAll(s[|pat|..], pat, rep), rep);
      } else {
        ReplaceAllPrefixKept(s[1..], pat, rep, u[1..]);
        var r := ReplaceAll(s[1..], pat, rep);
        if Contains(r, rep) {
          ContainsAppendLeft([s[0]], r, rep);
        }
      }
    }
  }

  /** Text that occurs in `s` still occurs after the replacement when `rep` contains it too. */
  lemma {:induction false} ReplaceAllPreserves(s: string, pat: string, rep: string, t: string)
    requires |pat| > 0 && Contains(s, t) && Contains(rep, t)
    ensures Contains(ReplaceAll(s, pat, rep), t)
    decreases |s|
  {
    var r := ReplaceAll(s, pat, rep);
    if pat <= s {
      ContainsAppendRight(rep, ReplaceAll(s[|pat|..], pat, rep), t);
    } else if |s| == 0 {
      assert t == [];
    } else if Contains(s[1..], t) {
      ReplaceAllPreserves(s[1..], pat, rep, t);
      ContainsAppendLeft([s[0]], ReplaceAll(s[1..], pat, rep), t);
    } else {
      ReplaceAllPrefixKept(s, pat, rep, t);
      if Contains(r, rep) {
        ContainsTrans(r, rep, t);
      }
    }
  }

  /** A pattern whose last character never occurs in `s` does not occur in `s`. */
  lemma {:induction false} MissingLastChar(s: string, p: string)
    requires |p| > 0 && p[|p| - 1] !in s
    ensures !Contains(s, p)
    decreases |s|
  {
    assert !(p <= s);
    if |s| > 0 {
      MissingLastChar(s[1..], p);
    }
  }

  /**
   * Appending text without the pattern's last character moves no first
   * occurrence: every occurrence lies wholly before the appended part.
   */
  lemma {:induction false} IndexOfAppend(x: string, y: string, p: string)
    requires |p| > 0 && p[|p| - 1] !in y
    ensures IndexOf(x + y, p) == IndexOf(x, p)
    decreases |x|
  {
    var s := x + y;
    if x == [] {
      assert s == y;
      MissingLastChar(y, p);
    } else {
      if p <= s {
        assert s[|p| - 1] == p[|p| - 1];
        assert forall k :: |x| <= k < |s| ==> s[k] == y[k - |x|];
        assert |p| <= |x|;
        assert s[..|p|] == x[..|p|];
      } else {
        PrefixExtends(x, y, p);
        assert s[1..] == x[1..] + y;
        IndexOfAppend(x[1..], y, p);
      }
    }
  }

  /** Text after the last possible occurrence of `p` is carried through a first-occurrence replacement. */
  lemma ReplaceFirstAppend(x: string, y: string, p: string, rep: string)
    requires |p| > 0 && p[|p| - 1] !in y
    ensures ReplaceFirst(x + y, p, rep) == ReplaceFirst(x, p, rep) + y
  {
    IndexOfAppend(x, y, p);
    if IndexOf(x, p).Some? {
      var i := IndexOf(x, p).value;
      var a, b := x[..i], x[i + |p|..];
      ReplaceFirstAt(x + y, p, rep, i);
      ReplaceFirstAt(x, p, rep, i);
      assert (x + y)[..i] == a;
      assert (x + y)[i + |p|..] == b + y;
      assert a + rep + (b + y) == (a + rep + b) + y;
    }
  }

  /** Replacing the first occurrence found at `i`. */
  lemma ReplaceFirstAt(s: string, p: string, rep: string, i: nat)
    requires |p| > 0 && IndexOf(s, p) == Some(i)
    ensures ReplaceFirst(s, p, rep) == s[..i] + rep + s[i + |p|..]
  {
  }

  lemma PrefixExtends(x: string, y: string, p: string)
    ensures p <= x ==> p <= x + y
  {
    if p <= x {
      assert (x + y)[..|p|] == x[..|p|];
    }
  }
}
