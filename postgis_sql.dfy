/**
 * The SQL text handling of provider/postgis/postgis.go: the `isSelectQuery`
 * pattern, the lazy regular expressions used to find a query's head and its
 * geometry column, the rewrites that turn a layer's SQL into probe queries,
 * the geometry-type name tables, the BOX text parser and the ST_AsMVT
 * composition.  All of it is pure string work.
 */
module PostgisSql {
  import opened Wrappers
  import opened Errors
  import opened Geom
  import opened Strs

  // ---------------------------------------------------------------------------
  // isSelectQuery: (?i)^((\s*)(--.*\n)?)*select

  /** RE2's `\s`: tab, newline, form feed, carriage return, space. */
  predicate IsSpace(c: char) {
    c == ' ' || c == '\t' || c == '\n' || c == '\r' || c == '\U{000C}'
  }

  /** A `--` comment up to and including the first line break. */
  predicate IsComment(c: string) {
    |c| >= 3 && c[..2] == "--" && c[|c| - 1] == '\n' && '\n' !in c[2..|c| - 1]
  }

  /** The language `((\s*)(--.*\n)?)*`: any run of whitespace characters and comment lines. */
  ghost predicate Skippable(w: string)
    decreases |w|
  {
    || w == []
    || (IsSpace(w[0]) && Skippable(w[1..]))
    || (exists k :: 3 <= k <= |w| && IsComment(w[..k]) && Skippable(w[k..]))
  }

  /** The length of the whitespace and comments that open `s`, consumed greedily. */
  function SkipLength(s: string): (n: nat)
    ensures n <= |s|
    decreases |s|
  {
    if |s| > 0 && IsSpace(s[0]) then 1 + SkipLength(s[1..])
    else if "--" <= s then
      match IndexOfChar(s[2..], '\n')
      case None => 0
      case Some(k) => 3 + k + SkipLength(s[3 + k..])
    else 0
  }

  /** isSelectQuery.MatchString. */
  predicate IsSelectQuery(sql: string) {
    HasPrefixFold(sql[SkipLength(sql)..], "select")
  }

  lemma {:induction false} SkipLengthSkippable(s: string)
    ensures Skippable(s[..SkipLength(s)])
    decreases |s|
  {
    var w := s[..SkipLength(s)];
    if |s| > 0 && IsSpace(s[0]) {
      SkipLengthSkippable(s[1..]);
      assert w[1..] == s[1..][..SkipLength(s[1..])];
    } else if "--" <= s {
      match IndexOfChar(s[2..], '\n')
      case None =>
      case Some(k) =>
        CommentUpTo(s, k);
        SkipLengthSkippable(s[3 + k..]);
        assert w[..3 + k] == s[..3 + k];
        assert w[3 + k..] == s[3 + k..][..SkipLength(s[3 + k..])];
    }
  }

  /** A "--" whose first line break after it is `k` characters on opens a comment of `3 + k` characters. */
  lemma CommentUpTo(s: string, k: nat)
    requires "--" <= s && IndexOfChar(s[2..], '\n') == Some(k)
    ensures 3 + k <= |s| && IsComment(s[..3 + k])
  {
    assert s[..3 + k][..2] == s[..2];
    assert s[..3 + k][2..3 + k - 1] == s[2..][..k];
  }

  /** Greedy skipping stops exactly at the end of a skippable prefix followed by neither whitespace nor '-'. */
  lemma {:induction false} SkipLengthExact(w: string, rest: string)
    requires Skippable(w)
    requires |rest| > 0 && !IsSpace(rest[0]) && rest[0] != '-'
    ensures SkipLength(w + rest) == |w|
    decreases |w|
  {
    if w == [] {
      SkipStopsAt(rest);
      assert w + rest == rest;
    } else if IsSpace(w[0]) && Skippable(w[1..]) {
      SkipLengthExact(w[1..], rest);
      SkipSpaceStep(w, rest);
    } else {
      var k :| 3 <= k <= |w| && IsComment(w[..k]) && Skippable(w[k..]);
      SkipLengthExact(w[k..], rest);
      SkipCommentStep(w, rest, k);
    }
  }

  /** Nothing is skipped before a character that is neither whitespace nor '-'. */
  lemma SkipStopsAt(rest: string)
    requires |rest| > 0 && !IsSpace(rest[0]) && rest[0] != '-'
    ensures SkipLength(rest) == 0
  {
    assert !("--" <= rest) by { assert rest[0] != "--"[0]; }
  }

  /** A leading whitespace character is skipped on its own. */
  lemma SkipSpaceStep(w: string, rest: string)
    requires |w| > 0 && IsSpace(w[0])
    ensures SkipLength(w + rest) == 1 + SkipLength(w[1..] + rest)
  {
    var s := w + rest;
    assert s[0] == w[0] && s[1..] == w[1..] + rest;
  }

  /** A leading comment is skipped whole, whatever follows the skippable text. */
  lemma SkipCommentStep(w: string, rest: string, k: nat)
    requires 3 <= k <= |w| && IsComment(w[..k])
    ensures SkipLength(w + rest) == k + SkipLength(w[k..] + rest)
  {
    var s := w + rest;
    assert s[..k] == w[..k];
    SkipComment(s, k);
    assert s[k..] == w[k..] + rest;
  }

  /** A comment opening `s` is skipped whole. */
  lemma SkipComment(s: string, k: nat)
    requires 3 <= k <= |s| && IsComment(s[..k])
    ensures SkipLength(s) == k + SkipLength(s[k..])
  {
    CommentEndsAtFirstBreak(s, k);
    assert s[0] == s[..k][0] == '-';
  }

  /** A comment opening `s` ends at the first line break after its "--". */
  lemma CommentEndsAtFirstBreak(s: string, k: nat)
    requires 3 <= k <= |s| && IsComment(s[..k])
    ensures "--" <= s && IndexOfChar(s[2..], '\n') == Some(k - 3)
  {
    assert s[..2] == s[..k][..2];
    assert s[2..][k - 3] == s[..k][k - 1];
    var j := IndexOfChar(s[2..], '\n').value;
    if j < k - 3 {
      assert false;
    }
    if j > k - 3 {
      assert false;
    }
  }

  /** isSelectQuery matches exactly the queries that are whitespace and comment lines, then "select" in any case. */
  lemma SelectQueryMeans(sql: string)
    ensures IsSelectQuery(sql) <==>
            exists n :: 0 <= n <= |sql| && Skippable(sql[..n]) && HasPrefixFold(sql[n..], "select")
  {
    if IsSelectQuery(sql) {
      SkipLengthSkippable(sql);
    }
    forall n | 0 <= n <= |sql| && Skippable(sql[..n]) && HasPrefixFold(sql[n..], "select")
      ensures IsSelectQuery(sql)
    {
      FoldedAt(sql[n..][..6]);
      assert Fold(sql[n..][0]) == 's';
      assert sql == sql[..n] + sql[n..];
      SkipLengthExact(sql[..n], sql[n..]);
    }
  }

  /** RE2 folds the long s with 's', so a query spelled "ſelect" is a select query. */
  lemma LongSSelects()
    ensures IsSelectQuery("\U{017F}elect * from t")
  {
    var sql := "\U{017F}elect * from t";
    assert SkipLength(sql) == 0;
    FoldedAt(sql[..6]);
    FoldedAt("select");
    assert Folded(sql[..6]) == Folded("select");
  }

  // ---------------------------------------------------------------------------
  // Lazy regular expressions of the shape  head(.*?)tail

  /**
   * `.*?` followed by `tail` can match from `k` with the tail starting at `e`:
   * `.` does not match a line break.  Every pattern the provider uses either has
   * the `(?i)` flag or contains no letters, so the match is case-insensitive.
   */
  predicate TailAt(s: string, k: nat, e: nat, tail: string) {
    k <= e <= |s| && HasPrefixFold(s[e..], tail) && '\n' !in s[k..e]
  }

  /** `head(.*?)tail` matches at `i`, its tail starting at `e`. */
  predicate MatchAt(s: string, i: nat, e: nat, head: string, tail: string) {
    i <= |s| && HasPrefixFold(s[i..], head) && TailAt(s, i + |head|, e, tail)
  }

  /** The nearest tail position: what the lazy `.*?` settles on. */
  function TailFrom(s: string, k: nat, tail: string): (r: Option<nat>)
    requires k <= |s|
    ensures r.Some? ==> TailAt(s, k, r.value, tail)
    ensures forall e :: TailAt(s, k, e, tail) ==> r.Some? && r.value <= e
    decreases |s| - k
  {
    if HasPrefixFold(s[k..], tail) then Some(k)
    else if k == |s| || s[k] == '\n' then None
    else
      TailStep(s, k, tail);
      TailFrom(s, k + 1, tail)
  }

  /** A tail position beyond `k` is one beyond `k + 1`, and back when `s[k]` is no line break. */
  lemma TailStep(s: string, k: nat, tail: string)
    requires k < |s|
    ensures forall e :: k < e && TailAt(s, k, e, tail) ==> TailAt(s, k + 1, e, tail)
    ensures s[k] != '\n' ==> forall e :: TailAt(s, k + 1, e, tail) ==> TailAt(s, k, e, tail)
  {
    forall e | k < e <= |s|
      ensures s[k..e] == [s[k]] + s[k + 1..e]
    {
    }
  }

  /** A match: where it starts and where its tail starts. */
  datatype Found = Found(start: nat, tailAt: nat)

  function LazyFrom(s: string, i: nat, head: string, tail: string): (r: Option<Found>)
    requires i <= |s|
    ensures r.Some? ==> i <= r.value.start && MatchAt(s, r.value.start, r.value.tailAt, head, tail)
    ensures r.Some? ==> forall e :: MatchAt(s, r.value.start, e, head, tail) ==> r.value.tailAt <= e
    ensures forall j, e :: i <= j && MatchAt(s, j, e, head, tail) ==> r.Some? && r.value.start <= j
    decreases |s| - i
  {
    if HasPrefixFold(s[i..], head) && TailFrom(s, i + |head|, tail).Some? then
      Some(Found(i, TailFrom(s, i + |head|, tail).value))
    else if i == |s| then None
    else LazyFrom(s, i + 1, head, tail)
  }

  /**
   * FindStringIndex / FindStringSubmatch of `head(.*?)tail`: the leftmost
   * match, and of the matches starting there the one with the shortest group.
   */
  function LazyMatch(s: string, head: string, tail: string): (r: Option<Found>)
    ensures r.Some? ==> MatchAt(s, r.value.start, r.value.tailAt, head, tail)
    ensures r.Some? ==> forall j, e :: MatchAt(s, j, e, head, tail) ==> r.value.start <= j
    ensures r.Some? ==> forall e :: MatchAt(s, r.value.start, e, head, tail) ==> r.value.tailAt <= e
    ensures r.None? <==> forall j, e :: !MatchAt(s, j, e, head, tail)
  {
    LazyFrom(s, 0, head, tail)
  }

  /** The end of the whole match. */
  function MatchEnd(f: Found, tail: string): nat {
    f.tailAt + |tail|
  }

  /** The captured group `(.*?)`. */
  function Group(s: string, f: Found, head: string): string
    requires f.start + |head| <= f.tailAt <= |s|
  {
    s[f.start + |head|..f.tailAt]
  }

  lemma ContainsAt(s: string, t: string, i: nat)
    requires i + |t| <= |s| && s[i..i + |t|] == t
    ensures Contains(s, t)
  {
    assert t <= s[i..];
    ContainsPrefix(s[i..], t);
    assert s == s[..i] + s[i..];
    ContainsAppendLeft(s[..i], s[i..], t);
  }

  /**
   * strings.Replace(s, matched, rps, 1) with the text of the leftmost lazy match
   * replaces exactly that match: no earlier copy of the same text exists.
   */
  lemma {:induction false} ReplaceMatchedText(s: string, head: string, tail: string, rps: string)
    requires |head| > 0 && LazyMatch(s, head, tail).Some?
    ensures var f := LazyMatch(s, head, tail).value;
            ReplaceFirst(s, s[f.start..MatchEnd(f, tail)], rps) == s[..f.start] + rps + s[MatchEnd(f, tail)..]
  {
    var f := LazyMatch(s, head, tail).value;
    assert MatchAt(s, f.start, f.tailAt, head, tail);
    var t := s[f.start..MatchEnd(f, tail)];
    assert t != [] && f.start + |t| == MatchEnd(f, tail);
    MatchedTextFirstAt(s, head, tail);
    ReplaceFirstAt(s, t, rps, f.start);
  }

  /** The text of the leftmost match occurs nowhere earlier. */
  lemma MatchedTextFirstAt(s: string, head: string, tail: string)
    requires |head| > 0 && LazyMatch(s, head, tail).Some?
    ensures var f := LazyMatch(s, head, tail).value;
            IndexOf(s, s[f.start..MatchEnd(f, tail)]) == Some(f.start)
  {
    var f := LazyMatch(s, head, tail).value;
    assert MatchAt(s, f.start, f.tailAt, head, tail);
    var t := s[f.start..MatchEnd(f, tail)];
    ContainsAt(s, t, f.start);
    var r := IndexOf(s, t).value;
    assert r <= f.start by {
      assert t <= s[f.start..];
    }
    NoEarlierCopy(s, f, r, head, tail);
  }

  /** A copy of the leftmost match's text cannot start before the match. */
  lemma NoEarlierCopy(s: string, f: Found, r: nat, head: string, tail: string)
    requires LazyMatch(s, head, tail) == Some(f)
    requires MatchAt(s, f.start, f.tailAt, head, tail)
    requires r + (MatchEnd(f, tail) - f.start) <= |s|
    requires s[r..r + (MatchEnd(f, tail) - f.start)] == s[f.start..MatchEnd(f, tail)]
    ensures f.start <= r
  {
    MatchAtShift(s, f.start, f.tailAt, r, head, tail);
  }

  /** Whether a pattern matches depends only on the text: a copy of a match's text elsewhere matches too. */
  lemma MatchAtShift(s: string, i: nat, e: nat, r: nat, head: string, tail: string)
    requires MatchAt(s, i, e, head, tail)
    requires r + (e + |tail| - i) <= |s| && s[r..r + (e + |tail| - i)] == s[i..e + |tail|]
    ensures MatchAt(s, r, r + (e - i), head, tail)
  {
    var n := e + |tail| - i;
    var d := e - i;
    PrefixCopy(s, r, i, n, 0, head);
    PrefixCopy(s, r, i, n, d, tail);
    assert '\n' !in s[r + |head|..r + d] by {
      SliceCopy(s, r, i, n, |head|, d);
    }
  }

  /** A case-insensitive prefix inside a copied stretch of text is a prefix in the copy too. */
  lemma PrefixCopy(s: string, r: nat, i: nat, n: nat, a: nat, p: string)
    requires r + n <= |s| && i + n <= |s| && s[r..r + n] == s[i..i + n]
    requires a + |p| <= n && HasPrefixFold(s[i + a..], p)
    ensures HasPrefixFold(s[r + a..], p)
  {
    SliceCopy(s, r, i, n, a, a + |p|);
    assert s[r + a..][..|p|] == s[r + a..r + a + |p|];
    assert s[i + a..][..|p|] == s[i + a..i + a + |p|];
  }

  lemma SliceCopy(s: string, r: nat, i: nat, n: nat, a: nat, b: nat)
    requires r + n <= |s| && i + n <= |s| && s[r..r + n] == s[i..i + n] && a <= b <= n
    ensures s[r + a..r + b] == s[i + a..i + b]
  {
    var copy := s[r + a..r + b];
    var orig := s[i + a..i + b];
    var whole := s[r..r + n];
    forall x | 0 <= x < |copy|
      ensures copy[x] == orig[x]
    {
      assert copy[x] == whole[a + x];
    }
  }

  // ---------------------------------------------------------------------------
  // Probe queries

  const ZoomToken := "!ZOOM!"
  const BBoxToken := "!BBOX!"
  /** The all-zooms list that stands in for the zoom token in probe queries. */
  const AnyZoom := "ANY('{0,1,2,3,4,5,6,7,8,9,10,11,12,13,14,15,16,17,18,19,20,21,22,23,24}')"

  /** strings.Replace(sql, "!ZOOM!", AnyZoom, 1): the first token, and only that one, becomes the list. */
  function AnyZoomFirst(sql: string): (r: string)
    ensures !Contains(sql, ZoomToken) ==> r == sql
    ensures Contains(sql, ZoomToken) ==> Contains(r, AnyZoom)
  {
    if Contains(sql, ZoomToken) then
      var i := IndexOf(sql, ZoomToken).value;
      ContainsAt(sql[..i] + AnyZoom + sql[i + |ZoomToken|..], AnyZoom, i);
      ReplaceFirst(sql, ZoomToken, AnyZoom)
    else
      ReplaceFirst(sql, ZoomToken, AnyZoom)
  }

  /** Text appended after the token can be appended after the replacement instead, when it has no '!'. */
  lemma AnyZoomFirstAppend(x: string, y: string)
    requires '!' !in y
    ensures AnyZoomFirst(x + y) == AnyZoomFirst(x) + y
  {
    ReplaceFirstAppend(x, y, ZoomToken, AnyZoom);
  }

  /** Replaces the `select … from` head of `sql` by `rps`; the empty query when there is none. */
  function HeadReplaced(sql: string, rps: string): (r: string)
    ensures LazyMatch(sql, "select", "from").None? ==> r == ""
    ensures LazyMatch(sql, "select", "from").Some? ==>
              var f := LazyMatch(sql, "select", "from").value;
              r == sql[..f.start] + rps + sql[MatchEnd(f, "from")..]
  {
    match LazyMatch(sql, "select", "from")
    case None => ""
    case Some(f) =>
      ReplaceMatchedText(sql, "select", "from", rps);
      ReplaceFirst(sql, sql[f.start..MatchEnd(f, "from")], rps)
  }

  /** The first argument of `ST_AsMVTGeom(…,` in `sql`, else `geomField`. */
  function MvtGeomArgument(sql: string, geomField: string): (r: string)
    ensures LazyMatch(sql, "ST_AsMVTGeom(", ",").None? ==> r == geomField
    ensures LazyMatch(sql, "ST_AsMVTGeom(", ",").Some? ==> ',' !in r && '\n' !in r
  {
    match LazyMatch(sql, "ST_AsMVTGeom(", ",")
    case None => geomField
    case Some(f) =>
      GroupHasNoTail(sql, "ST_AsMVTGeom(", ',');
      Group(sql, f, "ST_AsMVTGeom(")
  }

  /** The group of a lazy match with a one-character tail never contains that character. */
  lemma GroupHasNoTail(s: string, head: string, c: char)
    requires LazyMatch(s, head, [c]).Some?
    ensures var f := LazyMatch(s, head, [c]).value;
            c !in Group(s, f, head) && '\n' !in Group(s, f, head)
  {
    var f := LazyMatch(s, head, [c]).value;
    assert MatchAt(s, f.start, f.tailAt, head, [c]);
    var a := f.start + |head|;
    var g := Group(s, f, head);
    assert g == s[a..f.tailAt];
    if c in g {
      var k :| 0 <= k < |g| && g[k] == c;
      assert s[a + k] == c;
      EarlierTail(s, a, f.tailAt, a + k, c);
      OtherTail(s, f.start, f.tailAt, a + k, head, [c]);
    }
  }

  /** A match stays a match when its tail is moved to another tail position. */
  lemma OtherTail(s: string, i: nat, e: nat, e2: nat, head: string, tail: string)
    requires MatchAt(s, i, e, head, tail) && TailAt(s, i + |head|, e2, tail)
    ensures MatchAt(s, i, e2, head, tail)
  {
  }

  /** An occurrence of a one-character tail inside the group is itself a tail position. */
  lemma EarlierTail(s: string, a: nat, e: nat, pos: nat, c: char)
    requires TailAt(s, a, e, [c]) && a <= pos < e && s[pos] == c
    ensures TailAt(s, a, pos, [c])
  {
    assert s[pos..][..1] == [c];
    assert s[a..pos] == s[a..e][..pos - a];
  }

  /** The query and geometry field inspectLayerGeomType probes with, before token replacement. */
  datatype Probe = Probe(sql: string, geomField: string)

  /**
   * inspectLayerGeomType's rewrite: every ST_AsBinary becomes ST_GeometryType;
   * failing that, the head becomes `SELECT ST_GeometryType(<geometry field>) FROM`,
   * the field read from an ST_AsMVTGeom call when there is one.  Then
   * " LIMIT 1" is appended and the first zoom token becomes the all-zooms list.
   */
  function GeomTypeProbe(sql: string, geomField: string): Probe
  {
    if ContainsFold(sql, "ST_AsBinary") then
      Probe(AnyZoomFirst(ReplaceAllFold(sql, "ST_AsBinary", "ST_GeometryType") + " LIMIT 1"), geomField)
    else
      var g := MvtGeomArgument(sql, geomField);
      Probe(AnyZoomFirst(HeadReplaced(sql, "SELECT ST_GeometryType(" + g + ") FROM") + " LIMIT 1"), g)
  }

  /** The probe query always ends in " LIMIT 1", whatever the zoom token replacement did. */
  lemma GeomTypeProbeLimited(sql: string, geomField: string)
    ensures var q := GeomTypeProbe(sql, geomField).sql;
            |q| >= 8 && q[|q| - 8..] == " LIMIT 1"
  {
    if ContainsFold(sql, "ST_AsBinary") {
      LimitSurvives(ReplaceAllFold(sql, "ST_AsBinary", "ST_GeometryType"));
    } else {
      LimitSurvives(HeadReplaced(sql, "SELECT ST_GeometryType(" + MvtGeomArgument(sql, geomField) + ") FROM"));
    }
  }

  /** Widening the zoom token of a query with " LIMIT 1" appended keeps that suffix. */
  lemma LimitSurvives(base: string)
    ensures var q := AnyZoomFirst(base + " LIMIT 1");
            |q| >= 8 && q[|q| - 8..] == " LIMIT 1"
  {
    AnyZoomFirstAppend(base, " LIMIT 1");
  }

  /**
   * The geometry column inspectLayerExtent reads: inside the parentheses
   * after the first ST_AsBinary, else the configured field; without
   * ST_AsBinary, the field MvtGeomArgument finds.
   */
  function ExtentGeomField(sql: string, geomField: string): (r: string)
    ensures !ContainsFold(sql, "ST_AsBinary") ==> r == MvtGeomArgument(sql, geomField)
    ensures ContainsFold(sql, "ST_AsBinary") && r != geomField ==> ')' !in r && '\n' !in r
  {
    match IndexFold(sql, "ST_AsBinary")
    case Some(i) =>
      var after := sql[i + 11..];
      (match LazyMatch(after, "(", ")")
       case None => geomField
       case Some(f) =>
         GroupHasNoTail(after, "(", ')');
         Group(after, f, "("))
    case None => MvtGeomArgument(sql, geomField)
  }

  /** inspectLayerExtent's query: the head becomes `SELECT ST_Extent(<field>) FROM`, then the first zoom token is widened. */
  function ExtentProbe(sql: string, geomField: string): Probe
  {
    var g := ExtentGeomField(sql, geomField);
    Probe(AnyZoomFirst(HeadReplaced(sql, "SELECT ST_Extent(" + g + ") FROM")), g)
  }

  /** inspectLayerMaxZoom's query: the head becomes `SELECT COUNT(*) FROM`, then the first zoom token is widened. */
  function CountProbe(sql: string): string
  {
    AnyZoomFirst(HeadReplaced(sql, "SELECT COUNT(*) FROM"))
  }

  // ---------------------------------------------------------------------------
  // The bbox token

  /** !BOX! (MapServer) and then !bbox! (Mapnik) become !BBOX!. */
  function NormalizeBBox(sql: string): string {
    ReplaceAll(ReplaceAll(sql, "!BOX!", BBoxToken), "!bbox!", BBoxToken)
  }

  /** After normalisation the query has the bbox token exactly when it had one of the three spellings. */
  lemma NormalizeBBoxIff(sql: string)
    ensures Contains(NormalizeBBox(sql), BBoxToken) <==>
            Contains(sql, BBoxToken) || Contains(sql, "!BOX!") || Contains(sql, "!bbox!")
  {
    var s1 := ReplaceAll(sql, "!BOX!", BBoxToken);
    ContainsPrefix(BBoxToken, BBoxToken);
    if Contains(sql, "!BOX!") {
      ReplaceAllIntroduces(sql, "!BOX!", BBoxToken);
    } else {
      ReplaceAllNoMatch(sql, "!BOX!", BBoxToken);
    }
    if Contains(s1, "!bbox!") {
      ReplaceAllIntroduces(s1, "!bbox!", BBoxToken);
    } else {
      ReplaceAllNoMatch(s1, "!bbox!", BBoxToken);
    }
    if Contains(s1, BBoxToken) {
      ReplaceAllPreserves(s1, "!bbox!", BBoxToken, BBoxToken);
    }
    if Contains(sql, BBoxToken) {
      ReplaceAllPreserves(sql, "!BOX!", BBoxToken, BBoxToken);
    }
  }

  // ---------------------------------------------------------------------------
  // Geometry type names

  /** setLayerGeomType: the configured geometry_type, compared in lower case. */
  function ConfiguredGeomType(name: string): Option<GeomKind> {
    match ToLower(name)
    case "point" => Some(Point)
    case "linestring" => Some(LineString)
    case "polygon" => Some(Polygon)
    case "multipoint" => Some(MultiPoint)
    case "multilinestring" => Some(MultiLineString)
    case "multipolygon" => Some(MultiPolygon)
    case "geometrycollection" => Some(Collection)
    case _ => None
  }

  /** The configuration name of each kind the provider supports. */
  function ConfigName(k: GeomKind): Option<string> {
    match k
    case Point => Some("point")
    case LineString => Some("linestring")
    case Polygon => Some("polygon")
    case MultiPoint => Some("multipoint")
    case MultiLineString => Some("multilinestring")
    case MultiPolygon => Some("multipolygon")
    case Collection => Some("geometrycollection")
    case Line => None
  }

  /** A geometry_type is accepted exactly when its lower case is one of the seven names, and names its kind. */
  lemma ConfiguredGeomTypeIff(name: string, k: GeomKind)
    ensures ConfiguredGeomType(name) == Some(k) <==> ConfigName(k) == Some(ToLower(name))
  {
  }

  /** strings.ToLower maps U+0130 to 'i', so "POİNT" is the point type. */
  lemma DottedCapitalIPoint()
    ensures ConfiguredGeomType("PO\U{0130}NT") == Some(Point)
  {
    assert ToLower("PO\U{0130}NT") == "point";
  }

  /** The ST_GeometryType answers inspectLayerGeomType accepts (exact case). */
  function ProbedGeomType(v: string): Option<GeomKind> {
    match v
    case "ST_Point" => Some(Point)
    case "ST_LineString" => Some(LineString)
    case "ST_Polygon" => Some(Polygon)
    case "ST_MultiPoint" => Some(MultiPoint)
    case "ST_MultiLineString" => Some(MultiLineString)
    case "ST_MultiPolygon" => Some(MultiPolygon)
    case "ST_GeometryCollection" => Some(Collection)
    case _ => None
  }

  /** What ST_GeometryType answers for each kind. */
  function PostgisName(k: GeomKind): Option<string> {
    match k
    case Point => Some("ST_Point")
    case LineString => Some("ST_LineString")
    case Polygon => Some("ST_Polygon")
    case MultiPoint => Some("ST_MultiPoint")
    case MultiLineString => Some("ST_MultiLineString")
    case MultiPolygon => Some("ST_MultiPolygon")
    case Collection => Some("ST_GeometryCollection")
    case Line => None
  }

  /** A probed value is accepted exactly when it is PostGIS's name of a kind. */
  lemma ProbedGeomTypeIff(v: string, k: GeomKind)
    ensures ProbedGeomType(v) == Some(k) <==> PostgisName(k) == Some(v)
  {
  }

  /** Both tables cover the same seven kinds, and nothing else. */
  lemma ProbedKindsAreConfiguredKinds(k: GeomKind)
    ensures PostgisName(k).Some? <==> ConfigName(k).Some?
    ensures PostgisName(k).None? <==> k == Line
  {
  }

  // ---------------------------------------------------------------------------
  // BOX text

  /** What the BOX text of an ST_Extent answer yields. */
  datatype BoxParse = BoxExtent(extent: Extent) | BoxMissing | BoxPanics

  /**
   * The tail of inspectLayerExtent: `(?i)BOX\((.*?)\)`, the group split on ','
   * into exactly two corners, each split on ' '.  A corner with one part
   * indexes past the end of its slice.  `parseFloat` is strconv.ParseFloat
   * with its error dropped.
   */
  function ParseBox(box: string, parseFloat: string -> real): BoxParse {
    match LazyMatch(box, "BOX(", ")")
    case None => BoxMissing
    case Some(f) =>
      var corners := Split(Group(box, f, "BOX("), ',');
      if |corners| != 2 then BoxMissing
      else
        var lo := Split(corners[0], ' ');
        var hi := Split(corners[1], ' ');
        if |lo| < 2 || |hi| < 2 then BoxPanics
        else BoxExtent(Extent(parseFloat(lo[0]), parseFloat(lo[1]), parseFloat(hi[0]), parseFloat(hi[1])))
  }

  /** The text PostGIS prints for a box2d. */
  function BoxText(minX: string, minY: string, maxX: string, maxY: string): string {
    "BOX(" + minX + " " + minY + "," + maxX + " " + maxY + ")"
  }

  lemma SplitNoSep(s: string, sep: char)
    requires sep !in s
    ensures Split(s, sep) == [s]
  {
  }

  lemma SplitAtFirst(a: string, b: string, sep: char)
    requires sep !in a
    ensures Split(a + [sep] + b, sep) == [a] + Split(b, sep)
  {
    var s := a + [sep] + b;
    assert s[|a|] == sep;
    assert s[..|a|] == a;
    var i := IndexOfChar(s, sep).value;
    assert i == |a|;
    assert s[..i] == a && s[i + 1..] == b;
  }

  /** A coordinate as printed: no space, comma, closing parenthesis or line break. */
  predicate PlainNumber(x: string) {
    forall c :: c in x ==> c != ' ' && c != ',' && c != ')' && c != '\n'
  }

  /** A box2d's text parses back to its four coordinates, in order. */
  lemma {:induction false} ParseBoxText(minX: string, minY: string, maxX: string, maxY: string, parseFloat: string -> real)
    requires PlainNumber(minX) && PlainNumber(minY) && PlainNumber(maxX) && PlainNumber(maxY)
    ensures ParseBox(BoxText(minX, minY, maxX, maxY), parseFloat) ==
            BoxExtent(Extent(parseFloat(minX), parseFloat(minY), parseFloat(maxX), parseFloat(maxY)))
  {
    var lo := minX + [' '] + minY;
    var hi := maxX + [' '] + maxY;
    var body := lo + [','] + hi;
    var s := BoxText(minX, minY, maxX, maxY);
    assert s == "BOX(" + body + ")";
    BoxMatchesWhole(body);
    SplitCorners(minX, minY, maxX, maxY);
  }

  lemma SplitCorners(minX: string, minY: string, maxX: string, maxY: string)
    requires PlainNumber(minX) && PlainNumber(minY) && PlainNumber(maxX) && PlainNumber(maxY)
    ensures var lo := minX + [' '] + minY;
            var hi := maxX + [' '] + maxY;
            Split(lo + [','] + hi, ',') == [lo, hi] && Split(lo, ' ') == [minX, minY] && Split(hi, ' ') == [maxX, maxY]
  {
    var lo := minX + [' '] + minY;
    var hi := maxX + [' '] + maxY;
    SplitAtFirst(lo, hi, ',');
    SplitNoSep(hi, ',');
    SplitAtFirst(minX, minY, ' ');
    SplitNoSep(minY, ' ');
    SplitAtFirst(maxX, maxY, ' ');
    SplitNoSep(maxY, ' ');
  }

  /** In `BOX(body)` with no ')' or line break inside, the BOX pattern captures all of `body`. */
  lemma BoxMatchesWhole(body: string)
    requires ')' !in body && '\n' !in body
    ensures var s := "BOX(" + body + ")";
            LazyMatch(s, "BOX(", ")") == Some(Found(0, |s| - 1)) && Group(s, Found(0, |s| - 1), "BOX(") == body
  {
    var s := "BOX(" + body + ")";
    assert s[..4] == "BOX(";
    assert s[4..|s| - 1] == body;
    assert s[|s| - 1..][..1] == ")";
    assert TailAt(s, 4, |s| - 1, ")");
    var t := TailFrom(s, 4, ")").value;
    assert t == |s| - 1 by {
      if t < |s| - 1 {
        FoldedAt(s[t..][..1]);
        FoldedParen(s[t]);
      }
    }
  }

  lemma FoldedParen(c: char)
    requires Fold(c) == ')'
    ensures c == ')'
  {
  }

  // ---------------------------------------------------------------------------
  // ST_AsMVT composition

  /** tegola.DefaultExtent, the tile extent ST_AsMVT encodes with. */
  const DefaultExtent: nat := 4096

  /** One layer's subquery: the 5-argument form of ST_AsMVT when the layer has an id field. */
  function AsMvtSubquery(mvtName: string, geomField: string, idField: string, sql: string): string
  {
    if idField == "" then
      "(SELECT ST_AsMVT(q,'" + mvtName + "'," + NatToString(DefaultExtent) + ",'" + geomField + "') AS data FROM (" + sql + ") AS q)"
    else
      "(SELECT ST_AsMVT(q,'" + mvtName + "'," + NatToString(DefaultExtent) + ",'" + geomField + "','" + idField + "') AS data FROM (" + sql + ") AS q)"
  }

  /** The one query MVTForLayers sends: the subqueries concatenated with `||`. */
  function TileQuery(subqueries: seq<string>): string {
    "SELECT (" + Join(subqueries, "||") + ") AS data"
  }

  /** Joining keeps every subquery, in order: the first comes first, and the rest follow after one `||`. */
  lemma {:induction false} TileQueryOrder(subqueries: seq<string>)
    requires |subqueries| >= 2
    ensures TileQuery(subqueries) == "SELECT (" + subqueries[0] + "||" + Join(subqueries[1..], "||") + ") AS data"
  {
  }
}
