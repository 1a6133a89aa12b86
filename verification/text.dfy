/**
 * The pieces of Rust's `str` API that the modelled code relies on, over
 * `string` (a sequence of characters).  Whitespace, digits, word characters
 * and letter case are the ASCII ones.
 */
module Text {
  import opened Wrappers

  predicate StartsWith(s: string, p: string) {
    |p| <= |s| && s[..|p|] == p
  }

  predicate EndsWith(s: string, p: string) {
    |p| <= |s| && s[|s| - |p|..] == p
  }

  /** `str::contains` for a string pattern; the empty pattern is contained everywhere. */
  predicate Contains(s: string, p: string)
    decreases |s|
  {
    StartsWith(s, p) || (|s| > 0 && Contains(s[1..], p))
  }

  /** `str::find` for a character: the first position of `c`. */
  function Find(s: string, c: char): (r: Option<nat>)
    ensures r.Some? ==> r.value < |s| && s[r.value] == c && c !in s[..r.value]
    ensures r.None? <==> c !in s
  {
    if s == [] then None
    else if s[0] == c then Some(0)
    else match Find(s[1..], c)
      case None => None
      case Some(i) => Some(i + 1)
  }

  /** The empty sequence is a unit of concatenation on either side. */
  lemma AppendEmpty<T>(s: seq<T>)
    ensures s + [] == s && [] + s == s
  {
  }

  /** The first `c` is found where it is. */
  lemma FindAt(s: string, c: char, i: nat)
    requires i < |s| && s[i] == c && c !in s[..i]
    ensures Find(s, c) == Some(i)
  {
    assert forall j :: 0 <= j < i ==> s[..i][j] == s[j];
    var v := Find(s, c).value;
    assert forall j :: 0 <= j < v ==> s[..v][j] == s[j];
  }

  /** `str::find` for a string pattern: the first position where `p` starts. */
  function IndexOf(s: string, p: string): (r: Option<nat>)
    ensures r.Some? ==> r.value + |p| <= |s| && s[r.value..r.value + |p|] == p
    ensures r.Some? ==> forall j :: 0 <= j < r.value ==> !StartsWith(s[j..], p)
    ensures r.None? <==> !Contains(s, p)
    decreases |s|
  {
    if StartsWith(s, p) then Some(0)
    else if s == [] then None
    else match IndexOf(s[1..], p)
      case None => None
      case Some(i) =>
        IndexOfStep(s, p, i);
        Some(i + 1)
  }

  lemma IndexOfStep(s: string, p: string, i: nat)
    requires s != [] && !StartsWith(s, p)
    requires i + |p| <= |s| - 1 && s[1..][i..i + |p|] == p
    requires forall j :: 0 <= j < i ==> !StartsWith(s[1..][j..], p)
    ensures s[i + 1..i + 1 + |p|] == p
    ensures forall j :: 0 <= j < i + 1 ==> !StartsWith(s[j..], p)
  {
    assert s[i + 1..i + 1 + |p|] == s[1..][i..i + |p|];
    forall j | 0 <= j < i + 1
      ensures !StartsWith(s[j..], p)
    {
      if j > 0 {
        assert s[j..] == s[1..][j - 1..];
      }
    }
  }

  predicate IsWhitespace(c: char) {
    c == ' ' || c == '\t' || c == '\n' || c == '\r' || c == '\U{000B}' || c == '\U{000C}'
  }

  predicate IsAsciiDigit(c: char) {
    '0' <= c <= '9'
  }

  predicate IsAsciiUpper(c: char) {
    'A' <= c <= 'Z'
  }

  /** The characters of regex `\w`. */
  predicate IsWordChar(c: char) {
    'a' <= c <= 'z' || 'A' <= c <= 'Z' || '0' <= c <= '9' || c == '_'
  }

  function ToLowerChar(c: char): char {
    if 'A' <= c <= 'Z' then (c as int + 32) as char else c
  }

  /** `str::to_lowercase`. */
  function ToLower(s: string): (r: string)
    ensures |r| == |s|
    ensures forall i :: 0 <= i < |s| ==> r[i] == ToLowerChar(s[i])
  {
    if s == [] then [] else [ToLowerChar(s[0])] + ToLower(s[1..])
  }

  /** `str::trim_start`. */
  function TrimStart(s: string): string {
    if s != [] && IsWhitespace(s[0]) then TrimStart(s[1..]) else s
  }

  /** `str::trim_end`. */
  function TrimEnd(s: string): string {
    if s != [] && IsWhitespace(s[|s| - 1]) then TrimEnd(s[..|s| - 1]) else s
  }

  /** `str::trim`. */
  function Trim(s: string): string {
    TrimEnd(TrimStart(s))
  }

  /** `trim_start` removes exactly the leading whitespace. */
  lemma {:induction false} TrimStartSpec(s: string)
    ensures |TrimStart(s)| <= |s| && TrimStart(s) == s[|s| - |TrimStart(s)|..]
    ensures TrimStart(s) == [] || !IsWhitespace(TrimStart(s)[0])
    ensures forall k :: 0 <= k < |s| - |TrimStart(s)| ==> IsWhitespace(s[k])
  {
    if s != [] && IsWhitespace(s[0]) {
      var t := s[1..];
      TrimStartSpec(t);
      assert TrimStart(s) == TrimStart(t);
      assert t[|t| - |TrimStart(t)|..] == s[|s| - |TrimStart(t)|..];
      forall k | 0 <= k < |s| - |TrimStart(s)| ensures IsWhitespace(s[k]) {
        if k > 0 {
          assert s[k] == t[k - 1];
        }
      }
    }
  }

  /** `trim_end` removes exactly the trailing whitespace. */
  lemma {:induction false} TrimEndSpec(s: string)
    ensures |TrimEnd(s)| <= |s| && TrimEnd(s) == s[..|TrimEnd(s)|]
    ensures TrimEnd(s) == [] || !IsWhitespace(TrimEnd(s)[|TrimEnd(s)| - 1])
    ensures forall k :: |TrimEnd(s)| <= k < |s| ==> IsWhitespace(s[k])
  {
    if s != [] && IsWhitespace(s[|s| - 1]) {
      TrimEndSpec(s[..|s| - 1]);
    }
  }

  /** Text without surrounding whitespace is its own trim. */
  lemma TrimUnchanged(s: string)
    requires s == [] || (!IsWhitespace(s[0]) && !IsWhitespace(s[|s| - 1]))
    ensures Trim(s) == s
  {
    assert TrimStart(s) == s;
  }

  /** Trimming keeps a slice of the text, so it adds no character. */
  lemma TrimSubset(s: string, c: char)
    requires c !in s
    ensures c !in Trim(s)
  {
    TrimStartSpec(s);
    TrimEndSpec(TrimStart(s));
  }

  /** `str::trim_start_matches` for one character: every leading `c` removed. */
  function TrimStartMatches(s: string, c: char): (r: string)
    ensures |r| <= |s| && r == s[|s| - |r|..]
    ensures r == [] || r[0] != c
    ensures forall k :: 0 <= k < |s| - |r| ==> s[k] == c
  {
    if s != [] && s[0] == c then TrimStartMatches(s[1..], c) else s
  }

  /** `str::trim_end_matches` for one character: every trailing `c` removed. */
  function TrimEndMatches(s: string, c: char): (r: string)
    ensures |r| <= |s| && r == s[..|r|]
    ensures r == [] || r[|r| - 1] != c
    ensures forall k :: |r| <= k < |s| ==> s[k] == c
  {
    if s != [] && s[|s| - 1] == c then TrimEndMatches(s[..|s| - 1], c) else s
  }

  /** `str::split` on a character: the pieces between occurrences of `c`. */
  function SplitOn(s: string, c: char): (r: seq<string>)
    ensures |r| >= 1
    ensures forall i :: 0 <= i < |r| ==> c !in r[i]
    decreases |s|
  {
    match Find(s, c)
    case None => [s]
    case Some(i) => [s[..i]] + SplitOn(s[i + 1..], c)
  }

  /** The pieces joined back with `c` between them. */
  function Join(pieces: seq<string>, c: char): string
    requires |pieces| >= 1
  {
    if |pieces| == 1 then pieces[0] else pieces[0] + [c] + Join(pieces[1..], c)
  }

  /** Splitting on `c` and joining with `c` gives the text back. */
  lemma {:induction false} SplitJoin(s: string, c: char)
    ensures Join(SplitOn(s, c), c) == s
    decreases |s|
  {
    match Find(s, c)
    case None =>
    case Some(i) =>
      var rest := SplitOn(s[i + 1..], c);
      var pieces := [s[..i]] + rest;
      assert SplitOn(s, c) == pieces;
      assert pieces[1..] == rest;
      calc {
        Join(pieces, c);
        s[..i] + [c] + Join(rest, c);
        { SplitJoin(s[i + 1..], c); }
        s[..i] + [c] + s[i + 1..];
        { assert s[i] == c; }
        s;
      }
  }

  /** One trailing carriage return removed, as `lines` does before a line feed. */
  function StripCr(line: string): string {
    if line != [] && line[|line| - 1] == '\r' then line[..|line| - 1] else line
  }

  /** Every piece with one trailing carriage return removed. */
  function StripCrs(pieces: seq<string>): (r: seq<string>)
    ensures |r| == |pieces|
  {
    if pieces == [] then [] else [StripCr(pieces[0])] + StripCrs(pieces[1..])
  }

  /**
   * `str::lines`: the text split at '\n'; a "\r\n" ending counts as one line
   * ending, and a final empty piece (the text ends with '\n', or is empty) is
   * not a line.
   */
  function Lines(s: string): seq<string> {
    var parts := SplitOn(s, '\n');
    var last := parts[|parts| - 1];
    StripCrs(parts[..|parts| - 1]) + if last == "" then [] else [last]
  }

  /** A non-empty text without a line feed is one line. */
  lemma LinesSingle(s: string)
    requires s != [] && '\n' !in s
    ensures Lines(s) == [s]
  {
    assert SplitOn(s, '\n') == [s];
    assert StripCrs([]) == [];
  }

  /** `str::replace` for a non-empty pattern: every non-overlapping occurrence, left to right. */
  function ReplaceAll(s: string, pat: string, rep: string): string
    requires |pat| > 0
    decreases |s|
  {
    if StartsWith(s, pat) then rep + ReplaceAll(s[|pat|..], pat, rep)
    else if s == [] then []
    else [s[0]] + ReplaceAll(s[1..], pat, rep)
  }

  /** `str::replace`: the empty pattern matches at every character boundary. */
  function Replace(s: string, pat: string, rep: string): string {
    if pat == [] then InsertEverywhere(s, rep) else ReplaceAll(s, pat, rep)
  }

  function InsertEverywhere(s: string, rep: string): (r: string)
    ensures rep == [] ==> r == s
  {
    if s == [] then rep else rep + [s[0]] + InsertEverywhere(s[1..], rep)
  }

  /** `str::split` on a string separator; the empty separator splits around every character. */
  function SplitStr(s: string, sep: string): (r: seq<string>)
    ensures |r| >= 1
    decreases |s|
  {
    if sep == [] then [""] + seq(|s|, i requires 0 <= i < |s| => [s[i]]) + [""]
    else match IndexOf(s, sep)
      case None => [s]
      case Some(i) => [s[..i]] + SplitStr(s[i + |sep|..], sep)
  }

  /** A replacement that does not start with any character of `q` leaves `q` as an output prefix only where the input had it. */
  lemma {:induction false} ReplaceAllPrefix(t: string, pat: string, rep: string, q: string)
    requires |pat| > 0 && |rep| > 0 && rep[0] !in q
    requires StartsWith(ReplaceAll(t, pat, rep), q)
    ensures StartsWith(t, q)
    decreases |q|
  {
    if q != [] {
      var out := ReplaceAll(t, pat, rep);
      if StartsWith(t, pat) {
        ReplaceAllHead(t, pat, rep);
        assert false;
      } else {
        assert t != [];
        assert out == [t[0]] + ReplaceAll(t[1..], pat, rep);
        assert StartsWith(ReplaceAll(t[1..], pat, rep), q[1..]);
        ReplaceAllPrefix(t[1..], pat, rep, q[1..]);
        assert t[..|q|] == [t[0]] + t[1..][..|q| - 1];
      }
    }
  }

  /** A prefix of `[c] + y` without its first character is a prefix of `y`. */
  lemma StartsWithTail(c: char, y: string, p: string)
    requires |p| > 0 && StartsWith([c] + y, p)
    ensures StartsWith(y, p[1..])
  {
    assert y[..|p| - 1] == ([c] + y)[..|p|][1..];
  }

  /** Output that begins with a replacement begins with the replacement's first character. */
  lemma ReplaceAllHead(t: string, pat: string, rep: string)
    requires |pat| > 0 && |rep| > 0 && StartsWith(t, pat)
    ensures |ReplaceAll(t, pat, rep)| > 0 && ReplaceAll(t, pat, rep)[0] == rep[0]
  {
  }

  /** A leading occurrence of the pattern becomes the replacement. */
  lemma ReplaceAllLead(t: string, pat: string, rep: string)
    requires |pat| > 0
    ensures ReplaceAll(pat + t, pat, rep) == rep + ReplaceAll(t, pat, rep)
  {
    assert StartsWith(pat + t, pat);
    assert (pat + t)[|pat|..] == t;
  }

  /** Removing every occurrence of a non-empty pattern never lengthens a string, and changes it exactly when the pattern occurs. */
  lemma {:induction false} RemoveAllSpec(s: string, pat: string)
    requires |pat| > 0
    ensures |ReplaceAll(s, pat, "")| <= |s|
    ensures ReplaceAll(s, pat, "") == s <==> !Contains(s, pat)
    decreases |s|
  {
    var r := ReplaceAll(s, pat, "");
    if StartsWith(s, pat) {
      RemoveAllSpec(s[|pat|..], pat);
      assert r == "" + ReplaceAll(s[|pat|..], pat, "");
      assert |r| < |s|;
    } else if s != [] {
      RemoveAllSpec(s[1..], pat);
      assert r == [s[0]] + ReplaceAll(s[1..], pat, "");
      assert r == s <==> ReplaceAll(s[1..], pat, "") == s[1..];
      assert s == [s[0]] + s[1..];
    }
  }

  /** Text without the first character of a non-empty pattern is left alone. */
  lemma {:induction false} ReplaceAllAbsent(s: string, pat: string, rep: string)
    requires |pat| > 0 && pat[0] !in s
    ensures ReplaceAll(s, pat, rep) == s
    decreases |s|
  {
    if s != [] {
      assert !StartsWith(s, pat) by { assert s[0] != pat[0]; }
      ReplaceAllAbsent(s[1..], pat, rep);
    }
  }

  /** Replacement distributes over a prefix that cannot hold the start of a match. */
  lemma {:induction false} ReplaceAllAppend(a: string, b: string, pat: string, rep: string)
    requires |pat| > 0 && pat[0] !in a
    ensures ReplaceAll(a + b, pat, rep) == a + ReplaceAll(b, pat, rep)
    decreases |a|
  {
    if a != [] {
      assert !StartsWith(a + b, pat) by { assert (a + b)[0] == a[0] != pat[0]; }
      assert (a + b)[1..] == a[1..] + b;
      assert a + b != [];
      calc {
        ReplaceAll(a + b, pat, rep);
        [(a + b)[0]] + ReplaceAll((a + b)[1..], pat, rep);
        [a[0]] + ReplaceAll(a[1..] + b, pat, rep);
        { ReplaceAllAppend(a[1..], b, pat, rep); }
        [a[0]] + (a[1..] + ReplaceAll(b, pat, rep));
        { assert a == [a[0]] + a[1..]; }
        a + ReplaceAll(b, pat, rep);
      }
    } else {
      assert a + b == b;
    }
  }
}
