/** The Python `str` operations the metadata parser and the band loop rely
    on: `startswith`, `split(sep)` with an explicit separator, `lstrip(' ')`
    and `rstrip()`, each with the contract Python documents for it. */
module Strings {
  import opened Wrappers

  predicate StartsWith(s: string, prefix: string) {
    |prefix| <= |s| && s[..|prefix|] == prefix
  }

  /** A string that starts with `p` starts with every prefix of `p`. */
  lemma StartsWithShorter(s: string, p: string, q: string)
    requires StartsWith(p, q)
    ensures StartsWith(s, p) ==> StartsWith(s, q)
  {
    if StartsWith(s, p) {
      assert s[..|q|] == s[..|p|][..|q|];
    }
  }

  /** Python's `str.isspace()` for a single character: the characters of
      bidirectional class WS, B or S and of general category Zs. */
  predicate IsSpace(c: char) {
    || '\U{0009}' <= c <= '\U{000D}'
    || '\U{001C}' <= c <= '\U{0020}'
    || c == '\U{0085}' || c == '\U{00A0}' || c == '\U{1680}'
    || '\U{2000}' <= c <= '\U{200A}'
    || c == '\U{2028}' || c == '\U{2029}' || c == '\U{202F}'
    || c == '\U{205F}' || c == '\U{3000}'
  }

  /** `s.lstrip(' ')`: drops the leading run of blanks (and nothing else). */
  function LStripBlanks(s: string): (r: string)
    ensures |r| <= |s| && r == s[|s| - |r|..]
    ensures forall i :: 0 <= i < |s| - |r| ==> s[i] == ' '
    ensures r == [] || r[0] != ' '
    decreases |s|
  {
    if |s| > 0 && s[0] == ' ' then LStripBlanks(s[1..]) else s
  }

  /** `s.rstrip()`: drops the trailing run of whitespace. */
  function RStrip(s: string): (r: string)
    ensures |r| <= |s| && r == s[..|r|]
    ensures forall i :: |r| <= i < |s| ==> IsSpace(s[i])
    ensures r == [] || !IsSpace(r[|r| - 1])
    decreases |s|
  {
    if |s| > 0 && IsSpace(s[|s| - 1]) then RStrip(s[..|s| - 1]) else s
  }

  /** `line.lstrip(' ').rstrip()` */
  function StripLine(line: string): string {
    RStrip(LStripBlanks(line))
  }

  /** Leading blanks before `x` make no difference to `lstrip(' ')`. */
  lemma {:induction false} LStripBlanksPadding(lead: string, x: string)
    requires forall i :: 0 <= i < |lead| ==> lead[i] == ' '
    ensures LStripBlanks(lead + x) == LStripBlanks(x)
    decreases |lead|
  {
    if lead != [] {
      assert (lead + x)[0] == ' ';
      assert (lead + x)[1..] == lead[1..] + x;
      LStripBlanksPadding(lead[1..], x);
    } else {
      assert lead + x == x;
    }
  }

  /** Trailing whitespace after `x` makes no difference to `rstrip()`. */
  lemma {:induction false} RStripPadding(x: string, trail: string)
    requires forall i :: 0 <= i < |trail| ==> IsSpace(trail[i])
    ensures RStrip(x + trail) == RStrip(x)
    decreases |trail|
  {
    if trail != [] {
      var shorter := trail[..|trail| - 1];
      assert (x + trail)[..|x + trail| - 1] == x + shorter;
      RStripPadding(x, shorter);
    } else {
      assert x + trail == x;
    }
  }

  lemma {:induction false} RStripAllSpace(t: string)
    requires forall i :: 0 <= i < |t| ==> IsSpace(t[i])
    ensures RStrip(t) == []
    decreases |t|
  {
    if t != [] {
      RStripAllSpace(t[..|t| - 1]);
    }
  }

  /** A run of whitespace strips to nothing. */
  lemma StripAllSpace(trail: string)
    requires forall i :: 0 <= i < |trail| ==> IsSpace(trail[i])
    ensures RStrip(LStripBlanks(trail)) == []
  {
    var rest := LStripBlanks(trail);
    assert rest == trail[|trail| - |rest|..];
    RStripAllSpace(rest);
  }

  /** A line that neither starts with a blank nor ends in whitespace is
      left as it is. */
  lemma StripLineKeepsCore(core: string)
    requires core == [] || (core[0] != ' ' && !IsSpace(core[|core| - 1]))
    ensures StripLine(core) == core
  {
    assert LStripBlanks(core) == core;
  }

  /** A line padded with blanks in front and whitespace behind strips back
      to its core, provided the core neither starts with a blank nor ends
      in whitespace. */
  lemma StripLinePadding(lead: string, core: string, trail: string)
    requires forall i :: 0 <= i < |lead| ==> lead[i] == ' '
    requires forall i :: 0 <= i < |trail| ==> IsSpace(trail[i])
    requires core == [] || (core[0] != ' ' && !IsSpace(core[|core| - 1]))
    ensures StripLine(lead + core + trail) == core
  {
    assert lead + core + trail == lead + (core + trail);
    LStripBlanksPadding(lead, core + trail);
    if core == [] {
      assert core + trail == trail;
      StripAllSpace(trail);
    } else {
      assert (core + trail)[0] == core[0];
      assert LStripBlanks(core + trail) == core + trail;
      RStripPadding(core, trail);
    }
  }

  /** `sep` occurs in `s` starting at index `i`. */
  predicate OccursAt(s: string, sep: string, i: int) {
    0 <= i && i + |sep| <= |s| && s[i..i + |sep|] == sep
  }

  predicate Contains(s: string, sep: string) {
    exists i | 0 <= i <= |s| :: OccursAt(s, sep, i)
  }

  /** `s.find(sep)`: the first index at which `sep` occurs, if any. */
  function Find(s: string, sep: string): (r: Option<nat>)
    requires |sep| > 0
    ensures r.Some? ==> OccursAt(s, sep, r.value)
    ensures r.Some? ==> forall i :: 0 <= i < r.value ==> !OccursAt(s, sep, i)
    ensures r.None? <==> !Contains(s, sep)
    decreases |s|
  {
    if |s| < |sep| then None
    else if s[..|sep|] == sep then
      assert OccursAt(s, sep, 0);
      Some(0)
    else
      match Find(s[1..], sep)
      case None =>
        assert forall i :: OccursAt(s, sep, i) ==> i == 0 || OccursAt(s[1..], sep, i - 1);
        None
      case Some(j) =>
        assert forall i :: 1 <= i <= j ==> (OccursAt(s, sep, i) ==> OccursAt(s[1..], sep, i - 1));
        assert s[1..][j..j + |sep|] == s[j + 1..j + 1 + |sep|];
        assert OccursAt(s, sep, j + 1);
        Some(j + 1)
  }

  /** A prefix that ends before the first occurrence of `sep` contains none. */
  lemma PrefixBeforeFirst(s: string, sep: string, i: nat)
    requires |sep| > 0 && i <= |s|
    requires forall j :: 0 <= j < i ==> !OccursAt(s, sep, j)
    ensures !Contains(s[..i], sep)
  {
    forall j | OccursAt(s[..i], sep, j)
      ensures false
    {
      assert s[..i][j..j + |sep|] == s[j..j + |sep|];
      assert OccursAt(s, sep, j);
    }
  }

  /** `s.split(sep)` for a non-empty separator: cut at each occurrence,
      scanning left to right without overlap. */
  function Split(s: string, sep: string): (parts: seq<string>)
    requires |sep| > 0
    ensures |parts| >= 1
    ensures forall k :: 0 <= k < |parts| ==> !Contains(parts[k], sep)
    ensures |parts| == 1 <==> !Contains(s, sep)
    ensures |parts| >= 2 ==> |parts[0]| <= |s| && OccursAt(s, sep, |parts[0]|) && parts[0] == s[..|parts[0]|]
    ensures |parts| >= 2 ==> forall i :: 0 <= i < |parts[0]| ==> !OccursAt(s, sep, i)
    decreases |s|
  {
    match Find(s, sep)
    case None => [s]
    case Some(i) =>
      PrefixBeforeFirst(s, sep, i);
      [s[..i]] + Split(s[i + |sep|..], sep)
  }

  /** `sep.join(parts)` */
  function Join(parts: seq<string>, sep: string): string
    requires |parts| >= 1
    decreases |parts|
  {
    if |parts| == 1 then parts[0] else parts[0] + sep + Join(parts[1..], sep)
  }

  /** Splitting loses nothing: joining the parts back gives the input. */
  lemma {:induction false} SplitJoin(s: string, sep: string)
    requires |sep| > 0
    ensures Join(Split(s, sep), sep) == s
    decreases |s|
  {
    match Find(s, sep)
    case None =>
    case Some(i) =>
      var rest := s[i + |sep|..];
      SplitJoin(rest, sep);
      var tail := Split(rest, sep);
      var parts := [s[..i]] + tail;
      assert Split(s, sep) == parts;
      assert parts[0] == s[..i] && parts[1..] == tail;
      assert Join(parts, sep) == s[..i] + sep + Join(tail, sep);
      CutAround(s, sep, i);
  }

  /** A string is the text before an occurrence, the occurrence and the text after. */
  lemma CutAround(s: string, sep: string, i: nat)
    requires OccursAt(s, sep, i)
    ensures s == s[..i] + sep + s[i + |sep|..]
  {
    assert s[..i + |sep|] == s[..i] + sep;
  }

  /** A string that splits into exactly two parts is `left + sep + right`,
      and neither part holds the separator. */
  lemma SplitInTwo(s: string, sep: string)
    requires |sep| > 0 && |Split(s, sep)| == 2
    ensures s == Split(s, sep)[0] + sep + Split(s, sep)[1]
    ensures !Contains(Split(s, sep)[0], sep) && !Contains(Split(s, sep)[1], sep)
  {
    var parts := Split(s, sep);
    SplitJoin(s, sep);
    assert parts[1..] == [parts[1]];
    assert Join(parts, sep) == parts[0] + sep + parts[1];
  }
}
