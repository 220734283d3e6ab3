/**
 * The fragment of Python's `str` and `os.path` behaviour that the story
 * engine relies on: substring search (`in`, `find`), `split` with and
 * without a limit, `replace` with and without a count, `strip`, `join`,
 * `os.path.splitext`, and the decimal rendering of a non-negative int.
 * Strings are sequences of characters; every separator and pattern used by
 * the engine is non-empty, which the `requires |sep| > 0` clauses record.
 */
module PyText {

  datatype Option<+T> = None | Some(value: T) {
    function GetOr(default: T): T {
      match this
      case Some(v) => v
      case None => default
    }
  }

  // ---------------------------------------------------------------------
  // Substring search

  /** `p` occurs in `s` starting at index `i`. */
  predicate OccursAt(s: string, p: string, i: int) {
    0 <= i && i + |p| <= |s| && s[i..i + |p|] == p
  }

  /** Python `s.find(p, i)` for non-empty `p`: the first occurrence at or after `i`. */
  function FindFrom(s: string, p: string, i: nat): (r: Option<nat>)
    decreases |s| - i
    ensures r.Some? ==> i <= r.value && OccursAt(s, p, r.value)
    ensures r.Some? ==> forall j :: i <= j < r.value ==> !OccursAt(s, p, j)
    ensures r.None? ==> forall j :: i <= j ==> !OccursAt(s, p, j)
  {
    if i + |p| > |s| then None
    else if s[i..i + |p|] == p then Some(i)
    else FindFrom(s, p, i + 1)
  }

  /** Python `s.find(p)`, with `None` for -1. */
  function Find(s: string, p: string): Option<nat> {
    FindFrom(s, p, 0)
  }

  /** Python `p in s`. */
  predicate Contains(s: string, p: string) {
    Find(s, p).Some?
  }

  lemma ContainsIff(s: string, p: string)
    ensures Contains(s, p) <==> exists i :: OccursAt(s, p, i)
  {
    if exists i :: OccursAt(s, p, i) {
      var i :| OccursAt(s, p, i);
      assert 0 <= i;
    }
  }

  /** A slice of a slice is a slice of the whole. */
  lemma SliceOfSlice(s: string, lo: nat, hi: nat, i: nat, j: nat)
    requires lo <= hi <= |s| && i <= j <= hi - lo
    ensures s[lo..hi][i..j] == s[lo + i..lo + j]
  {
    assert forall k :: 0 <= k < j - i ==> s[lo..hi][i..j][k] == s[lo + i + k];
  }

  lemma OccursContains(s: string, p: string, i: int)
    requires OccursAt(s, p, i)
    ensures Contains(s, p)
  {
    ContainsIff(s, p);
  }

  /** An occurrence of `q` inside an occurrence of `p` is an occurrence of `q` in `s`. */
  lemma {:induction false} ContainsTransitive(s: string, p: string, q: string)
    requires Contains(s, p) && Contains(p, q)
    ensures Contains(s, q)
  {
    var i := Find(s, p).value;
    var j := Find(p, q).value;
    assert s[i..i + |p|] == p && p[j..j + |q|] == q;
    SliceOfSlice(s, i, i + |p|, j, j + |q|);
    OccursContains(s, q, i + j);
  }

  /** The first occurrence is where the pattern starts, when its first character is absent before. */
  lemma {:induction false} FindAfterPrefix(a: string, b: string, p: string)
    requires |p| > 0 && p[0] !in a && p <= b
    ensures Find(a + b, p) == Some(|a|)
  {
    var s := a + b;
    assert s[|a|..|a| + |p|] == b[..|p|] == p;
    forall j | 0 <= j < |a| ensures !OccursAt(s, p, j) {
      assert s[j] == a[j] && a[j] in a;
    }
    FindFirstOccurrence(s, p, |a|);
  }

  /** `Find` returns the position of the first occurrence, whatever the definition's recursion. */
  lemma FindFirstOccurrence(s: string, p: string, i: nat)
    requires OccursAt(s, p, i)
    requires forall j :: 0 <= j < i ==> !OccursAt(s, p, j)
    ensures Find(s, p) == Some(i)
  {
  }

  /** A string without the pattern's first character does not contain it. */
  lemma NotContainsWithoutHead(s: string, p: string)
    requires |p| > 0 && p[0] !in s
    ensures !Contains(s, p)
  {
  }

  /** An occurrence in a part of a string is an occurrence in the whole. */
  lemma ContainsInSlice(s: string, p: string, lo: nat, hi: nat)
    requires lo <= hi <= |s| && Contains(s[lo..hi], p)
    ensures Contains(s, p)
  {
    var i := Find(s[lo..hi], p).value;
    assert s[lo..hi][i..i + |p|] == p;
    SliceOfSlice(s, lo, hi, i, i + |p|);
    OccursContains(s, p, lo + i);
  }

  // ---------------------------------------------------------------------
  // split, join, replace

  /** Python `sep.join(parts)`. */
  function Join(parts: seq<string>, sep: string): (r: string)
    decreases |parts|
  {
    if |parts| == 0 then ""
    else if |parts| == 1 then parts[0]
    else parts[0] + sep + Join(parts[1..], sep)
  }

  /** Python `s.split(sep)` (no limit) for a non-empty separator. */
  function Split(s: string, sep: string): (parts: seq<string>)
    requires |sep| > 0
    decreases |s|
    ensures |parts| >= 1
    ensures |parts| >= 2 <==> Contains(s, sep)
    ensures |parts[0]| <= |s|
  {
    match Find(s, sep)
    case None => [s]
    case Some(i) => [s[..i]] + Split(s[i + |sep|..], sep)
  }

  /** Python `s.split(sep, 1)` for a non-empty separator. */
  function SplitOnce(s: string, sep: string): (parts: seq<string>)
    requires |sep| > 0
    ensures 1 <= |parts| <= 2
    ensures |parts| == 2 <==> Contains(s, sep)
  {
    match Find(s, sep)
    case None => [s]
    case Some(i) => [s[..i], s[i + |sep|..]]
  }

  /**
   * Python `s.replace(pat, repl)` for a non-empty `pat`: every occurrence,
   * left to right, which is Python's own identity `repl.join(s.split(pat))`.
   */
  function Replace(s: string, pat: string, repl: string): string
    requires |pat| > 0
  {
    Join(Split(s, pat), repl)
  }

  /** Python `s.replace(pat, repl, 1)` for a non-empty `old`. */
  function ReplaceFirst(s: string, pat: string, repl: string): (r: string)
    requires |pat| > 0
  {
    match Find(s, pat)
    case None => s
    case Some(i) => s[..i] + repl + s[i + |pat|..]
  }

  /** Joining the pieces of a split with the separator gives back the string. */
  lemma {:induction false} SplitJoin(s: string, sep: string)
    requires |sep| > 0
    ensures Join(Split(s, sep), sep) == s
    decreases |s|
  {
    match Find(s, sep)
    case None =>
    case Some(i) =>
      var rest := s[i + |sep|..];
      var tail := Split(rest, sep);
      SplitJoin(rest, sep);
      calc {
        Join(Split(s, sep), sep);
        Join([s[..i]] + tail, sep);
        { assert ([s[..i]] + tail)[1..] == tail; }
        s[..i] + sep + Join(tail, sep);
        s[..i] + sep + rest;
        { assert s[i..i + |sep|] == sep; assert s == s[..i] + s[i..i + |sep|] + rest; }
        s;
      }
  }

  /** No piece of a split contains the separator. */
  lemma {:induction false} SplitPiecesFree(s: string, sep: string, k: nat)
    requires |sep| > 0 && k < |Split(s, sep)|
    ensures !Contains(Split(s, sep)[k], sep)
    decreases |s|
  {
    match Find(s, sep)
    case None =>
    case Some(i) =>
      if k == 0 {
        NoOccurrenceBefore(s, sep, i);
      } else {
        SplitPiecesFree(s[i + |sep|..], sep, k - 1);
      }
  }

  /** The text before the first occurrence contains no occurrence. */
  lemma NoOccurrenceBefore(s: string, sep: string, i: nat)
    requires |sep| > 0 && Find(s, sep) == Some(i)
    ensures !Contains(s[..i], sep)
  {
    if Contains(s[..i], sep) {
      var j := Find(s[..i], sep).value;
      assert s[j..j + |sep|] == s[..i][j..j + |sep|];
      assert OccursAt(s, sep, j);
    }
  }

  /** The limited split agrees with the unlimited one on the first piece and rejoins to the string. */
  lemma SplitOnceAgrees(s: string, sep: string)
    requires |sep| > 0
    ensures SplitOnce(s, sep)[0] == Split(s, sep)[0]
    ensures Join(SplitOnce(s, sep), sep) == s
  {
    match Find(s, sep)
    case None =>
    case Some(i) =>
      assert s[i..i + |sep|] == sep;
      assert s == s[..i] + sep + s[i + |sep|..];
  }

  lemma SplitUnfold(s: string, pat: string, i: nat)
    requires |pat| > 0 && Find(s, pat) == Some(i)
    ensures Split(s, pat) == [s[..i]] + Split(s[i + |pat|..], pat)
  {
  }

  lemma JoinCons(x: string, tail: seq<string>, sep: string)
    requires |tail| >= 1
    ensures Join([x] + tail, sep) == x + sep + Join(tail, sep)
  {
    assert ([x] + tail)[1..] == tail;
  }

  /** On a string with at most one occurrence, replacing all and replacing the first agree. */
  lemma ReplaceSingle(s: string, pat: string, repl: string)
    requires |pat| > 0
    requires Find(s, pat).Some? ==> !Contains(s[Find(s, pat).value + |pat|..], pat)
    ensures Replace(s, pat, repl) == ReplaceFirst(s, pat, repl)
  {
    var found := Find(s, pat);
    if found.Some? {
      var i := found.value;
      var rest := s[i + |pat|..];
      SplitUnfold(s, pat, i);
      assert Split(rest, pat) == [rest];
      JoinCons(s[..i], [rest], repl);
    }
  }

  /** Replacing a pattern that does not occur changes nothing. */
  lemma ReplaceAbsent(s: string, pat: string, repl: string)
    requires |pat| > 0 && !Contains(s, pat)
    ensures Replace(s, pat, repl) == s
  {
    assert Split(s, pat) == [s];
  }

  // ---------------------------------------------------------------------
  // strip

  /** Python `str.isspace()` on one character. */
  predicate IsSpace(c: char) {
    || c == ' ' || c == '\t' || c == '\n' || c == '\r'
    || c == '\U{B}' || c == '\U{C}'
    || ('\U{1C}' <= c <= '\U{1F}')
    || c == '\U{85}' || c == '\U{A0}' || c == '\U{1680}'
    || ('\U{2000}' <= c <= '\U{200A}')
    || c == '\U{2028}' || c == '\U{2029}' || c == '\U{202F}' || c == '\U{205F}'
    || c == '\U{3000}'
  }

  predicate AllSpace(s: string) {
    forall i :: 0 <= i < |s| ==> IsSpace(s[i])
  }

  lemma AllSpaceAppend(a: string, b: string)
    requires AllSpace(a) && AllSpace(b)
    ensures AllSpace(a + b)
  {
    assert forall i :: 0 <= i < |a + b| ==> (a + b)[i] == if i < |a| then a[i] else b[i - |a|];
  }

  /** How many whitespace characters `s` starts with. */
  function LeadingSpaces(s: string): (n: nat)
    ensures n <= |s|
  {
    if |s| > 0 && IsSpace(s[0]) then 1 + LeadingSpaces(s[1..]) else 0
  }

  /** How many whitespace characters `s` ends with. */
  function TrailingSpaces(s: string): (n: nat)
    ensures n <= |s|
  {
    if |s| > 0 && IsSpace(s[|s| - 1]) then 1 + TrailingSpaces(s[..|s| - 1]) else 0
  }

  lemma {:induction false} LeadingSpacesShape(s: string)
    ensures AllSpace(s[..LeadingSpaces(s)])
    ensures LeadingSpaces(s) < |s| ==> !IsSpace(s[LeadingSpaces(s)])
  {
    if |s| > 0 && IsSpace(s[0]) {
      var t := s[1..];
      LeadingSpacesShape(t);
      var n := LeadingSpaces(t);
      assert n < |t| ==> s[n + 1] == t[n];
      assert AllSpace(s[..n + 1]) by {
        assert AllSpace([s[0]]);
        AllSpaceAppend([s[0]], t[..n]);
        assert s[..n + 1] == [s[0]] + t[..n];
      }
    }
  }

  lemma {:induction false} TrailingSpacesShape(s: string)
    ensures AllSpace(s[|s| - TrailingSpaces(s)..])
    ensures TrailingSpaces(s) < |s| ==> !IsSpace(s[|s| - TrailingSpaces(s) - 1])
  {
    if |s| > 0 && IsSpace(s[|s| - 1]) {
      var t := s[..|s| - 1];
      TrailingSpacesShape(t);
      var n := TrailingSpaces(t);
      assert n < |t| ==> s[|s| - n - 2] == t[|t| - n - 1];
      assert AllSpace(s[|s| - (n + 1)..]) by {
        assert AllSpace([s[|s| - 1]]);
        AllSpaceAppend(t[|t| - n..], [s[|s| - 1]]);
        assert s[|s| - (n + 1)..] == t[|t| - n..] + [s[|s| - 1]];
      }
    }
  }

  /** Python `s.lstrip()`. */
  function StripLeft(s: string): (r: string)
    ensures |r| <= |s| && r == s[|s| - |r|..]
    ensures AllSpace(s[..|s| - |r|])
    ensures r != "" ==> !IsSpace(r[0])
  {
    LeadingSpacesShape(s);
    s[LeadingSpaces(s)..]
  }

  /** Python `s.rstrip()`. */
  function StripRight(s: string): (r: string)
    ensures |r| <= |s| && r == s[..|r|]
    ensures AllSpace(s[|r|..])
    ensures r != "" ==> !IsSpace(r[|r| - 1])
  {
    TrailingSpacesShape(s);
    s[..|s| - TrailingSpaces(s)]
  }

  /** Python `s.strip()`: the string with leading and trailing whitespace removed. */
  function Strip(s: string): (r: string)
    ensures |r| <= |s|
    ensures r != "" ==> !IsSpace(r[0]) && !IsSpace(r[|r| - 1])
  {
    StripRight(StripLeft(s))
  }

  /** What strip keeps is a slice of the input with only whitespace on either side. */
  lemma StripSlice(s: string) returns (lo: nat, hi: nat)
    ensures lo <= hi <= |s| && Strip(s) == s[lo..hi]
    ensures AllSpace(s[..lo]) && AllSpace(s[hi..])
  {
    var l := StripLeft(s);
    var r := StripRight(l);
    lo, hi := |s| - |l|, |s| - |l| + |r|;
    assert s[hi..] == l[|r|..];
  }

  /** Whitespace around a core that starts and ends with non-space is exactly what strip removes. */
  lemma {:induction false} StripPadded(w1: string, x: string, w2: string)
    requires AllSpace(w1) && AllSpace(w2)
    requires x != "" && !IsSpace(x[0]) && !IsSpace(x[|x| - 1])
    ensures Strip(w1 + x + w2) == x
  {
    assert w1 + x + w2 == w1 + (x + w2);
    StripLeftPadded(w1, x + w2);
    StripRightPadded(x, w2);
  }

  lemma {:induction false} LeadingSpacesPadded(w: string, x: string)
    requires AllSpace(w) && x != "" && !IsSpace(x[0])
    ensures LeadingSpaces(w + x) == |w|
    decreases |w|
  {
    if w == [] {
      assert w + x == x;
    } else {
      assert (w + x)[0] == w[0];
      assert (w + x)[1..] == w[1..] + x;
      LeadingSpacesPadded(w[1..], x);
    }
  }

  lemma {:induction false} TrailingSpacesPadded(x: string, w: string)
    requires AllSpace(w) && x != "" && !IsSpace(x[|x| - 1])
    ensures TrailingSpaces(x + w) == |w|
    decreases |w|
  {
    if w == [] {
      assert x + w == x;
    } else {
      assert (x + w)[|x + w| - 1] == w[|w| - 1];
      assert (x + w)[..|x + w| - 1] == x + w[..|w| - 1];
      TrailingSpacesPadded(x, w[..|w| - 1]);
    }
  }

  lemma StripLeftPadded(w: string, x: string)
    requires AllSpace(w) && x != "" && !IsSpace(x[0])
    ensures StripLeft(w + x) == x
  {
    LeadingSpacesPadded(w, x);
    assert (w + x)[|w|..] == x;
  }

  lemma StripRightPadded(x: string, w: string)
    requires AllSpace(w) && x != "" && !IsSpace(x[|x| - 1])
    ensures StripRight(x + w) == x
  {
    TrailingSpacesPadded(x, w);
    assert (x + w)[..|x|] == x;
  }

  /** Strip is idempotent. */
  lemma StripIdempotent(s: string)
    ensures Strip(Strip(s)) == Strip(s)
  {
    var r := Strip(s);
    if r != "" {
      StripPadded("", r, "");
      assert "" + r + "" == r;
    }
  }

  /** Stripping cannot cut into a pattern that begins and ends with non-space characters. */
  lemma StripKeeps(s: string, p: string)
    requires Contains(s, p) && |p| > 0 && !IsSpace(p[0]) && !IsSpace(p[|p| - 1])
    ensures Contains(Strip(s), p)
  {
    var i := Find(s, p).value;
    var lo, hi := StripSlice(s);
    OccurrenceEnds(s, p, i);
    InsideStrip(s, lo, hi, i);
    InsideStrip(s, lo, hi, i + |p| - 1);
    OccursInSlice(s, p, lo, hi, i);
    OccursContains(s[lo..hi], p, i - lo);
  }

  lemma OccurrenceEnds(s: string, p: string, i: nat)
    requires |p| > 0 && OccursAt(s, p, i)
    ensures s[i] == p[0] && s[i + |p| - 1] == p[|p| - 1]
  {
    assert s[i..i + |p|][0] == s[i];
    assert s[i..i + |p|][|p| - 1] == s[i + |p| - 1];
  }

  /** An occurrence that lies inside a slice is an occurrence in the slice. */
  lemma OccursInSlice(s: string, p: string, lo: nat, hi: nat, i: nat)
    requires lo <= i && i + |p| <= hi <= |s| && OccursAt(s, p, i)
    ensures OccursAt(s[lo..hi], p, i - lo)
  {
    var t := s[lo..hi];
    assert |t[i - lo..i - lo + |p|]| == |p|;
    forall k | 0 <= k < |p| ensures t[i - lo..i - lo + |p|][k] == p[k] {
      assert t[i - lo + k] == s[i + k] == s[i..i + |p|][k];
    }
  }

  /** A non-space character lies within the part that strip keeps. */
  lemma InsideStrip(s: string, lo: nat, hi: nat, k: nat)
    requires lo <= hi <= |s| && AllSpace(s[..lo]) && AllSpace(s[hi..])
    requires k < |s| && !IsSpace(s[k])
    ensures lo <= k < hi
  {
  }

  /** Stripping cannot create an occurrence. */
  lemma StripFree(s: string, p: string)
    requires !Contains(s, p)
    ensures !Contains(Strip(s), p)
  {
    var lo, hi := StripSlice(s);
    if Contains(Strip(s), p) {
      ContainsInSlice(s, p, lo, hi);
    }
  }

  // ---------------------------------------------------------------------
  // decimal rendering of ints (f-string `{i}`)

  function DigitChar(d: nat): char
    requires d < 10
  {
    ['0', '1', '2', '3', '4', '5', '6', '7', '8', '9'][d]
  }

  predicate IsDigits(s: string) {
    forall i :: 0 <= i < |s| ==> '0' <= s[i] <= '9'
  }

  /** The value a string of decimal digits denotes. */
  function DigitsValue(s: string): nat
    requires IsDigits(s)
  {
    if s == "" then 0 else DigitsValue(s[..|s| - 1]) * 10 + (s[|s| - 1] as int - '0' as int)
  }

  /** Python `str(n)` for a non-negative int: digits, no leading zero. */
  function NatToString(n: nat): (r: string)
    ensures |r| >= 1 && IsDigits(r)
    ensures |r| > 1 ==> r[0] != '0'
  {
    if n < 10 then [DigitChar(n)] else NatToString(n / 10) + [DigitChar(n % 10)]
  }

  lemma DigitCharValue(d: nat)
    requires d < 10
    ensures DigitChar(d) as int - '0' as int == d
  {
  }

  /** Reading the rendered digits back gives the number. */
  lemma {:induction false} NatToStringValue(n: nat)
    ensures DigitsValue(NatToString(n)) == n
  {
    if n < 10 {
      assert NatToString(n) == [DigitChar(n)];
      assert [DigitChar(n)][..0] == "";
    } else {
      var s := NatToString(n);
      assert s == NatToString(n / 10) + [DigitChar(n % 10)];
      assert s[..|s| - 1] == NatToString(n / 10);
      NatToStringValue(n / 10);
    }
    DigitCharValue(n % 10);
  }

  /** Different numbers render differently. */
  lemma NatToStringInjective(m: nat, n: nat)
    requires NatToString(m) == NatToString(n)
    ensures m == n
  {
    NatToStringValue(m);
    NatToStringValue(n);
  }

  // ---------------------------------------------------------------------
  // os.path.splitext (POSIX)

  /** Python `s.rfind(c)` for one character, `None` for -1. */
  function RFind(s: string, c: char): (r: Option<nat>)
    ensures r.Some? ==> r.value < |s| && s[r.value] == c && c !in s[r.value + 1..]
    ensures r.None? ==> c !in s
  {
    if |s| == 0 then None
    else if s[|s| - 1] == c then Some(|s| - 1)
    else
      var r := RFind(s[..|s| - 1], c);
      assert r.Some? ==> s[r.value + 1..] == s[..|s| - 1][r.value + 1..] + [s[|s| - 1]];
      r
  }

  /**
   * Python `os.path.splitext(p)` on POSIX: the extension starts at the last
   * '.' after the last '/', provided some character other than '.' precedes
   * that dot within the file name (so ".bashrc" has no extension).
   */
  function SplitExt(p: string): (r: (string, string))
    ensures r.0 + r.1 == p
    ensures r.1 == "" || (r.1[0] == '.' && '.' !in r.1[1..] && '/' !in r.1)
  {
    var dot := RFind(p, '.');
    var nameStart := match RFind(p, '/') case None => 0 case Some(k) => k + 1;
    if dot.Some? && dot.value >= nameStart
       && exists k :: nameStart <= k < dot.value && p[k] != '.'
    then
      assert p[dot.value..][1..] == p[dot.value + 1..];
      (p[..dot.value], p[dot.value..])
    else (p, "")
  }

  /** The last occurrence of `c` is the one with no `c` after it. */
  lemma RFindLast(s: string, c: char, i: nat)
    requires i < |s| && s[i] == c && c !in s[i + 1..]
    ensures RFind(s, c) == Some(i)
  {
    var r := RFind(s, c);
    assert s[i] in s;
    assert forall j :: i < j < |s| ==> s[j] == s[i + 1..][j - i - 1];
    assert forall j :: r.value < j < |s| ==> s[j] == s[r.value + 1..][j - r.value - 1];
  }

  /** A file name with a stem not starting with '.' and one extension splits before its last dot. */
  lemma SplitExtOfName(dir: string, name: string, ext: string)
    requires name != "" && name[0] != '.' && '/' !in name
    requires '.' !in ext && '/' !in ext
    ensures SplitExt(dir + "/" + name + "." + ext) == (dir + "/" + name, "." + ext)
  {
    var p := dir + "/" + name + "." + ext;
    var d := |dir| + 1 + |name|;
    assert RFind(p, '.') == Some(d) by {
      assert p[d] == '.' && p[d + 1..] == ext;
      RFindLast(p, '.', d);
    }
    assert RFind(p, '/') == Some(|dir|) by {
      assert p[|dir|] == '/' && p[|dir| + 1..] == name + "." + ext;
      RFindLast(p, '/', |dir|);
    }
    assert |dir| + 1 < d && p[|dir| + 1] != '.' by {
      assert p[|dir| + 1] == name[0];
    }
    assert p[..d] == dir + "/" + name;
    assert p[d..] == "." + ext;
  }
}
