/** The Python `str` operations the modelled code relies on: `strip`, `startswith`,
    `endswith`, the `in` operator, `split`, `join`, `lower` and `str(n)` for a
    non-negative integer. Strings are sequences of Unicode scalar values. */
module Text {
  import opened Wrappers

  /** Python's `str.isspace` for a single character. */
  predicate IsSpace(c: char)
  {
    c == ' ' || '\t' <= c <= '\r' || '\U{1C}' <= c <= '\U{1F}'
    || c == '\U{85}' || c == '\U{A0}' || c == '\U{1680}'
    || '\U{2000}' <= c <= '\U{200A}' || c == '\U{2028}' || c == '\U{2029}'
    || c == '\U{202F}' || c == '\U{205F}' || c == '\U{3000}'
  }

  /** Number of whitespace characters at the start of `s`. */
  function LeadingSpaces(s: string): (n: nat)
    ensures n <= |s|
  {
    if |s| > 0 && IsSpace(s[0]) then 1 + LeadingSpaces(s[1..]) else 0
  }

  /** `LeadingSpaces` counts exactly the leading run of whitespace. */
  lemma {:induction false} LeadingSpacesSpec(s: string)
    ensures forall k :: 0 <= k < LeadingSpaces(s) ==> IsSpace(s[k])
    ensures LeadingSpaces(s) < |s| ==> !IsSpace(s[LeadingSpaces(s)])
  {
    if |s| > 0 && IsSpace(s[0]) {
      LeadingSpacesSpec(s[1..]);
    }
  }

  /** Number of whitespace characters at the end of `s`. */
  function TrailingSpaces(s: string): (n: nat)
    ensures n <= |s|
  {
    if |s| > 0 && IsSpace(s[|s| - 1]) then 1 + TrailingSpaces(s[..|s| - 1]) else 0
  }

  /** `TrailingSpaces` counts exactly the trailing run of whitespace. */
  lemma {:induction false} TrailingSpacesSpec(s: string)
    ensures forall k :: |s| - TrailingSpaces(s) <= k < |s| ==> IsSpace(s[k])
    ensures TrailingSpaces(s) < |s| ==> !IsSpace(s[|s| - 1 - TrailingSpaces(s)])
  {
    if |s| > 0 && IsSpace(s[|s| - 1]) {
      TrailingSpacesSpec(s[..|s| - 1]);
    }
  }

  /** `s.strip()`: the slice of `s` left once leading and trailing whitespace is removed. */
  function Strip(s: string): (r: string)
    ensures |r| <= |s|
  {
    var a := LeadingSpaces(s);
    var t := s[a..];
    t[..|t| - TrailingSpaces(t)]
  }

  /** What `strip()` returns neither begins nor ends with whitespace. */
  lemma StripEnds(s: string)
    ensures Strip(s) == [] || (!IsSpace(Strip(s)[0]) && !IsSpace(Strip(s)[|Strip(s)| - 1]))
  {
    var a := LeadingSpaces(s);
    var t := s[a..];
    var b := TrailingSpaces(t);
    var r := t[..|t| - b];
    assert Strip(s) == r;
    if r != [] {
      LeadingSpacesSpec(s);
      TrailingSpacesSpec(t);
      assert r[0] == s[a];
      assert r[|r| - 1] == t[|t| - 1 - b];
    }
  }

  /** Everything after what `strip()` keeps is whitespace. */
  lemma StripTail(s: string)
    ensures forall k :: LeadingSpaces(s) + |Strip(s)| <= k < |s| ==> IsSpace(s[k])
  {
    var a := LeadingSpaces(s);
    var t := s[a..];
    var r := Strip(s);
    TrailingSpacesSpec(t);
    forall k | a + |r| <= k < |s|
      ensures IsSpace(s[k])
    {
      assert s[k] == t[k - a];
    }
  }

  /** A string with no whitespace at either end is its own `strip()`. */
  lemma StripNoop(s: string)
    requires s == [] || (!IsSpace(s[0]) && !IsSpace(s[|s| - 1]))
    ensures Strip(s) == s
  {
    assert LeadingSpaces(s) == 0;
    assert TrailingSpaces(s) == 0;
  }

  /** Stripping twice is stripping once. */
  lemma StripIdempotent(s: string)
    ensures Strip(Strip(s)) == Strip(s)
  {
    StripEnds(s);
    StripNoop(Strip(s));
  }

  /** `s[i:i+len(p)] == p`: pattern `p` occurs in `s` at index `i`. */
  predicate At(s: string, p: string, i: nat)
  {
    i + |p| <= |s| && s[i..i + |p|] == p
  }

  /** An occurrence inside `mid` is an occurrence inside `pre + mid + post`. */
  lemma AtInside(pre: string, mid: string, post: string, p: string, i: nat)
    requires At(mid, p, i)
    ensures At(pre + mid + post, p, |pre| + i)
  {
    var s := pre + mid + post;
    assert s[|pre|..|pre| + |mid|] == mid;
    assert s[|pre| + i..|pre| + i + |p|] == mid[i..i + |p|];
  }

  /** `s.startswith(p)`. */
  predicate StartsWith(s: string, p: string)
  {
    At(s, p, 0)
  }

  /** `s.endswith(p)`. */
  predicate EndsWith(s: string, p: string)
  {
    |p| <= |s| && s[|s| - |p|..] == p
  }

  /** `s.find(p, i)`: the first index at or after `i` where `p` occurs. */
  function FindFrom(s: string, p: string, i: nat): (r: Option<nat>)
    decreases |s| - i
    ensures r.Some? ==> i <= r.value && r.value + |p| <= |s|
  {
    if i + |p| > |s| then None
    else if s[i..i + |p|] == p then Some(i)
    else FindFrom(s, p, i + 1)
  }

  /** `find` returns an occurrence, and no occurrence lies between the start
      of the search and the one it returns; `None` means there is none. */
  lemma {:induction false} FindFromSpec(s: string, p: string, i: nat)
    decreases |s| - i
    ensures FindFrom(s, p, i).Some? ==> At(s, p, FindFrom(s, p, i).value)
    ensures FindFrom(s, p, i).Some? ==> forall m :: i <= m < FindFrom(s, p, i).value ==> !At(s, p, m)
    ensures FindFrom(s, p, i).None? ==> forall m :: i <= m ==> !At(s, p, m)
  {
    if i + |p| <= |s| && s[i..i + |p|] != p {
      FindFromSpec(s, p, i + 1);
    }
  }

  /** Python's `p in s`. */
  function Contains(s: string, p: string): bool
  {
    FindFrom(s, p, 0).Some?
  }

  /** `p in s` holds iff `p` occurs somewhere in `s`. */
  lemma ContainsSpec(s: string, p: string)
    ensures Contains(s, p) <==> exists m :: At(s, p, m)
  {
    FindFromSpec(s, p, 0);
  }

  /** `sep.join(parts)`. */
  function Join(sep: string, parts: seq<string>): string
  {
    if |parts| == 0 then ""
    else if |parts| == 1 then parts[0]
    else parts[0] + sep + Join(sep, parts[1..])
  }

  /** `s.split(sep)` for a non-empty separator (Python raises `ValueError` on an
      empty one): the pieces between the non-overlapping occurrences of `sep`,
      found from left to right. */
  function Split(s: string, sep: string): (parts: seq<string>)
    requires |sep| > 0
    decreases |s|
    ensures |parts| >= 1
  {
    match FindFrom(s, sep, 0)
    case None => [s]
    case Some(i) => [s[..i]] + Split(s[i + |sep|..], sep)
  }

  /** A search that meets an occurrence at `j` with none before it finds `j`. */
  lemma {:induction false} FindFromFirst(s: string, p: string, i: nat, j: nat)
    requires i <= j && At(s, p, j)
    requires forall m :: i <= m < j ==> !At(s, p, m)
    decreases j - i
    ensures FindFrom(s, p, i) == Some(j)
  {
    if i < j {
      assert !At(s, p, i);
      FindFromFirst(s, p, i + 1, j);
    }
  }

  /** The text before the first occurrence of `p` does not contain `p`. */
  lemma BeforeFirstAvoids(s: string, p: string, i: nat)
    requires |p| > 0 && FindFrom(s, p, 0) == Some(i)
    ensures !Contains(s[..i], p)
  {
    FindFromSpec(s, p, 0);
    var t := s[..i];
    FindFromSpec(t, p, 0);
    if FindFrom(t, p, 0).Some? {
      var m := FindFrom(t, p, 0).value;
      assert t[m..m + |p|] == s[m..m + |p|];
      assert At(s, p, m);
    }
  }

  /** No piece of a split contains the separator. */
  lemma {:induction false} SplitPiecesAvoidSep(s: string, sep: string)
    requires |sep| > 0
    decreases |s|
    ensures forall k :: 0 <= k < |Split(s, sep)| ==> !Contains(Split(s, sep)[k], sep)
  {
    match FindFrom(s, sep, 0)
    case None =>
    case Some(i) =>
      var rest := s[i + |sep|..];
      SplitPiecesAvoidSep(rest, sep);
      BeforeFirstAvoids(s, sep, i);
      var parts := Split(rest, sep);
      assert Split(s, sep) == [s[..i]] + parts;
      forall k | 1 <= k < |parts| + 1
        ensures ([s[..i]] + parts)[k] == parts[k - 1]
      {
      }
  }

  /** Joining a head piece before at least one more piece puts a separator after it. */
  lemma JoinCons(sep: string, x: string, parts: seq<string>)
    requires |parts| >= 1
    ensures Join(sep, [x] + parts) == x + sep + Join(sep, parts)
  {
    assert ([x] + parts)[1..] == parts;
  }

  /** Joining the pieces of a split with the same separator gives back the string. */
  lemma {:induction false} JoinSplit(s: string, sep: string)
    requires |sep| > 0
    decreases |s|
    ensures Join(sep, Split(s, sep)) == s
  {
    var f := FindFrom(s, sep, 0);
    if f.Some? {
      var i := f.value;
      FindFromSpec(s, sep, 0);
      var head, rest := s[..i], s[i + |sep|..];
      var parts := Split(rest, sep);
      assert Split(s, sep) == [head] + parts;
      JoinSplit(rest, sep);
      JoinCons(sep, head, parts);
      assert Join(sep, Split(s, sep)) == head + sep + rest;
      assert s[i..i + |sep|] == sep;
      assert s == head + s[i..i + |sep|] + rest;
    }
  }

  /** `s.split('\n')`. */
  function Lines(s: string): seq<string>
  {
    Split(s, "\n")
  }

  /** `len(s.split('\n'))`. */
  function LineCount(s: string): nat
  {
    |Lines(s)|
  }

  /** A line of text: a string holding no newline character. */
  predicate IsLine(s: string)
  {
    forall k :: 0 <= k < |s| ==> s[k] != '\n'
  }

  /** The first newline of `a + "\n" + b` is the one after `a` when `a` is a line. */
  lemma FirstNewline(a: string, b: string)
    requires IsLine(a)
    ensures FindFrom(a + "\n" + b, "\n", 0) == Some(|a|)
  {
    var s := a + "\n" + b;
    assert s[|a|..|a| + 1] == "\n";
    forall m | 0 <= m < |a|
      ensures !At(s, "\n", m)
    {
      assert s[m..m + 1][0] == s[m] == a[m];
    }
    FindFromFirst(s, "\n", 0, |a|);
  }

  /** Splitting the lines joined with `'\n'` gives the lines back. */
  lemma {:induction false} LinesOfJoin(ls: seq<string>)
    requires |ls| >= 1
    requires forall k :: 0 <= k < |ls| ==> IsLine(ls[k])
    ensures Lines(Join("\n", ls)) == ls
  {
    if |ls| == 1 {
      FindFromSpec(ls[0], "\n", 0);
      forall m: nat | m < |ls[0]|
        ensures !At(ls[0], "\n", m)
      {
        assert ls[0][m..m + 1][0] == ls[0][m];
      }
      assert Split(ls[0], "\n") == [ls[0]];
    } else {
      var tail := Join("\n", ls[1..]);
      FirstNewline(ls[0], tail);
      var s := ls[0] + "\n" + tail;
      assert s[|ls[0]| + 1..] == tail;
      LinesOfJoin(ls[1..]);
      assert s[..|ls[0]|] == ls[0];
      assert ls == [ls[0]] + ls[1..];
    }
  }

  /** The number of lines of `'\n'.join(ls)` is `len(ls)`. */
  lemma LineCountOfJoin(ls: seq<string>)
    requires |ls| >= 1
    requires forall k :: 0 <= k < |ls| ==> IsLine(ls[k])
    ensures LineCount(Join("\n", ls)) == |ls|
  {
    LinesOfJoin(ls);
  }

  /** Every string of `ls` is a line. */
  predicate AllLines(ls: seq<string>)
  {
    forall k :: 0 <= k < |ls| ==> IsLine(ls[k])
  }

  lemma AllLinesAppend(a: seq<string>, b: seq<string>)
    requires AllLines(a) && AllLines(b)
    ensures AllLines(a + b)
  {
    assert forall k :: |a| <= k < |a + b| ==> (a + b)[k] == b[k - |a|];
  }

  /** Two lines put together make a line. */
  lemma ConcatIsLine(a: string, b: string)
    requires IsLine(a) && IsLine(b)
    ensures IsLine(a + b)
  {
    assert forall k :: |a| <= k < |a + b| ==> (a + b)[k] == b[k - |a|];
  }

  /** A string that does not contain `"\n"` is a line. */
  lemma NoNewlineIsLine(s: string)
    requires !Contains(s, "\n")
    ensures IsLine(s)
  {
    ContainsSpec(s, "\n");
    forall k | 0 <= k < |s|
      ensures s[k] != '\n'
    {
      assert !At(s, "\n", k);
      assert s[k..k + 1] == [s[k]];
    }
  }

  /** Every piece of `s.split('\n')` is a line. */
  lemma LinesAreLines(s: string)
    ensures forall k :: 0 <= k < |Lines(s)| ==> IsLine(Lines(s)[k])
  {
    SplitPiecesAvoidSep(s, "\n");
    forall k | 0 <= k < |Lines(s)|
      ensures IsLine(Lines(s)[k])
    {
      NoNewlineIsLine(Lines(s)[k]);
    }
  }

  /** Stripping a line leaves a line. */
  lemma StripIsLine(s: string)
    requires IsLine(s)
    ensures IsLine(Strip(s))
  {
    var a := LeadingSpaces(s);
    var t := s[a..];
    assert forall k :: 0 <= k < |Strip(s)| ==> Strip(s)[k] == t[k] == s[a + k];
  }

  /** Lines joined by a separator that is a line make a line. */
  lemma {:induction false} JoinIsLine(sep: string, parts: seq<string>)
    requires IsLine(sep)
    requires forall k :: 0 <= k < |parts| ==> IsLine(parts[k])
    ensures IsLine(Join(sep, parts))
  {
    if |parts| > 1 {
      JoinIsLine(sep, parts[1..]);
      var rest := Join(sep, parts[1..]);
      assert IsLine(parts[0]);
      assert Join(sep, parts) == parts[0] + sep + rest;
    }
  }

  /** `c.lower()` for an ASCII letter; other characters are left as they are. */
  function LowerChar(c: char): char
  {
    if 'A' <= c <= 'Z' then (c as int + 32) as char else c
  }

  /** `s.lower()` (ASCII letters only). */
  function Lower(s: string): (r: string)
    ensures |r| == |s|
    ensures forall k :: 0 <= k < |s| ==> r[k] == LowerChar(s[k])
  {
    if s == [] then [] else [LowerChar(s[0])] + Lower(s[1..])
  }

  /** Lower-casing never introduces or removes a newline, so lines survive it. */
  lemma LowerKeepsNewlines(s: string, k: nat)
    requires k < |s|
    ensures (Lower(s)[k] == '\n') == (s[k] == '\n')
  {
  }

  /** A decimal digit. */
  predicate IsDigit(c: char)
  {
    '0' <= c <= '9'
  }

  /** `str(n)` for a non-negative integer: its decimal digits. */
  function NatToString(n: nat): (r: string)
    ensures |r| >= 1
    ensures forall k :: 0 <= k < |r| ==> IsDigit(r[k])
  {
    if n < 10 then [('0' as int + n) as char]
    else NatToString(n / 10) + [('0' as int + n % 10) as char]
  }

  /** The value of a non-empty string of decimal digits. */
  function DigitsValue(s: string): nat
    requires forall k :: 0 <= k < |s| ==> IsDigit(s[k])
  {
    if s == [] then 0
    else
      var d := s[|s| - 1] as int - '0' as int;
      assert IsDigit(s[|s| - 1]);
      DigitsValue(s[..|s| - 1]) * 10 + d
  }

  /** Reading back the digits of `str(n)` gives `n`. */
  lemma {:induction false} NatToStringValue(n: nat)
    ensures DigitsValue(NatToString(n)) == n
  {
    var r := NatToString(n);
    if n >= 10 {
      NatToStringValue(n / 10);
      assert r[..|r| - 1] == NatToString(n / 10);
    }
  }

  /** `str(n)` never contains a newline. */
  lemma NatToStringIsLine(n: nat)
    ensures IsLine(NatToString(n))
  {
  }
}
