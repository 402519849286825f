/**
 * String helpers shared by the client and the backend: the two whitespace
 * sets (JavaScript's `trim`/`\s` and Python's `str.strip`), trimming,
 * Python's `split('\n')` with its inverse `'\n'.join`, decimal printing of
 * naturals, and substring containment.
 */
module Text {

  /** Whose notion of whitespace is meant. */
  datatype Whitespace = Js | Py

  /**
   * JavaScript: the characters `String.prototype.trim` removes and the regex
   * class `\s` matches (WhiteSpace and LineTerminator of ECMA-262).
   * Python: the characters `str.isspace` accepts, which `str.strip()` removes.
   * The two sets share the ASCII blanks and the Unicode space separators;
   * only JavaScript has U+FEFF, only Python has U+001C..U+001F and U+0085.
   */
  predicate IsSpace(c: char, w: Whitespace)
  {
    || c == ' ' || c == '\t' || c == '\n' || c == '\U{0B}' || c == '\U{0C}' || c == '\r'
    || c == '\U{A0}' || c == '\U{1680}' || ('\U{2000}' <= c <= '\U{200A}')
    || c == '\U{2028}' || c == '\U{2029}' || c == '\U{202F}' || c == '\U{205F}' || c == '\U{3000}'
    || (match w
        case Js => c == '\U{FEFF}'
        case Py => ('\U{1C}' <= c <= '\U{1F}') || c == '\U{85}')
  }

  predicate AllSpace(s: string, w: Whitespace)
  {
    forall i :: 0 <= i < |s| ==> IsSpace(s[i], w)
  }

  /** Number of whitespace characters at the start of `s`. */
  function LeadingSpaces(s: string, w: Whitespace): (n: nat)
    ensures n <= |s|
    ensures forall i :: 0 <= i < n ==> IsSpace(s[i], w)
    ensures n < |s| ==> !IsSpace(s[n], w)
    decreases |s|
  {
    if s == [] || !IsSpace(s[0], w) then 0 else 1 + LeadingSpaces(s[1..], w)
  }

  /** Number of whitespace characters at the end of `s`. */
  function TrailingSpaces(s: string, w: Whitespace): (n: nat)
    ensures n <= |s|
    ensures forall i :: |s| - n <= i < |s| ==> IsSpace(s[i], w)
    ensures n < |s| ==> !IsSpace(s[|s| - n - 1], w)
    decreases |s|
  {
    if s == [] || !IsSpace(s[|s| - 1], w) then 0 else 1 + TrailingSpaces(s[..|s| - 1], w)
  }

  /** `s` without its leading whitespace (the `\s*` of an anchored regex). */
  function TrimStart(s: string, w: Whitespace): (r: string)
    ensures |r| <= |s| && r == s[|s| - |r|..]
    ensures forall i :: 0 <= i < |s| - |r| ==> IsSpace(s[i], w)
    ensures r != [] ==> !IsSpace(r[0], w)
  {
    s[LeadingSpaces(s, w)..]
  }

  /**
   * JavaScript's `s.trim()` (w = Js) or Python's `s.strip()` (w = Py): the
   * longest infix of `s` that neither starts nor ends with whitespace.
   */
  function Trim(s: string, w: Whitespace): (r: string)
    ensures |r| <= |s|
    ensures forall c :: c in r ==> c in s
    ensures LeadingSpaces(s, w) + |r| <= |s|
    ensures r == s[LeadingSpaces(s, w)..LeadingSpaces(s, w) + |r|]
    ensures AllSpace(s[LeadingSpaces(s, w) + |r|..], w)
    ensures r != [] ==> !IsSpace(r[0], w) && !IsSpace(r[|r| - 1], w)
    ensures r == [] <==> AllSpace(s, w)
  {
    var n := LeadingSpaces(s, w);
    var t := s[n..];
    var r := t[..|t| - TrailingSpaces(t, w)];
    assert r == s[n..n + |r|];
    assert s[n + |r|..] == t[|r|..];
    r
  }

  /** Trimming text that already has no outer whitespace changes nothing. */
  lemma TrimTrimmed(s: string, w: Whitespace)
    requires s != [] ==> !IsSpace(s[0], w) && !IsSpace(s[|s| - 1], w)
    ensures Trim(s, w) == s
  {
    if s != [] {
      assert LeadingSpaces(s, w) == 0;
      assert TrailingSpaces(s, w) == 0;
    }
  }

  /** Trimming is idempotent (for either whitespace set). */
  lemma TrimIdempotent(s: string, w: Whitespace)
    ensures Trim(Trim(s, w), w) == Trim(s, w)
  {
    TrimTrimmed(Trim(s, w), w);
  }

  /** `s.startswith('-')`, and the `^-` of a regex. */
  predicate StartsWithDash(s: string)
  {
    |s| > 0 && s[0] == '-'
  }

  /** Python's `s[:n]`: a non-negative bound keeps at most `n` items, a negative one drops `-n` from the end. */
  function SliceTo<T>(s: seq<T>, n: int): (r: seq<T>)
    ensures r <= s
    ensures 0 <= n ==> |r| == if n < |s| then n else |s|
    ensures n < 0 ==> |r| == if |s| + n < 0 then 0 else |s| + n
  {
    if 0 <= n then (if n < |s| then s[..n] else s)
    else if |s| + n < 0 then []
    else s[..|s| + n]
  }

  /** Python's `text.split('\n')`: always at least one piece, none holding a newline. */
  function SplitLines(s: string): (lines: seq<string>)
    ensures |lines| >= 1
    ensures forall i :: 0 <= i < |lines| ==> '\n' !in lines[i]
    decreases |s|
  {
    if s == [] then [""]
    else if s[0] == '\n' then [""] + SplitLines(s[1..])
    else
      var rest := SplitLines(s[1..]);
      [[s[0]] + rest[0]] + rest[1..]
  }

  /** Python's `'\n'.join(lines)`. */
  function Join(lines: seq<string>): string
    decreases |lines|
  {
    if lines == [] then ""
    else if |lines| == 1 then lines[0]
    else lines[0] + "\n" + Join(lines[1..])
  }

  /** Joining the pieces of a split gives back the text. */
  lemma {:induction false} JoinSplitLines(s: string)
    ensures Join(SplitLines(s)) == s
    decreases |s|
  {
    if s == [] {
    } else if s[0] == '\n' {
      JoinSplitLines(s[1..]);
      var rest := SplitLines(s[1..]);
      assert SplitLines(s) == [""] + rest;
      assert Join(SplitLines(s)) == "" + "\n" + Join(rest);
      assert s == [s[0]] + s[1..];
    } else {
      JoinSplitLines(s[1..]);
      var rest := SplitLines(s[1..]);
      var lines := SplitLines(s);
      assert lines == [[s[0]] + rest[0]] + rest[1..];
      if |rest| == 1 {
        assert Join(rest) == rest[0];
        assert Join(lines) == [s[0]] + rest[0];
      } else {
        assert lines[1..] == rest[1..];
        assert Join(rest) == rest[0] + "\n" + Join(rest[1..]);
        assert Join(lines) == ([s[0]] + rest[0]) + "\n" + Join(rest[1..]);
      }
      assert s == [s[0]] + s[1..];
    }
  }

  /** Splitting text with no newline yields that text alone. */
  lemma {:induction false} SplitLinesNoNewline(a: string)
    requires '\n' !in a
    ensures SplitLines(a) == [a]
    decreases |a|
  {
    if a != [] {
      assert '\n' !in a[1..];
      SplitLinesNoNewline(a[1..]);
      assert [a[0]] + a[1..] == a;
    }
  }

  /** A newline-free line followed by a newline splits off as one piece. */
  lemma {:induction false} SplitLinesCons(a: string, rest: string)
    requires '\n' !in a
    ensures SplitLines(a + "\n" + rest) == [a] + SplitLines(rest)
    decreases |a|
  {
    if a == [] {
      assert a + "\n" + rest == ['\n'] + rest;
      assert (a + "\n" + rest)[1..] == rest;
    } else {
      var s := a + "\n" + rest;
      assert s[0] == a[0];
      assert s[1..] == a[1..] + "\n" + rest;
      assert '\n' !in a[1..];
      SplitLinesCons(a[1..], rest);
      assert [a[0]] + a[1..] == a;
    }
  }

  /** Splitting newline-free pieces joined by newlines gives the pieces back. */
  lemma {:induction false} SplitLinesJoin(lines: seq<string>)
    requires |lines| >= 1
    requires forall i :: 0 <= i < |lines| ==> '\n' !in lines[i]
    ensures SplitLines(Join(lines)) == lines
    decreases |lines|
  {
    if |lines| == 1 {
      SplitLinesNoNewline(lines[0]);
    } else {
      SplitLinesJoin(lines[1..]);
      SplitLinesCons(lines[0], Join(lines[1..]));
      assert lines == [lines[0]] + lines[1..];
    }
  }

  function DigitChar(d: nat): (c: char)
    requires d < 10
    ensures '0' <= c <= '9'
  {
    (48 + d) as char
  }

  function DigitValue(c: char): (d: nat)
    requires '0' <= c <= '9'
    ensures d < 10
  {
    (c as int) - 48
  }

  predicate IsDigits(s: string)
  {
    forall i :: 0 <= i < |s| ==> '0' <= s[i] <= '9'
  }

  /** Python's `f"{n}"` for a natural number: its decimal digits. */
  function NatToString(n: nat): (r: string)
    ensures r != [] && IsDigits(r)
    ensures r[0] == '0' ==> n == 0
    decreases n
  {
    if n < 10 then [DigitChar(n)] else NatToString(n / 10) + [DigitChar(n % 10)]
  }

  /** The value of a string of decimal digits. */
  function ParseDigits(s: string): nat
    requires IsDigits(s)
    decreases |s|
  {
    if s == [] then 0 else 10 * ParseDigits(s[..|s| - 1]) + DigitValue(s[|s| - 1])
  }

  /** Printing a number and reading it back gives the number. */
  lemma {:induction false} ParsePrinted(n: nat)
    ensures ParseDigits(NatToString(n)) == n
    decreases n
  {
    if n >= 10 {
      ParsePrinted(n / 10);
      var s := NatToString(n);
      assert s[..|s| - 1] == NatToString(n / 10);
    }
  }

  /** `sub` occurs in `s` starting at index `i`. */
  predicate OccursAt(sub: string, s: string, i: nat)
  {
    i + |sub| <= |s| && s[i..i + |sub|] == sub
  }

  /** Python's `sub in s`. */
  predicate Contains(s: string, sub: string)
  {
    exists i: nat :: i <= |s| && OccursAt(sub, s, i)
  }

  /** Text placed between a prefix and a suffix is contained in the whole. */
  lemma ContainsMiddle(pre: string, mid: string, post: string)
    ensures Contains(pre + mid + post, mid)
  {
    var s := pre + mid + post;
    assert s[|pre|..|pre| + |mid|] == mid;
    assert OccursAt(mid, s, |pre|);
  }

  /** Text followed by a suffix is contained in the whole. */
  lemma ContainsStart(mid: string, post: string)
    ensures Contains(mid + post, mid)
  {
    assert (mid + post)[0..|mid|] == mid;
    assert OccursAt(mid, mid + post, 0);
  }

  /** Text preceded by a prefix is contained in the whole. */
  lemma ContainsEnd(pre: string, mid: string)
    ensures Contains(pre + mid, mid)
  {
    assert (pre + mid)[|pre|..|pre| + |mid|] == mid;
    assert OccursAt(mid, pre + mid, |pre|);
  }
}
