/** The Python string operations the agent relies on: character-set strips,
    prefix tests, clamped slices, splitting and joining, text-mode line
    iteration and `str` of an int. Strings are sequences of code points. */
module PyStrings {

  /** `c.isspace()`. */
  predicate IsSpace(c: char) {
    || c == ' ' || '\t' <= c <= '\r' || '\U{001C}' <= c <= '\U{001F}'
    || c == '\U{0085}' || c == '\U{00A0}' || c == '\U{1680}' || '\U{2000}' <= c <= '\U{200A}'
    || c == '\U{2028}' || c == '\U{2029}' || c == '\U{202F}' || c == '\U{205F}' || c == '\U{3000}'
  }

  predicate StartsWith(s: string, prefix: string) {
    prefix <= s
  }

  /** `s.lstrip(chars)`: drops the longest leading run of characters for which `drop` holds. */
  function LStrip(s: string, drop: char -> bool): (r: string)
    ensures |r| <= |s| && r == s[|s| - |r|..]
    ensures forall i :: 0 <= i < |s| - |r| ==> drop(s[i])
    ensures r != [] ==> !drop(r[0])
    decreases |s|
  {
    if s != [] && drop(s[0]) then LStrip(s[1..], drop) else s
  }

  /** `s.rstrip(chars)`: drops the longest trailing run of characters for which `drop` holds. */
  function RStrip(s: string, drop: char -> bool): (r: string)
    ensures |r| <= |s| && r == s[..|r|]
    ensures forall i :: |r| <= i < |s| ==> drop(s[i])
    ensures r != [] ==> !drop(r[|r| - 1])
    decreases |s|
  {
    if s != [] && drop(s[|s| - 1]) then RStrip(s[..|s| - 1], drop) else s
  }

  /** `s.strip()`: drops surrounding whitespace. */
  function Strip(s: string): (r: string)
    ensures r != [] ==> !IsSpace(r[0]) && !IsSpace(r[|r| - 1])
    ensures exists i, j :: 0 <= i <= j <= |s| && r == s[i..j]
  {
    var l := LStrip(s, IsSpace);
    var r := RStrip(l, IsSpace);
    assert r == s[|s| - |l|..|s| - |l| + |r|];
    r
  }

  /** `s[k:]` with Python's clamping of an index past the end. */
  function SliceFrom(s: string, k: nat): (r: string)
    ensures k <= |s| ==> r == s[k..]
    ensures k > |s| ==> r == ""
  {
    if k <= |s| then s[k..] else ""
  }

  /** `s[:k]` with Python's clamping. */
  function Take<T>(s: seq<T>, k: nat): (r: seq<T>)
    ensures |r| == if k <= |s| then k else |s|
    ensures r <= s
  {
    if k <= |s| then s[..k] else s
  }

  /** `sep.join(parts)`. */
  function Join(parts: seq<string>, sep: string): string {
    if parts == [] then ""
    else if |parts| == 1 then parts[0]
    else parts[0] + sep + Join(parts[1..], sep)
  }

  /** `s.split(c)` for a one-character separator: the maximal pieces between
      occurrences of `c`, always at least one. */
  function Split(s: string, c: char): (parts: seq<string>)
    ensures |parts| >= 1
    ensures forall i :: 0 <= i < |parts| ==> c !in parts[i]
    decreases |s|
  {
    if s == [] then [""]
    else if s[0] == c then [""] + Split(s[1..], c)
    else
      var rest := Split(s[1..], c);
      [[s[0]] + rest[0]] + rest[1..]
  }

  /** Splitting and joining again gives back the string. */
  lemma {:induction false} JoinSplit(s: string, c: char)
    ensures Join(Split(s, c), [c]) == s
    decreases |s|
  {
    if s == [] {
    } else if s[0] == c {
      JoinSplit(s[1..], c);
      assert s == [c] + s[1..];
    } else {
      JoinSplit(s[1..], c);
      var rest := Split(s[1..], c);
      if |rest| == 1 {
        assert s == [s[0]] + rest[0];
      } else {
        assert Join(rest, [c]) == rest[0] + [c] + Join(rest[1..], [c]);
        assert s == [s[0]] + s[1..];
      }
    }
  }

  /** Stripping adds no character. */
  lemma StripKeepsOut(s: string, c: char)
    requires c !in s
    ensures c !in Strip(s)
  {
    var l := LStrip(s, IsSpace);
    SliceKeepsOut(s, c, |s| - |l|, |s|);
    var r := RStrip(l, IsSpace);
    SliceKeepsOut(l, c, 0, |r|);
  }

  lemma SliceKeepsOut(s: string, c: char, i: nat, j: nat)
    requires c !in s && i <= j <= |s|
    ensures c !in s[i..j]
  {
    assert forall k :: 0 <= k < j - i ==> s[i..j][k] == s[i + k];
  }

  /** A piece without the separator splits to itself. */
  lemma {:induction false} SplitNoSeparator(w: string, c: char)
    requires c !in w
    ensures Split(w, c) == [w]
    decreases |w|
  {
    if w != [] {
      SplitNoSeparator(w[1..], c);
      assert w == [w[0]] + w[1..];
    }
  }

  /** A piece without the separator, then the separator, splits off first. */
  lemma {:induction false} SplitAfterPiece(w: string, c: char, t: string)
    requires c !in w
    ensures Split(w + [c] + t, c) == [w] + Split(t, c)
    decreases |w|
  {
    var s := w + [c] + t;
    if w == [] {
      assert s[1..] == t;
    } else {
      assert s[1..] == w[1..] + [c] + t;
      SplitAfterPiece(w[1..], c, t);
      assert w == [w[0]] + w[1..];
    }
  }

  /** Joining pieces without the separator and splitting again gives the
      pieces back, whatever follows the next separator. */
  lemma {:induction false} SplitJoinThen(parts: seq<string>, c: char, t: string)
    requires parts != []
    requires forall i :: 0 <= i < |parts| ==> c !in parts[i]
    ensures Split(Join(parts, [c]) + [c] + t, c) == parts + Split(t, c)
    decreases |parts|
  {
    if |parts| == 1 {
      SplitAfterPiece(parts[0], c, t);
    } else {
      var rest := parts[1..];
      var u := Join(rest, [c]) + [c] + t;
      JoinStep(parts, c, t);
      assert forall i :: 0 <= i < |rest| ==> c !in rest[i] by {
        forall i | 0 <= i < |rest| ensures c !in rest[i] {
          assert rest[i] == parts[i + 1];
        }
      }
      SplitJoinThen(rest, c, t);
      SplitCons(parts[0], c, u, rest, Split(t, c));
      assert [parts[0]] + rest == parts;
    }
  }

  lemma JoinStep(parts: seq<string>, c: char, t: string)
    requires |parts| >= 2
    ensures Join(parts, [c]) + [c] + t == parts[0] + [c] + (Join(parts[1..], [c]) + [c] + t)
  {
    assert Join(parts, [c]) == parts[0] + [c] + Join(parts[1..], [c]);
  }

  lemma SplitCons(w: string, c: char, u: string, ps: seq<string>, tail: seq<string>)
    requires c !in w && Split(u, c) == ps + tail
    ensures Split(w + [c] + u, c) == [w] + ps + tail
  {
    SplitAfterPiece(w, c, u);
  }

  /** Text-mode reading translates "\r\n" and a lone "\r" to "\n". */
  function UniversalNewlines(s: string): (r: string)
    ensures '\r' !in r
    ensures |r| <= |s|
    decreases |s|
  {
    if s == [] then []
    else if s[0] == '\r' then
      if |s| >= 2 && s[1] == '\n' then ['\n'] + UniversalNewlines(s[2..])
      else ['\n'] + UniversalNewlines(s[1..])
    else [s[0]] + UniversalNewlines(s[1..])
  }

  /** The lines that `for line in f` yields from a file opened in text mode,
      without their line terminators. A text ending in a newline yields one
      extra, empty piece here; every caller skips or strips it. */
  function Lines(text: string): (lines: seq<string>)
    ensures |lines| >= 1
    ensures forall i :: 0 <= i < |lines| ==> '\n' !in lines[i]
  {
    Split(UniversalNewlines(text), '\n')
  }

  predicate Blank(line: string) {
    Strip(line) == ""
  }

  /** How many of the lines are not blank once stripped. */
  function NonBlankCount(lines: seq<string>): (n: nat)
    ensures n <= |lines|
  {
    if lines == [] then 0
    else NonBlankCount(lines[..|lines| - 1]) + (if Blank(lines[|lines| - 1]) then 0 else 1)
  }

  function DigitChar(d: nat): (c: char)
    requires d < 10
    ensures '0' <= c <= '9'
  {
    ['0', '1', '2', '3', '4', '5', '6', '7', '8', '9'][d]
  }

  function NatToString(n: nat): (r: string)
    ensures |r| >= 1
    ensures forall i :: 0 <= i < |r| ==> '0' <= r[i] <= '9'
  {
    if n < 10 then [DigitChar(n)] else NatToString(n / 10) + [DigitChar(n % 10)]
  }

  /** `str(n)` for an int. */
  function IntToString(n: int): string
  {
    if n >= 0 then NatToString(n) else "-" + NatToString(-n)
  }

  lemma {:induction false} LStripPrefix(p: string, s: string, drop: char -> bool)
    requires forall i :: 0 <= i < |p| ==> drop(p[i])
    ensures LStrip(p + s, drop) == LStrip(s, drop)
  {
    if p != [] {
      assert (p + s)[1..] == p[1..] + s;
      LStripPrefix(p[1..], s, drop);
    } else {
      assert p + s == s;
    }
  }

  lemma {:induction false} RStripSuffix(s: string, p: string, drop: char -> bool)
    requires forall i :: 0 <= i < |p| ==> drop(p[i])
    ensures RStrip(s + p, drop) == RStrip(s, drop)
  {
    if p != [] {
      assert (s + p)[..|s + p| - 1] == s + p[..|p| - 1];
      RStripSuffix(s, p[..|p| - 1], drop);
    } else {
      assert s + p == s;
    }
  }

  lemma {:induction false} LStripAppend(s: string, t: string, drop: char -> bool)
    ensures LStrip(s + t, drop) == if LStrip(s, drop) == [] then LStrip(t, drop) else LStrip(s, drop) + t
    decreases |s|
  {
    if s == [] {
      assert s + t == t;
    } else if drop(s[0]) {
      assert (s + t)[1..] == s[1..] + t;
      LStripAppend(s[1..], t, drop);
    } else {
      assert (s + t)[0] == s[0];
    }
  }

  /** IsSpace around a text does not change what `strip()` leaves. */
  lemma StripPadded(s: string, w1: string, w2: string)
    requires forall i :: 0 <= i < |w1| ==> IsSpace(w1[i])
    requires forall i :: 0 <= i < |w2| ==> IsSpace(w2[i])
    ensures Strip(w1 + s + w2) == Strip(s)
  {
    assert w1 + s + w2 == w1 + (s + w2);
    LStripPrefix(w1, s + w2, IsSpace);
    LStripAppend(s, w2, IsSpace);
    var l := LStrip(s, IsSpace);
    if l == [] {
      assert LStrip(w2, IsSpace) == [] by {
        LStripPrefix(w2, [], IsSpace);
        assert w2 + [] == w2;
      }
    } else {
      RStripSuffix(l, w2, IsSpace);
    }
  }

  lemma StripIsIdempotent(s: string)
    ensures Strip(Strip(s)) == Strip(s)
  {
    var r := Strip(s);
    LStripNoop(r, IsSpace);
    RStripNoop(r, IsSpace);
  }

  lemma LStripNoop(s: string, drop: char -> bool)
    requires s == [] || !drop(s[0])
    ensures LStrip(s, drop) == s
  {
  }

  lemma RStripNoop(s: string, drop: char -> bool)
    requires s == [] || !drop(s[|s| - 1])
    ensures RStrip(s, drop) == s
  {
  }
}
