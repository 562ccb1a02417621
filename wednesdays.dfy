/** `count_wednesdays` of test_count_days.py: the lines of a file are
    stripped, blank ones skipped, the rest handed to a fuzzy date parser, and
    the dates that fall on a Wednesday counted. The parser is an oracle from
    a stripped line to the weekday of the date it finds, or None when it
    raises. */
module WednesdayCounter {
  import opened PyValues
  import opened PyStrings
  import opened FileSystem

  const Wednesday: Weekday := 2

  /** What one line adds to the total. */
  function LineScore(line: string, parse: string -> Option<Weekday>): nat {
    var d := Strip(line);
    if d == "" then 0
    else match parse(d)
      case Some(w) => if w == Wednesday then 1 else 0
      case None => 0
  }

  /** The total over the lines, in order. */
  function Wednesdays(lines: seq<string>, parse: string -> Option<Weekday>): nat {
    if lines == [] then 0
    else Wednesdays(lines[..|lines| - 1], parse) + LineScore(lines[|lines| - 1], parse)
  }

  /** The counting loop: the file must exist, and is only read. */
  method CountWednesdays(fs: Fs, filePath: string, parse: string -> Option<Weekday>) returns (r: Result<nat>)
    ensures filePath !in fs ==> r == Err(FileNotFoundError("File not found: " + filePath))
    ensures IsDir(fs, filePath) ==> r.Err? && r.error.IsADirectoryError?
    ensures filePath in fs && fs[filePath].File? ==> r == Ok(Wednesdays(Lines(fs[filePath].text), parse))
  {
    if !Exists(fs, filePath) {
      return Err(FileNotFoundError("File not found: " + filePath));
    }
    var text :- ReadText(fs, filePath);
    var lines := Lines(text);
    var total := 0;
    var i := 0;
    while i < |lines|
      invariant 0 <= i <= |lines|
      invariant total == Wednesdays(lines[..i], parse)
    {
      var dateStr := Strip(lines[i]);
      if dateStr != "" {
        match parse(dateStr)
        case Some(w) =>
          if w == Wednesday {
            total := total + 1;
          }
        case None =>
      }
      assert lines[..i + 1][..i] == lines[..i];
      i := i + 1;
    }
    assert lines[..i] == lines;
    return Ok(total);
  }

  /** Only a non-blank line can count, and at most once. */
  lemma {:induction false} WednesdaysBounded(lines: seq<string>, parse: string -> Option<Weekday>)
    ensures Wednesdays(lines, parse) <= NonBlankCount(lines)
    decreases |lines|
  {
    if lines != [] {
      WednesdaysBounded(lines[..|lines| - 1], parse);
    }
  }

  /** The total over a file is the total over any split of its lines: lines
      are scored independently and in order, and no failure aborts the loop. */
  lemma {:induction false} WednesdaysAppend(a: seq<string>, b: seq<string>, parse: string -> Option<Weekday>)
    ensures Wednesdays(a + b, parse) == Wednesdays(a, parse) + Wednesdays(b, parse)
    decreases |b|
  {
    if b == [] {
      assert a + b == a;
    } else {
      var b' := b[..|b| - 1];
      assert (a + b)[..|a + b| - 1] == a + b';
      WednesdaysAppend(a, b', parse);
    }
  }

  /** Blank lines and lines the parser rejects contribute nothing. */
  lemma SkippedLinesScoreZero(line: string, parse: string -> Option<Weekday>)
    requires Blank(line) || parse(Strip(line)).None?
    ensures LineScore(line, parse) == 0
  {
  }

  /** When every line parses to a Wednesday, every non-blank line counts. */
  lemma {:induction false} AllWednesdaysCounted(lines: seq<string>, parse: string -> Option<Weekday>)
    requires forall i :: 0 <= i < |lines| && !Blank(lines[i]) ==> parse(Strip(lines[i])) == Some(Wednesday)
    ensures Wednesdays(lines, parse) == NonBlankCount(lines)
    decreases |lines|
  {
    if lines != [] {
      var init := lines[..|lines| - 1];
      assert forall i :: 0 <= i < |init| ==> init[i] == lines[i];
      AllWednesdaysCounted(init, parse);
    }
  }
}
