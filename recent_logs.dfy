/** `write_recent_logs` of finalmain.py: of the `.log` files in a
    directory, the ten most recently modified are read, newest first, and
    the stripped first line of each, when not empty, is written out, one per
    line. Directory listing and modification times are oracles. */
module RecentLogs {
  import opened PyValues
  import opened PyStrings
  import opened FileSystem
  import opened Sorting
  import opened HandlerOutcome

  /** The order of `sorted(..., key=mtime, reverse=True)`: newer first; the
      reversed sort is still stable, so files with equal times keep their
      listing order. */
  function NewerFirst(mtime: string -> int): (string, string) -> bool {
    (a: string, b: string) => mtime(a) >= mtime(b)
  }

  /** The ten most recently modified of the listed files, newest first. */
  function Recent(files: seq<string>, mtime: string -> int): seq<string> {
    Take(Sort(files, NewerFirst(mtime)), 10)
  }

  /** `f.readline().strip()`. */
  function FirstLine(text: string): (r: string)
    ensures r != "" ==> !IsSpace(r[0]) && !IsSpace(r[|r| - 1])
    ensures '\n' !in r
  {
    var line := Lines(text)[0];
    StripKeepsOut(line, '\n');
    Strip(line)
  }

  /** The loop of `write_recent_logs`: the first line of each file in turn,
      kept when it is not empty; the first file that cannot be read stops it. */
  function FirstLines(fs: Fs, files: seq<string>): Result<seq<string>> {
    if files == [] then Ok([])
    else
      match FirstLines(fs, files[..|files| - 1])
      case Err(e) => Err(e)
      case Ok(init) =>
        match ReadText(fs, files[|files| - 1])
        case Err(e) => Err(e)
        case Ok(text) => Ok(Keep(init, FirstLine(text)))
  }

  /** `if first_line: recent_lines.append(first_line)`. */
  function Keep(lines: seq<string>, first: string): seq<string> {
    if first != "" then lines + [first] else lines
  }

  function RecentLogsText(lines: seq<string>): string {
    Join(lines, "\n") + "\n"
  }

  /** `write_recent_logs`. */
  method WriteRecentLogsHandler(fs: Fs, inputDir: string, outputFile: string,
                                glob: string -> seq<string>, mtime: string -> int) returns (r: Outcome)
    ensures !IsDir(fs, "." + inputDir) ==>
              r == Outcome(fs, Err(ValueError("Invalid directory path: " + ("." + inputDir))))
    ensures IsDir(fs, "." + inputDir) && FirstLines(fs, Recent(glob("." + inputDir), mtime)).Err? ==>
              r == Outcome(fs, Err(FirstLines(fs, Recent(glob("." + inputDir), mtime)).error))
    ensures IsDir(fs, "." + inputDir) && FirstLines(fs, Recent(glob("." + inputDir), mtime)).Ok? ==>
              r == Written(fs, "." + outputFile, RecentLogsText(FirstLines(fs, Recent(glob("." + inputDir), mtime)).value),
                           "A5 Completed: First lines of 10 most recent log files written to " + outputFile)
  {
    var logsDir := "." + inputDir;
    var outputPath := "." + outputFile;
    if !IsDir(fs, logsDir) {
      return Outcome(fs, Err(ValueError("Invalid directory path: " + logsDir)));
    }
    var read := ReadFirstLines(fs, Recent(glob(logsDir), mtime));
    if read.Err? {
      return Outcome(fs, Err(read.error));
    }
    return Written(fs, outputPath, RecentLogsText(read.value),
                   "A5 Completed: First lines of 10 most recent log files written to " + outputFile);
  }

  /** The loop of `write_recent_logs` over the selected files. */
  method ReadFirstLines(fs: Fs, logFiles: seq<string>) returns (r: Result<seq<string>>)
    ensures r == FirstLines(fs, logFiles)
  {
    var recentLines: seq<string> := [];
    var i := 0;
    while i < |logFiles|
      invariant 0 <= i <= |logFiles|
      invariant FirstLines(fs, logFiles[..i]) == Ok(recentLines)
    {
      var read := ReadText(fs, logFiles[i]);
      if read.Err? {
        FirstLinesStep(fs, logFiles, i);
        FirstLinesStopsAt(fs, logFiles, i + 1);
        return Err(read.error);
      }
      FirstLinesStep(fs, logFiles, i);
      var firstLine := FirstLine(read.value);
      if firstLine != "" {
        recentLines := recentLines + [firstLine];
      }
      i := i + 1;
    }
    assert logFiles[..i] == logFiles;
    return Ok(recentLines);
  }

  lemma FirstLinesStep(fs: Fs, files: seq<string>, i: nat)
    requires i < |files| && FirstLines(fs, files[..i]).Ok?
    ensures FirstLines(fs, files[..i + 1]) ==
              (match ReadText(fs, files[i])
               case Err(e) => Err(e)
               case Ok(text) => Ok(Keep(FirstLines(fs, files[..i]).value, FirstLine(text))))
  {
    assert files[..i + 1][..i] == files[..i];
  }

  /** A read error ends the loop: nothing after it changes the outcome. */
  lemma {:induction false} FirstLinesStopsAt(fs: Fs, files: seq<string>, i: nat)
    requires i <= |files| && FirstLines(fs, files[..i]).Err?
    ensures FirstLines(fs, files) == FirstLines(fs, files[..i])
    decreases |files| - i
  {
    if i < |files| {
      assert files[..i + 1][..i] == files[..i];
      FirstLinesStopsAt(fs, files, i + 1);
    } else {
      assert files[..i] == files;
    }
  }

  lemma NewerFirstIsTotalPreorder(mtime: string -> int)
    ensures TotalPreorder(NewerFirst(mtime))
  {
  }

  /** At most ten files are read, newest first, and every listed file left
      out is no newer than any file read. */
  lemma RecentAreNewest(files: seq<string>, mtime: string -> int)
    ensures var rs := Recent(files, mtime);
            && |rs| == (if |files| < 10 then |files| else 10)
            && Sorted(rs, NewerFirst(mtime))
            && multiset(rs) <= multiset(files)
            && forall x, y :: x in rs && y in multiset(files) - multiset(rs) ==> mtime(x) >= mtime(y)
  {
    var s := Sort(files, NewerFirst(mtime));
    NewerFirstIsTotalPreorder(mtime);
    SortIsOrderedPermutation(files, NewerFirst(mtime));
    var k := if |s| < 10 then |s| else 10;
    SortedSplit(s, k, mtime);
    assert Recent(files, mtime) == s[..k];
  }

  /** The sort is stable: of the files as new as `y`, the ones chosen are
      the first ones in listing order. */
  lemma RecentKeepsListingOrder(files: seq<string>, mtime: string -> int, y: string)
    ensures Class(Recent(files, mtime), y, NewerFirst(mtime)) <= Class(files, y, NewerFirst(mtime))
  {
    var s := Sort(files, NewerFirst(mtime));
    NewerFirstIsTotalPreorder(mtime);
    SortIsStable(files, y, NewerFirst(mtime));
    SortIsOrderedPermutation(files, NewerFirst(mtime));
    var k := if |s| < 10 then |s| else 10;
    ClassOfPrefix(s, k, y, NewerFirst(mtime));
    assert Recent(files, mtime) == s[..k];
  }

  /** Cutting a newest-first list leaves a newest-first head that is, file
      by file, no older than anything in the tail. */
  lemma SortedSplit(s: seq<string>, k: nat, mtime: string -> int)
    requires k <= |s| && Sorted(s, NewerFirst(mtime))
    ensures Sorted(s[..k], NewerFirst(mtime))
    ensures multiset(s[..k]) <= multiset(s)
    ensures forall x, y :: x in s[..k] && y in multiset(s) - multiset(s[..k]) ==> mtime(x) >= mtime(y)
  {
    MultisetOfSplit(s, k);
    var head, tail := s[..k], s[k..];
    assert Sorted(head, NewerFirst(mtime)) by {
      forall i, j | 0 <= i < j < |head| ensures NewerFirst(mtime)(head[i], head[j]) {
        assert head[i] == s[i] && head[j] == s[j];
      }
    }
    forall x, y | x in head && y in multiset(tail) ensures mtime(x) >= mtime(y) {
      var i :| 0 <= i < |head| && head[i] == x;
      var j :| 0 <= j < |tail| && tail[j] == y;
      assert s[i] == x && s[k + j] == y;
      assert NewerFirst(mtime)(s[i], s[k + j]);
    }
  }

  lemma MultisetOfSplit(s: seq<string>, k: nat)
    requires k <= |s|
    ensures multiset(s) - multiset(s[..k]) == multiset(s[k..])
    ensures multiset(s[..k]) <= multiset(s)
  {
    assert s == s[..k] + s[k..];
  }

  /** Every line is non-empty, has no whitespace at either end and no
      line break. */
  predicate KeptLines(lines: seq<string>) {
    forall i :: 0 <= i < |lines| ==>
      lines[i] != "" && !IsSpace(lines[i][0]) && !IsSpace(lines[i][|lines[i]| - 1]) && '\n' !in lines[i]
  }

  /** Every line written is the non-empty, stripped first line of a file. */
  lemma {:induction false} FirstLinesAreStripped(fs: Fs, files: seq<string>)
    requires FirstLines(fs, files).Ok?
    ensures |FirstLines(fs, files).value| <= |files|
    ensures KeptLines(FirstLines(fs, files).value)
    decreases |files|
  {
    if files != [] {
      var init := files[..|files| - 1];
      FirstLinesAreStripped(fs, init);
      var text := ReadText(fs, files[|files| - 1]).value;
      KeptLine(FirstLines(fs, init).value, FirstLine(text));
    }
  }

  lemma KeptLine(prior: seq<string>, first: string)
    requires KeptLines(prior)
    requires first != "" ==> !IsSpace(first[0]) && !IsSpace(first[|first| - 1])
    requires '\n' !in first
    ensures KeptLines(Keep(prior, first)) && |Keep(prior, first)| <= |prior| + 1
  {
    if first != "" {
      var r := prior + [first];
      forall i | 0 <= i < |r|
        ensures r[i] != "" && !IsSpace(r[i][0]) && !IsSpace(r[i][|r[i]| - 1]) && '\n' !in r[i]
      {
        if i < |prior| {
          assert r[i] == prior[i];
        } else {
          assert r[i] == first;
        }
      }
    }
  }

  /** The written text holds one kept line per line, then an empty last
      piece after the final newline. */
  lemma RecentLogsTextReadsBack(lines: seq<string>)
    requires KeptLines(lines)
    ensures Split(RecentLogsText(lines), '\n') == (if lines == [] then [""] else lines) + [""]
  {
    if lines == [] {
      assert RecentLogsText(lines) == [] + ['\n'] + [];
      SplitAfterPiece([], '\n', []);
    } else {
      assert RecentLogsText(lines) == Join(lines, "\n") + ['\n'] + [];
      SplitJoinThen(lines, '\n', []);
    }
  }
}
