/** `count_days` of finalmain.py: the weekday name is checked first, then
    every non-blank line of the input file is tried against a fixed list of
    date formats, the first format that parses deciding the weekday, and the
    lines whose weekday is the requested one are counted. Date parsing is an
    oracle from a stripped line and a format to the weekday of the date, or
    None when `strptime` raises. */
module DayCounter {
  import opened PyValues
  import opened PyStrings
  import opened FileSystem
  import opened HandlerOutcome

  /** The names `weekday_map` accepts, each with its weekday number. */
  function WeekdayName(d: Weekday): string {
    match d
    case 0 => "Monday"
    case 1 => "Tuesday"
    case 2 => "Wednesday"
    case 3 => "Thursday"
    case 4 => "Friday"
    case 5 => "Saturday"
    case 6 => "Sunday"
  }

  /** `weekday_map.get(name)`: the lookup inverts `WeekdayName`. */
  function WeekdayNumber(name: string): (r: Option<Weekday>)
    ensures r.Some? ==> WeekdayName(r.value) == name
    ensures r.None? ==> forall d: Weekday :: WeekdayName(d) != name
  {
    if name == "Monday" then Some(0)
    else if name == "Tuesday" then Some(1)
    else if name == "Wednesday" then Some(2)
    else if name == "Thursday" then Some(3)
    else if name == "Friday" then Some(4)
    else if name == "Saturday" then Some(5)
    else if name == "Sunday" then Some(6)
    else None
  }

  /** The `strptime` patterns of `count_days`. */
  datatype DateFormat =
    | MonDayYear       // "%b %d, %Y"
    | DayMonYear       // "%d-%b-%Y"
    | IsoDate          // "%Y-%m-%d"
    | DayMonthYear     // "%d/%m/%Y"
    | MonthDayYear     // "%m/%d/%Y"
    | SlashDateTime    // "%Y/%m/%d %H:%M:%S"
    | SlashDate        // "%Y/%m/%d"

  /** `date_formats`, in the order they are tried; the last two repeat the
      first and the sixth. */
  function DateFormats(): seq<DateFormat> {
    [MonDayYear, DayMonYear, IsoDate, DayMonthYear, MonthDayYear, SlashDateTime, SlashDate,
     MonDayYear, SlashDateTime]
  }

  /** `datetime.strptime(line, f).weekday()`, or None where it raises ValueError. */
  type Strptime = (string, DateFormat) -> Option<Weekday>

  /** The position of the first format that parses the line, or |fmts|. */
  function FirstFormat(line: string, fmts: seq<DateFormat>, strptime: Strptime): (k: nat)
    ensures k <= |fmts|
    ensures forall j :: 0 <= j < k ==> strptime(line, fmts[j]).None?
    ensures k < |fmts| ==> strptime(line, fmts[k]).Some?
  {
    if fmts == [] || strptime(line, fmts[0]).Some? then 0
    else
      var k := FirstFormat(line, fmts[1..], strptime);
      assert forall j :: 1 <= j < |fmts| ==> fmts[j] == fmts[1..][j - 1];
      1 + k
  }

  /** The weekday from the first format that parses the line, if any. */
  function FirstParse(line: string, fmts: seq<DateFormat>, strptime: Strptime): (r: Option<Weekday>)
    ensures r.None? <==> forall k :: 0 <= k < |fmts| ==> strptime(line, fmts[k]).None?
  {
    var k := FirstFormat(line, fmts, strptime);
    if k < |fmts| then strptime(line, fmts[k]) else None
  }

  /** What one line adds to the count. */
  function DayScore(line: string, target: Weekday, strptime: Strptime): nat {
    var d := Strip(line);
    if d == "" then 0
    else match FirstParse(d, DateFormats(), strptime)
      case Some(w) => if w == target then 1 else 0
      case None => 0
  }

  /** The count over the lines, in order. */
  function DayCount(lines: seq<string>, target: Weekday, strptime: Strptime): nat {
    if lines == [] then 0
    else DayCount(lines[..|lines| - 1], target, strptime) + DayScore(lines[|lines| - 1], target, strptime)
  }

  /** The weekday table is a bijection between the seven names and 0..6. */
  lemma {:induction false} WeekdayNamesRoundTrip(d: Weekday)
    ensures WeekdayNumber(WeekdayName(d)) == Some(d)
  {
    match d
    case 0 =>
    case 1 =>
    case 2 =>
    case 3 =>
    case 4 =>
    case 5 =>
    case 6 =>
  }

  /** A format that only repeats earlier ones never changes which date a
      line parses to. */
  lemma FirstParseIgnoresRepeats(line: string, a: seq<DateFormat>, b: seq<DateFormat>, strptime: Strptime)
    requires forall j :: 0 <= j < |b| ==> b[j] in a
    ensures FirstParse(line, a + b, strptime) == FirstParse(line, a, strptime)
  {
    var k := FirstFormat(line, a, strptime);
    var ab := a + b;
    if k < |a| {
      assert forall j :: 0 <= j < k ==> ab[j] == a[j];
      assert ab[k] == a[k];
      SameFirstFormat(line, ab, strptime, k);
    } else {
      assert forall j :: 0 <= j < |ab| ==> strptime(line, ab[j]).None? by {
        forall j | 0 <= j < |ab| ensures strptime(line, ab[j]).None? {
          if j >= |a| {
            assert ab[j] == b[j - |a|];
            var m :| 0 <= m < |a| && a[m] == b[j - |a|];
          }
        }
      }
    }
  }

  /** The first parsing position is the only position before which nothing
      parses and at which something does. */
  lemma SameFirstFormat(line: string, fmts: seq<DateFormat>, strptime: Strptime, k: nat)
    requires k < |fmts| && strptime(line, fmts[k]).Some?
    requires forall j :: 0 <= j < k ==> strptime(line, fmts[j]).None?
    ensures FirstFormat(line, fmts, strptime) == k
  {
  }

  /** The last two entries of `date_formats` are dead: the count is the one
      the first seven formats give. */
  lemma RepeatedFormatsAreDead(line: string, strptime: Strptime)
    ensures FirstParse(line, DateFormats(), strptime) == FirstParse(line, DateFormats()[..7], strptime)
  {
    var a := DateFormats()[..7];
    var b := DateFormats()[7..];
    assert DateFormats() == a + b;
    assert b[0] == a[0] && b[1] == a[5];
    FirstParseIgnoresRepeats(line, a, b, strptime);
  }

  /** A line is counted at most once, and only when it is not blank. */
  lemma {:induction false} DayCountBounded(lines: seq<string>, target: Weekday, strptime: Strptime)
    ensures DayCount(lines, target, strptime) <= NonBlankCount(lines)
    decreases |lines|
  {
    if lines != [] {
      DayCountBounded(lines[..|lines| - 1], target, strptime);
    }
  }

  function CountDaysMessage(count: nat, weekdayName: string, output: string): string {
    "A3 Completed: " + NatToString(count) + " occurrences of " + weekdayName + " written to " + output
  }

  /** The loops of `count_days`: for each stripped, non-blank line the
      formats are tried in order and the first that parses decides. */
  method CountMatches(lines: seq<string>, target: Weekday, strptime: Strptime) returns (count: nat)
    ensures count == DayCount(lines, target, strptime)
  {
    count := 0;
    var i := 0;
    while i < |lines|
      invariant 0 <= i <= |lines|
      invariant count == DayCount(lines[..i], target, strptime)
    {
      var line := Strip(lines[i]);
      DayCountStep(lines, i, target, strptime);
      ScoreOfLine(lines[i], target, strptime);
      if line != "" {
        var date := TryFormats(line, DateFormats(), strptime);
        if date == Some(target) {
          count := count + 1;
        }
      }
      i := i + 1;
    }
    assert lines[..i] == lines;
  }

  /** The inner loop: the formats in order until one parses the line. */
  method TryFormats(line: string, fmts: seq<DateFormat>, strptime: Strptime) returns (date: Option<Weekday>)
    ensures date == FirstParse(line, fmts, strptime)
  {
    var j := 0;
    while j < |fmts|
      invariant 0 <= j <= |fmts|
      invariant forall k :: 0 <= k < j ==> strptime(line, fmts[k]).None?
    {
      var parsed := strptime(line, fmts[j]);
      if parsed.Some? {
        SameFirstFormat(line, fmts, strptime, j);
        return parsed;
      }
      j := j + 1;
    }
    return None;
  }

  lemma ScoreOfLine(line: string, target: Weekday, strptime: Strptime)
    ensures DayScore(line, target, strptime) ==
              if Strip(line) != "" && FirstParse(Strip(line), DateFormats(), strptime) == Some(target) then 1 else 0
  {
  }

  lemma DayCountStep(lines: seq<string>, i: nat, target: Weekday, strptime: Strptime)
    requires i < |lines|
    ensures DayCount(lines[..i + 1], target, strptime) == DayCount(lines[..i], target, strptime) + DayScore(lines[i], target, strptime)
  {
    assert lines[..i + 1][..i] == lines[..i];
  }

  /** `count_days`: the weekday name is checked first, then the input file;
      every line is scored by the first format that parses it, and the count
      is written to the output file as a JSON number. */
  method CountDaysHandler(fs: Fs, inputFile: string, outputFile: string, weekdayName: string, strptime: Strptime)
    returns (r: Outcome)
    ensures WeekdayNumber(weekdayName).None? ==> r == Outcome(fs, Err(ValueError("Invalid weekday name: " + weekdayName)))
    ensures WeekdayNumber(weekdayName).Some? && "." + inputFile !in fs ==>
              r == Outcome(fs, Err(ValueError("File " + ("." + inputFile) + " does not exist.")))
    ensures WeekdayNumber(weekdayName).Some? && IsDir(fs, "." + inputFile) ==>
              r.fs == fs && r.result.Err? && r.result.error.IsADirectoryError?
    ensures WeekdayNumber(weekdayName).Some? && "." + inputFile in fs && fs["." + inputFile].File? ==>
              var count := DayCount(Lines(fs["." + inputFile].text), WeekdayNumber(weekdayName).value, strptime);
              r == Written(fs, "." + outputFile, NatToString(count), CountDaysMessage(count, weekdayName, "." + outputFile))
  {
    var input := "." + inputFile;
    var output := "." + outputFile;
    var target := WeekdayNumber(weekdayName);
    if target.None? {
      return Outcome(fs, Err(ValueError("Invalid weekday name: " + weekdayName)));
    }
    if !Exists(fs, input) {
      return Outcome(fs, Err(ValueError("File " + input + " does not exist.")));
    }
    var read := ReadText(fs, input);
    if read.Err? {
      return Outcome(fs, Err(read.error));
    }
    var count := CountMatches(Lines(read.value), target.value, strptime);
    return Written(fs, output, NatToString(count), CountDaysMessage(count, weekdayName, output));
  }
}
