/** `create_markdown_index` of finalmain.py: an index from the relative path
    of each Markdown file under a directory, in an allowed first-level
    sub-directory, to the text of its first H1 heading. The recursive
    directory walk is an oracle giving the files' paths relative to the
    directory, in the order `rglob("*.md")` yields them; `json.dump` is an
    oracle too. */
module MarkdownIndex {
  import opened PyValues
  import opened PyStrings
  import opened FileSystem
  import opened HandlerOutcome

  /** Where a path given to the handler is looked for: a path under "/data"
      is moved under "documents/llm/data", any other path is taken relative
      to the working directory. The test is on characters, not on path
      segments. */
  function Remap(p: string): string {
    if StartsWith(p, "/data") then "documents/llm/data" + p[5..] else "." + p
  }

  /** The first-level directories whose files are indexed. */
  predicate AllowedDir(d: string) {
    d in {"by", "daughter", "drop", "civil", "standard", "few", "community", "Congress", "ten", "live"}
  }

  /** `s.replace(a, b)` for single characters. */
  function Replace(s: string, a: char, b: char): (r: string)
    ensures |r| == |s|
    ensures forall i :: 0 <= i < |s| ==> r[i] == (if s[i] == a then b else s[i])
  {
    if s == [] then [] else [if s[0] == a then b else s[0]] + Replace(s[1..], a, b)
  }

  /** The key of a file in the index: its relative path with backslashes
      turned into slashes. */
  function IndexKey(rel: string): string {
    Replace(rel, '\\', '/')
  }

  /** `line.strip().startswith("# ")`. */
  predicate IsH1(line: string) {
    StartsWith(Strip(line), "# ")
  }

  /** `line.strip()[2:].strip()`. */
  function Title(line: string): (t: string)
    requires IsH1(line)
    ensures t != [] ==> !IsSpace(t[0]) && !IsSpace(t[|t| - 1])
  {
    Strip(Strip(line)[2..])
  }

  /** The position of the first line at or after `from` that passes
      `test`, or the number of lines when none does. */
  function FirstWhere(lines: seq<string>, test: string -> bool, from: nat): (k: nat)
    requires from <= |lines|
    ensures from <= k <= |lines|
    ensures forall j :: from <= j < k ==> !test(lines[j])
    ensures k < |lines| ==> test(lines[k])
    decreases |lines| - from
  {
    if from == |lines| || test(lines[from]) then from
    else FirstWhere(lines, test, from + 1)
  }

  /** The title of the first H1 line, or None when no line is one. */
  function FirstH1(lines: seq<string>): (r: Option<string>)
    ensures r.None? <==> forall i :: 0 <= i < |lines| ==> !IsH1(lines[i])
  {
    var k := FirstWhere(lines, IsH1, 0);
    if k < |lines| then Some(Title(lines[k])) else None
  }

  /** `index_data[key] = value`: the value of a key already present is
      replaced where it stands, a new key goes last. */
  function Put(d: seq<(string, Json)>, k: string, v: Json): (r: seq<(string, Json)>)
    ensures HasKey(d, k) ==> Keys(r) == Keys(d)
    ensures !HasKey(d, k) ==> Keys(r) == Keys(d) + [k]
  {
    if d == [] then [(k, v)]
    else if d[0].0 == k then [(k, v)] + d[1..]
    else
      assert HasKey(d, k) <==> HasKey(d[1..], k) by {
        if HasKey(d, k) {
          var i :| 0 <= i < |d| && d[i].0 == k;
          assert d[1..][i - 1] == d[i];
        }
        if HasKey(d[1..], k) {
          var i :| 0 <= i < |d| - 1 && d[1..][i].0 == k;
          assert d[i + 1] == d[1..][i];
        }
      }
      [d[0]] + Put(d[1..], k, v)
  }

  /** What the loop does with one file. Files outside the allowed
      directories are not opened; an unreadable file ends the walk. */
  function Step(fs: Fs, docsDir: string, d: seq<(string, Json)>, rel: string): Result<seq<(string, Json)>> {
    var key := IndexKey(rel);
    if !AllowedDir(Split(key, '/')[0]) then Ok(d)
    else
      match ReadText(fs, docsDir + "/" + rel)
      case Err(e) => Err(e)
      case Ok(text) =>
        match FirstH1(Lines(text))
        case None => Ok(d)
        case Some(t) => Ok(Put(d, key, JStr(t)))
  }

  /** The index after the walk over `rels`, or the error that ended it. */
  function Index(fs: Fs, docsDir: string, rels: seq<string>): Result<seq<(string, Json)>> {
    if rels == [] then Ok([])
    else
      match Index(fs, docsDir, rels[..|rels| - 1])
      case Err(e) => Err(e)
      case Ok(d) => Step(fs, docsDir, d, rels[|rels| - 1])
  }

  function IndexMessage(outputFile: string): string {
    "A6 Completed: Index file created at " + outputFile
  }

  /** `create_markdown_index`. */
  method CreateMarkdownIndexHandler(fs: Fs, inputDir: string, outputFile: string,
                                    rglob: string -> seq<string>, dump: Json -> string) returns (r: Outcome)
    ensures !Exists(fs, Remap(inputDir)) ==>
              r == Outcome(fs, Err(ValueError("Invalid directory path: " + Remap(inputDir))))
    ensures Exists(fs, Remap(inputDir)) && Index(fs, Remap(inputDir), rglob(Remap(inputDir))).Err? ==>
              r == Outcome(fs, Err(Index(fs, Remap(inputDir), rglob(Remap(inputDir))).error))
    ensures Exists(fs, Remap(inputDir)) && Index(fs, Remap(inputDir), rglob(Remap(inputDir))).Ok? ==>
              r == Written(fs, Remap(outputFile), dump(JObj(Index(fs, Remap(inputDir), rglob(Remap(inputDir))).value)),
                           IndexMessage(outputFile))
  {
    var docsDir := Remap(inputDir);
    var outputPath := Remap(outputFile);
    if !Exists(fs, docsDir) {
      return Outcome(fs, Err(ValueError("Invalid directory path: " + docsDir)));
    }
    var built := BuildIndex(fs, docsDir, rglob(docsDir));
    if built.Err? {
      return Outcome(fs, Err(built.error));
    }
    return Written(fs, outputPath, dump(JObj(built.value)), IndexMessage(outputFile));
  }

  /** The walk over the Markdown files. */
  method BuildIndex(fs: Fs, docsDir: string, mdFiles: seq<string>) returns (r: Result<seq<(string, Json)>>)
    ensures r == Index(fs, docsDir, mdFiles)
  {
    var indexData: seq<(string, Json)> := [];
    var i := 0;
    while i < |mdFiles|
      invariant 0 <= i <= |mdFiles|
      invariant Index(fs, docsDir, mdFiles[..i]) == Ok(indexData)
    {
      IndexStep(fs, docsDir, mdFiles, i);
      var relativeFilename := IndexKey(mdFiles[i]);
      var parts := Split(relativeFilename, '/');
      if AllowedDir(parts[0]) {
        var read := ReadText(fs, docsDir + "/" + mdFiles[i]);
        if read.Err? {
          IndexStopsAt(fs, docsDir, mdFiles, i + 1);
          return Err(read.error);
        }
        var title := FindTitle(Lines(read.value));
        if title.Some? {
          indexData := Put(indexData, relativeFilename, JStr(title.value));
        }
      }
      i := i + 1;
    }
    assert mdFiles[..i] == mdFiles;
    return Ok(indexData);
  }

  /** The inner loop: the lines are read until the first H1 line. */
  method FindTitle(lines: seq<string>) returns (r: Option<string>)
    ensures r == FirstH1(lines)
  {
    var i := 0;
    while i < |lines|
      invariant 0 <= i <= |lines|
      invariant FirstWhere(lines, IsH1, i) == FirstWhere(lines, IsH1, 0)
    {
      if IsH1(lines[i]) {
        return Some(Title(lines[i]));
      }
      i := i + 1;
    }
    return None;
  }

  lemma IndexStep(fs: Fs, docsDir: string, rels: seq<string>, i: nat)
    requires i < |rels| && Index(fs, docsDir, rels[..i]).Ok?
    ensures Index(fs, docsDir, rels[..i + 1]) == Step(fs, docsDir, Index(fs, docsDir, rels[..i]).value, rels[i])
  {
    assert rels[..i + 1][..i] == rels[..i];
  }

  /** An unreadable file ends the walk: the files after it change nothing. */
  lemma {:induction false} IndexStopsAt(fs: Fs, docsDir: string, rels: seq<string>, i: nat)
    requires i <= |rels| && Index(fs, docsDir, rels[..i]).Err?
    ensures Index(fs, docsDir, rels) == Index(fs, docsDir, rels[..i])
    decreases |rels| - i
  {
    if i < |rels| {
      assert rels[..i + 1][..i] == rels[..i];
      IndexStopsAt(fs, docsDir, rels, i + 1);
    } else {
      assert rels[..i] == rels;
    }
  }

  /** Distinct handler paths are looked for at distinct places. */
  lemma RemapInjective(a: string, b: string)
    requires Remap(a) == Remap(b)
    ensures a == b
  {
    var da := StartsWith(a, "/data");
    var db := StartsWith(b, "/data");
    assert da <==> Remap(a)[0] == 'd';
    assert db <==> Remap(b)[0] == 'd';
    if da {
      assert a[5..] == Remap(a)[18..] == Remap(b)[18..] == b[5..];
      assert a == a[..5] + a[5..] && b == b[..5] + b[5..];
    } else {
      assert a == Remap(a)[1..] && b == Remap(b)[1..];
    }
  }

  /** The "/data" test is a prefix test on characters: a sibling directory
      whose name begins with "data" is remapped too. */
  lemma RemapIsTextual(suffix: string, p: string)
    ensures Remap("/data" + suffix) == "documents/llm/data" + suffix
    ensures !StartsWith(p, "/data") ==> Remap(p) == "." + p
    ensures Remap("/database/x") == "documents/llm/database/x"
    ensures Remap("/data/docs") == "documents/llm/data/docs"
    ensures Remap("/docs") == "./docs"
  {
    assert ("/data" + suffix)[..5] == "/data" && ("/data" + suffix)[5..] == suffix;
    assert StartsWith("/database/x", "/data");
    assert "/database/x"[5..] == "base/x";
    assert StartsWith("/data/docs", "/data");
    assert "/data/docs"[5..] == "/docs";
    assert !StartsWith("/docs", "/data") by {
      assert "/docs"[2] != "/data"[2];
    }
  }

  /** The search stops at the first line that passes the test. */
  lemma {:induction false} FirstWhereAt(lines: seq<string>, test: string -> bool, from: nat, i: nat)
    requires from <= i < |lines| && test(lines[i])
    requires forall j :: from <= j < i ==> !test(lines[j])
    ensures FirstWhere(lines, test, from) == i
    decreases i - from
  {
    if from < i {
      FirstWhereAt(lines, test, from + 1, i);
    }
  }

  /** The title found is the title of the first H1 line. */
  lemma FirstH1At(lines: seq<string>, i: nat)
    requires i < |lines| && IsH1(lines[i])
    requires forall j :: 0 <= j < i ==> !IsH1(lines[j])
    ensures FirstH1(lines) == Some(Title(lines[i]))
  {
    FirstWhereAt(lines, IsH1, 0, i);
  }

  /** No two members share a key; every key lies in an allowed directory
      and has no backslash; every value is a title without surrounding
      whitespace. */
  predicate WellFormedIndex(d: seq<(string, Json)>) {
    && DistinctKeys(d)
    && (forall i :: 0 <= i < |d| ==> AllowedDir(Split(d[i].0, '/')[0]) && '\\' !in d[i].0)
    && (forall i :: 0 <= i < |d| ==> d[i].1.JStr? && StrippedText(d[i].1.s))
  }

  predicate StrippedText(t: string) {
    t != [] ==> !IsSpace(t[0]) && !IsSpace(t[|t| - 1])
  }

  lemma BackslashReplaced(rel: string)
    ensures '\\' !in IndexKey(rel)
  {
  }

  /** After the assignment the dict holds the new member, and every other
      member it holds was there before. */
  lemma {:induction false} PutMembers(d: seq<(string, Json)>, k: string, v: Json)
    ensures (k, v) in Put(d, k, v)
    ensures forall m :: m in Put(d, k, v) ==> m == (k, v) || m in d
    decreases |d|
  {
    if d != [] && d[0].0 != k {
      PutMembers(d[1..], k, v);
      assert forall m :: m in d[1..] ==> m in d;
    }
  }

  predicate DistinctKeys(d: seq<(string, Json)>) {
    forall i, j :: 0 <= i < j < |d| ==> d[i].0 != d[j].0
  }

  /** Assignment to a key keeps the keys of a dict distinct. */
  lemma PutKeepsDistinct(d: seq<(string, Json)>, k: string, v: Json)
    requires DistinctKeys(d)
    ensures DistinctKeys(Put(d, k, v))
  {
    var r := Put(d, k, v);
    forall i, j | 0 <= i < j < |r| ensures r[i].0 != r[j].0 {
      assert r[i].0 == Keys(r)[i] && r[j].0 == Keys(r)[j];
      if j < |d| {
        assert Keys(d)[i] == d[i].0 && Keys(d)[j] == d[j].0;
      } else {
        assert Keys(d)[i] == d[i].0;
      }
    }
  }

  /** Putting a well-formed member keeps the index well formed. */
  lemma PutKeepsWellFormed(d: seq<(string, Json)>, k: string, t: string)
    requires WellFormedIndex(d)
    requires AllowedDir(Split(k, '/')[0]) && '\\' !in k && StrippedText(t)
    ensures WellFormedIndex(Put(d, k, JStr(t)))
  {
    var r := Put(d, k, JStr(t));
    PutKeepsDistinct(d, k, JStr(t));
    PutMembers(d, k, JStr(t));
    forall i | 0 <= i < |r|
      ensures AllowedDir(Split(r[i].0, '/')[0]) && '\\' !in r[i].0
      ensures r[i].1.JStr? && StrippedText(r[i].1.s)
    {
      assert r[i] in r;
      if r[i] != (k, JStr(t)) {
        var m :| 0 <= m < |d| && d[m] == r[i];
      }
    }
  }

  /** Every index the walk produces is well formed. */
  lemma {:induction false} IndexIsWellFormed(fs: Fs, docsDir: string, rels: seq<string>)
    requires Index(fs, docsDir, rels).Ok?
    ensures WellFormedIndex(Index(fs, docsDir, rels).value)
    decreases |rels|
  {
    if rels != [] {
      var init := rels[..|rels| - 1];
      var rel := rels[|rels| - 1];
      IndexIsWellFormed(fs, docsDir, init);
      var d := Index(fs, docsDir, init).value;
      var key := IndexKey(rel);
      if AllowedDir(Split(key, '/')[0]) {
        var text := ReadText(fs, docsDir + "/" + rel).value;
        var found := FirstH1(Lines(text));
        if found.Some? {
          FirstH1At(Lines(text), FirstWhere(Lines(text), IsH1, 0));
          BackslashReplaced(rel);
          PutKeepsWellFormed(d, key, found.value);
        }
      }
    }
  }

  /** A file outside the allowed directories is never opened and adds
      nothing, whatever it holds. */
  lemma SkippedDirectoryAddsNothing(fs: Fs, docsDir: string, rels: seq<string>, rel: string)
    requires !AllowedDir(Split(IndexKey(rel), '/')[0])
    ensures Index(fs, docsDir, rels + [rel]) == Index(fs, docsDir, rels)
  {
    assert (rels + [rel])[..|rels|] == rels;
  }

  /** The member one file contributes to the index: its key and the title of
      its first H1 line, when the file lies in an allowed directory, can be
      read and has an H1 line. */
  function Entry(fs: Fs, docsDir: string, rel: string): Option<(string, Json)> {
    var key := IndexKey(rel);
    if !AllowedDir(Split(key, '/')[0]) then None
    else
      match ReadText(fs, docsDir + "/" + rel)
      case Err(_) => None
      case Ok(text) =>
        match FirstH1(Lines(text))
        case None => None
        case Some(t) => Some((key, JStr(t)))
  }

  /** What `entry` gives for each of `rels`, in order. */
  function MapEntries(rels: seq<string>, entry: string -> Option<(string, Json)>): (es: seq<Option<(string, Json)>>)
    ensures |es| == |rels|
    ensures forall i :: 0 <= i < |rels| ==> es[i] == entry(rels[i])
  {
    if rels == [] then []
    else
      var init := rels[..|rels| - 1];
      assert forall i :: 0 <= i < |init| ==> init[i] == rels[i];
      MapEntries(init, entry) + [entry(rels[|rels| - 1])]
  }

  /** The contributions of the files, in walk order. */
  function Entries(fs: Fs, docsDir: string, rels: seq<string>): seq<Option<(string, Json)>> {
    MapEntries(rels, rel => Entry(fs, docsDir, rel))
  }

  predicate HasKeyOf(e: Option<(string, Json)>, k: string) {
    e.Some? && e.value.0 == k
  }

  /** The value the last contribution with key `k` gives it, if any does:
      a reference definition of the index, read backwards. */
  function LastEntry(es: seq<Option<(string, Json)>>, k: string): Option<Json> {
    if es == [] then None
    else if HasKeyOf(es[|es| - 1], k) then Some(es[|es| - 1].value.1)
    else LastEntry(es[..|es| - 1], k)
  }

  /** A file contributes a member exactly when it is in an allowed
      directory, can be read and has an H1 line; the member is its key and
      the title of that line. */
  lemma EntryMeaning(fs: Fs, docsDir: string, rel: string, k: string, t: string)
    ensures Entry(fs, docsDir, rel) == Some((k, JStr(t))) <==>
              && IndexKey(rel) == k
              && AllowedDir(Split(k, '/')[0])
              && ReadText(fs, docsDir + "/" + rel).Ok?
              && FirstH1(Lines(ReadText(fs, docsDir + "/" + rel).value)) == Some(t)
  {
  }

  /** After the assignment the key holds the new value and every other key
      keeps its own. */
  lemma {:induction false} PutLookup(d: seq<(string, Json)>, k: string, v: Json, q: string)
    ensures Lookup(Put(d, k, v), q) == if q == k then Some(v) else Lookup(d, q)
    decreases |d|
  {
    if d != [] && d[0].0 != k {
      PutLookup(d[1..], k, v, q);
      assert ([d[0]] + Put(d[1..], k, v))[1..] == Put(d[1..], k, v);
    }
  }

  /** The last step of the walk puts the last file's contribution, if any. */
  lemma IndexLast(fs: Fs, docsDir: string, rels: seq<string>)
    requires rels != [] && Index(fs, docsDir, rels).Ok?
    ensures Index(fs, docsDir, rels[..|rels| - 1]).Ok?
    ensures var d := Index(fs, docsDir, rels[..|rels| - 1]).value;
            var e := Entry(fs, docsDir, rels[|rels| - 1]);
            Index(fs, docsDir, rels).value == if e.Some? then Put(d, e.value.0, e.value.1) else d
  {
  }

  /** Looking a key up in the index gives what the last file contributing
      that key gave it. */
  lemma {:induction false} IndexLookup(fs: Fs, docsDir: string, rels: seq<string>, q: string)
    requires Index(fs, docsDir, rels).Ok?
    ensures Lookup(Index(fs, docsDir, rels).value, q) == LastEntry(Entries(fs, docsDir, rels), q)
    decreases |rels|
  {
    if rels != [] {
      var init := rels[..|rels| - 1];
      IndexLast(fs, docsDir, rels);
      IndexLookup(fs, docsDir, init, q);
      var es := Entries(fs, docsDir, rels);
      assert es[..|es| - 1] == Entries(fs, docsDir, init);
      var e := Entry(fs, docsDir, rels[|rels| - 1]);
      if e.Some? {
        PutLookup(Index(fs, docsDir, init).value, e.value.0, e.value.1, q);
      }
    }
  }

  /** `LastEntry` is None exactly when no contribution has the key, and
      otherwise the value of the last one that has it. */
  lemma {:induction false} LastEntryFrom(es: seq<Option<(string, Json)>>, k: string)
    ensures LastEntry(es, k).None? <==> forall i :: 0 <= i < |es| ==> !HasKeyOf(es[i], k)
    ensures LastEntry(es, k).Some? ==>
              exists i :: 0 <= i < |es| && es[i] == Some((k, LastEntry(es, k).value))
                && forall j :: i < j < |es| ==> !HasKeyOf(es[j], k)
    decreases |es|
  {
    if es != [] {
      var n := |es| - 1;
      var init := es[..n];
      LastEntryFrom(init, k);
      if !HasKeyOf(es[n], k) {
        if LastEntry(init, k).Some? {
          var i :| 0 <= i < n && init[i] == Some((k, LastEntry(init, k).value))
                   && forall j :: i < j < n ==> !HasKeyOf(init[j], k);
          assert es[i] == init[i];
          forall j | i < j < |es| ensures !HasKeyOf(es[j], k) {
            if j < n { assert es[j] == init[j]; }
          }
        } else {
          forall i | 0 <= i < |es| ensures !HasKeyOf(es[i], k) {
            if i < n { assert es[i] == init[i]; }
          }
        }
      }
    }
  }

  /** With distinct keys, a member's key looks up the member's value. */
  lemma LookupDistinct(d: seq<(string, Json)>, p: nat)
    requires DistinctKeys(d) && p < |d|
    ensures Lookup(d, d[p].0) == Some(d[p].1)
  {
    var r := Lookup(d, d[p].0);
    assert HasKey(d, d[p].0);
    var i :| 0 <= i < |d| && d[i] == (d[p].0, r.value);
  }

  /** What the index holds: each member is the contribution of a file, and
      of the last file contributing that key; and every file that
      contributes a member has its key in the index. */
  lemma IndexMeaning(fs: Fs, docsDir: string, rels: seq<string>)
    requires Index(fs, docsDir, rels).Ok?
    ensures forall m :: m in Index(fs, docsDir, rels).value ==>
              exists i :: 0 <= i < |rels| && Entry(fs, docsDir, rels[i]) == Some(m)
                && forall j :: i < j < |rels| ==> !HasKeyOf(Entry(fs, docsDir, rels[j]), m.0)
    ensures forall i :: 0 <= i < |rels| && Entry(fs, docsDir, rels[i]).Some? ==>
              Entry(fs, docsDir, rels[i]).value.0 in Keys(Index(fs, docsDir, rels).value)
  {
    var d := Index(fs, docsDir, rels).value;
    var es := Entries(fs, docsDir, rels);
    IndexIsWellFormed(fs, docsDir, rels);
    forall m | m in d
      ensures exists i :: 0 <= i < |rels| && Entry(fs, docsDir, rels[i]) == Some(m)
                && forall j :: i < j < |rels| ==> !HasKeyOf(Entry(fs, docsDir, rels[j]), m.0)
    {
      var p :| 0 <= p < |d| && d[p] == m;
      LookupDistinct(d, p);
      IndexLookup(fs, docsDir, rels, m.0);
      LastEntryFrom(es, m.0);
      var i :| 0 <= i < |es| && es[i] == Some((m.0, m.1)) && forall j :: i < j < |es| ==> !HasKeyOf(es[j], m.0);
      assert Entry(fs, docsDir, rels[i]) == Some(m);
    }
    forall i | 0 <= i < |rels| && Entry(fs, docsDir, rels[i]).Some?
      ensures Entry(fs, docsDir, rels[i]).value.0 in Keys(d)
    {
      var k := Entry(fs, docsDir, rels[i]).value.0;
      assert HasKeyOf(es[i], k);
      LastEntryFrom(es, k);
      IndexLookup(fs, docsDir, rels, k);
      var p :| 0 <= p < |d| && d[p].0 == k;
      assert Keys(d)[p] == k;
    }
  }
}
