/** `sort_contacts` of finalmain.py: the contacts loaded from a JSON file
    are sorted by last name, then first name, a missing name counting as the
    empty string, and dumped under "./data/". `json.load` and `json.dump`
    are oracles. */
module ContactSorter {
  import opened PyValues
  import opened PyStrings
  import opened FileSystem
  import opened Sorting
  import opened TaskAgent
  import opened HandlerOutcome

  /** `a <= b` on Python strings: code-point order, a prefix first. */
  predicate StrLeq(a: string, b: string) {
    a == [] || (b != [] && (a[0] < b[0] || (a[0] == b[0] && StrLeq(a[1..], b[1..]))))
  }

  lemma {:induction false} StrLeqTotal(a: string, b: string)
    ensures StrLeq(a, b) || StrLeq(b, a)
    decreases |a|
  {
    if a != [] && b != [] && a[0] == b[0] {
      StrLeqTotal(a[1..], b[1..]);
    }
  }

  lemma {:induction false} StrLeqTrans(a: string, b: string, c: string)
    requires StrLeq(a, b) && StrLeq(b, c)
    ensures StrLeq(a, c)
    decreases |a|
  {
    if a != [] && b != [] && c != [] && a[0] == b[0] && b[0] == c[0] {
      StrLeqTrans(a[1..], b[1..], c[1..]);
    }
  }

  lemma {:induction false} StrLeqRefl(a: string)
    ensures StrLeq(a, a)
    decreases |a|
  {
    if a != [] {
      StrLeqRefl(a[1..]);
    }
  }

  lemma {:induction false} StrLeqAntisym(a: string, b: string)
    requires StrLeq(a, b) && StrLeq(b, a)
    ensures a == b
    decreases |a|
  {
    if a != [] {
      StrLeqAntisym(a[1..], b[1..]);
      assert a == [a[0]] + a[1..] && b == [b[0]] + b[1..];
    }
  }

  /** `c.get(k, "")` for a contact whose fields are strings. */
  function Name(c: Json, k: string): string {
    if c.JObj? then
      match GetOr(c.fields, k, JStr(""))
      case JStr(s) => s
      case _ => ""
    else ""
  }

  /** The sort key `(c.get("last_name", ""), c.get("first_name", ""))`. */
  function ContactKey(c: Json): (string, string) {
    (Name(c, "last_name"), Name(c, "first_name"))
  }

  /** Tuple order on the keys: last names first, first names on a tie. */
  predicate ContactLeq(x: Json, y: Json) {
    var (l1, f1) := ContactKey(x);
    var (l2, f2) := ContactKey(y);
    (StrLeq(l1, l2) && l1 != l2) || (l1 == l2 && StrLeq(f1, f2))
  }

  lemma ContactLeqIsTotalPreorder()
    ensures TotalPreorder(ContactLeq)
  {
    forall a, b ensures ContactLeq(a, b) || ContactLeq(b, a) {
      StrLeqTotal(ContactKey(a).0, ContactKey(b).0);
      StrLeqTotal(ContactKey(a).1, ContactKey(b).1);
    }
    forall a, b, c | ContactLeq(a, b) && ContactLeq(b, c) ensures ContactLeq(a, c) {
      ContactLeqTrans(a, b, c);
    }
  }

  lemma ContactLeqTrans(a: Json, b: Json, c: Json)
    requires ContactLeq(a, b) && ContactLeq(b, c)
    ensures ContactLeq(a, c)
  {
    var (la, fa) := ContactKey(a);
    var (lb, fb) := ContactKey(b);
    var (lc, fc) := ContactKey(c);
    if la == lb && lb == lc {
      StrLeqTrans(fa, fb, fc);
    } else {
      StrLeqRefl(lb);
      StrLeqTrans(la, lb, lc);
      if la == lc {
        StrLeqAntisym(la, lb);
      }
    }
  }

  /** What `for c in v` yields for a decoded JSON document. */
  function Elements(v: Json): (r: Result<seq<Json>>)
    ensures v.JArr? ==> r == Ok(v.items)
  {
    match v
    case JArr(items) => Ok(items)
    case JObj(fields) => Ok(seq(|fields|, i requires 0 <= i < |fields| => JStr(fields[i].0)))
    case JStr(s) => Ok(seq(|s|, i requires 0 <= i < |s| => JStr([s[i]])))
    case _ => Err(TypeError("'" + TypeName(v) + "' object is not iterable"))
  }

  /** The first element that has no `get`, if any. */
  function FirstNonDict(xs: seq<Json>): (r: Option<Json>)
    ensures r.None? <==> forall i :: 0 <= i < |xs| ==> xs[i].JObj?
    ensures r.Some? ==> r.value in xs && !r.value.JObj?
  {
    if xs == [] then None
    else if !xs[0].JObj? then Some(xs[0])
    else
      var r := FirstNonDict(xs[1..]);
      assert forall i :: 1 <= i < |xs| ==> xs[i] == xs[1..][i - 1];
      r
  }

  /** The first name field of a dict that holds something other than a string. */
  function FirstNonStringName(xs: seq<Json>): (r: Option<Json>)
    ensures r.None? <==> forall i :: 0 <= i < |xs| ==> StringNames(xs[i])
  {
    if xs == [] then None
    else if !StringNames(xs[0]) then
      Some(if !xs[0].JObj? then xs[0]
           else if GetOr(xs[0].fields, "last_name", JStr("")).JStr? then GetOr(xs[0].fields, "first_name", JStr(""))
           else GetOr(xs[0].fields, "last_name", JStr("")))
    else
      var r := FirstNonStringName(xs[1..]);
      assert forall i :: 1 <= i < |xs| ==> xs[i] == xs[1..][i - 1];
      r
  }

  predicate StringNames(c: Json) {
    c.JObj? && GetOr(c.fields, "last_name", JStr("")).JStr? && GetOr(c.fields, "first_name", JStr("")).JStr?
  }

  /** `sorted(contacts, key=...)`: every key is computed first, in order;
      then the keys are compared. */
  function SortedContacts(v: Json): (r: Result<seq<Json>>)
    ensures r.Ok? ==> Elements(v).Ok? && r.value == Sort(Elements(v).value, ContactLeq)
  {
    var xs :- Elements(v);
    match FirstNonDict(xs)
    case Some(x) => Err(NoAttribute(x, "get"))
    case None =>
      if |xs| >= 2 && FirstNonStringName(xs).Some? then
        Err(TypeError("'<' not supported between instances of '" + TypeName(FirstNonStringName(xs).value) + "' and 'str'"))
      else Ok(Sort(xs, ContactLeq))
  }

  /** The sorted list is ordered by (last name, first name), is a
      permutation of the input, keeps contacts with equal names in input
      order, and is left as it is by sorting it again. */
  lemma ContactsSorted(v: Json)
    requires SortedContacts(v).Ok?
    ensures var xs := Elements(v).value;
            var s := SortedContacts(v).value;
            && Sorted(s, ContactLeq)
            && multiset(s) == multiset(xs)
            && (forall y :: Class(s, y, ContactLeq) == Class(xs, y, ContactLeq))
            && Sort(s, ContactLeq) == s
  {
    var xs := Elements(v).value;
    ContactLeqIsTotalPreorder();
    SortIsOrderedPermutation(xs, ContactLeq);
    forall y ensures Class(Sort(xs, ContactLeq), y, ContactLeq) == Class(xs, y, ContactLeq) {
      SortIsStable(xs, y, ContactLeq);
    }
    SortOfSorted(Sort(xs, ContactLeq), ContactLeq);
  }

  /** The path `sort_contacts` writes to: "./data/" and `output_file[5:]`. */
  function ContactsOutput(outputFile: string): string {
    "./data/" + SliceFrom(outputFile, 5)
  }

  /** `sort_contacts`. The output path drops the first five characters of
      `output_file` whatever they are, so the file always lands under
      "./data/". A failure writes nothing. */
  function SortContactsHandler(fs: Fs, inputFile: string, outputFile: string,
                               load: string -> Decoded, dump: Json -> string): (r: Outcome)
    ensures "." + inputFile !in fs ==> r == Outcome(fs, Err(ValueError("File " + ("." + inputFile) + " does not exist.")))
    ensures r.result.Err? ==> r.fs == fs
    ensures r.result.Ok? ==>
              && "." + inputFile in fs && fs["." + inputFile].File?
              && load(fs["." + inputFile].text).Decoded?
              && SortedContacts(load(fs["." + inputFile].text).value).Ok?
              && r.fs == fs[ContactsOutput(outputFile) := File(dump(JArr(SortedContacts(load(fs["." + inputFile].text).value).value)))]
    ensures IsDir(fs, "." + inputFile) ==> r.fs == fs && r.result.Err? && r.result.error.IsADirectoryError?
    ensures "." + inputFile in fs && fs["." + inputFile].File? && load(fs["." + inputFile].text).DecodeError? ==>
              r == Outcome(fs, Err(ValueError(load(fs["." + inputFile].text).msg)))
    ensures "." + inputFile in fs && fs["." + inputFile].File? && load(fs["." + inputFile].text).Decoded? ==>
              var sorted := SortedContacts(load(fs["." + inputFile].text).value);
              && (sorted.Err? ==> r == Outcome(fs, Err(sorted.error)))
              && (sorted.Ok? ==> r == Written(fs, ContactsOutput(outputFile), dump(JArr(sorted.value)),
                                              "A4 Completed: Sorted contacts stored in " + SliceFrom(outputFile, 5)))
  {
    var input := "." + inputFile;
    if !Exists(fs, input) then Outcome(fs, Err(ValueError("File " + input + " does not exist.")))
    else match ReadText(fs, input)
      case Err(e) => Outcome(fs, Err(e))
      case Ok(text) =>
        match load(text)
        case DecodeError(m) => Outcome(fs, Err(ValueError(m)))
        case Decoded(contacts) =>
          match SortedContacts(contacts)
          case Err(e) => Outcome(fs, Err(e))
          case Ok(sorted) =>
            Written(fs, ContactsOutput(outputFile), dump(JArr(sorted)),
                    "A4 Completed: Sorted contacts stored in " + SliceFrom(outputFile, 5))
  }

  /** Whatever `output_file` is, the sorted contacts go under "./data/". */
  lemma ContactsAlwaysUnderData(outputFile: string)
    ensures StartsWith(ContactsOutput(outputFile), "./data/")
    ensures |outputFile| >= 5 ==> ContactsOutput(outputFile) == "./data/" + outputFile[5..]
  {
  }
}
