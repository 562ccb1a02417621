/** `extract_credit_card_number` of finalmain.py: the existing card file is
    moved to the backup path, the image is read by OCR, the completion
    service is asked for the card number, and the first sixteen digits of
    its answer are stored. OCR and the completion service are oracles; the
    prompt around the OCR text is folded into the completion oracle. */
module CardNumber {
  import opened PyValues
  import opened PyStrings
  import opened FileSystem
  import opened HandlerOutcome
  import TaskAgent

  const CurrentCardPath := "/data/credit-card.txt"

  predicate IsDigit(c: char) {
    '0' <= c <= '9'
  }

  /** `"".join([c for c in s if c.isdigit()])`. */
  function DigitsOf(s: string): (r: string)
    ensures |r| <= |s|
    ensures forall i :: 0 <= i < |r| ==> IsDigit(r[i])
  {
    if s == [] then ""
    else (if IsDigit(s[0]) then [s[0]] else "") + DigitsOf(s[1..])
  }

  /** The card number in the answer: its first sixteen digits, when it has
      that many. */
  function CardDigits(answer: string): Result<string> {
    var number := Take(DigitsOf(answer), 16);
    if |number| != 16 then Err(ValueError("Failed to extract a valid credit card number."))
    else Ok(number)
  }

  /** The file system after the backup: the current card file, when there is
      one, is renamed to the backup path. */
  function Backup(fs: Fs, backupFile: string): Fs {
    if Exists(fs, CurrentCardPath) then Rename(fs, CurrentCardPath, backupFile) else fs
  }

  function CardMessage(outputFile: string): string {
    "A8 Completed: Credit card number extracted and saved to " + outputFile
  }

  /** `extract_credit_card_number`. Paths are used as given. */
  function CardNumberHandler(fs: Fs, inputImage: string, outputFile: string, backupFile: string,
                             ocr: string -> Result<string>, completion: string -> Result<Json>): (r: Outcome)
  {
    if !Exists(fs, inputImage) then Outcome(fs, Err(ValueError("File " + inputImage + " does not exist.")))
    else
      var moved := Backup(fs, backupFile);
      match Answer(moved, inputImage, ocr, completion)
      case Err(e) => Outcome(moved, Err(e))
      case Ok(answer) =>
        match CardDigits(answer)
        case Err(e) => Outcome(moved, Err(e))
        case Ok(number) => Written(moved, outputFile, number, CardMessage(outputFile))
  }

  /** The image opened and read, and the completion text for its OCR text. */
  function Answer(fs: Fs, inputImage: string, ocr: string -> Result<string>,
                  completion: string -> Result<Json>): Result<string> {
    var image :- ReadText(fs, inputImage);
    var extracted :- ocr(image);
    var response :- completion(extracted);
    TaskAgent.ExtractContent(response)
  }

  /** Only digits are kept, each in its place: the filter distributes over
      concatenation. */
  lemma {:induction false} DigitsOfAppend(a: string, b: string)
    ensures DigitsOf(a + b) == DigitsOf(a) + DigitsOf(b)
    decreases |a|
  {
    if a == [] {
      assert a + b == b;
    } else {
      assert (a + b)[0] == a[0] && (a + b)[1..] == a[1..] + b;
      DigitsOfAppend(a[1..], b);
    }
  }

  /** A string of digits is kept whole, and a string without digits vanishes. */
  lemma {:induction false} DigitsOfDigits(s: string)
    ensures (forall i :: 0 <= i < |s| ==> IsDigit(s[i])) ==> DigitsOf(s) == s
    ensures (forall i :: 0 <= i < |s| ==> !IsDigit(s[i])) ==> DigitsOf(s) == ""
    decreases |s|
  {
    if s != [] {
      assert forall i :: 0 <= i < |s| - 1 ==> s[1..][i] == s[i + 1];
      DigitsOfDigits(s[1..]);
    }
  }

  /** Filtering twice is filtering once. */
  lemma DigitsOfIdempotent(s: string)
    ensures DigitsOf(DigitsOf(s)) == DigitsOf(s)
  {
    DigitsOfDigits(DigitsOf(s));
  }

  /** The number stored is exactly sixteen digits, the first sixteen of the
      answer's digits; an answer with fewer digits is refused. */
  lemma CardDigitsAreFirstSixteen(answer: string)
    ensures CardDigits(answer).Ok? <==> |DigitsOf(answer)| >= 16
    ensures CardDigits(answer).Ok? ==>
              && |CardDigits(answer).value| == 16
              && CardDigits(answer).value == DigitsOf(answer)[..16]
              && forall i :: 0 <= i < 16 ==> IsDigit(CardDigits(answer).value[i])
  {
  }

  /** Separators between digit groups do not change the number. */
  lemma SeparatorsIgnored(a: string, sep: string, b: string)
    requires forall i :: 0 <= i < |sep| ==> !IsDigit(sep[i])
    ensures DigitsOf(a + sep + b) == DigitsOf(a) + DigitsOf(b)
  {
    DigitsOfAppend(a + sep, b);
    DigitsOfAppend(a, sep);
    DigitsOfDigits(sep);
  }

  /** A missing image changes nothing. */
  lemma MissingImageChangesNothing(fs: Fs, inputImage: string, outputFile: string, backupFile: string,
                                   ocr: string -> Result<string>, completion: string -> Result<Json>)
    requires !Exists(fs, inputImage)
    ensures CardNumberHandler(fs, inputImage, outputFile, backupFile, ocr, completion)
            == Outcome(fs, Err(ValueError("File " + inputImage + " does not exist.")))
  {
  }

  /** Whatever happens after the image is found, the backup has been made;
      when the answer holds fewer than sixteen digits nothing else is
      written, and otherwise the output file holds the number. */
  lemma HandlerOutcomes(fs: Fs, inputImage: string, outputFile: string, backupFile: string,
                        ocr: string -> Result<string>, completion: string -> Result<Json>)
    requires Exists(fs, inputImage)
    ensures var r := CardNumberHandler(fs, inputImage, outputFile, backupFile, ocr, completion);
            var moved := Backup(fs, backupFile);
            var answer := Answer(moved, inputImage, ocr, completion);
            && (answer.Err? ==> r == Outcome(moved, Err(answer.error)))
            && (answer.Ok? && |DigitsOf(answer.value)| < 16 ==>
                  r == Outcome(moved, Err(ValueError("Failed to extract a valid credit card number."))))
            && (answer.Ok? && |DigitsOf(answer.value)| >= 16 && !IsDir(moved, outputFile) ==>
                  && r.result == Ok(CardMessage(outputFile))
                  && r.fs == moved[outputFile := File(DigitsOf(answer.value)[..16])])
  {
    var moved := Backup(fs, backupFile);
    var answer := Answer(moved, inputImage, ocr, completion);
    if answer.Ok? {
      CardDigitsAreFirstSixteen(answer.value);
    }
  }

  /** The backup moves the current card file and touches nothing else. */
  lemma BackupMovesCardFile(fs: Fs, backupFile: string)
    ensures Exists(fs, CurrentCardPath) ==>
              && Backup(fs, backupFile)[backupFile] == fs[CurrentCardPath]
              && (backupFile != CurrentCardPath ==> !Exists(Backup(fs, backupFile), CurrentCardPath))
    ensures !Exists(fs, CurrentCardPath) ==> Backup(fs, backupFile) == fs
    ensures forall q :: q != CurrentCardPath && q != backupFile ==>
              (q in Backup(fs, backupFile) <==> q in fs) &&
              (q in fs ==> Backup(fs, backupFile)[q] == fs[q])
  {
  }
}
