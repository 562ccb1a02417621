/** What the file handlers of finalmain.py have in common: each takes the
    file system as a value and gives back the file system afterwards with
    the handler's return value or the exception it raised. Date parsing,
    file modification times, directory listings, `json.load`/`json.dump`,
    OCR and the completion service are oracles passed in as functions. */
module HandlerOutcome {
  import opened PyValues
  import opened FileSystem

  /** The file system after a handler ran, and what the call gave back: the
      handler's message, or the exception that escaped it. A handler that
      fails part-way keeps the changes it made before the failure. */
  datatype Outcome = Outcome(fs: Fs, result: Result<string>)

  /** The final `open(path, "w").write(text)` of a handler, then `return msg`. */
  function Written(fs: Fs, path: string, text: string, msg: string): (r: Outcome)
    ensures r.result.Ok? <==> !IsDir(fs, path)
    ensures r.result.Ok? ==> r.fs == fs[path := File(text)] && r.result.value == msg
    ensures r.result.Err? ==> r.fs == fs && r.result.error.IsADirectoryError?
  {
    match WriteText(fs, path, text)
    case Ok(fs') => Outcome(fs', Ok(msg))
    case Err(e) => Outcome(fs, Err(e))
  }
}
