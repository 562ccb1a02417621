/** project-phase2.py: a task is sent to the completion service, which
    answers with a structured action; `execute_task` picks the handler by
    the action's name, and every file-touching handler except the git clone
    first passes each of its path arguments through a sandbox gate. What a
    handler does after its gates (HTTP requests, subprocesses, SQLite,
    Markdown rendering, CSV filtering) is an oracle: it reports the
    exception the handler raised, if any. */
module SandboxAgent {
  import opened PyValues
  import opened PyStrings
  import opened FileSystem

  const DataDir := "/data"

  /** What can escape a call: an `HTTPException` with its status and detail,
      or another Python exception. */
  datatype Exc = HttpExc(status: int, detail: string) | PyExc(error: PyError)

  /** `str(e)`: an `HTTPException` prints as "<status>: <detail>". */
  function ExcText(e: Exc): string {
    match e
    case HttpExc(status, detail) => IntToString(status) + ": " + detail
    case PyExc(err) => err.msg
  }

  const OutsideData := HttpExc(403, "Access outside /data is not allowed.")
  const DirectoryDenied := HttpExc(403, "Access to directories is restricted.")

  /** `enforce_security_constraints(filepath)`: the exception it raises, or
      None when the path is let through. A value that is not a string has no
      `startswith`. */
  function Gate(fs: Fs, filepath: Json): (r: Option<Exc>)
    ensures r.None? <==> filepath.JStr? && StartsWith(filepath.s, DataDir) && !IsDir(fs, filepath.s)
    ensures filepath.JStr? && !StartsWith(filepath.s, DataDir) ==> r == Some(OutsideData)
    ensures filepath.JStr? && StartsWith(filepath.s, DataDir) && IsDir(fs, filepath.s) ==> r == Some(DirectoryDenied)
  {
    match filepath
    case JStr(p) =>
      if !StartsWith(p, DataDir) then Some(OutsideData)
      else if Exists(fs, p) && IsDir(fs, p) then Some(DirectoryDenied)
      else None
    case _ => Some(PyExc(NoAttribute(filepath, "startswith")))
  }

  /** The actions `execute_task` knows, in the order it tests them. */
  datatype Action =
    | FetchApiData | CloneGitRepo | RunSqlQuery | ScrapeWebsite
    | CompressImage | TranscribeAudio | ConvertMdToHtml | FilterCsv

  function ActionName(a: Action): string {
    match a
    case FetchApiData => "fetch_api_data"
    case CloneGitRepo => "clone_git_repo"
    case RunSqlQuery => "run_sql_query"
    case ScrapeWebsite => "scrape_website"
    case CompressImage => "compress_image"
    case TranscribeAudio => "transcribe_audio"
    case ConvertMdToHtml => "convert_md_to_html"
    case FilterCsv => "filter_csv"
  }

  /** The branch of the if/elif chain that `action == name` selects, if any:
      only a string equal to an action's name matches. */
  function ActionOf(action: Json): (r: Option<Action>)
    ensures r.Some? ==> action == JStr(ActionName(r.value))
  {
    if !action.JStr? then None
    else
      var s := action.s;
      if s == "fetch_api_data" then Some(FetchApiData)
      else if s == "clone_git_repo" then Some(CloneGitRepo)
      else if s == "run_sql_query" then Some(RunSqlQuery)
      else if s == "scrape_website" then Some(ScrapeWebsite)
      else if s == "compress_image" then Some(CompressImage)
      else if s == "transcribe_audio" then Some(TranscribeAudio)
      else if s == "convert_md_to_html" then Some(ConvertMdToHtml)
      else if s == "filter_csv" then Some(FilterCsv)
      else None
  }

  /** The keys of the structured task passed to the handler, in argument order. */
  function ArgKeys(a: Action): seq<string> {
    match a
    case FetchApiData => ["url", "output"]
    case CloneGitRepo => ["repo_url", "commit_message"]
    case RunSqlQuery => ["db_path", "query", "output"]
    case ScrapeWebsite => ["url", "output"]
    case CompressImage => ["input", "output"]
    case TranscribeAudio => ["input", "output"]
    case ConvertMdToHtml => ["input", "output"]
    case FilterCsv => ["input", "output", "criteria"]
  }

  /** The positions of the arguments each handler gates, in the order it
      gates them. */
  function Gated(a: Action): (ps: seq<nat>)
    ensures forall i :: 0 <= i < |ps| ==> ps[i] < |ArgKeys(a)|
  {
    match a
    case FetchApiData => [1]
    case CloneGitRepo => []
    case RunSqlQuery => [0, 2]
    case ScrapeWebsite => [1]
    case CompressImage => [0, 1]
    case TranscribeAudio => [0, 1]
    case ConvertMdToHtml => [0, 1]
    case FilterCsv => [0, 1]
  }

  /** `parsed_task.get(key)` for each argument of the handler. */
  function Args(fields: seq<(string, Json)>, keys: seq<string>): (args: seq<Json>)
    ensures |args| == |keys|
    ensures forall i :: 0 <= i < |keys| ==> args[i] == GetOr(fields, keys[i], JNull)
  {
    if keys == [] then [] else [GetOr(fields, keys[0], JNull)] + Args(fields, keys[1..])
  }

  /** The first gate among `ps` that raises, in order. */
  function FirstDenial(fs: Fs, args: seq<Json>, ps: seq<nat>): (r: Option<Exc>)
    requires forall i :: 0 <= i < |ps| ==> ps[i] < |args|
    ensures r.None? <==> forall i :: 0 <= i < |ps| ==> Gate(fs, args[ps[i]]).None?
  {
    if ps == [] then None
    else match Gate(fs, args[ps[0]])
      case Some(e) => Some(e)
      case None =>
        var r := FirstDenial(fs, args, ps[1..]);
        assert forall i :: 1 <= i < |ps| ==> ps[i] == ps[1..][i - 1];
        r
  }

  /** A handler called with its arguments. */
  datatype Call = Call(action: Action, args: seq<Json>)

  /** What `execute_task` did: the handler whose work went past its gates,
      if one did, and the detail of the 500 it raised, if it raised. */
  datatype Execution = Execution(performed: Option<Call>, failure: Option<string>)

  /** The wrapping of every exception at the end of `execute_task`. */
  function Failed(performed: Option<Call>, e: Exc): Execution {
    Execution(performed, Some("Task execution error: " + ExcText(e)))
  }

  /** `execute_task`. `work` gives the exception a handler raises after its
      gates, or None. */
  function ExecuteTask(fs: Fs, parsedTask: Json, work: Call -> Option<PyError>): Execution {
    if !parsedTask.JObj? then Failed(None, PyExc(NoAttribute(parsedTask, "get")))
    else
      var fields := parsedTask.fields;
      match ActionOf(GetOr(fields, "action", JNull))
      case None => Execution(None, None)
      case Some(a) =>
        var args := Args(fields, ArgKeys(a));
        match FirstDenial(fs, args, Gated(a))
        case Some(e) => Failed(None, e)
        case None =>
          var call := Call(a, args);
          match work(call)
          case None => Execution(Some(call), None)
          case Some(err) => Failed(Some(call), PyExc(err))
  }

  /** The reply of `/run`: the JSON body, or an HTTP error. */
  datatype Reply = Body(body: Json) | HttpError(status: int, detail: string)

  const CompletedBody := JObj([("status", JStr("completed")), ("message", JStr("Task executed successfully."))])

  /** `run_task` of project-phase2.py. `completion` is the completion call on
      the request text. */
  function RunTask(task: string, fs: Fs, completion: string -> Result<Json>,
                   work: Call -> Option<PyError>): Reply {
    if task == "" then HttpError(400, "Task description cannot be empty.")
    else
      match completion(task)
      case Err(e) => HttpError(500, "Internal server error: " + e.msg)
      case Ok(structured) =>
        var ex := ExecuteTask(fs, structured, work);
        match ex.failure
        case Some(detail) => HttpError(500, detail)
        case None => Body(CompletedBody)
  }

  /** The gate lets a path through exactly when it starts with "/data" and
      is not a directory; every other path is refused whether it exists or not. */
  lemma GateAcceptsExactly(fs: Fs, p: string)
    ensures Gate(fs, JStr(p)).None? <==> StartsWith(p, DataDir) && !IsDir(fs, p)
    ensures !StartsWith(p, DataDir) ==> Gate(fs, JStr(p)) == Gate(map[], JStr(p)) == Some(OutsideData)
    ensures StartsWith(p, DataDir) && p !in fs ==> Gate(fs, JStr(p)).None?
  {
  }

  /** The prefix test is on characters, without normalisation: a sibling
      of /data and a path that climbs out of it both pass when they are not
      directories. */
  lemma GateDoesNotNormalise(fs: Fs)
    requires !IsDir(fs, "/database") && !IsDir(fs, "/data/../etc/passwd")
    ensures Gate(fs, JStr("/database")).None?
    ensures Gate(fs, JStr("/data/../etc/passwd")).None?
  {
    assert "/database"[..5] == DataDir;
    assert "/data/../etc/passwd"[..5] == DataDir;
  }

  /** A handler's work happens only after every one of its gated arguments
      passed its gate, on the file system as it was when the request came in;
      when a gate refuses, no handler work is done at all. */
  lemma GatesBeforeWork(fs: Fs, parsedTask: Json, work: Call -> Option<PyError>)
    ensures var ex := ExecuteTask(fs, parsedTask, work);
            ex.performed.Some? ==>
              var c := ex.performed.value;
              && |c.args| == |ArgKeys(c.action)|
              && forall i :: 0 <= i < |Gated(c.action)| ==> Gate(fs, c.args[Gated(c.action)[i]]).None?
    ensures parsedTask.JObj? ==>
              var a := ActionOf(GetOr(parsedTask.fields, "action", JNull));
              a.Some? ==>
                var args := Args(parsedTask.fields, ArgKeys(a.value));
                (exists i :: 0 <= i < |Gated(a.value)| && Gate(fs, args[Gated(a.value)[i]]).Some?) ==>
                  ExecuteTask(fs, parsedTask, work).performed.None? && ExecuteTask(fs, parsedTask, work).failure.Some?
  {
  }

  /** Every handler but the git clone gates at least its output path
      argument, and the git clone gates nothing. */
  lemma WhichArgumentsAreGated(a: Action)
    ensures a == CloneGitRepo <==> Gated(a) == []
    ensures a != CloneGitRepo ==> "output" in (set i | 0 <= i < |Gated(a)| :: ArgKeys(a)[Gated(a)[i]])
    ensures a in {CompressImage, TranscribeAudio, ConvertMdToHtml, FilterCsv} ==>
              Gated(a) == [0, 1] && ArgKeys(a)[..2] == ["input", "output"]
    ensures a == RunSqlQuery ==> ArgKeys(a)[Gated(a)[0]] == "db_path"
  {
    if a != CloneGitRepo {
      var ps := Gated(a);
      var k := |ps| - 1;
      assert ArgKeys(a)[ps[k]] == "output";
    }
  }

  /** An action that names no branch runs nothing and raises nothing. */
  lemma UnknownActionDoesNothing(fs: Fs, parsedTask: Json, work: Call -> Option<PyError>)
    requires parsedTask.JObj? && ActionOf(GetOr(parsedTask.fields, "action", JNull)).None?
    ensures ExecuteTask(fs, parsedTask, work) == Execution(None, None)
  {
  }

  /** A gate's 403 is caught as an exception and turned into a 500, which
      `run_task` passes on unchanged. */
  lemma DenialBecomes500(task: string, fs: Fs, completion: string -> Result<Json>,
                         work: Call -> Option<PyError>, out: string)
    requires task != "" && !StartsWith(out, DataDir)
    requires completion(task) == Ok(JObj([("action", JStr("scrape_website")), ("output", JStr(out))]))
    ensures RunTask(task, fs, completion, work)
            == HttpError(500, "Task execution error: " + (IntToString(403) + ": " + "Access outside /data is not allowed."))
  {
    var fields := [("action", JStr("scrape_website")), ("output", JStr(out))];
    TwoFields("action", JStr("scrape_website"), "output", JStr(out));
    assert ActionOf(JStr("scrape_website")) == Some(ScrapeWebsite);
    var args := Args(fields, ArgKeys(ScrapeWebsite));
    assert args[1] == JStr(out);
    assert FirstDenial(fs, args, Gated(ScrapeWebsite)) == Some(OutsideData);
    assert ExecuteTask(fs, JObj(fields), work) == Failed(None, OutsideData);
  }

  /** Whatever makes `execute_task` fail reaches the endpoint unchanged: a
      500 whose detail is the one `execute_task` raised. */
  lemma ExecutionFailureBecomes500(task: string, fs: Fs, completion: string -> Result<Json>,
                                   work: Call -> Option<PyError>, d: string)
    requires task != "" && completion(task).Ok?
    requires ExecuteTask(fs, completion(task).value, work).failure == Some(d)
    ensures RunTask(task, fs, completion, work) == HttpError(500, d)
  {
  }

  /** For every action and every argument a gate refuses, the first refusal
      is caught, no handler work is done, and the endpoint answers 500 with
      the refusal's text. */
  lemma GateRefusalBecomes500(task: string, fs: Fs, completion: string -> Result<Json>,
                              work: Call -> Option<PyError>, pt: Json, a: Action, e: Exc)
    requires task != "" && completion(task) == Ok(pt) && pt.JObj?
    requires ActionOf(GetOr(pt.fields, "action", JNull)) == Some(a)
    requires FirstDenial(fs, Args(pt.fields, ArgKeys(a)), Gated(a)) == Some(e)
    ensures ExecuteTask(fs, pt, work) == Failed(None, e)
    ensures RunTask(task, fs, completion, work) == HttpError(500, "Task execution error: " + ExcText(e))
  {
    assert ExecuteTask(fs, pt, work) == Failed(None, e);
    ExecutionFailureBecomes500(task, fs, completion, work, "Task execution error: " + ExcText(e));
  }

  /** When every gate passes and the handler's own work raises, its
      exception is wrapped the same way. */
  lemma WorkErrorBecomes500(task: string, fs: Fs, completion: string -> Result<Json>,
                            work: Call -> Option<PyError>, pt: Json, a: Action, err: PyError)
    requires task != "" && completion(task) == Ok(pt) && pt.JObj?
    requires ActionOf(GetOr(pt.fields, "action", JNull)) == Some(a)
    requires FirstDenial(fs, Args(pt.fields, ArgKeys(a)), Gated(a)).None?
    requires work(Call(a, Args(pt.fields, ArgKeys(a)))) == Some(err)
    ensures ExecuteTask(fs, pt, work) == Failed(Some(Call(a, Args(pt.fields, ArgKeys(a)))), PyExc(err))
    ensures RunTask(task, fs, completion, work) == HttpError(500, "Task execution error: " + err.msg)
  {
    assert ExecuteTask(fs, pt, work) == Failed(Some(Call(a, Args(pt.fields, ArgKeys(a)))), PyExc(err));
    ExecutionFailureBecomes500(task, fs, completion, work, "Task execution error: " + err.msg);
  }

  lemma TwoFields(k0: string, v0: Json, k1: string, v1: Json)
    requires k0 != k1
    ensures GetOr([(k0, v0), (k1, v1)], k0, JNull) == v0
    ensures GetOr([(k0, v0), (k1, v1)], k1, JNull) == v1
  {
    var fields := [(k0, v0), (k1, v1)];
    assert fields[1..] == [(k1, v1)];
    assert Lookup(fields, k1) == Lookup([(k1, v1)], k1) == Some(v1);
  }

  /** An empty task is refused with a 400 before the completion service is
      asked: the reply does not depend on the completion or on any handler. */
  lemma EmptyTaskRefused(fs: Fs, completion: string -> Result<Json>, work: Call -> Option<PyError>)
    ensures RunTask("", fs, completion, work) == HttpError(400, "Task description cannot be empty.")
  {
  }

  /** `/run` completes exactly when the task description is not empty, the completion
      service answers, and `execute_task` raises nothing; any other reply is
      an HTTP error with status 400 or 500, and it is 400 exactly when the
      description is empty. A failing completion call is a 500 that quotes
      its error. */
  lemma RunTaskOutcomes(task: string, fs: Fs, completion: string -> Result<Json>, work: Call -> Option<PyError>)
    ensures RunTask(task, fs, completion, work) == Body(CompletedBody) <==>
              && task != ""
              && completion(task).Ok?
              && ExecuteTask(fs, completion(task).value, work).failure.None?
    ensures RunTask(task, fs, completion, work).HttpError? ==>
              RunTask(task, fs, completion, work).status in {400, 500}
    ensures (RunTask(task, fs, completion, work).HttpError? && RunTask(task, fs, completion, work).status == 400) <==> task == ""
    ensures task != "" && completion(task).Err? ==>
              RunTask(task, fs, completion, work) == HttpError(500, "Internal server error: " + completion(task).error.msg)
  {
  }
}
