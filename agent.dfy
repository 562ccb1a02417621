/** The `/run` and `/read` endpoints of finalmain.py: the completion text is
    turned into a task descriptor (`determine_task`), the descriptor is
    checked and bound to one of the eleven registered handlers, and the
    outcome is put in a response envelope (`run_task`). The completion
    service, `json.loads` and the handlers themselves are oracles passed in
    as functions; every handler invocation is recorded so that the number of
    calls can be stated. */
module TaskAgent {
  import opened PyValues
  import opened PyStrings
  import opened FileSystem

  // ----- Intent resolution -----

  /** `v.get(k, default)`, which needs `v` to be a dict. */
  function DictGet(v: Json, k: string, default: Json): (r: Result<Json>)
    ensures r.Ok? <==> v.JObj?
    ensures v.JObj? && HasKey(v.fields, k) ==> r == Ok(Lookup(v.fields, k).value)
    ensures v.JObj? && !HasKey(v.fields, k) ==> r == Ok(default)
  {
    if v.JObj? then Ok(GetOr(v.fields, k, default)) else Err(NoAttribute(v, "get"))
  }

  /** `v[0]`, as Python evaluates it on each kind of value. */
  function Index0(v: Json): (r: Result<Json>)
    ensures r.Ok? <==> (v.JArr? && v.items != []) || (v.JStr? && v.s != "")
    ensures v.JArr? && v.items != [] ==> r == Ok(v.items[0])
  {
    match v
    case JArr(xs) => if xs == [] then Err(IndexError("list index out of range")) else Ok(xs[0])
    case JStr(s) => if s == "" then Err(IndexError("string index out of range")) else Ok(JStr([s[0]]))
    case JObj(_) => Err(KeyError("0"))
    case _ => Err(TypeError("'" + TypeName(v) + "' object is not subscriptable"))
  }

  /** The completion text of a chat-completion response:
      `response.get("choices", [])[0].get("message", {}).get("content", "").strip()`. */
  function ExtractContent(response: Json): (r: Result<string>)
    ensures r.Ok? ==> r.value == Strip(r.value)
  {
    var choices :- DictGet(response, "choices", JArr([]));
    var first :- Index0(choices);
    var message :- DictGet(first, "message", JObj([]));
    var content :- DictGet(message, "content", JStr(""));
    if content.JStr? then
      var r := Strip(content.s);
      StripIsIdempotent(content.s);
      Ok(r)
    else Err(NoAttribute(content, "strip"))
  }

  /** The characters of the argument "```json" of `lstrip`. */
  predicate IsFenceChar(c: char) {
    c == '`' || c == 'j' || c == 's' || c == 'o' || c == 'n'
  }

  predicate IsBacktick(c: char) {
    c == '`'
  }

  /** The fence strip of `determine_task`: when the text starts with
      "```json", any leading run of the characters ` j s o n and any
      trailing run of backticks are removed, then surrounding whitespace. */
  function StripFence(content: string): string
  {
    if StartsWith(content, "```json") then Strip(RStrip(LStrip(content, IsFenceChar), IsBacktick))
    else content
  }

  /** What `json.loads` does with a text: a value, or a JSONDecodeError. */
  datatype Decoded = Decoded(value: Json) | DecodeError(msg: string)

  /** `determine_task`: one completion call, the text taken out of the
      response, the fence stripped, and the rest decoded. A text that does
      not decode raises a ValueError that quotes it. The completion oracle is
      applied to the instruction itself: the fixed prompt around it (the list
      of the eleven functions and the demand for a bare JSON object with keys
      "function" and "params") is part of the oracle. */
  function DetermineTask(task: string, completion: string -> Result<Json>, parse: string -> Decoded): (r: Result<Json>)
  {
    var response :- completion(task);
    var content :- ExtractContent(response);
    DecodeText(StripFence(content), parse)
  }

  /** `json.loads(text)` inside `determine_task`: a decode error becomes a
      ValueError that quotes the text. */
  function DecodeText(text: string, parse: string -> Decoded): (r: Result<Json>)
    ensures r.Ok? <==> parse(text).Decoded?
    ensures r.Ok? ==> r.value == parse(text).value
  {
    match parse(text)
    case Decoded(v) => Ok(v)
    case DecodeError(e) => Err(ValueError("Failed to parse LLM response: " + text + ". Error: " + e))
  }

  // ----- The handler registry -----

  datatype Param = Param(name: string, required: bool)

  /** The eleven entries of the `task_functions` table. */
  datatype Handler =
    | InstallUvAndRunDatagen
    | FormatMarkdownFile
    | FormatMarkdown
    | CountDays
    | SortContacts
    | WriteRecentLogs
    | CreateMarkdownIndex
    | ExtractEmailSender
    | ExtractCreditCardNumber
    | FindMostSimilarComments
    | CalculateGoldTicketSales

  /** The key of a handler in the table, which is also its function name. */
  function HandlerName(h: Handler): string {
    match h
    case InstallUvAndRunDatagen => "install_uv_and_run_datagen"
    case FormatMarkdownFile => "format_markdown_file"
    case FormatMarkdown => "format_markdown"
    case CountDays => "count_days"
    case SortContacts => "sort_contacts"
    case WriteRecentLogs => "write_recent_logs"
    case CreateMarkdownIndex => "create_markdown_index"
    case ExtractEmailSender => "extract_email_sender"
    case ExtractCreditCardNumber => "extract_credit_card_number"
    case FindMostSimilarComments => "find_most_similar_comments"
    case CalculateGoldTicketSales => "calculate_gold_ticket_sales"
  }

  function Req(n: string): Param { Param(n, true) }

  /** Each handler's parameter list, in declaration order. */
  function Params(h: Handler): seq<Param> {
    match h
    case InstallUvAndRunDatagen => [Param("user_email", false)]
    case FormatMarkdownFile => [Req("file_path")]
    case FormatMarkdown => []
    case CountDays => [Req("input_file"), Req("output_file"), Req("weekday_name")]
    case SortContacts => [Req("input_file"), Req("output_file")]
    case WriteRecentLogs => [Req("input_dir"), Req("output_file")]
    case CreateMarkdownIndex => [Req("input_dir"), Req("output_file")]
    case ExtractEmailSender => [Req("input_file"), Req("output_file")]
    case ExtractCreditCardNumber => [Req("input_image"), Req("output_file"), Req("backup_file")]
    case FindMostSimilarComments => [Req("input_file"), Req("output_file")]
    case CalculateGoldTicketSales => [Req("db_file"), Req("output_file")]
  }

  /** `name in task_functions` and `task_functions[name]`: the lookup finds
      the handler of that name, and fails only when no handler has it. */
  function FindHandler(name: string): (r: Option<Handler>)
    ensures r.Some? ==> HandlerName(r.value) == name
    ensures r.None? ==> forall h :: HandlerName(h) != name
  {
    if name == "install_uv_and_run_datagen" then Some(InstallUvAndRunDatagen)
    else if name == "format_markdown_file" then Some(FormatMarkdownFile)
    else if name == "format_markdown" then Some(FormatMarkdown)
    else if name == "count_days" then Some(CountDays)
    else if name == "sort_contacts" then Some(SortContacts)
    else if name == "write_recent_logs" then Some(WriteRecentLogs)
    else if name == "create_markdown_index" then Some(CreateMarkdownIndex)
    else if name == "extract_email_sender" then Some(ExtractEmailSender)
    else if name == "extract_credit_card_number" then Some(ExtractCreditCardNumber)
    else if name == "find_most_similar_comments" then Some(FindMostSimilarComments)
    else if name == "calculate_gold_ticket_sales" then Some(CalculateGoldTicketSales)
    else None
  }

  predicate Registered(name: string) {
    FindHandler(name).Some?
  }

  /** The names in the table are distinct: each one finds its own handler. */
  lemma {:induction false} FindHandlerOfName(h: Handler)
    ensures FindHandler(HandlerName(h)) == Some(h)
    ensures HandlerName(h) != ""
  {
    match h
    case InstallUvAndRunDatagen =>
    case FormatMarkdownFile =>
    case FormatMarkdown =>
    case CountDays =>
    case SortContacts =>
    case WriteRecentLogs =>
    case CreateMarkdownIndex =>
    case ExtractEmailSender =>
    case ExtractCreditCardNumber =>
    case FindMostSimilarComments =>
    case CalculateGoldTicketSales =>
  }

  // ----- Keyword binding -----

  predicate IsParam(params: seq<Param>, k: string) {
    exists i :: 0 <= i < |params| && params[i].name == k
  }

  /** The first keyword that names no parameter, if any. */
  function UnexpectedKeyword(params: seq<Param>, kwargs: seq<(string, Json)>): (r: Option<string>)
    ensures r.None? <==> forall i :: 0 <= i < |kwargs| ==> IsParam(params, kwargs[i].0)
    ensures r.Some? ==> !IsParam(params, r.value) && HasKey(kwargs, r.value)
  {
    if kwargs == [] then None
    else if !IsParam(params, kwargs[0].0) then Some(kwargs[0].0)
    else
      var r := UnexpectedKeyword(params, kwargs[1..]);
      assert forall i :: 1 <= i < |kwargs| ==> kwargs[i] == kwargs[1..][i - 1];
      r
  }

  /** The required parameters no keyword supplies, in parameter order. */
  function MissingRequired(params: seq<Param>, kwargs: seq<(string, Json)>): (r: seq<string>)
    ensures r == [] <==> forall i :: 0 <= i < |params| && params[i].required ==> HasKey(kwargs, params[i].name)
    ensures forall k :: k in r ==> !HasKey(kwargs, k)
  {
    if params == [] then []
    else
      var rest := MissingRequired(params[1..], kwargs);
      assert forall i :: 1 <= i < |params| ==> params[i] == params[1..][i - 1];
      if params[0].required && !HasKey(kwargs, params[0].name) then [params[0].name] + rest else rest
  }

  /** The names in CPython's "missing required argument" message. */
  function NameList(names: seq<string>): string {
    if names == [] then ""
    else if |names| == 1 then Quoted(names[0])
    else if |names| == 2 then Quoted(names[0]) + " and " + Quoted(names[1])
    else ListPrefix(names[..|names| - 1]) + ", and " + Quoted(names[|names| - 1])
  }

  function ListPrefix(names: seq<string>): string {
    if names == [] then ""
    else if |names| == 1 then Quoted(names[0])
    else Quoted(names[0]) + ", " + ListPrefix(names[1..])
  }

  /** The bound arguments: every parameter, from its keyword or from its
      default (None for the one optional parameter in the table). */
  function Fill(params: seq<Param>, kwargs: seq<(string, Json)>): (args: map<string, Json>)
    ensures forall k :: k in args <==> IsParam(params, k)
    ensures forall k :: k in args && HasKey(kwargs, k) ==> args[k] == Lookup(kwargs, k).value
    ensures forall k :: k in args && !HasKey(kwargs, k) ==> args[k] == JNull
  {
    if params == [] then map[]
    else
      var rest := Fill(params[1..], kwargs);
      assert forall i :: 1 <= i < |params| ==> params[i] == params[1..][i - 1];
      rest[params[0].name := GetOr(kwargs, params[0].name, JNull)]
  }

  /** Calling a handler with `**kwargs`: an unknown keyword, then a missing
      required parameter, raise a TypeError; otherwise the arguments are bound. */
  function Bind(h: Handler, kwargs: seq<(string, Json)>): (r: Result<map<string, Json>>)
    ensures r.Ok? <==> (forall i :: 0 <= i < |kwargs| ==> IsParam(Params(h), kwargs[i].0))
                       && (forall i :: 0 <= i < |Params(h)| && Params(h)[i].required ==> HasKey(kwargs, Params(h)[i].name))
    ensures r.Ok? ==> r.value.Keys == set p | p in Params(h) :: p.name
    ensures r.Err? ==> r.error.TypeError?
  {
    var params := Params(h);
    match UnexpectedKeyword(params, kwargs)
    case Some(k) => Err(TypeError(HandlerName(h) + "() got an unexpected keyword argument " + Quoted(k)))
    case None =>
      var missing := MissingRequired(params, kwargs);
      if missing != [] then
        Err(TypeError(HandlerName(h) + "() missing " + IntToString(|missing|) + " required positional argument"
          + (if |missing| == 1 then "" else "s") + ": " + NameList(missing)))
      else
        var args := Fill(params, kwargs);
        assert forall k :: k in args <==> k in (set p | p in params :: p.name) by {
          forall k ensures k in args <==> k in (set p | p in params :: p.name) {
            if IsParam(params, k) {
              var i :| 0 <= i < |params| && params[i].name == k;
              assert params[i] in params;
            }
          }
        }
        Ok(args)
  }

  // ----- Dispatch -----

  /** One call of a handler body, with the arguments it was bound to. */
  datatype Invocation = Invocation(handler: Handler, args: map<string, Json>)

  /** What the caller receives: the success envelope, an HTTPException, or an
      exception that escapes the endpoint (the framework's bare 500). */
  datatype Response =
    | Success(result: Json)
    | HttpError(status: nat, detail: string)
    | Uncaught(error: PyError)

  datatype RunResult = RunResult(response: Response, calls: seq<Invocation>)

  /** The oracles an endpoint call depends on: the completion service,
      `json.loads`, and the registered handlers' bodies. */
  datatype Oracles = Oracles(
    completion: string -> Result<Json>,
    parse: string -> Decoded,
    invoke: (Handler, map<string, Json>) -> Result<Json>)

  /** The envelope a normal return is wrapped in. */
  function SuccessEnvelope(r: Json): Json {
    JObj([("status", JStr("success")), ("result", r)])
  }

  /** `str(func_name)` in the "not recognized" message, for the hashable
      values `in` can test. */
  function ShowScalar(v: Json): string {
    match v
    case JStr(s) => s
    case JInt(n) => IntToString(n)
    case JBool(b) => if b then "True" else "False"
    case _ => "None"
  }

  /** A "params" value that is not a dict is rebound as {"user_email": params}. */
  function AsKwargs(params: Json): seq<(string, Json)> {
    if params.JObj? then params.fields else [("user_email", params)]
  }

  /** `task_functions[name](**kwargs)` inside the `try`: a binding error or
      an exception of the handler becomes a 500, a normal return the success
      envelope. The handler body runs only when the binding succeeds. */
  function Call(h: Handler, kwargs: seq<(string, Json)>, invoke: (Handler, map<string, Json>) -> Result<Json>): (r: RunResult)
    ensures r.calls == [] <==> Bind(h, kwargs).Err?
    ensures r.calls != [] ==> r.calls == [Invocation(h, Bind(h, kwargs).value)]
  {
    match Bind(h, kwargs)
    case Err(e) => RunResult(HttpError(500, "Task execution error: " + e.msg), [])
    case Ok(args) =>
      match invoke(h, args)
      case Ok(v) => RunResult(Success(SuccessEnvelope(v)), [Invocation(h, args)])
      case Err(e) => RunResult(HttpError(500, "Task execution error: " + e.msg), [Invocation(h, args)])
  }

  /** `func_name in task_functions` for a hashable value: only a string can
      equal a key of the table. */
  function Resolve(funcName: Json): (r: Option<Handler>)
    ensures r.Some? ==> funcName == JStr(HandlerName(r.value))
  {
    if funcName.JStr? then FindHandler(funcName.s) else None
  }

  /** The steps of `run_task` after `determine_task` succeeded. */
  function Dispatch(taskInfo: Json, invoke: (Handler, map<string, Json>) -> Result<Json>): (r: RunResult)
    ensures |r.calls| <= 1
    ensures r.calls != [] ==>
              (taskInfo.JObj? && GetOr(taskInfo.fields, "function", JNull) == JStr(HandlerName(r.calls[0].handler)))
    ensures !taskInfo.JObj? ==> r == RunResult(HttpError(500, "Task information format error"), [])
  {
    if !taskInfo.JObj? then RunResult(HttpError(500, "Task information format error"), [])
    else
      var funcName := GetOr(taskInfo.fields, "function", JNull);
      var params := GetOr(taskInfo.fields, "params", JObj([]));
      if !Truthy(funcName) then RunResult(HttpError(400, "Missing 'function' key in task_info"), [])
      else if funcName.JArr? || funcName.JObj? then
        RunResult(Uncaught(TypeError("unhashable type: " + Quoted(TypeName(funcName)))), [])
      else
        match Resolve(funcName)
        case None => RunResult(HttpError(400, "Function '" + ShowScalar(funcName) + "' not recognized."), [])
        case Some(h) => Call(h, AsKwargs(params), invoke)
  }

  /** The `/run` endpoint of finalmain.py. */
  function RunTask(task: string, env: Oracles): (r: RunResult)
    ensures |r.calls| <= 1
    ensures r.calls != [] ==>
              var info := DetermineTask(task, env.completion, env.parse);
              info.Ok? && info.value.JObj? && GetOr(info.value.fields, "function", JNull) == JStr(HandlerName(r.calls[0].handler))
  {
    match DetermineTask(task, env.completion, env.parse)
    case Err(e) => RunResult(HttpError(500, "LLM processing error: " + e.msg), [])
    case Ok(info) => Dispatch(info, env.invoke)
  }

  /** The `/read` endpoint: the path gets a "." prefix and the file is read. */
  function ReadFile(fs: Fs, path: string): (r: Response)
    ensures "." + path !in fs ==> r == HttpError(404, "File not found")
    ensures r.Success? <==> "." + path in fs && fs["." + path].File?
    ensures r.Success? ==> r.result == JStr(fs["." + path].text)
  {
    var p := "." + path;
    if !Exists(fs, p) then HttpError(404, "File not found")
    else match ReadText(fs, p)
      case Ok(content) => Success(JStr(content))
      case Err(e) => HttpError(500, e.msg)
  }
}
