/** What `determine_task` and `run_task` in finalmain.py promise: the fence
    strip makes a fenced object parse like the bare one, text that does not
    parse fails before any handler runs, and only a registered name whose
    arguments bind reaches a handler, exactly once. */
module TaskAgentProperties {
  import opened PyValues
  import opened PyStrings
  import opened FileSystem
  import opened TaskAgent

  /** A chat-completion response whose single choice carries `text`. */
  function Respond(text: string): Json {
    JObj([("choices", JArr([JObj([("message", JObj([("content", JStr(text))]))])]))])
  }

  lemma ContentOfRespond(text: string)
    ensures ExtractContent(Respond(text)) == Ok(Strip(text))
  {
    var message := JObj([("content", JStr(text))]);
    var choice := JObj([("message", message)]);
    OneField("choices", JArr([choice]), JArr([]));
    OneField("message", message, JObj([]));
    OneField("content", JStr(text), JStr(""));
    assert DictGet(Respond(text), "choices", JArr([])) == Ok(JArr([choice]));
    assert Index0(JArr([choice])) == Ok(choice);
    assert DictGet(choice, "message", JObj([])) == Ok(message);
    assert DictGet(message, "content", JStr("")) == Ok(JStr(text));
  }

  lemma OneField(k: string, v: Json, default: Json)
    ensures GetOr([(k, v)], k, default) == v
  {
  }

  lemma FenceOpens(body: string)
    ensures Strip("```json\n" + body + "\n```") == "```json\n" + body + "\n```"
    ensures StartsWith("```json\n" + body + "\n```", "```json")
  {
    var w := "```json\n" + body + "\n```";
    assert w[0] == '`' && w[|w| - 1] == '`';
    StripIsIdempotentOn(w);
    assert w == "```json" + ("\n" + body + "\n```");
  }

  lemma FenceLeft(body: string)
    ensures LStrip("```json\n" + body + "\n```", IsFenceChar) == "\n" + body + "\n```"
  {
    var l := "\n" + body + "\n```";
    assert "```json\n" + body + "\n```" == "```json" + l;
    LStripPrefix("```json", l, IsFenceChar);
    LStripNoop(l, IsFenceChar);
  }

  lemma FenceRight(body: string)
    ensures RStrip("\n" + body + "\n```", IsBacktick) == "\n" + body + "\n"
  {
    var m := "\n" + body + "\n";
    assert "\n" + body + "\n```" == m + "```";
    RStripSuffix(m, "```", IsBacktick);
    RStripNoop(m, IsBacktick);
  }

  lemma NewlinePadded(body: string)
    ensures Strip("\n" + body + "\n") == Strip(body)
  {
    StripPadded(body, "\n", "\n");
  }

  /** The fence strip takes "```json\n" and "\n```" off a text, and the
      whitespace next to them. */
  lemma FenceStripped(body: string)
    ensures Strip("```json\n" + body + "\n```") == "```json\n" + body + "\n```"
    ensures StripFence("```json\n" + body + "\n```") == Strip(body)
  {
    FenceOpens(body);
    FenceLeft(body);
    FenceRight(body);
    NewlinePadded(body);
  }

  lemma StripIsIdempotentOn(w: string)
    requires w != [] && !IsSpace(w[0]) && !IsSpace(w[|w| - 1])
    ensures Strip(w) == w
  {
    LStripNoop(w, IsSpace);
    RStripNoop(w, IsSpace);
  }

  /** `determine_task` on a completion whose text is `text`. */
  lemma DetermineOnResponse(task: string, text: string, completion: string -> Result<Json>, parse: string -> Decoded)
    requires completion(task) == Ok(Respond(text))
    ensures DetermineTask(task, completion, parse) == DecodeText(StripFence(Strip(text)), parse)
  {
    ContentOfRespond(text);
  }

  lemma UnfencedKept(text: string)
    requires !StartsWith(text, "```json")
    ensures StripFence(text) == text
  {
  }

  /** A completion wrapped as "```json\n" + body + "\n```" resolves to the
      same descriptor as the bare body, for every body that does not itself
      open a fence. */
  lemma FencedCompletionParsesAsUnwrapped(task: string, body: string, parse: string -> Decoded)
    requires !StartsWith(Strip(body), "```json")
    ensures DetermineTask(task, _ => Ok(Respond("```json\n" + body + "\n```")), parse)
         == DetermineTask(task, _ => Ok(Respond(body)), parse)
  {
    var fenced := "```json\n" + body + "\n```";
    DetermineOnResponse(task, fenced, _ => Ok(Respond(fenced)), parse);
    DetermineOnResponse(task, body, _ => Ok(Respond(body)), parse);
    FenceStripped(body);
    UnfencedKept(Strip(body));
  }

  /** The strip works on a set of characters, not on the "```json" prefix:
      after the fence, every further leading ` j s o n is lost too, and so is
      every trailing backtick. So "```jsonnull```" decodes as "ull". */
  lemma FenceStripIsCharacterSet(p: string, t: string)
    requires forall i :: 0 <= i < |p| ==> IsFenceChar(p[i])
    requires t == [] || !IsFenceChar(t[0])
    ensures StripFence("```json" + p + t) == Strip(RStrip(t, IsBacktick))
  {
    StartsWithConcat("```json", p, t);
    FencePrefixDropped(p, t);
  }

  lemma StartsWithConcat(a: string, b: string, c: string)
    ensures StartsWith(a + b + c, a)
  {
    assert (a + b + c)[..|a|] == a;
  }

  lemma FencePrefixDropped(p: string, t: string)
    requires forall i :: 0 <= i < |p| ==> IsFenceChar(p[i])
    requires t == [] || !IsFenceChar(t[0])
    ensures LStrip("```json" + p + t, IsFenceChar) == t
  {
    var q := "```json" + p;
    assert forall i :: 0 <= i < |q| ==> IsFenceChar(q[i]) by {
      forall i | 0 <= i < |q| ensures IsFenceChar(q[i]) {
        if i >= 7 { assert q[i] == p[i - 7]; }
      }
    }
    LStripPrefix(q, t, IsFenceChar);
    LStripNoop(t, IsFenceChar);
  }

  /** Completion text that does not decode gives a 500 whose detail quotes
      the text, and no handler runs. */
  lemma MalformedCompletionInvokesNothing(task: string, text: string, env: Oracles, why: string)
    requires text == Strip(text) && !StartsWith(text, "```json")
    requires env.completion(task) == Ok(Respond(text))
    requires env.parse(text) == DecodeError(why)
    ensures RunTask(task, env) == RunResult(
      HttpError(500, "LLM processing error: " + ("Failed to parse LLM response: " + text + ". Error: " + why)), [])
  {
    var msg := "Failed to parse LLM response: " + text + ". Error: " + why;
    MalformedIsValueError(task, text, env.completion, env.parse, why);
    IntentFailureInvokesNothing(task, env, ValueError(msg));
  }

  lemma MalformedIsValueError(task: string, text: string, completion: string -> Result<Json>, parse: string -> Decoded, why: string)
    requires text == Strip(text) && !StartsWith(text, "```json")
    requires completion(task) == Ok(Respond(text))
    requires parse(text) == DecodeError(why)
    ensures DetermineTask(task, completion, parse)
         == Err(ValueError("Failed to parse LLM response: " + text + ". Error: " + why))
  {
    DetermineOnResponse(task, text, completion, parse);
    UnfencedKept(text);
  }

  /** For any completion text, padded or fenced: when what remains after
      the strip and the fence strip does not decode, `determine_task`
      raises a ValueError quoting that remainder, not the raw text. */
  lemma AnyMalformedIsValueError(task: string, raw: string, completion: string -> Result<Json>,
                                 parse: string -> Decoded, why: string)
    requires completion(task) == Ok(Respond(raw))
    requires parse(StripFence(Strip(raw))) == DecodeError(why)
    ensures DetermineTask(task, completion, parse)
         == Err(ValueError("Failed to parse LLM response: " + StripFence(Strip(raw)) + ". Error: " + why))
  {
    DetermineOnResponse(task, raw, completion, parse);
  }

  /** The same at the endpoint: a 500 quoting that message, and no handler runs. */
  lemma AnyMalformedInvokesNothing(task: string, raw: string, env: Oracles, why: string)
    requires env.completion(task) == Ok(Respond(raw))
    requires env.parse(StripFence(Strip(raw))) == DecodeError(why)
    ensures RunTask(task, env) == RunResult(
      HttpError(500, "LLM processing error: " + ("Failed to parse LLM response: " + StripFence(Strip(raw)) + ". Error: " + why)), [])
  {
    var msg := "Failed to parse LLM response: " + StripFence(Strip(raw)) + ". Error: " + why;
    AnyMalformedIsValueError(task, raw, env.completion, env.parse, why);
    IntentFailureInvokesNothing(task, env, ValueError(msg));
  }

  /** A failing completion call gives a 500 and no handler runs. */
  lemma CompletionFailureInvokesNothing(task: string, env: Oracles, e: PyError)
    requires env.completion(task) == Err(e)
    ensures RunTask(task, env) == RunResult(HttpError(500, "LLM processing error: " + e.msg), [])
  {
  }

  /** Any failure of `determine_task` gives a 500 and no handler runs. */
  lemma IntentFailureInvokesNothing(task: string, env: Oracles, e: PyError)
    requires DetermineTask(task, env.completion, env.parse) == Err(e)
    ensures RunTask(task, env) == RunResult(HttpError(500, "LLM processing error: " + e.msg), [])
  {
  }

  /** A descriptor that is not a dict is rejected with 500. */
  lemma NonDictDescriptorRejected(task: string, env: Oracles)
    requires DetermineTask(task, env.completion, env.parse).Ok?
    requires !DetermineTask(task, env.completion, env.parse).value.JObj?
    ensures RunTask(task, env) == RunResult(HttpError(500, "Task information format error"), [])
  {
  }

  /** A missing or falsy "function" is rejected with 400 before lookup. */
  lemma MissingFunctionRejected(fields: seq<(string, Json)>, invoke: (Handler, map<string, Json>) -> Result<Json>)
    requires !Truthy(GetOr(fields, "function", JNull))
    ensures Dispatch(JObj(fields), invoke) == RunResult(HttpError(400, "Missing 'function' key in task_info"), [])
  {
  }

  /** A name outside the table is rejected with 400 and no handler runs. */
  lemma UnknownFunctionRejected(fields: seq<(string, Json)>, name: string, invoke: (Handler, map<string, Json>) -> Result<Json>)
    requires GetOr(fields, "function", JNull) == JStr(name) && name != ""
    requires !Registered(name)
    ensures Dispatch(JObj(fields), invoke) == RunResult(HttpError(400, "Function '" + name + "' not recognized."), [])
  {
  }

  /** A truthy number or boolean equals no key of the table: it is
      rejected with 400, shown as `str()` shows it, and no handler runs. */
  lemma NonStringNameRejected(fields: seq<(string, Json)>, invoke: (Handler, map<string, Json>) -> Result<Json>)
    requires Truthy(GetOr(fields, "function", JNull))
    requires GetOr(fields, "function", JNull).JInt? || GetOr(fields, "function", JNull).JBool?
    ensures Dispatch(JObj(fields), invoke) ==
              RunResult(HttpError(400, "Function '" + ShowScalar(GetOr(fields, "function", JNull)) + "' not recognized."), [])
  {
  }

  /** A non-empty list or dict as the name cannot be hashed for the
      `in task_functions` test: the TypeError escapes uncaught and no
      handler runs. */
  lemma UnhashableNameUncaught(fields: seq<(string, Json)>, invoke: (Handler, map<string, Json>) -> Result<Json>)
    requires Truthy(GetOr(fields, "function", JNull))
    requires GetOr(fields, "function", JNull).JArr? || GetOr(fields, "function", JNull).JObj?
    ensures Dispatch(JObj(fields), invoke) ==
              RunResult(Uncaught(TypeError("unhashable type: " + Quoted(TypeName(GetOr(fields, "function", JNull))))), [])
  {
  }

  /** When the name is registered and the keywords bind, the handler runs
      exactly once with the bound arguments; its return value is wrapped in
      the success envelope and its exception becomes a 500. */
  lemma RegisteredHandlerRunsOnce(fields: seq<(string, Json)>, h: Handler, kwargs: seq<(string, Json)>,
                                  invoke: (Handler, map<string, Json>) -> Result<Json>)
    requires GetOr(fields, "function", JNull) == JStr(HandlerName(h))
    requires GetOr(fields, "params", JObj([])) == JObj(kwargs)
    requires Bind(h, kwargs).Ok?
    ensures var args := Bind(h, kwargs).value;
            var r := Dispatch(JObj(fields), invoke);
            && r.calls == [Invocation(h, args)]
            && (invoke(h, args).Ok? ==> r.response == Success(SuccessEnvelope(invoke(h, args).value)))
            && (invoke(h, args).Err? ==> r.response == HttpError(500, "Task execution error: " + invoke(h, args).error.msg))
  {
    DispatchToCall(fields, h, invoke);
  }

  /** A descriptor naming a handler of the table goes to that handler. */
  lemma DispatchToCall(fields: seq<(string, Json)>, h: Handler, invoke: (Handler, map<string, Json>) -> Result<Json>)
    requires GetOr(fields, "function", JNull) == JStr(HandlerName(h))
    ensures Dispatch(JObj(fields), invoke) == Call(h, AsKwargs(GetOr(fields, "params", JObj([]))), invoke)
  {
    FindHandlerOfName(h);
    assert Resolve(JStr(HandlerName(h))) == Some(h);
  }

  lemma NoUserEmailParam(h: Handler)
    requires h != InstallUvAndRunDatagen
    ensures !IsParam(Params(h), "user_email")
  {
  }

  /** A scalar "params" is rebound as {"user_email": params}: it binds for
      install_uv_and_run_datagen only; every other handler raises a TypeError,
      reported as 500, and runs not at all. */
  lemma ScalarParamsBindOnlyForDatagen(fields: seq<(string, Json)>, h: Handler, params: Json,
                                       invoke: (Handler, map<string, Json>) -> Result<Json>)
    requires GetOr(fields, "function", JNull) == JStr(HandlerName(h))
    requires GetOr(fields, "params", JObj([])) == params && !params.JObj?
    ensures h == InstallUvAndRunDatagen ==>
              Dispatch(JObj(fields), invoke).calls == [Invocation(h, map["user_email" := params])]
    ensures h != InstallUvAndRunDatagen ==>
              Dispatch(JObj(fields), invoke) == RunResult(HttpError(500,
                "Task execution error: " + (HandlerName(h) + "() got an unexpected keyword argument 'user_email'")), [])
  {
    var kwargs := [("user_email", params)];
    DispatchToCall(fields, h, invoke);
    assert AsKwargs(params) == kwargs;
    if h == InstallUvAndRunDatagen {
      DatagenBindsScalar(params);
    } else {
      UserEmailRejected(h, params);
    }
  }

  lemma UserEmailRejected(h: Handler, params: Json)
    requires h != InstallUvAndRunDatagen
    ensures Bind(h, [("user_email", params)])
         == Err(TypeError(HandlerName(h) + "() got an unexpected keyword argument 'user_email'"))
  {
    NoUserEmailParam(h);
    var kwargs := [("user_email", params)];
    UnexpectedSingle(Params(h), "user_email", params);
    BindUnexpected(h, kwargs, "user_email");
    assert Quoted("user_email") == "'user_email'";
  }

  lemma UnexpectedSingle(ps: seq<Param>, k: string, v: Json)
    requires !IsParam(ps, k)
    ensures UnexpectedKeyword(ps, [(k, v)]) == Some(k)
  {
  }

  /** The first unexpected keyword decides the binding's TypeError. */
  lemma BindUnexpected(h: Handler, kwargs: seq<(string, Json)>, k: string)
    requires UnexpectedKeyword(Params(h), kwargs) == Some(k)
    ensures Bind(h, kwargs) == Err(TypeError(HandlerName(h) + "() got an unexpected keyword argument " + Quoted(k)))
  {
  }

  lemma DatagenBindsScalar(params: Json)
    ensures Bind(InstallUvAndRunDatagen, [("user_email", params)]) == Ok(map["user_email" := params])
  {
    var kwargs := [("user_email", params)];
    assert kwargs[0].0 == "user_email";
    assert Params(InstallUvAndRunDatagen)[0].name == "user_email";
    assert HasKey(kwargs, "user_email");
    assert IsParam(Params(InstallUvAndRunDatagen), "user_email");
    var args := Bind(InstallUvAndRunDatagen, kwargs).value;
    assert args.Keys == {"user_email"};
    assert Lookup(kwargs, "user_email") == Some(params);
  }
}
