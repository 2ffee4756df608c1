/**
 * `OsduMCPServer.handle_request`: a closed table over method names that turns one
 * decoded JSON-RPC request into a response envelope, reading the data store.
 */
module Server {
  import opened Wrappers
  import opened Json
  import opened Text
  import opened Dicts
  import opened Store
  import opened Tools
  import Catalog

  /** Error codes of section 5.1 of the JSON-RPC 2.0 Specification. */
  const METHOD_NOT_FOUND: int := -32601
  const INVALID_PARAMS: int := -32602
  /** From the range the JSON-RPC 2.0 Specification reserves for implementation-defined server errors. */
  const SERVER_ERROR: int := -32000

  /** The methods the table answers. */
  const METHODS: set<string> := {"initialize", "notifications/initialized", "resources/list", "resources/read",
                                 "tools/list", "tools/call", "prompts/list", "prompts/get"}
  /** The tool names `tools/call` accepts. */
  const TOOLS: set<string> := {"add_numbers", "get_casings_for_well", "list_all_wells"}

  const GREETING_SCHEME := "greeting://"
  const SEPARATOR := "://"

  /** The three prompt styles; any other style is rendered with the friendly one. */
  const STYLES: map<string, string> := map[
    "friendly" := "Write a warm and friendly greeting",
    "formal" := "Write a professional and formal greeting",
    "casual" := "Write a relaxed and casual greeting"]

  /** What a handler produced: the `result` member, or the `error` member's code and message. */
  datatype Answer = Result(value: Value) | Error(code: int, message: string)

  /** A response envelope, or an exception escaping `handle_request` (which the transport turns into HTTP 500). */
  datatype Outcome = Respond(envelope: Value) | Crash

  /** `{"jsonrpc": "2.0", "result" | "error": ..., "id": id}`. */
  function Envelope(id: Value, a: Answer): (e: Value)
    ensures IsEnvelope(e, id)
    ensures a.Result? <==> "result" in e.fields
    ensures a.Result? ==> e.fields["result"] == a.value
    ensures a.Error? ==> e.fields["error"].fields["code"] == Int(a.code) && e.fields["error"].fields["message"] == Str(a.message)
  {
    match a
    case Result(v) => Obj(map["jsonrpc" := Str("2.0"), "result" := v, "id" := id])
    case Error(c, m) =>
      Obj(map["jsonrpc" := Str("2.0"), "error" := Obj(map["code" := Int(c), "message" := Str(m)]), "id" := id])
  }

  /** `request.get("id", 1)`. */
  function RequestId(request: map<string, Value>): Value {
    Get(request, "id", Int(1))
  }

  /**
   * A JSON-RPC 2.0 response: version "2.0", the given id, exactly one of `result`
   * and `error`, nothing else, and an error object with an integer code and a message.
   */
  ghost predicate IsEnvelope(e: Value, id: Value) {
    && e.Obj?
    && e.fields.Keys <= {"jsonrpc", "result", "error", "id"}
    && "jsonrpc" in e.fields && e.fields["jsonrpc"] == Str("2.0")
    && "id" in e.fields && e.fields["id"] == id
    && (("result" in e.fields) != ("error" in e.fields))
    && ("error" in e.fields ==>
          var err := e.fields["error"];
          err.Obj? && "code" in err.fields && err.fields["code"].Int? && "message" in err.fields && err.fields["message"].Str?)
  }

  /** `find(uri, "://")` meets the separator right after "greeting". */
  lemma GreetingSeparator(uri: string)
    requires StartsWith(uri, GREETING_SCHEME)
    ensures Find(uri, SEPARATOR, 0) == Some(8)
  {
    assert uri[8..11] == uri[..11][8..11] == SEPARATOR;
    assert OccursAt(uri, SEPARATOR, 8);
    forall k: nat | k < 8 ensures !OccursAt(uri, SEPARATOR, k) {
      assert uri[k] == GREETING_SCHEME[k] != ':';
      assert uri[k..k + 3][0] == uri[k];
    }
  }

  /**
   * `uri.split("://")[1]` for a greeting URI: the text after "greeting://" up to the
   * next "://" or the end; it may be empty.
   */
  function GreetingName(uri: string): (name: string)
    requires StartsWith(uri, GREETING_SCHEME)
    ensures var rest := uri[|GREETING_SCHEME|..];
      StartsWith(rest, name) && Free(name, SEPARATOR) && (name == rest || OccursAt(rest, SEPARATOR, |name|))
  {
    GreetingSeparator(uri);
    var rest := uri[|GREETING_SCHEME|..];
    assert Split(uri, SEPARATOR)[1] == Split(rest, SEPARATOR)[0];
    FirstPiece(rest, SEPARATOR);
    SplitPiecesFree(rest, SEPARATOR, 0);
    Split(uri, SEPARATOR)[1]
  }

  /** `resources/read`: a greeting URI first, then the three collection URIs. */
  function ReadResource(t: Tables, params: Value): (a: Option<Answer>)
    requires t.Valid()
    ensures a.None? <==> !params.Obj? || !Get(params.fields, "uri", Str("")).Str?
    ensures a.Some? ==> a.value.Result? || a.value.code == INVALID_PARAMS
  {
    if !params.Obj? then None
    else
      match Get(params.fields, "uri", Str(""))
      case Str(uri) =>
        if StartsWith(uri, GREETING_SCHEME) then
          Some(Result(Str("Hello, " + GreetingName(uri) + "! Welcome to the MCP demo.")))
        else if uri == "osdu:wells" then Some(Result(ListJson(Values(t.wells))))
        else if uri == "osdu:trajectories" then Some(Result(ListJson(Values(t.trajectories))))
        else if uri == "osdu:casings" then Some(Result(ListJson(Values(t.casings))))
        else Some(Error(INVALID_PARAMS, "Invalid resource URI: " + uri))
      case _ => None
  }

  /** The handler of a known tool. */
  function RunTool(t: Tables, tool: string, args: Value): Result<Value, Fault>
    requires t.Valid() && tool in TOOLS
  {
    if tool == "add_numbers" then AddNumbers(args)
    else if tool == "get_casings_for_well" then CasingsForWell(Values(t.casings), args)
    else ListAllWells(t.wells)
  }

  /**
   * A known tool's outcome as the `try` of `tools/call` sees it: the handler runs, and
   * then the debug line writes the response out with `json.dumps`, which can raise too.
   */
  function ToolOutcome(t: Tables, tool: string, args: Value): Result<Value, Fault>
    requires t.Valid() && tool in TOOLS
  {
    match RunTool(t, tool, args)
    case Ok(v) => Encodable(v)
    case Err(f) => Err(f)
  }

  /**
   * `tools/call`: a known tool runs and any exception it raises becomes a server
   * error; an unknown tool name is an invalid-params error.  A non-string name
   * escapes: it is either unhashable or cannot be concatenated into the message.
   */
  function CallTool(t: Tables, params: Value): (a: Option<Answer>)
    requires t.Valid()
    ensures a.None? <==> !params.Obj? || !Get(params.fields, "name", Str("")).Str?
    ensures a.Some? && a.value.Error? ==> a.value.code in {INVALID_PARAMS, SERVER_ERROR}
    ensures a.Some? && a.value.Error? && a.value.code == INVALID_PARAMS <==>
              params.Obj? && Get(params.fields, "name", Str("")).Str? && Get(params.fields, "name", Str("")).s !in TOOLS
  {
    if !params.Obj? then None
    else
      match Get(params.fields, "name", Str(""))
      case Str(tool) =>
        if tool in TOOLS then
          match ToolOutcome(t, tool, Get(params.fields, "params", EMPTY))
          case Ok(v) => Some(Result(v))
          case Err(f) => Some(Error(SERVER_ERROR, "Tool call error: " + FaultText(f)))
        else Some(Error(INVALID_PARAMS, "Invalid tool name: " + tool))
      case _ => None
  }

  /** `styles.get(style, styles['friendly'])` for a hashable style. */
  function Template(style: Value): (s: string)
    ensures s in STYLES.Values
  {
    if style.Str? && style.s in STYLES then STYLES[style.s] else STYLES["friendly"]
  }

  /**
   * `prompts/get`: only `generate_greeting` exists.  An exception escapes when `params`
   * or, for `generate_greeting`, its nested `params` is not an object, when the style
   * cannot be hashed or the `name` argument is not a string, and when any other prompt
   * name is not a string.
   */
  function GetPrompt(params: Value): (a: Option<Answer>)
    ensures !params.Obj? ==> a.None?
    ensures params.Obj? ==>
      var prompt := Get(params.fields, "name", Str(""));
      var args := Get(params.fields, "params", EMPTY);
      && (prompt == Str("generate_greeting") ==>
            (a.None? <==> !args.Obj? || !Hashable(Get(args.fields, "style", Str("friendly")))
                          || !Get(args.fields, "name", Str("")).Str?)
            && (a.Some? ==> a.value.Result?))
      && (prompt != Str("generate_greeting") && prompt.Str? ==> a == Some(Error(INVALID_PARAMS, "Invalid prompt name: " + prompt.s)))
      && (!prompt.Str? ==> a.None?)
  {
    if !params.Obj? then None
    else
      var prompt := Get(params.fields, "name", Str(""));
      var args := Get(params.fields, "params", EMPTY);
      if prompt == Str("generate_greeting") then
        if !args.Obj? then None
        else
          var style := Get(args.fields, "style", Str("friendly"));
          if !Hashable(style) then None
          else
            match Get(args.fields, "name", Str(""))
            case Str(who) => Some(Result(Str(Template(style) + " for " + who + ".")))
            case _ => None
      else if prompt.Str? then Some(Error(INVALID_PARAMS, "Invalid prompt name: " + prompt.s))
      else None
  }

  /** The if/elif table over method names; `None` when an exception escapes. */
  function Handle(t: Tables, name: string, params: Value): (a: Option<Answer>)
    requires t.Valid()
    ensures name !in METHODS ==> a == Some(Error(METHOD_NOT_FOUND, "Method not found: " + name))
    ensures a.Some? && a.value.Error? ==> a.value.code in {METHOD_NOT_FOUND, INVALID_PARAMS, SERVER_ERROR}
    ensures a.Some? && a.value.Error? && a.value.code == METHOD_NOT_FOUND ==> name !in METHODS
    ensures a.None? ==> name in {"resources/read", "tools/call", "prompts/get"}
  {
    if name == "initialize" then Some(Result(Catalog.INITIALIZE_RESULT))
    else if name == "notifications/initialized" then Some(Result(EMPTY))
    else if name == "resources/list" then Some(Result(Obj(map["resources" := Catalog.RESOURCES, "nextCursor" := Null])))
    else if name == "resources/read" then ReadResource(t, params)
    else if name == "tools/list" then Some(Result(Obj(map["tools" := Catalog.TOOL_LIST])))
    else if name == "tools/call" then CallTool(t, params)
    else if name == "prompts/list" then Some(Result(Obj(map["prompts" := Catalog.PROMPTS])))
    else if name == "prompts/get" then GetPrompt(params)
    else Some(Error(METHOD_NOT_FOUND, "Method not found: " + name))
  }

  /**
   * `handle_request`.  A request that is not an object, or whose `method` is missing
   * or not a string (the debug line concatenates it), escapes before the table.
   */
  function Dispatch(t: Tables, request: Value): (out: Outcome)
    requires t.Valid()
    ensures out.Respond? ==> request.Obj? && IsEnvelope(out.envelope, RequestId(request.fields))
    ensures out.Respond? ==> Get(request.fields, "method", Null).Str?
  {
    if !request.Obj? then Crash
    else
      match Get(request.fields, "method", Null)
      case Str(name) =>
        (match Handle(t, name, Get(request.fields, "params", EMPTY))
         case Some(a) => Respond(Envelope(RequestId(request.fields), a))
         case None => Crash)
      case _ => Crash
  }
}
