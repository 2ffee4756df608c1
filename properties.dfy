/**
 * What `handle_request` promises its callers, stated over whole requests: the
 * envelope it answers with, the error codes, and the result of each operation.
 */
module Properties {
  import opened Wrappers
  import opened Json
  import opened Text
  import opened Dicts
  import opened Store
  import opened Tools
  import opened Server
  import Catalog

  /** `request` is an object whose `method` is `name` and whose `params` (`{}` when absent) are `params`. */
  predicate Calls(request: Value, name: string, params: Value) {
    request.Obj? && Get(request.fields, "method", Null) == Str(name) && Get(request.fields, "params", EMPTY) == params
  }

  /** `params` is an object whose member `key` is `v`, or `default` when absent. */
  predicate Has(params: Value, key: string, default: Value, v: Value) {
    params.Obj? && Get(params.fields, key, default) == v
  }

  /** The response is the envelope of `a` carrying the request's id (or 1). */
  ghost predicate Answers(t: Tables, request: Value, a: Answer)
    requires t.Valid() && request.Obj?
  {
    Dispatch(t, request) == Respond(Envelope(RequestId(request.fields), a))
  }

  /** A request is answered with whatever the table answers for its method. */
  lemma ViaHandle(t: Tables, request: Value, name: string, params: Value, a: Answer)
    requires t.Valid() && Calls(request, name, params) && Handle(t, name, params) == Some(a)
    ensures Answers(t, request, a)
  {
  }

  /** The three methods that read `params` reach their handlers. */
  lemma Routes(t: Tables, params: Value)
    requires t.Valid()
    ensures Handle(t, "resources/read", params) == ReadResource(t, params)
    ensures Handle(t, "tools/call", params) == CallTool(t, params)
    ensures Handle(t, "prompts/get", params) == GetPrompt(params)
  {
    assert "resources/read" != "initialize" && "resources/read" != "notifications/initialized"
      && "resources/read" != "resources/list" by { assert "resources/read"[10] == 'r'; }
    assert "tools/call" != "initialize" && "tools/call" != "notifications/initialized" && "tools/call" != "resources/list"
      && "tools/call" != "resources/read" && "tools/call" != "tools/list" by { assert "tools/call"[6] == 'c'; }
    assert "prompts/get" != "initialize" && "prompts/get" != "notifications/initialized"
      && "prompts/get" != "resources/list" && "prompts/get" != "resources/read" && "prompts/get" != "tools/list"
      && "prompts/get" != "tools/call" && "prompts/get" != "prompts/list" by { assert "prompts/get"[0] == 'p' && "prompts/get"[8] == 'g'; }
  }

  /**
   * A known tool's outcome becomes the answer: its value, or a server error carrying
   * the text of the exception the handler or the writing out of its value raised.
   */
  lemma ViaTool(t: Tables, request: Value, params: Value, tool: string)
    requires t.Valid() && Calls(request, "tools/call", params) && Has(params, "name", Str(""), Str(tool)) && tool in TOOLS
    ensures var r := ToolOutcome(t, tool, Get(params.fields, "params", EMPTY));
      (r.Ok? ==> Answers(t, request, Result(r.value))) &&
      (r.Err? ==> Answers(t, request, Error(SERVER_ERROR, "Tool call error: " + FaultText(r.error))))
  {
    Routes(t, params);
  }

  /** A known tool whose outcome is the exception `f` is answered with a server error carrying its text. */
  lemma ViaToolErr(t: Tables, request: Value, params: Value, tool: string, f: Fault)
    requires t.Valid() && Calls(request, "tools/call", params) && Has(params, "name", Str(""), Str(tool)) && tool in TOOLS
    requires ToolOutcome(t, tool, Get(params.fields, "params", EMPTY)) == Err(f)
    ensures Answers(t, request, Error(SERVER_ERROR, "Tool call error: " + FaultText(f)))
  {
    ViaTool(t, request, params, tool);
  }

  /** The id of every response echoes the request's `id` member, and is 1 when there is none. */
  lemma EchoesId(t: Tables, request: Value)
    requires t.Valid() && Dispatch(t, request).Respond?
    ensures var e := Dispatch(t, request).envelope.fields;
      "id" in e && e["id"] == (if "id" in request.fields then request.fields["id"] else Int(1))
  {
  }

  /** A request that is not an object, or has no string `method`, escapes to the transport. */
  lemma MalformedRequestEscapes(t: Tables, request: Value)
    requires t.Valid()
    requires !request.Obj? || !Get(request.fields, "method", Null).Str?
    ensures Dispatch(t, request) == Crash
  {
  }

  /** An unknown method name is answered with -32601 and the name. */
  lemma UnknownMethod(t: Tables, request: Value, name: string, params: Value)
    requires t.Valid() && Calls(request, name, params) && name !in METHODS
    ensures Answers(t, request, Error(METHOD_NOT_FOUND, "Method not found: " + name))
  {
  }

  /**
   * Every error response carries one of the three codes, and -32601 exactly when
   * the method name is unknown.
   */
  lemma ErrorCodes(t: Tables, request: Value, name: string, params: Value, code: int, message: string)
    requires t.Valid() && Calls(request, name, params) && Answers(t, request, Error(code, message))
    ensures code in {METHOD_NOT_FOUND, INVALID_PARAMS, SERVER_ERROR}
    ensures code == METHOD_NOT_FOUND <==> name !in METHODS
  {
    var a := Handle(t, name, params);
    assert Envelope(RequestId(request.fields), a.value) == Envelope(RequestId(request.fields), Error(code, message));
    assert a == Some(Error(code, message));
  }

  /** Only `resources/read`, `tools/call` and `prompts/get` look at `params`, so only they can escape. */
  lemma OnlyParamMethodsEscape(t: Tables, request: Value, name: string, params: Value)
    requires t.Valid() && Calls(request, name, params) && Dispatch(t, request) == Crash
    ensures name in {"resources/read", "tools/call", "prompts/get"}
  {
  }

  /** The static methods answer their fixed documents whatever the params. */
  lemma StaticMethods(t: Tables, request: Value, params: Value)
    requires t.Valid() && request.Obj?
    ensures Calls(request, "initialize", params) ==> Answers(t, request, Result(Catalog.INITIALIZE_RESULT))
    ensures Calls(request, "notifications/initialized", params) ==> Answers(t, request, Result(EMPTY))
    ensures Calls(request, "resources/list", params) ==>
      Answers(t, request, Result(Obj(map["resources" := Catalog.RESOURCES, "nextCursor" := Null])))
    ensures Calls(request, "tools/list", params) ==> Answers(t, request, Result(Obj(map["tools" := Catalog.TOOL_LIST])))
    ensures Calls(request, "prompts/list", params) ==> Answers(t, request, Result(Obj(map["prompts" := Catalog.PROMPTS])))
  {
  }

  /** Any `greeting://` URI is read successfully, before the collection table is consulted. */
  lemma GreetingRead(t: Tables, request: Value, params: Value, uri: string)
    requires t.Valid() && Calls(request, "resources/read", params) && Has(params, "uri", Str(""), Str(uri))
    requires StartsWith(uri, GREETING_SCHEME)
    ensures Answers(t, request, Result(Str("Hello, " + GreetingName(uri) + "! Welcome to the MCP demo.")))
  {
  }

  /** An example: the name ends at the next "://", and may be empty. */
  lemma GreetingNameExample()
    ensures GreetingName("greeting://Al://x") == "Al"
    ensures GreetingName("greeting://") == ""
  {
    var rest := "Al://x";
    assert "greeting://Al://x"[11..] == rest;
    assert !OccursAt(rest, SEPARATOR, 0) && !OccursAt(rest, SEPARATOR, 1) by {
      assert rest[0] != ':' && rest[1] != ':';
      assert rest[0..3][0] == rest[0] && rest[1..4][0] == rest[1];
    }
    assert OccursAt(rest, SEPARATOR, 2);
    assert Find(rest, SEPARATOR, 2) == Some(2);
    assert Find(rest, SEPARATOR, 0) == Some(2);
    assert Split(rest, SEPARATOR)[0] == "Al";
    GreetingSeparator("greeting://Al://x");
    assert Split("greeting://Al://x", SEPARATOR)[1] == Split(rest, SEPARATOR)[0];
    GreetingSeparator("greeting://");
    assert "greeting://"[11..] == "";
    assert Split("greeting://", SEPARATOR)[1] == Split("", SEPARATOR)[0] == "";
  }

  /** Each collection URI lists that dictionary's records in store order. */
  lemma CollectionRead(t: Tables, request: Value, params: Value)
    requires t.Valid() && Calls(request, "resources/read", params)
    ensures Has(params, "uri", Str(""), Str("osdu:wells")) ==> Answers(t, request, Result(ListJson(Values(t.wells))))
    ensures Has(params, "uri", Str(""), Str("osdu:trajectories")) ==>
      Answers(t, request, Result(ListJson(Values(t.trajectories))))
    ensures Has(params, "uri", Str(""), Str("osdu:casings")) ==> Answers(t, request, Result(ListJson(Values(t.casings))))
  {
    Routes(t, params);
    if params.Obj? && Get(params.fields, "uri", Str("")).Str? {
      var uri := Get(params.fields, "uri", Str(""));
      forall u | u in {"osdu:wells", "osdu:trajectories", "osdu:casings"} ensures !StartsWith(u, GREETING_SCHEME) {
        assert u[0] == 'o';
      }
      assert "osdu:trajectories" != "osdu:wells" && "osdu:casings" != "osdu:wells" && "osdu:casings" != "osdu:trajectories"
        by { assert "osdu:wells"[5] == 'w' && "osdu:trajectories"[5] == 't' && "osdu:casings"[5] == 'c'; }
      if uri == Str("osdu:wells") {
        ViaHandle(t, request, "resources/read", params, Result(ListJson(Values(t.wells))));
      } else if uri == Str("osdu:trajectories") {
        ViaHandle(t, request, "resources/read", params, Result(ListJson(Values(t.trajectories))));
      } else if uri == Str("osdu:casings") {
        ViaHandle(t, request, "resources/read", params, Result(ListJson(Values(t.casings))));
      }
    }
  }

  /** Any other URI is an invalid-params error naming it. */
  lemma InvalidUri(t: Tables, request: Value, params: Value, uri: string)
    requires t.Valid() && Calls(request, "resources/read", params) && Has(params, "uri", Str(""), Str(uri))
    requires !StartsWith(uri, GREETING_SCHEME) && uri !in {"osdu:wells", "osdu:trajectories", "osdu:casings"}
    ensures Answers(t, request, Error(INVALID_PARAMS, "Invalid resource URI: " + uri))
  {
  }

  /** An unknown tool name is an invalid-params error naming it, never a result. */
  lemma UnknownTool(t: Tables, request: Value, params: Value, tool: string)
    requires t.Valid() && Calls(request, "tools/call", params) && Has(params, "name", Str(""), Str(tool))
    requires tool !in TOOLS
    ensures Answers(t, request, Error(INVALID_PARAMS, "Invalid tool name: " + tool))
  {
  }

  /**
   * `add_numbers` on integer arguments `a` and `b` answers their sum, whatever other
   * arguments there are, as long as the sum can be written out.
   */
  lemma AddNumbersSum(t: Tables, request: Value, params: Value, args: map<string, Value>, a: int, b: int)
    requires t.Valid() && Calls(request, "tools/call", params) && Has(params, "name", Str(""), Str("add_numbers"))
    requires Has(params, "params", EMPTY, Obj(args)) && "a" in args && "b" in args && args["a"] == Int(a) && args["b"] == Int(b)
    requires FitsDigits(a + b)
    ensures Answers(t, request, Result(Int(a + b)))
  {
    assert "add_numbers" in TOOLS;
    assert RunTool(t, "add_numbers", Obj(args)) == Ok(Int(a + b));
    assert ToolOutcome(t, "add_numbers", Obj(args)) == Ok(Int(a + b));
    ViaTool(t, request, params, "add_numbers");
  }

  /** A sum of more than 4300 digits cannot be written out, so `add_numbers` answers a server error. */
  lemma AddNumbersTooLong(t: Tables, request: Value, params: Value, args: map<string, Value>, a: int, b: int)
    requires t.Valid() && Calls(request, "tools/call", params) && Has(params, "name", Str(""), Str("add_numbers"))
    requires Has(params, "params", EMPTY, Obj(args)) && "a" in args && "b" in args && args["a"] == Int(a) && args["b"] == Int(b)
    requires !FitsDigits(a + b)
    ensures Answers(t, request, Error(SERVER_ERROR, "Tool call error: " + DIGITS_LIMIT))
  {
    assert "add_numbers" in TOOLS;
    assert RunTool(t, "add_numbers", Obj(args)) == Ok(Int(a + b));
    assert ToolOutcome(t, "add_numbers", Obj(args)) == Err(ValueError(DIGITS_LIMIT));
    ViaTool(t, request, params, "add_numbers");
  }

  /** A float plus an integer beyond the double range answers the OverflowError as a server error. */
  lemma AddNumbersOverflow(t: Tables, request: Value, params: Value, args: map<string, Value>, a: real, b: int)
    requires t.Valid() && Calls(request, "tools/call", params) && Has(params, "name", Str(""), Str("add_numbers"))
    requires Has(params, "params", EMPTY, Obj(args)) && "a" in args && "b" in args && args["a"] == Float(a) && args["b"] == Int(b)
    requires !FitsDouble(b)
    ensures Answers(t, request, Error(SERVER_ERROR, "Tool call error: int too large to convert to float"))
  {
    OverflowingSum(t, args, a, b);
    ViaToolErr(t, request, params, "add_numbers", OverflowError(FLOAT_OVERFLOW));
    OverflowMessage();
  }

  /** `a + b` for a float `a` and an integer `b` beyond the double range raises the OverflowError. */
  lemma OverflowingSum(t: Tables, args: map<string, Value>, a: real, b: int)
    requires t.Valid() && "a" in args && "b" in args && args["a"] == Float(a) && args["b"] == Int(b) && !FitsDouble(b)
    ensures "add_numbers" in TOOLS
    ensures ToolOutcome(t, "add_numbers", Obj(args)) == Err(OverflowError(FLOAT_OVERFLOW))
  {
    assert "add_numbers" in TOOLS;
    assert Add(Float(a), Int(b)) == Err(OverflowError(FLOAT_OVERFLOW));
    assert AddNumbers(Obj(args)) == Err(OverflowError(FLOAT_OVERFLOW));
  }

  /** The text a server error carries for the OverflowError. */
  lemma OverflowMessage()
    ensures "Tool call error: " + FaultText(OverflowError(FLOAT_OVERFLOW)) == "Tool call error: int too large to convert to float"
  {
  }

  /** `add_numbers` without `a`, or with `a` but without `b`, is a server error naming the missing key. */
  lemma AddNumbersMissing(t: Tables, request: Value, params: Value, args: map<string, Value>)
    requires t.Valid() && Calls(request, "tools/call", params) && Has(params, "name", Str(""), Str("add_numbers"))
    requires Has(params, "params", EMPTY, Obj(args))
    ensures "a" !in args ==> Answers(t, request, Error(SERVER_ERROR, "Tool call error: 'a'"))
    ensures "a" in args && "b" !in args ==> Answers(t, request, Error(SERVER_ERROR, "Tool call error: 'b'"))
  {
    assert "add_numbers" in TOOLS;
    ViaTool(t, request, params, "add_numbers");
    assert "Tool call error: " + FaultText(KeyError("a")) == "Tool call error: 'a'";
    assert "Tool call error: " + FaultText(KeyError("b")) == "Tool call error: 'b'";
  }

  /**
   * `get_casings_for_well` with a string well id, over casings that all have a
   * `well_id`, answers exactly the casings of that well in store order when there is one.
   */
  lemma CasingsFound(t: Tables, request: Value, params: Value, args: map<string, Value>, well: string)
    requires t.Valid() && Calls(request, "tools/call", params) && Has(params, "name", Str(""), Str("get_casings_for_well"))
    requires Has(params, "params", EMPTY, Obj(args)) && "well_id" in args && args["well_id"] == Str(well)
    requires AllHaveWell(Values(t.casings)) && InWellOf(Values(t.casings), Str(well)) != []
    ensures Answers(t, request, Result(ListJson(InWellOf(Values(t.casings), Str(well)))))
  {
    KnownCasingTool();
    ViaTool(t, request, params, "get_casings_for_well");
    var r := RunTool(t, "get_casings_for_well", Get(params.fields, "params", EMPTY));
    assert r == CasingsForWell(Values(t.casings), Obj(args));
    assert r == Ok(ListJson(InWellOf(Values(t.casings), Str(well))));
  }

  /** When no casing belongs to the named well, the answer is a server error naming the well. */
  lemma NoCasingsFound(t: Tables, request: Value, params: Value, args: map<string, Value>, well: string)
    requires t.Valid() && Calls(request, "tools/call", params) && Has(params, "name", Str(""), Str("get_casings_for_well"))
    requires Has(params, "params", EMPTY, Obj(args)) && "well_id" in args && args["well_id"] == Str(well)
    requires AllHaveWell(Values(t.casings)) && InWellOf(Values(t.casings), Str(well)) == []
    ensures Answers(t, request, Error(SERVER_ERROR, "Tool call error: No casings found for well " + well))
  {
    KnownCasingTool();
    var message := "No casings found for well " + well;
    assert CasingsForWell(Values(t.casings), Obj(args)) == Err(ValueError(message));
    ViaTool(t, request, params, "get_casings_for_well");
    MessageJoin(well);
  }

  /** The server-error message for a well without casings. */
  lemma MessageJoin(well: string)
    ensures "Tool call error: " + FaultText(ValueError("No casings found for well " + well))
         == "Tool call error: No casings found for well " + well
  {
    assert "Tool call error: " + "No casings found for well " == "Tool call error: No casings found for well ";
  }

  /** `get_casings_for_well` is a known tool, handled by its own branch. */
  lemma KnownCasingTool()
    ensures "get_casings_for_well" in TOOLS && "get_casings_for_well" != "add_numbers"
  {
    assert "get_casings_for_well"[0] != "add_numbers"[0];
  }

  /** Without a `well_id` argument the KeyError surfaces as a server error. */
  lemma CasingsWithoutWell(t: Tables, request: Value, params: Value, args: map<string, Value>)
    requires t.Valid() && Calls(request, "tools/call", params) && Has(params, "name", Str(""), Str("get_casings_for_well"))
    requires Has(params, "params", EMPTY, Obj(args)) && "well_id" !in args
    ensures Answers(t, request, Error(SERVER_ERROR, "Tool call error: 'well_id'"))
  {
    MissingWell(t, args);
    ViaToolErr(t, request, params, "get_casings_for_well", KeyError("well_id"));
    assert "Tool call error: " + FaultText(KeyError("well_id")) == "Tool call error: 'well_id'";
  }

  /** `get_casings_for_well` without a `well_id` argument raises the KeyError. */
  lemma MissingWell(t: Tables, args: map<string, Value>)
    requires t.Valid() && "well_id" !in args
    ensures "get_casings_for_well" in TOOLS
    ensures ToolOutcome(t, "get_casings_for_well", Obj(args)) == Err(KeyError("well_id"))
  {
    KnownCasingTool();
    assert CasingsForWell(Values(t.casings), Obj(args)) == Err(KeyError("well_id"));
  }

  /** `list_all_wells` lists every well in store order, whatever its arguments. */
  lemma AllWells(t: Tables, request: Value, params: Value)
    requires t.Valid() && Calls(request, "tools/call", params) && Has(params, "name", Str(""), Str("list_all_wells"))
    ensures Answers(t, request, Result(ListJson(Values(t.wells))))
  {
  }

  /** The sample casings, in store order. */
  lemma SeedCasingValues()
    ensures Values(Seed().casings) == [Casing("casing1", "well1", 0.0, 500.0, 9.625),
                                       Casing("casing1b", "well1", 500.0, 1000.0, 7.0),
                                       Casing("casing2", "well2", 0.0, 700.0, 7.0)]
  {
    var d := SeedCasings();
    assert d.keys == ["casing1", "casing1b", "casing2"];
  }

  /** In the sample data, well1 has casing1 and casing1b, in that order. */
  lemma SeedCasingsOfWell1()
    ensures CasingsForWell(Values(Seed().casings), Obj(map["well_id" := Str("well1")])) ==
            Ok(ListJson([Casing("casing1", "well1", 0.0, 500.0, 9.625), Casing("casing1b", "well1", 500.0, 1000.0, 7.0)]))
  {
    SeedWell1();
    assert AllHaveWell(Values(Seed().casings)) by { SeedCasingValues(); }
    CasingsOfNamedWell(Values(Seed().casings), "well1");
  }

  /** Asking for a well that has casings, over casings that all have a `well_id`, lists them. */
  lemma CasingsOfNamedWell(cs: seq<Record>, well: string)
    requires AllHaveWell(cs) && InWellOf(cs, Str(well)) != []
    ensures CasingsForWell(cs, Obj(map["well_id" := Str(well)])) == Ok(ListJson(InWellOf(cs, Str(well))))
  {
  }

  /** The sample casings of well1. */
  lemma SeedWell1()
    ensures InWellOf(Values(Seed().casings), Str("well1")) ==
            [Casing("casing1", "well1", 0.0, 500.0, 9.625), Casing("casing1b", "well1", 500.0, 1000.0, 7.0)]
  {
    SeedCasingValues();
    var cs := Values(Seed().casings);
    assert "well2" != "well1" by { assert "well2"[4] != "well1"[4]; }
    assert cs[1..] == [cs[1], cs[2]] && cs[2..] == [cs[2]] && cs[2..][1..] == [];
    assert cs[1..][1..] == cs[2..];
    assert InWellOf(cs[2..], Str("well1")) == [];
    assert InWellOf(cs[1..], Str("well1")) == [cs[1]];
  }

  /** A well none of whose casings is listed has no matches. */
  lemma NoneInWell(cs: seq<Record>, well: string)
    requires forall i :: 0 <= i < |cs| ==> cs[i].wellId != Some(well)
    ensures InWellOf(cs, Str(well)) == []
  {
    assert forall c :: c in cs ==> !InWell(c, Str(well));
  }

  /** Asking for a well without casings, over casings that all have a `well_id`, raises the ValueError. */
  lemma NoCasingsOfNamedWell(cs: seq<Record>, well: string)
    requires AllHaveWell(cs) && InWellOf(cs, Str(well)) == []
    ensures CasingsForWell(cs, Obj(map["well_id" := Str(well)])) == Err(ValueError("No casings found for well " + well))
  {
  }

  /** The sample casings belong to well1 or well2. */
  lemma SeedCasingWells()
    ensures var cs := Values(Seed().casings);
      AllHaveWell(cs) && forall i :: 0 <= i < |cs| ==> cs[i].wellId.value == "well1" || cs[i].wellId.value == "well2"
  {
    SeedCasingValues();
    var cs := Values(Seed().casings);
    assert |cs| == 3;
    assert cs[0].wellId == Some("well1") && cs[1].wellId == Some("well1") && cs[2].wellId == Some("well2");
  }

  /** In the sample data no casing belongs to a well3, so asking for it is the ValueError. */
  lemma SeedCasingsOfUnknownWell()
    ensures CasingsForWell(Values(Seed().casings), Obj(map["well_id" := Str("well3")])) ==
            Err(ValueError("No casings found for well well3"))
  {
    assert "well3" != "well1" && "well3" != "well2" by { assert "well3"[4] != "well1"[4] && "well3"[4] != "well2"[4]; }
    assert "No casings found for well " + "well3" == "No casings found for well well3";
    var cs := Values(Seed().casings);
    SeedCasingWells();
    NoneInWell(cs, "well3");
    NoCasingsOfNamedWell(cs, "well3");
  }

  /**
   * `generate_greeting` renders the chosen style's template, the friendly one for an
   * absent or unknown style, followed by " for " and the name (empty when absent).
   */
  lemma PromptRendered(t: Tables, request: Value, params: Value, args: map<string, Value>, style: Value, who: string)
    requires t.Valid() && Calls(request, "prompts/get", params) && Has(params, "name", Str(""), Str("generate_greeting"))
    requires Has(params, "params", EMPTY, Obj(args))
    requires Get(args, "style", Str("friendly")) == style && Hashable(style)
    requires Get(args, "name", Str("")) == Str(who)
    ensures style.Str? && style.s in STYLES ==> Answers(t, request, Result(Str(STYLES[style.s] + " for " + who + ".")))
    ensures !(style.Str? && style.s in STYLES) ==>
      Answers(t, request, Result(Str("Write a warm and friendly greeting for " + who + ".")))
  {
    Routes(t, params);
    var rendered := Template(style) + " for " + who + ".";
    assert GetPrompt(params) == Some(Result(Str(rendered)));
    if !(style.Str? && style.s in STYLES) {
      assert STYLES["friendly"] + " for " == "Write a warm and friendly greeting for ";
    }
    ViaHandle(t, request, "prompts/get", params, Result(Str(rendered)));
  }

  /** Without arguments the prompt is the friendly template for the empty name. */
  lemma PromptDefaults(t: Tables, request: Value, params: Value)
    requires t.Valid() && Calls(request, "prompts/get", params) && Has(params, "name", Str(""), Str("generate_greeting"))
    requires Has(params, "params", EMPTY, EMPTY)
    ensures Answers(t, request, Result(Str("Write a warm and friendly greeting for .")))
  {
    PromptRendered(t, request, params, map[], Str("friendly"), "");
    assert STYLES["friendly"] + " for " + "" + "." == "Write a warm and friendly greeting for .";
  }

  /** Any other prompt name is an invalid-params error naming it. */
  lemma UnknownPrompt(t: Tables, request: Value, params: Value, prompt: string)
    requires t.Valid() && Calls(request, "prompts/get", params) && Has(params, "name", Str(""), Str(prompt))
    requires prompt != "generate_greeting"
    ensures Answers(t, request, Error(INVALID_PARAMS, "Invalid prompt name: " + prompt))
  {
  }
}
