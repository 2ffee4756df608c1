/** The fixed documents `initialize`, `resources/list`, `tools/list` and `prompts/list` return. */
module Catalog {
  import opened Json

  const INITIALIZE_RESULT: Value := Obj(map[
    "protocolVersion" := Str("2024-11-05"),
    "capabilities" := Obj(map[
      "resources" := Obj(map["supported" := Bool(true)]),
      "tools" := Obj(map["supported" := Bool(true)]),
      "prompts" := Obj(map["supported" := Bool(true)])]),
    "serverInfo" := Obj(map["name" := Str("OsduMCPDemo"), "version" := Str("1.0.0")])])

  function Resource(uri: string, name: string, description: string, mimeType: string): Value {
    Obj(map["uri" := Str(uri), "name" := Str(name), "description" := Str(description), "mimeType" := Str(mimeType)])
  }

  const RESOURCES: Value := Arr([
    Resource("greeting://{name}", "Greeting Resource",
             "Returns a personalized greeting message. Replace {name} with a name.", "text/plain"),
    Resource("osdu:wells", "OSDU Wells Resource", "Retrieves all OSDU Well data.", "application/json"),
    Resource("osdu:trajectories", "OSDU WellboreTrajectories Resource",
             "Retrieves all OSDU WellboreTrajectory data.", "application/json"),
    Resource("osdu:casings", "OSDU Casings Resource", "Retrieves all OSDU Casing data.", "application/json")])

  /** A JSON schema property `{"title": title, "type": type}`. */
  function Property(title: string, typ: string): Value {
    Obj(map["title" := Str(title), "type" := Str(typ)])
  }

  /** An object schema with the given properties, all of them required. */
  function Schema(properties: map<string, Value>, required: seq<string>, title: string): Value {
    Obj(map["properties" := Obj(properties),
            "required" := Arr(seq(|required|, i requires 0 <= i < |required| => Str(required[i]))),
            "title" := Str(title), "type" := Str("object")])
  }

  const TOOL_LIST: Value := Arr([
    Obj(map["name" := Str("add_numbers"), "description" := Str("Adds two integers together."),
            "inputSchema" := Schema(map["a" := Property("A", "integer"), "b" := Property("B", "integer")],
                                    ["a", "b"], "add_numbersArguments"),
            "outputSchema" := Schema(map["result" := Property("Result", "integer")], ["result"], "add_numbersOutput")]),
    Obj(map["name" := Str("get_casings_for_well"),
            "description" := Str("Retrieves a list of all casings for a given well ID."),
            "inputSchema" := Schema(map["well_id" := Property("Well Id", "string")], ["well_id"],
                                    "get_casings_for_wellArguments")]),
    Obj(map["name" := Str("list_all_wells"), "description" := Str("Lists all wells from the osdu:wells Resource."),
            "inputSchema" := Obj(map[]), "outputSchema" := Obj(map["type" := Str("array")])])])

  const PROMPTS: Value := Arr([
    Obj(map["name" := Str("generate_greeting"),
            "description" := Str("Generates a prompt for creating a greeting in a specified style."),
            "arguments" := Arr([Obj(map["name" := Str("name"), "required" := Bool(true)]),
                                Obj(map["name" := Str("style"), "required" := Bool(false)])])])])
}
