# OSDU MCP demo server: a Dafny model of its request dispatcher and data store

The OSDU MCP demo is a small Model Context Protocol server. Its core has two parts.

- **The store.** Three in-memory dictionaries (wells, trajectories, casings) map a record's id to the record. At start-up they are filled once: from a persisted snapshot of three record lists, keyed by each record's `id`, or, when there is no snapshot, from a built-in seed that is then persisted. A status page reports whether anything was loaded and how many records of each kind there are.
- **The dispatcher.** `OsduMCPServer.handle_request` is a closed if/elif table over JSON-RPC method names. It turns one decoded request into a response envelope `{"jsonrpc": "2.0", "result" | "error": …, "id": …}`. It reads the store to list resources, runs three tools (`add_numbers`, `get_casings_for_well`, `list_all_wells`) and renders one prompt (`generate_greeting`). Error codes come from section 5.1 of the JSON-RPC 2.0 Specification: -32601 (method not found), -32602 (invalid params) and -32000 (implementation-defined server error).

Modules, in dependency order:

- `Wrappers`: `Option` and `Result`.
- `Json`: decoded JSON values. `Get` is `dict.get`.
- `Text`: `str.startswith` and `str.split`, the latter through a left-to-right `find`.
- `Dicts`: Python dicts with string keys, which remember insertion order. The module also has `list(d.values())`, `len(d)` and the dict comprehension `{key(v): v for v in vs}`.
- `Store`: records, the three dictionaries (`Tables`), the snapshot, save and load, the seed and the status page. The `Store` class holds the module-level dictionaries that `load_data`/`init_data` rebind.
- `Tools`: the three tool handlers, and the writing out of a handler's value. It has every Python exception a handler or that writing out can raise (`Fault`), with its `str(e)` text.
- `Catalog`: the fixed documents of `initialize`, `resources/list`, `tools/list` and `prompts/list`.
- `Server`: the method table (`Handle`) and `handle_request` itself (`Dispatch`).
- `Properties`: what `handle_request` promises, stated over whole requests.

`Dispatch` returns `Respond(envelope)` or `Crash`. `Crash` is an exception escaping `handle_request`; the HTTP layer turns it into a 500. The code lets exceptions escape in these cases:

- the request is not an object;
- `method` is missing or not a string (the debug line at app.py:94 concatenates it);
- `params` is not an object for the three methods that read it;
- a `resources/read` URI is not a string;
- a `tools/call` name is not a string;
- a `prompts/get` name is not a string, on the invalid-name path only;
- the `params` nested inside a `generate_greeting` request is not an object;
- a prompt style cannot be hashed;
- a prompt `name` argument is not a string.

So not every malformed request that is valid JSON gets a protocol-level error envelope: in the cases above the exception reaches the transport.

The -32000 "Resource read error" branch (app.py:132-136) cannot be reached. Its `try` covers two calls. `list(d.values())` does not raise. `json.dumps(response)` at app.py:130 does not raise either: every stored record came from `json.load` or from the seed, so it can be serialized. The model has no such branch.

## Model

| member | source | states |
|---|---|---|
| Text.Find | app.py:116 | the result is an occurrence of the separator at or after the start, and no earlier one exists; `None` means there is none |
| Text.Split | app.py:116 | a split always has at least one piece; `Text.JoinSplit` and `Text.SplitPiecesFree` state what the pieces are |
| Text.JoinSplit | app.py:116 | splitting loses nothing: joining the pieces with the separator gives the string back |
| Text.SplitPiecesFree | app.py:116 | no piece of a split contains the separator |
| Text.FirstPiece | app.py:116 | the first piece is a prefix of the string: either the whole string or followed by the separator |
| Dicts.Put | app.py:44-46 | storing a key keeps the dict well formed and maps the key to the value; a new key goes last in the order and an existing key keeps its place |
| Dicts.Values | app.py:76-78 | `list(d.values())` has one value per key, in insertion order, and contains every stored value |
| Dicts.Size | app.py:223-225 | `len(d)` equals the number of keys and the number of values listed |
| Dicts.FromList | app.py:44-46 | the comprehension builds a well-formed dict with each key listed once; its keys, values and order are stated by `Dicts.FromListKeys`, `Dicts.FromListLastWins` and `Dicts.FromListOrder` |
| Dicts.FromListKeys | app.py:44-46 | the comprehension's keys are exactly the keys of the list elements |
| Dicts.FromListLastWins | app.py:44-46 | under each key the comprehension holds the last element with that key |
| Dicts.FromListOrder | app.py:44-46 | the comprehension's keys are in the order of their first occurrence in the list: a key listed before another first occurs earlier |
| Dicts.FromValues | app.py:44-46 | rebuilding a dict from its own values, keyed by each value's key, gives back the same dict, order included, when every value is filed under its own key |
| Store.Save | app.py:75-79 | the saved document lists each dictionary's values in store order, and loading it back (app.py:44-46) gives the same three dictionaries whenever every record is filed under its own id |
| Store.ToJson | app.py:58-68 | a record's JSON object carries its `id`, carries `well_id` exactly when the record has one, and carries every payload field unchanged |
| Store.ListJson | app.py:121-123 | a list of records becomes a JSON array of the same length; element i is an object carrying record i's `id`, its `well_id` exactly when record i has one, and every payload field of record i unchanged |
| Store.Load | app.py:44-46 | the loaded dictionaries are well formed |
| Store.SeedWells | app.py:57-60 | the two sample wells are each filed under their own id |
| Store.SeedTrajectories | app.py:61-64 | the two sample trajectories are each filed under their own id |
| Store.SeedCasings | app.py:65-69 | the three sample casings are each filed under their own id |
| Store.Seed | app.py:57-69 | the seed is well formed, every record sits under its own id, and it holds 2 wells, 2 trajectories and 3 casings |
| Store.SeedRoundTrip | app.py:57-69 | saving the seed and loading it back reproduces the seed |
| Store.Root | app.py:221-226 | the status is "Data loaded successfully." iff some dictionary is non-empty, otherwise "Data failed to load."; the counts are the dictionary sizes |
| Store.SeedHealth | app.py:221-226 | after seeding, the status page reports success with counts 2, 2 and 3 |
| Store.Store.constructor | app.py:32-34 | before start-up all three dictionaries are empty |
| Store.Store.InitData | app.py:55-70 | the store now holds the seed, and the document written is the seed's saved form |
| Store.Store.LoadSnapshot | app.py:43-46 | the store now holds the dictionaries built from the snapshot |
| Store.Store.LoadData | app.py:37-52 | with a persisted document the store holds its load and nothing is written; without one the store holds the seed and the seed's saved form is written |
| Store.Restart | app.py:37-52 | a first start seeds and persists; a second start from the persisted document yields the same dictionaries, both equal to the seed |
| Tools.Add | app.py:153 | `+` adds two integers, two floats, or a float and an integer in the double range; a float and an integer beyond it raise OverflowError "int too large to convert to float"; it concatenates two strings, and raises for None or a dict operand |
| Tools.Encodable | app.py:164 | `json.dumps` writes out any value except an integer whose magnitude is at least 10^4300 (more than 4300 digits), for which it raises the ValueError of the digit limit; a value it writes out is unchanged |
| Tools.FitsDigitsBound | app.py:164 | the digit-limit test is exactly abs(n) < 10^4300, fewer than 4301 decimal digits |
| Tools.FitsDoubleBound | app.py:153 | the double-range test of `+` is exactly abs(n) < (2^54 - 1) · 2^970 = 2^1024 - 2^970, the magnitude from which round-half-even conversion reaches 2^1024 |
| Tools.AddNumbers | app.py:153 | a result needs both `a` and `b`; a missing `a` raises KeyError('a'); a missing `b` after a present `a` raises KeyError('b'); two integers give their sum |
| Tools.InWellOf | app.py:154 | a casing is kept iff it is in the list and belongs to the named well; the result is no longer than the list |
| Tools.Matching | app.py:154 | the comprehension reads each casing's `well_id` before the argument, and the first failing read ends it; when every casing has a `well_id` and the argument exists, the result is the casings of that well |
| Tools.CasingsForWell | app.py:154-162 | with a string well id over casings that all have one: the matching casings when there are some, otherwise ValueError "No casings found for well " + id; a missing `well_id` raises KeyError('well_id') |
| Tools.ListAllWells | app.py:155 | the result lists one record per well and contains every well |
| Server.GreetingSeparator | app.py:116 | in a `greeting://` URI the first "://" sits right after "greeting" |
| Server.GreetingName | app.py:115-117 | the name is the text after "greeting://" up to the next "://" or the end; it holds no "://" and may be empty |
| Server.Envelope | app.py:96-197 | every answer is wrapped as a JSON-RPC 2.0 envelope with the given id: the result under `result`, or the code and message under `error`, never both |
| Server.ReadResource | app.py:113-139 | an exception escapes iff params is not an object or the URI is not a string; otherwise the answer is a result or a -32602 error |
| Server.CallTool | app.py:149-173 | an exception escapes iff params is not an object or the tool name is not a string; errors are -32602 or -32000; -32602 exactly when the string name is not one of the three tools |
| Server.GetPrompt | app.py:181-196 | an exception escapes for a non-object `params`, for `generate_greeting` with a non-object nested `params`, an unhashable style or a non-string `name`, and for any other non-string prompt name; `generate_greeting` otherwise answers a result; any other string name is -32602 "Invalid prompt name: " + name |
| Server.Handle | app.py:95-199 | an unknown method gives -32601 "Method not found: " + name; every error code is -32601, -32602 or -32000; -32601 only for unknown methods; only the three methods that read `params` can raise |
| Server.Dispatch | app.py:91-199 | every response is an envelope with version "2.0", the request's id (1 when absent), exactly one of `result` and `error`, and an error object with an integer code and a message; the request was an object with a string `method` |
| Properties.EchoesId | app.py:96-197 | the response id is the request's `id` member when present, otherwise 1 |
| Properties.MalformedRequestEscapes | app.py:92-94 | a request that is not an object, or has no string `method`, raises out of `handle_request` |
| Properties.UnknownMethod | app.py:197 | a method outside the eight known names is answered with -32601 "Method not found: " + name |
| Properties.ErrorCodes | app.py:95-199 | every error response carries -32601, -32602 or -32000, and -32601 exactly when the method is unknown |
| Properties.OnlyParamMethodsEscape | app.py:113-196 | only `resources/read`, `tools/call` and `prompts/get` can raise out of `handle_request` |
| Properties.StaticMethods | app.py:95-112 | `initialize`, `notifications/initialized`, `resources/list`, `tools/list` and `prompts/list` answer their fixed documents whatever the params |
| Properties.GreetingRead | app.py:115-119 | any `greeting://` URI is read successfully as "Hello, " + name + "! Welcome to the MCP demo.", before the collection table is consulted |
| Properties.GreetingNameExample | app.py:116 | "greeting://Al://x" names "Al", and "greeting://" names the empty string |
| Properties.CollectionRead | app.py:120-131 | each `osdu:` collection URI answers that dictionary's records in store order |
| Properties.InvalidUri | app.py:137 | any other URI is answered with -32602 "Invalid resource URI: " + uri |
| Properties.UnknownTool | app.py:171 | a tool name outside the three tools is answered with -32602 "Invalid tool name: " + name, never a result |
| Properties.ViaTool | app.py:157-170 | a known tool's value is answered as the result when it can be written out, and an exception raised by the handler or by `json.dumps` is answered as -32000 "Tool call error: " + str(e) |
| Properties.ViaToolErr | app.py:157-170 | a known tool whose handler or `json.dumps` raises `e` is answered with -32000 "Tool call error: " + str(e) |
| Properties.AddNumbersSum | app.py:153-165 | `add_numbers` with integer arguments `a` and `b` answers `a + b` when the sum has at most 4300 digits, whatever other arguments the object holds |
| Properties.AddNumbersTooLong | app.py:153-168 | when the integer sum has more than 4300 digits, `json.dumps` at app.py:164 raises and the answer is -32000 "Tool call error: Exceeds the limit (4300 digits) for integer string conversion; …" |
| Properties.AddNumbersOverflow | app.py:153-168 | a float `a` plus an integer `b` beyond the double range is answered with -32000 "Tool call error: int too large to convert to float" |
| Properties.OverflowingSum | app.py:153 | a float plus an integer beyond the double range makes the `add_numbers` outcome the OverflowError |
| Properties.AddNumbersMissing | app.py:159-170 | `add_numbers` without `a`, or without `b`, is answered with -32000 "Tool call error: 'a'" or "Tool call error: 'b'", not an escape |
| Properties.CasingsFound | app.py:154-165 | when some casing belongs to the well, the answer is exactly the casings of that well, in store order |
| Properties.NoCasingsFound | app.py:161-168 | when no casing belongs to the well, the answer is -32000 "Tool call error: No casings found for well " + id |
| Properties.CasingsWithoutWell | app.py:154-168 | without a `well_id` argument the answer is -32000 "Tool call error: 'well_id'" |
| Properties.MissingWell | app.py:154-162 | without a `well_id` argument the `get_casings_for_well` outcome is KeyError('well_id') |
| Properties.AllWells | app.py:155 | `list_all_wells` answers every well in store order, whatever its arguments |
| Properties.SeedCasingValues | app.py:65-69 | the sample casings in store order are casing1, casing1b, casing2 |
| Properties.SeedCasingsOfWell1 | app.py:65-69 | in the sample data, well1's casings are casing1 and casing1b, in that order |
| Properties.SeedCasingsOfUnknownWell | app.py:161-162 | in the sample data, asking for well3 raises "No casings found for well well3" |
| Properties.PromptRendered | app.py:185-191 | `generate_greeting` answers the chosen style's template, or the friendly one for an unknown style, followed by " for " + name + "." |
| Properties.PromptDefaults | app.py:190-191 | without arguments the prompt is "Write a warm and friendly greeting for ." |
| Properties.UnknownPrompt | app.py:194 | any other prompt name is answered with -32602 "Invalid prompt name: " + name |

## Left out

- File I/O and the environment are not modelled: `os.path.exists`, `open`, `json.load`, `json.dump`, and the choice of `PERSIST_FILE` from `WEBSITE_HOSTNAME` (app.py:29, 40-43, 80-81). The persisted file is an `Option<Snapshot>` parameter of `LoadData`, and the written document is its result.
- A snapshot object missing one of its three keys is not modelled separately. It loads as though the list were empty, the `data.get(key, [])` default.
- Records of unusual shape are not modelled. A record has a string `id`, an optional string `well_id` and an opaque payload, and the payload cannot hold `id` or `well_id` (the `Record` subset type). So none of these can be written down, and their behaviour is not modelled: a persisted record without an `id` or with a non-string id, a record whose `well_id` is null or not a string (Python compares it and gets False), a non-list collection, and a non-object document.
- Logging is not modelled (every `logger` call). Two lines are kept for their effects. The debug line at app.py:94 raises for a non-string `method`. The `json.dumps(response)` at app.py:164, inside the tool `try`, raises for an integer of more than 4300 digits (`Tools.Encodable`, `Server.ToolOutcome`); the other `json.dumps` calls cannot raise on the values they see.
- The import-error handlers at app.py:8-18 are not modelled.
- The Starlette/Hypercorn transport is not modelled: the HTTP routes, body decoding, the 400 and 500 responses, and server start-up (app.py:205-237). An escaping exception is the `Crash` outcome.
- The `mcp.server.Server` base class is not modelled (app.py:9, 90, 202): it is a library outside this repository.
- `async` is not modelled: `handle_request` never awaits, so it is a pure function of the store and the request.
- Floating-point numbers are mathematical reals: IEEE rounding, infinities and NaN are not modelled. No property depends on a float value.
- Tools.Add: the float branches compute the exact real sum rather than an IEEE double, so a float sum that overflows to `inf` is not modelled. Only the int-to-float conversion overflow is.
- Tools.Encodable: only a top-level integer is checked against the 4300-digit limit. Decoded integers are not bounded in the model, but `json.loads` rejects an integer literal of more than 4300 digits. So only a sum of two decoded integers can exceed the limit. A request `id` or list element that long cannot arrive, and the model does not treat it specially.
- The TypeError message texts follow CPython 3.11 wording. Other interpreter versions word some of them differently.
- Strings are sequences of Dafny characters, which cannot be lone surrogates. A JSON `\ud800` escape, which Python decodes to a lone surrogate, is not modelled.
- JSON objects are maps, so the order of keys inside a record or a response is not modelled. The order of records in a list is modelled.
- The fixed documents of `initialize`, `resources/list`, `tools/list` and `prompts/list` (app.py:96, 104-110, 141-146, 175-178) are constants in `Catalog`. Nothing is proved about them beyond `StaticMethods`.
- The -32000 "Resource read error" branch (app.py:132-136) is not modelled, because it cannot be reached.
