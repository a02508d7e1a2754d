# MusicToolkit MCP server, modelled in Dafny

MusicToolkit serves two music tools over the Model Context Protocol (MCP):
`wav_to_music_score` turns a WAV recording into a MusicXML score and can also
render it as SVG, and `generate_music_from_humming` sends a humming recording
to a music-generation service and can also score the result. This project
models four parts of the repository with all I/O taken out:

- **The serverless JSON-RPC endpoint `api/mcp.py`** (module `VercelMcp`).
  It validates the envelope the way `MCPRequest` declares it. It then
  dispatches on `method`, runs the two tool branches, and routes HTTP verbs in
  `handler`.
- **The second serverless endpoint `api/index.py`** (module `IndexMcp`). It
  reads the envelope's fields with `.get` defaults and builds each tool's
  result dict step by step. It also produces the placeholder MusicXML
  document, modelled as an XML tree laid out line by line.
- **The local FastMCP server `music_toolkit_server.py`** (module
  `ToolkitServer`). It holds the conversion step, the two tools (which check,
  call the services and accumulate a reply text), and the listing of the
  output directory.
- **The example client `example_usage.py`** (module `ExampleClient`). It is a
  class with a request counter and an initialisation gate. It builds the
  request envelopes and scans the server's output for the response line.

The remaining modules are shared by these four:

- `Services`: the two service calls that `api/mcp.py` and
  `music_toolkit_server.py` share apart from the output directory, which
  `Deployment` selects (`Services.OutputDir`).
- `JsonRpc`: the JSON-RPC 2.0 envelope, with the error codes from section 5.1
  of the JSON-RPC 2.0 specification.
- `JsonValue`: the Python behaviour of JSON values, such as truthiness,
  `dict.get` and `str()`.
- `Text`: string operations, such as `str(n)`, `f"{n:,}"`, `split`, `strip`
  and prefix tests.
- `Deployments`: lemmas that send the same request to both serverless
  endpoints and state where their answers differ.

Every external effect is a parameter of the model:

- whether a file exists;
- the outcome of each `mkdir` and file write;
- each HTTP reply (an exception, or a status with a body);
- which libraries imported;
- the clock reading, one timestamp per request;
- the base64 encoder;
- `json.dumps`, `json.loads`, and the server process the client talks to.

The tools of `ToolkitServer` and the client's methods are imperative
methods. Each is proved equal to a specification function, or to the
client's new state. The properties are proved about those functions.
Each such function is paired with an independent statement: a round trip,
a case split by outcome, or a prefix classification (❌, ⚠️ or ✅).

Where the two endpoints disagree with each other or with the intent of their
own declarations, the model follows the code:

- An unknown tool name is answered with -32601 by `api/mcp.py`, but with
  -32603 by `api/index.py`, because the latter raises inside its `try`.
- A request without `method` is answered with -32603 by `api/mcp.py`
  (validation fails), but with -32601 "Method not found: None" by
  `api/index.py`.
- `MCPRequest` subclasses `BaseModel` (`api/mcp.py:157`), but `BaseModel` is
  never imported (`api/mcp.py:7-14`). As written, the module cannot be
  imported at all. The model gives `MCPRequest` the validation its field
  declarations intend.

## Model

| member | source | states |
|---|---|---|
| Text.ParseNatToString | MusicToolkit/api/index.py:56-87 | reading back the decimal digits of `str(n)` gives `n`; this is how note octaves and durations are read back |
| Text.IntToStringRoundTrip | MusicToolkit/music_toolkit_server.py:161-162 | reading back `str(i)`, minus sign included, gives `i` |
| Text.FormatThousandsGrouping | MusicToolkit/music_toolkit_server.py:287 | in `f"{size:,}"` a character is a comma exactly when a multiple of four characters, counting it, stand from it to the end, so the digits come in groups of three from the right |
| Text.FormatThousandsRoundTrip | MusicToolkit/music_toolkit_server.py:287 | removing the commas from `f"{size:,}"` leaves only digits, and they read back as `size` |
| Text.JoinSplit | MusicToolkit/example_usage.py:43 | joining `s.split('\n')` with the separator gives `s` back |
| Text.SplitJoin | MusicToolkit/example_usage.py:43 | splitting lines, none of which holds the separator, after joining them with it gives those lines back |
| Text.Split | MusicToolkit/example_usage.py:43 | `split` on one character never returns an empty list, and no piece holds the separator |
| Text.Strip | MusicToolkit/example_usage.py:43 | `strip()` leaves neither leading nor trailing whitespace |
| Text.StripOuter | MusicToolkit/example_usage.py:43 | `strip()` gives a slice of its input, and only whitespace lies before and after that slice |
| Text.TrimStart | MusicToolkit/example_usage.py:43 | `lstrip()` is the suffix left after dropping only whitespace characters |
| Text.TrimEnd | MusicToolkit/example_usage.py:43 | `rstrip()` is the prefix left after dropping only whitespace characters |
| Text.NotFailureText | MusicToolkit/music_toolkit_server.py:208 | a text whose first character is neither ❌ nor ⚠️ is not classified as a failure |
| Text.CrossIsFailure | MusicToolkit/music_toolkit_server.py:208 | a text starting with ❌ is classified as a failure |
| Text.WarningIsFailure | MusicToolkit/music_toolkit_server.py:208 | a text starting with ⚠️ is classified as a failure, and does not start with ❌ |
| Text.CheckMarkIsSuccess | MusicToolkit/music_toolkit_server.py:203 | a text starting with ✅ is not classified as a failure |
| JsonValue.Get | MusicToolkit/api/index.py:179-181 | `d.get(key, default)` is the stored value when the key is present, and the default otherwise |
| JsonValue.TypeName | MusicToolkit/api/index.py:243-245 | `type(x).__name__` is "dict", "list" or "str" exactly for objects, arrays and strings |
| JsonValue.PyStr | MusicToolkit/api/mcp.py:365 | `str()` of a string is the string itself, and `str(None)` is "None" |
| JsonRpc.ToJson | MusicToolkit/api/mcp.py:174-416 | a serialised envelope always has `jsonrpc` "2.0" and the response's id, and exactly one of `result` and `error` |
| JsonRpc.ToJsonRoundTrip | MusicToolkit/api/mcp.py:174-416 | reading a serialised envelope back gives the response that was serialised |
| JsonRpc.SoleText | MusicToolkit/api/mcp.py:282-288 | a tool result read back as a single text block is exactly that block |
| JsonRpc.SoleTextOfTextContent | MusicToolkit/api/mcp.py:282-288 | the text of a one-block tool result reads back unchanged |
| Services.OutputDir | MusicToolkit/api/mcp.py:33 | the output directory is `/tmp/output` on the serverless deployment and `output` locally, and neither path starts with a failure marker |
| Services.GeneratedPath | MusicToolkit/music_toolkit_server.py:95-153 | the path of a generated audio or score file never starts with ❌ or ⚠️, so it is never mistaken for a failure message |
| Services.SvgOf | MusicToolkit/music_toolkit_server.py:126-128 | `response.json()["svg"].encode()` succeeds exactly when the body is an object whose "svg" is a string, and then it is that string |
| Services.SvgHtml | MusicToolkit/music_toolkit_server.py:129-134 | the HTML fragment embeds the base64 text verbatim at a fixed offset, and is not a failure text |
| Services.Render | MusicToolkit/api/mcp.py:103-128 | the rendering is a failure text exactly when the service did not answer 200 with a string "svg"; each failure has its own message; the trace records the one rendering step |
| Services.GenerateFromHumOutcomes | MusicToolkit/music_toolkit_server.py:138-169 | only directory creation escapes as an exception; a non-200 status gives "❌ API error …" after the call alone, before any write; the result is the audio path exactly when the call answered 200 and the write completed |
| VercelMcp.FieldErrors | MusicToolkit/api/mcp.py:157-161 | there are no validation errors exactly when the envelope's fields have the declared types |
| VercelMcp.Validate | MusicToolkit/api/mcp.py:157-161 | validation succeeds exactly for well-typed envelopes and keeps their id, method and params (default `{}`); a failure message starts with the number of errors |
| VercelMcp.ToolsListed | MusicToolkit/api/mcp.py:193-243 | `tools/list` names exactly the two tools, requiring `["wav_file_path"]` and `["humming_file_path", "style_prompt"]` |
| VercelMcp.ToolDescriptor | MusicToolkit/api/mcp.py:199-240 | a tool descriptor carries its name and reads back its required list |
| VercelMcp.WavToMusicXml | MusicToolkit/api/mcp.py:28-101 | the placeholder conversion returns the score path exactly when writing the file completed |
| VercelMcp.WavSuccessLine | MusicToolkit/api/mcp.py:272 | the conversion's success line starts with ✅ and is not a failure text |
| VercelMcp.RenderSuffix | MusicToolkit/api/mcp.py:275-280 | the rendered text ends the appended line verbatim, introduced by ⚠️ when it is a failure text and by 🎼 otherwise |
| VercelMcp.WavSuccessText | MusicToolkit/api/mcp.py:272-280 | after a written score the reply starts with the success line, and the rendering is appended only when `render_svg` is set |
| VercelMcp.WavToolText | MusicToolkit/api/mcp.py:263-297 | each outcome has its reply: missing file, probe exception, failed write, success; the reply starts with ❌ exactly when the file is missing or conversion failed |
| VercelMcp.HummingSuccessLine | MusicToolkit/api/mcp.py:325 | the generation's success line starts with ✅ and is not a failure text |
| VercelMcp.ScoreSuffix | MusicToolkit/api/mcp.py:328-340 | a failed score write gives a ⚠️ line; a written score is named, and its rendering follows only when the rendering did not fail |
| VercelMcp.HummingSuccessText | MusicToolkit/api/mcp.py:325-340 | after generated audio the reply starts with the success line, and the score lines follow only when `generate_score` is set |
| VercelMcp.HummingToolText | MusicToolkit/api/mcp.py:314-357 | a missing file, an exception or a ❌ from generation becomes the reply itself; the reply starts with ❌ exactly when generation did not complete |
| VercelMcp.CallTool | MusicToolkit/api/mcp.py:245-367 | every `tools/call` payload uses a standard JSON-RPC code |
| VercelMcp.CallToolCases | MusicToolkit/api/mcp.py:245-367 | an unknown tool gets -32601 "Unknown tool: …"; a falsy required argument gets -32602; non-dict arguments get -32603; otherwise the result is one text block holding the tool's reply (`render_svg` defaults to true) |
| VercelMcp.Dispatch | MusicToolkit/api/mcp.py:174-406 | an unknown method gets -32601 "Method not found: <method>"; only `tools/call` and unknown methods give errors |
| VercelMcp.DispatchCases | MusicToolkit/api/mcp.py:174-396 | each known method has its fixed result; only `tools/call` reads the params |
| VercelMcp.HandleMcpRequest | MusicToolkit/api/mcp.py:169-416 | a dict always gets one envelope; a validated one carries its own id, a rejected one -32603 with the raw id or 0; a non-dict body raises out of the function |
| VercelMcp.ValidatedEnvelope | MusicToolkit/api/mcp.py:174-406 | the serialised answer to a validated request has `jsonrpc` "2.0", the request's id, exactly one of `result` and `error`, and a standard code |
| VercelMcp.ServerErrorEnvelope | MusicToolkit/api/mcp.py:487-494 | the 500 body reads back as id 0 and -32603 "Internal server error: …" |
| VercelMcp.PostReply | MusicToolkit/api/mcp.py:459-495 | POST gives 200 exactly when the body parsed and the dispatcher answered, and then the body is that answer; otherwise it gives 500 with the -32603 envelope |
| VercelMcp.Handler | MusicToolkit/api/mcp.py:420-504 | OPTIONS and GET give 200, POST gives the POST reply, and any other verb gives 405 "Method not allowed" |
| VercelMcp.HandlerAsWritten | MusicToolkit/api/mcp.py:420-504 | as written, only OPTIONS and a POST read through `json.loads` get an answer, the same one `Handler` gives; every other request raises UnboundLocalError |
| VercelMcp.HandlerGetRaises | MusicToolkit/api/mcp.py:442 | the GET request that should get 200 with the server descriptor raises instead |
| IndexMcp.NoteRoundTrip | MusicToolkit/api/index.py:56-63 | a `<note>` element reads back as the note it was built from |
| IndexMcp.ParseNotes | MusicToolkit/api/index.py:56-87 | reading a sequence of elements gives one note per element |
| IndexMcp.ParseNotesRoundTrip | MusicToolkit/api/index.py:56-87 | a sequence of `<note>` elements reads back as its notes |
| IndexMcp.PlaceholderContents | MusicToolkit/api/index.py:18-91 | whatever the title and the date, the document carries the given title in `<work-title>` and the same notes |
| IndexMcp.PlaceholderNotesShape | MusicToolkit/api/index.py:56-87 | those notes are C4, D4, E4, F4, each a quarter note of duration 4 |
| IndexMcp.CreatePlaceholderMusicXml | MusicToolkit/api/index.py:18-91 | the document starts with the XML declaration line; the timestamp argument is not read |
| IndexMcp.NoteLines | MusicToolkit/api/index.py:56-63 | a `<note>` element is written as eight lines: note, pitch, step, octave, the pitch's close, duration, type, the note's close |
| IndexMcp.NotesLayout | MusicToolkit/api/index.py:56-87 | a run of notes takes eight lines per note, the k-th note in the k-th block |
| IndexMcp.PlaceholderDocument | MusicToolkit/api/index.py:23-91 | split at its newlines, the document has 68 lines: the declaration first, the given title in `<work-title>` on line 4, the date in `<encoding-date>` on line 10, and the four notes in blocks of eight from line 34 |
| IndexMcp.RenderingOf | MusicToolkit/api/index.py:107-122 | the rendering succeeds exactly on a 200 whose JSON is an object, and then yields its "svg" (default ""); a non-200 is a rejection; a failed call is an exception |
| IndexMcp.ScoreResultContents | MusicToolkit/api/index.py:93-131 | the dict always says success and holds the placeholder score; "svg" is present exactly when rendering is asked for, and then "message" gets exactly one suffix |
| IndexMcp.WavToMusicScore | MusicToolkit/api/index.py:93-131 | patching the dict key by key gives the dict `ScoreResult` specifies |
| IndexMcp.GenerationOf | MusicToolkit/api/index.py:137-153 | generation succeeds exactly on a 200 whose JSON is an object; a non-200 raises "MusicGen API error: <status>", which selects the fallback |
| IndexMcp.GenerateResult | MusicToolkit/api/index.py:133-175 | the dict always says success; after a fallback "generated_audio" is ""; a score and the " with MusicXML score" suffix appear exactly when asked for |
| IndexMcp.GenerateMusicFromHumming | MusicToolkit/api/index.py:133-175 | building the dict step by step gives the dict `GenerateResult` specifies |
| IndexMcp.BindArguments | MusicToolkit/api/index.py:243-245 | `f(**arguments)` binds exactly when the arguments are a dict with the required key and no unknown key; otherwise it gives the TypeError's message |
| IndexMcp.ToolResult | MusicToolkit/api/index.py:238-247 | an unknown tool raises "Unknown tool: …"; a known tool gives its result dict (always successful) or its binding error |
| IndexMcp.Dispatch | MusicToolkit/api/index.py:183-294 | an unknown or missing method gets -32601; the resource and prompt lists are empty; any failure inside `tools/call` gets -32603; a tool result is one text block of the serialised dict; -32602 is never used |
| IndexMcp.HandleMcpRequest | MusicToolkit/api/index.py:177-294 | a dict always gets one envelope carrying the raw id (0 when absent); a non-dict body raises before the `try` |
| IndexMcp.AnsweredEnvelope | MusicToolkit/api/index.py:181-294 | every answered request echoes its id or 0, uses a standard code, and serialises with `jsonrpc` "2.0" and exactly one of `result` and `error` |
| ToolkitServer.WavToMusicXmlOutcomes | MusicToolkit/music_toolkit_server.py:40-103 | without music21 the conversion raises ImportError; it returns the score path exactly when every step it takes completes; without basic_pitch no MIDI file is needed |
| ToolkitServer.GenerateScoreFromAudio | MusicToolkit/music_toolkit_server.py:171-183 | the result starts with ❌ exactly when the conversion raised, and then it is "❌ Score generation failed: …"; otherwise it is the score path |
| ToolkitServer.WavSuccessLine | MusicToolkit/music_toolkit_server.py:203 | the success line starts with ✅, is not a failure text, and ends with the score path |
| ToolkitServer.RenderLine | MusicToolkit/music_toolkit_server.py:206-211 | the rendered text ends the appended line verbatim; a failure text follows "\n⚠️ SVG rendering failed: ", any other text follows "\n🎼 Score rendered successfully as SVG\n", and nothing else is added |
| ToolkitServer.WavToolRunCases | MusicToolkit/music_toolkit_server.py:195-218 | a missing file gives "❌ WAV file not found: …" and no steps; a conversion failure is reported by kind (ImportError or other) with nothing written |
| ToolkitServer.WavToolConverted | MusicToolkit/music_toolkit_server.py:199-213 | after a written score the reply is the success line plus the rendering line when asked for, so a rendering failure never replaces the success text; the steps are the write, then the call |
| ToolkitServer.WavToolFailureMarker | MusicToolkit/music_toolkit_server.py:189-218 | the reply starts with ❌ exactly when the file is missing or the conversion failed |
| ToolkitServer.WavToMusicScore | MusicToolkit/music_toolkit_server.py:189-218 | the tool, accumulating its reply with `+=`, gives the reply and steps `WavToolRun` specifies |
| ToolkitServer.HummingSuccessLine | MusicToolkit/music_toolkit_server.py:241 | the success line starts with ✅ and is not a failure text |
| ToolkitServer.HummingSuccessLineNames | MusicToolkit/music_toolkit_server.py:241 | the success line holds the generated path right after its fixed head, and ends with the style prompt |
| ToolkitServer.ScoreLines | MusicToolkit/music_toolkit_server.py:244-255 | a failed score gives a ⚠️ line and no rendering; a written score is named, and its rendering is shown only when it did not fail |
| ToolkitServer.HummingToolRunCases | MusicToolkit/music_toolkit_server.py:224-263 | a missing file stops everything; an exception from generation is reported; a ❌ from generation is returned verbatim with nothing further run; otherwise the reply names the audio and style, and the score steps follow only when asked for |
| ToolkitServer.HummingToolFailureMarker | MusicToolkit/music_toolkit_server.py:224-263 | the reply starts with ❌ exactly when the file is missing or generation did not complete |
| ToolkitServer.GenerateMusicFromHumming | MusicToolkit/music_toolkit_server.py:224-263 | the tool, accumulating its reply with `+=`, gives the reply and steps `HummingToolRun` specifies |
| ToolkitServer.NameLeTotal | MusicToolkit/music_toolkit_server.py:282 | Python's string order is total |
| ToolkitServer.NameLeTransitive | MusicToolkit/music_toolkit_server.py:282 | Python's string order is transitive |
| ToolkitServer.NameLeReflexive | MusicToolkit/music_toolkit_server.py:282 | Python's string order is reflexive |
| ToolkitServer.SortedByNameOrdersAll | MusicToolkit/music_toolkit_server.py:282 | a list sorted pair by pair is ordered between any two positions |
| ToolkitServer.InsertByName | MusicToolkit/music_toolkit_server.py:282 | inserting into a sorted list keeps it sorted and adds exactly that entry |
| ToolkitServer.SortByName | MusicToolkit/music_toolkit_server.py:282 | `sorted(files)` is ordered by name and is a permutation of the directory's entries |
| ToolkitServer.FilesTextStep | MusicToolkit/music_toolkit_server.py:283-288 | each entry adds its name, size and mtime lines when it is a regular file, and nothing otherwise |
| ToolkitServer.FilesTextWithoutFiles | MusicToolkit/music_toolkit_server.py:283 | a directory holding no regular files lists no blocks |
| ToolkitServer.GetGeneratedFiles | MusicToolkit/music_toolkit_server.py:270-292 | the listing gives the missing-directory message, the empty-directory message, the error message, or the header and one block per regular file in sorted order, as `GeneratedFilesText` specifies |
| ExampleClient.Envelope | MusicToolkit/example_usage.py:22-27 | the envelope has exactly the keys jsonrpc "2.0", the id, the method and the params, with `{}` when the params are missing or falsy |
| ExampleClient.FirstJsonRpcLine | MusicToolkit/example_usage.py:44-48 | the index found is of the first line starting with `{"jsonrpc"`, and none is found only when no line starts with it |
| ExampleClient.FirstLineIs | MusicToolkit/example_usage.py:44-46 | the scan's early exit returns the first matching line |
| ExampleClient.NoLine | MusicToolkit/example_usage.py:48 | a scan that matches no line finds nothing |
| ExampleClient.FindResponseLine | MusicToolkit/example_usage.py:44-48 | the loop stops at the index of the first line starting with `{"jsonrpc"`, or finds none, as `FirstJsonRpcLine` specifies |
| ExampleClient.ReadResponse | MusicToolkit/example_usage.py:40-51 | the loop over the stripped, split output gives the decoded first JSON-RPC line, or nothing |
| ExampleClient.MusicToolkitMcpClient.constructor | MusicToolkit/example_usage.py:15-17 | a new client has counter 0, is not initialised, and has sent nothing |
| ExampleClient.MusicToolkitMcpClient.SendRequest | MusicToolkit/example_usage.py:19-51 | the counter goes up by exactly 1 and the k-th request sent has id k; the gate is unchanged; the response is the scan of the server's output |
| ExampleClient.MusicToolkitMcpClient.Initialize | MusicToolkit/example_usage.py:53-64 | the gate opens only when the response holds "result", which is then returned; otherwise it is unchanged, so it never closes |
| ExampleClient.MusicToolkitMcpClient.ListTools | MusicToolkit/example_usage.py:66-70 | before initialisation nothing is sent and nothing is returned; after it, one `tools/list` request without params is sent |
| ExampleClient.MusicToolkitMcpClient.CallTool | MusicToolkit/example_usage.py:72-79 | before initialisation nothing is sent and nothing is returned; after it, one `tools/call` request is sent whose params are exactly the name and the arguments |
| ExampleClient.ToolCallParams | MusicToolkit/example_usage.py:76-79 | the `tools/call` params have exactly the keys name and arguments, and are never replaced by `{}` |
| ExampleClient.IdsDistinct | MusicToolkit/example_usage.py:21-24 | any two requests sent carry different ids |
| Deployments.UnknownToolMcp | MusicToolkit/api/mcp.py:359-367 | `api/mcp.py` answers an unknown tool with -32601 "Unknown tool: <name>" under the request's id |
| Deployments.UnknownToolIndex | MusicToolkit/api/index.py:246-247 | `api/index.py` answers the same request with -32603 "Internal error: Unknown tool: <name>" |
| Deployments.MissingMethodMcp | MusicToolkit/api/mcp.py:408-416 | `api/mcp.py` answers a request without a method with -32603 under its id |
| Deployments.MissingMethodIndex | MusicToolkit/api/index.py:179-284 | `api/index.py` answers the same request with -32601 "Method not found: None" |
| Deployments.MissingIdMcp | MusicToolkit/api/mcp.py:408-416 | `api/mcp.py` answers a request without an id with -32603 under id 0 |
| Deployments.MissingIdIndex | MusicToolkit/api/index.py:181-236 | `api/index.py` serves the same request, under id 0 |

## Left out

- All I/O is represented by inputs: the file system, HTTP calls, the clock, base64, `json.dumps` and `json.loads`, and the subprocess the client starts. Headers and socket writes are not modelled.
- The music21 and basic_pitch work inside `wav_to_musicxml` (`music_toolkit_server.py:58-103`) is not modelled: pitch detection, the clean-up loop and building the part. Only library availability and each step's success or failure are inputs.
- The literal placeholder document that `api/mcp.py`'s `wav_to_musicxml` writes is not modelled; only the write's outcome is.
- The FastMCP runtime, its decorators and argument coercion, the `music_processing` prompt and the stdio server loop are not modelled. The server's tools take their typed arguments directly.
- The `BaseHTTPRequestHandler` class of `api/index.py` (`api/index.py:296-355`) is not modelled. It only writes headers around the dispatcher, and answers 500 when parsing fails.
- `test_server.py` is not part of this model. Its line scan is the one `ExampleClient.ReadResponse` models.
- The demo and print functions of `example_usage.py` are not modelled.
- VercelMcp.Validate: validation is strict (an `id` must be a JSON integer and `method` a string). Pydantic's lax coercion, such as the string "1" for an int, is not modelled, and the error text is pydantic's wording only in outline.
- IndexMcp.BindArguments: the "unexpected keyword argument" message omits the offending key's name, because which key Python reports depends on dict order, which the model does not keep.
- Services.Render: an exception from `open()` and one from `requests.post` are both a `Failed` reply, so the trace records the rendering step even when the file could not be opened and no request went out.
- Services.GenerateFromHum: in the same way an exception from `open(melody_file)` is a `Failed` reply, so the trace records `PostMusicGen` even when no request went out; the same holds for `Services.GenerateFromHumOutcomes`.
- JsonValue.PyRepr: strings are quoted with single quotes and not escaped, so a string holding `'`, `\` or a control character is rendered differently from Python's `repr`, which switches to double quotes or escapes those characters.
- JsonValue.PyStr: `str()` of a dict is rendered as "{...}", because dict order is not modelled.
- The clock is read once per request. The source reads it separately for each timestamp, so two files written in the same request get the same timestamp here.
- ToolkitServer.GenerateMusicFromHumming: the inner `except` around the score steps (`music_toolkit_server.py:257-258`) is not modelled, because `generate_score_from_audio` and the renderer never raise.
- JSON numbers are integers only; floating point is not modelled.

## Findings

| source | as written | input that shows it | evidently intended | confidence | as-written member | corrected member |
|---|---|---|---|---|---|---|
| MusicToolkit/api/mcp.py:465 | `import json` inside the POST branch makes `json` local to all of `handler`, so `json.dumps` at lines 442, 477, 487 and 503 raises UnboundLocalError whenever that import has not run | a GET request; or a POST on a request object that has `get_json` | `json` is the module-level import, so GET gets 200 with the descriptor, POST gets 200 or 500, and other verbs get 405 | not executed | VercelMcp.HandlerAsWritten | VercelMcp.Handler |
