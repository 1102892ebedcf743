# Fathom MCP tools, modelled in Dafny

The Fathom MCP servers expose three tools to an LLM client: `list_meetings`,
`get_transcript` and `get_meeting_details`. Each tool proxies the Fathom
meeting-recording API (`https://api.fathom.ai/external/v1`). There are two
deployments, and their tool logic is the same:

- the local stdio server (`nansen-core/servers/fathom/server.mjs`), which uses
  one API key from its process environment;
- the remote Cloudflare worker (`servers/fathom-mcp/src/index.js`), which
  takes an `api_key` argument on every tool call and puts a path router in
  front of its MCP endpoint.

The model is one shared set of pure functions over a small JSON datatype:

- `JsValues`: JavaScript values (`undefined`, `null`, booleans, integer
  numbers, strings, arrays, objects as ordered entries). It defines JS
  truthiness, `a || b`, property reads that throw a `TypeError` on
  `null`/`undefined`, and the errors a handler's `catch` can receive.
- `Upstream`: `fathomFetch`. Query parameters whose value is `undefined` or
  `null` are dropped. One request is sent. The outcome is the parsed body of a 2xx
  reply, or one of three errors: the HTTP status and reply text of a non-2xx
  reply, a 2xx body that is not JSON, or a rejected `fetch`.
- `Meetings`: the query `list_meetings` sends, where the list is found in
  the reply, the `limit` cut, and the projection of each record onto the
  summary shape.
- `Transcripts`: the recording-first, meeting-second fetch order, and the
  reduction of any transcript payload to `[speaker]: content` lines joined
  by newlines.
- `Tools`: the three handlers as the stdio server runs them. Every failure
  becomes an error-flagged text result that starts with the tool's prefix.
- `Worker`: the worker's handlers, which refuse an empty `api_key` before any
  upstream call, and its path router.
- `Scenarios`: end-to-end cases, stating what the tools return against fixed upstream behaviour.

The upstream API is an oracle `Api = Request -> Response`. Every handler
returns the list of requests it issued, so call order, call count and the
key each call carries can be stated. `JSON.stringify(v, null, 2)` and
`String(v)` on non-strings are left uninterpreted: a `Printer` value holds
two arbitrary total functions. `String(s)` on a string is `s` itself.

## Model

| member | source | states |
|---|---|---|
| Upstream.QuerySendsExactly | servers/fathom-mcp/src/index.js:21-23 | a key appears in the request's query string if and only if the parameter object gives it a value other than `undefined` or `null` |
| Upstream.QueryEntryOrigin | nansen-core/servers/fathom/server.mjs:26-28 | every query entry comes from a parameter that is neither `undefined` nor `null`, and its value is that parameter's `String(v)` |
| Upstream.QueryKeepsAll | nansen-core/servers/fathom/server.mjs:26-27 | when no parameter is nullish, every parameter is sent, stringified, in the object's order |
| Upstream.QueryConcat | servers/fathom-mcp/src/index.js:21 | parameters are appended one by one, so the query of two parameter lists is the concatenation of their queries |
| Upstream.Classify | servers/fathom-mcp/src/index.js:32-37 | a non-2xx reply gives an error holding its status and text; a 2xx reply with a JSON body gives exactly that body; every other outcome is an error |
| JsValues.Message | servers/fathom-mcp/src/index.js:32-35 | an upstream failure's message starts with `Fathom API ` and ends with `: ` and the reply body verbatim, as in nansen-core/servers/fathom/server.mjs lines 37-40; every other error carries its own reason; this is the text that follows the tool prefix in every flagged result a handler's `catch` produces (`Tools.Conclude`) |
| Upstream.FathomFetch | nansen-core/servers/fathom/server.mjs:24-43 | one `fathomFetch` issues exactly one request, carrying the given key and path; the query holds a key iff the parameter object gives it a value other than `undefined`/`null`; the call succeeds iff the reply is a 2xx with a JSON body, which is then the result, and a non-2xx reply throws with its status and text |
| Meetings.WithDefaults | servers/fathom-mcp/src/index.js:57-66 | when the caller omits them, `include_transcript` defaults to false and `limit` to 20; given values are kept |
| Meetings.ListParamsToEntries | servers/fathom-mcp/src/index.js:85-88 | the parameter object that `list_meetings` builds becomes exactly the written-out entries for the two dates and the transcript flag |
| Meetings.ListQuery | nansen-core/servers/fathom/server.mjs:64-67 | `created_after=v` and `created_before=v` are sent if and only if that argument is the non-empty string `v`; `include_transcript` is sent (as `"true"`) if and only if requested; no other key is sent |
| Meetings.ListSource | servers/fathom-mcp/src/index.js:91-93 | the list is the payload when it is an array; otherwise a truthy `meetings`, then a truthy `data`, then `[]`; the list is always truthy; a `null` payload throws |
| Meetings.SliceEnd | nansen-core/servers/fathom/server.mjs:73 | `slice(0, limit)` keeps `min(limit, n)` items for `limit >= 0`, and counts back from the end for a negative `limit`, never below 0 |
| Meetings.TitleOf | servers/fathom-mcp/src/index.js:98 | the title is always truthy: `title` if truthy, else `name` if truthy, else "Untitled meeting" |
| Meetings.DateOf | nansen-core/servers/fathom/server.mjs:78 | the date is the first truthy of `created_at` and `date`, else `recorded_at` as it is |
| Meetings.DurationOf | nansen-core/servers/fathom/server.mjs:79 | the duration is `duration` when truthy, else `duration_seconds` |
| Meetings.ParticipantsOf | nansen-core/servers/fathom/server.mjs:80 | participants are always truthy: `participants`, else `attendees`, else `[]` |
| Meetings.RecordingIdOf | nansen-core/servers/fathom/server.mjs:81 | a truthy `recording_id` wins; otherwise the first recording's `id`, which is `undefined` when `recordings` is absent, null or empty |
| Meetings.Project | nansen-core/servers/fathom/server.mjs:75-83 | projecting a record throws if and only if the record is `null` or `undefined`; otherwise it yields the summary object |
| Meetings.SummaryIdentity | servers/fathom-mcp/src/index.js:97-98 | a summary's `id` is the record's `id` verbatim, and its title is the title fallback, which is always truthy |
| Meetings.SummaryFallbacks | servers/fathom-mcp/src/index.js:99-102 | a summary's date, duration, participants and recording id are the respective fallback chains over the record |
| Meetings.SummaryTranscript | servers/fathom-mcp/src/index.js:103-105 | a summary has a `transcript` key if and only if inline transcripts were requested and the record's `transcript` is truthy; it then holds that value |
| Meetings.ProjectAll | servers/fathom-mcp/src/index.js:96-106 | mapping succeeds if and only if no record is nullish; the summaries then match the records one to one, in order |
| Meetings.Summarize | nansen-core/servers/fathom/server.mjs:72-83 | the summaries exist if and only if the list is an array whose first `limit` records are all readable; they are those records, projected, in order |
| Meetings.Payload | servers/fathom-mcp/src/index.js:113 | the reported `count` equals the number of listed meetings |
| Meetings.SummarizeTakesPrefix | nansen-core/servers/fathom/server.mjs:72-73 | for `limit >= 0` there are `min(limit, n)` summaries, taken from the front of the list in order |
| Meetings.ShapeInvariance | nansen-core/servers/fathom/server.mjs:71-72 | a bare array, the same array under `meetings`, and the same array under `data` (with `meetings` falsy) give identical summaries, whatever other keys, such as a pagination cursor, the reply object carries |
| Meetings.ItemsKeyIgnored | servers/fathom-mcp/src/index.js:91-93 | for any reply object whose `meetings` and `data` are falsy, a list under `items` is not found, so the tool reports no meetings |
| Meetings.MeetingsBeforeData | servers/fathom-mcp/src/index.js:93 | for any reply object whose `meetings` and `data` are both lists, in either key order, `meetings` is used |
| Transcripts.TranscriptId | nansen-core/servers/fathom/server.mjs:114 | the recording endpoint is asked for the recording id when it is a non-empty string, otherwise for the meeting id |
| Transcripts.FetchTranscript | nansen-core/servers/fathom/server.mjs:114-123 | the recording endpoint is called first; the meeting endpoint with `include_transcript=true` is called if and only if that call failed, and its outcome is final; at most two calls, all with the same key |
| Transcripts.SpeakerOf | nansen-core/servers/fathom/server.mjs:134 | the speaker is always truthy: `speaker`, else `speaker_name`, else "Unknown" |
| Transcripts.ContentOf | nansen-core/servers/fathom/server.mjs:135 | the content is `text`, else `content`, else the empty string |
| Transcripts.RenderSegment | nansen-core/servers/fathom/server.mjs:133-137 | a segment renders as `[speaker]: content` from those fallbacks; it throws if and only if the segment is `null` or `undefined` |
| Transcripts.RenderAll | servers/fathom-mcp/src/index.js:180-186 | rendering succeeds if and only if no segment is nullish; the lines then match the segments one to one, in order |
| Transcripts.Render | nansen-core/servers/fathom/server.mjs:132-138 | rendered and joined segments fail only on a nullish segment, with a `TypeError`; no segments give the empty text |
| Transcripts.SplitJoin | nansen-core/servers/fathom/server.mjs:138 | joining lines with `"\n"` and splitting the result at newlines gives the lines back, when no line holds a newline |
| Transcripts.ParseLineOfLine | nansen-core/servers/fathom/server.mjs:136 | a rendered line can be read back into its speaker and content, when the speaker holds no `]` |
| Transcripts.RenderLines | servers/fathom-mcp/src/index.js:193-199 | the rendered text has exactly one line per segment, each giving that segment's speaker and content (under the same no-`]`, no-newline condition) |
| Transcripts.UnknownSpeakerLine | servers/fathom-mcp/src/index.js:182-185 | a segment with neither `speaker` nor `speaker_name` renders as `[Unknown]: content` |
| Transcripts.Normalize | nansen-core/servers/fathom/server.mjs:126-153 | shape dispatch in priority order: a string is returned as is; a truthy `transcript` array is rendered, and a truthy non-array `transcript` is stringified; then `segments` over `utterances`; otherwise the JSON dump; only `TypeError`s can escape |
| Transcripts.EmptyTranscriptIsEmptyText | servers/fathom-mcp/src/index.js:178-187 | an empty `transcript` array is truthy, so it yields the empty text and not the JSON dump |
| Transcripts.SegmentsBeforeUtterances | servers/fathom-mcp/src/index.js:191-192 | when `segments` is truthy, two payloads that agree on `transcript` and `segments` normalise alike, whatever `utterances` or any other key holds |
| Tools.Conclude | nansen-core/servers/fathom/server.mjs:163-168 | a failure becomes an error-flagged result whose text is the tool's prefix followed by the error message; a success is an unflagged result with the text |
| Tools.ListMeetings | nansen-core/servers/fathom/server.mjs:62-99 | one `/meetings` call with the filtered query and no extra call for inline transcripts; success if and only if the fetch and the summarising both succeed, then the dump of `{count, meetings}`; every failure is flagged with "Error listing meetings: " |
| Tools.GetTranscript | nansen-core/servers/fathom/server.mjs:110-169 | its calls are those of the recording-first fetch; success if and only if a fetch succeeded and normalisation did; every failure is flagged with "Error fetching transcript: " |
| Tools.GetMeetingDetails | nansen-core/servers/fathom/server.mjs:179-196 | one call to `/meetings/{id}` with no query; on success the whole record is dumped, unprojected; an upstream failure is flagged with "Error fetching meeting details: " and its message |
| Worker.MissingKey | servers/fathom-mcp/src/index.js:72-82 | the refusal is error-flagged and issues no call |
| Worker.ListMeetings | servers/fathom-mcp/src/index.js:71-128 | an empty `api_key` gives the flagged refusal with zero upstream calls; any other key runs the shared handler, and its one call carries that key |
| Worker.GetTranscript | servers/fathom-mcp/src/index.js:147-218 | an empty `api_key` gives the flagged refusal with zero calls; otherwise the shared handler runs with one or two calls, all carrying that key |
| Worker.GetMeetingDetails | servers/fathom-mcp/src/index.js:231-262 | an empty `api_key` gives the flagged refusal with zero calls; otherwise the shared handler runs with one call carrying that key |
| Worker.RouteOf | servers/fathom-mcp/src/index.js:275-300 | `/` and `/health` get the status document, `/mcp` goes to the MCP handler, and every other path gets a 404 "Not found" |
| Worker.StatusAdvertisesEndpoint | servers/fathom-mcp/src/index.js:279-297 | the status document says `status: "ok"` and advertises an endpoint that the router sends to the MCP handler |
| Scenarios.ListTwoOfFive | nansen-core/servers/fathom/server.mjs:62-99 | with `limit` 2 and an upstream returning five bare-array records, one call with an empty query is made, and the result is the dump of the first two summaries |
| Scenarios.FirstTwoSummaries | nansen-core/servers/fathom/server.mjs:72-83 | summarising five records under `limit` 2 gives exactly the first two, projected |
| Scenarios.ListTwoOfFiveTitles | nansen-core/servers/fathom/server.mjs:77 | a record with a `name` but no `title` is titled by its name; a record with neither gets "Untitled meeting" |
| Scenarios.TranscriptFallsBack | nansen-core/servers/fathom/server.mjs:114-138 | a 404 from the recording endpoint leads to one meeting-endpoint call, whose `{transcript: [{speaker: "A", text: "hi"}]}` yields the text `[A]: hi` |

Behaviour of the code worth knowing:

- The list is looked for only under `meetings` and `data`. A list under
  `items` yields no meetings (`Meetings.ItemsKeyIgnored`).
- Every fallback uses JavaScript `||`, not `??`. So an empty-string title
  falls through to `name`, and an empty `recording_id` falls back to the
  meeting id.
- Normalisation can fail on payload shape. A `null` segment, or a truthy
  `segments`/`utterances` value that is not an array, throws a `TypeError`.
  The tool then returns an error-flagged result.
- `list_meetings` projects only the records kept by `limit`. A `null` record
  after the cut is never read.

## Left out

- Network I/O: `fetch`, URL construction and percent-encoding, reading the
  reply body, and the `Accept` header. The upstream is the oracle `Api`. The
  `X-Api-Key` header appears only as the key recorded in each `Request`.
- The MCP SDK (`McpServer`, `createMcpHandler`, `StdioServerTransport`) and
  the zod schema validation are foreign libraries. Inputs are taken as
  already validated, with the schema's defaults applied (`Meetings.WithDefaults`).
- Reading `FATHOM_API_KEY` from the process environment and exiting when it
  is absent (server.mjs lines 15-20) is process I/O. The `Tools` handlers
  take the key as a parameter. The startup check guarantees it is non-empty.
- The text of `JSON.stringify(..., null, 2)`, of the worker's compact
  `JSON.stringify` of the status document, and of `String(v)` on non-strings
  is uninterpreted. The status document is kept as a JSON value.
- The exact wording of engine `TypeError` messages and of the JSON parse
  error. The model's texts for them are placeholders. Only the tool prefix in
  front of them is modelled.
- Numbers are integers. Fractional or NaN `limit` values and non-integer JSON
  numbers are floating point and not modelled.
- Property reads cover only the keys the handlers use. Arrays, strings,
  numbers and booleans yield `undefined` for them, with no prototype lookups.
- The worker's MCP endpoint body is the SDK's handler. `Worker.RouteOf` only
  says that `/mcp` is dispatched to it.
- Asynchrony: each handler runs its awaits in order, and the model is
  sequential.
