/** The remote worker: the same three tools, but the caller passes the API
    key with every call, so each handler first refuses an empty key; and a
    path router in front of the MCP endpoint. */
module Worker {
  import opened JsValues
  import opened Upstream
  import opened Meetings
  import Tools
  import Transcripts

  const MissingKeyText: string := "No Fathom API key provided. Please pass your api_key parameter."

  /** The result every tool returns for an empty `api_key`, with no call made. */
  function MissingKey(): (r: Tools.Reply)
    ensures r.result.isError && r.calls == []
  {
    Tools.Reply(Tools.ToolResult(MissingKeyText, true), [])
  }

  /** `list_meetings` with a caller-supplied key: an empty key is refused
      before any upstream call; otherwise every call carries that key. */
  function ListMeetings(p: Printer, api: Api, apiKey: string, a: ListArgs): (r: Tools.Reply)
    ensures apiKey == "" ==> r.calls == [] && r.result == Tools.ToolResult(MissingKeyText, true)
    ensures apiKey != "" ==> r == Tools.ListMeetings(p, api, apiKey, a)
    ensures apiKey != "" ==> |r.calls| == 1 && r.calls[0].path == "/meetings"
    ensures forall i | 0 <= i < |r.calls| :: r.calls[i].apiKey == apiKey
  {
    if apiKey == "" then MissingKey() else Tools.ListMeetings(p, api, apiKey, a)
  }

  /** `get_transcript` with a caller-supplied key. */
  function GetTranscript(p: Printer, api: Api, apiKey: string, meetingId: string,
                         recordingId: Option<string>): (r: Tools.Reply)
    ensures apiKey == "" ==> r.calls == [] && r.result == Tools.ToolResult(MissingKeyText, true)
    ensures apiKey != "" ==> r == Tools.GetTranscript(p, api, apiKey, meetingId, recordingId)
    ensures apiKey != "" ==>
              (&& 1 <= |r.calls| <= 2
               && r.calls[0].path == Transcripts.RecordingTranscriptPath(Transcripts.TranscriptId(meetingId, recordingId)))
    ensures forall i | 0 <= i < |r.calls| :: r.calls[i].apiKey == apiKey
  {
    if apiKey == "" then MissingKey()
    else
      var r := Tools.GetTranscript(p, api, apiKey, meetingId, recordingId);
      assert r.calls == Transcripts.FetchTranscript(p, api, apiKey, meetingId, recordingId).calls;
      r
  }

  /** `get_meeting_details` with a caller-supplied key. */
  function GetMeetingDetails(p: Printer, api: Api, apiKey: string, meetingId: string): (r: Tools.Reply)
    ensures apiKey == "" ==> r.calls == [] && r.result == Tools.ToolResult(MissingKeyText, true)
    ensures apiKey != "" ==> r == Tools.GetMeetingDetails(p, api, apiKey, meetingId)
    ensures apiKey != "" ==> r.calls == [Request(apiKey, MeetingPath(meetingId), [])]
    ensures forall i | 0 <= i < |r.calls| :: r.calls[i].apiKey == apiKey
  {
    if apiKey == "" then MissingKey() else Tools.GetMeetingDetails(p, api, apiKey, meetingId)
  }

  /** Where the worker's `fetch` sends a request. */
  datatype Route =
    | StatusDocument(doc: Json)            // a JSON liveness document, status 200
    | McpEndpoint                          // handed to the MCP handler
    | NotFound(status: int, body: string)

  /** The liveness document served on `/` and `/health`. */
  function Status(): Json {
    Obj([("name", Str("fathom-mcp")), ("version", Str("1.0.0")), ("status", Str("ok")),
         ("transport", Str("streamable-http")), ("endpoint", Str("/mcp"))])
  }

  /** The worker's `fetch`: `/` and `/health` get the status document,
      `/mcp` goes to the MCP handler, every other path is a 404. */
  function RouteOf(pathname: string): (r: Route)
    ensures r.StatusDocument? <==> pathname == "/" || pathname == "/health"
    ensures r.StatusDocument? ==> r.doc == Status()
    ensures r.McpEndpoint? <==> pathname == "/mcp"
    ensures r.NotFound? <==> pathname != "/" && pathname != "/health" && pathname != "/mcp"
    ensures r.NotFound? ==> r.status == 404 && r.body == "Not found"
  {
    if pathname == "/" || pathname == "/health" then StatusDocument(Status())
    else if pathname == "/mcp" then McpEndpoint
    else NotFound(404, "Not found")
  }

  /** The status document reports itself healthy and advertises the very
      path the router hands to the MCP handler. */
  lemma StatusAdvertisesEndpoint()
    ensures Member(Status(), "status") == Str("ok")
    ensures Member(Status(), "endpoint").Str?
    ensures RouteOf(Member(Status(), "endpoint").s) == McpEndpoint
  {
    var fields := Status().fields;
    LookupAt(fields, 2);
    LookupAt(fields, 4);
  }
}
