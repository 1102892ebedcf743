/** The three tool handlers, as the local server runs them with its process
    key: each one is a `try` block around upstream calls and normalisation
    whose `catch` turns every failure into an error-flagged text result. */
module Tools {
  import opened JsValues
  import opened Upstream
  import opened Meetings
  import opened Transcripts

  /** A tool result: one text content item, flagged when it reports a failure. */
  datatype ToolResult = ToolResult(text: string, isError: bool)

  /** A tool result together with the upstream calls issued to produce it. */
  datatype Reply = Reply(result: ToolResult, calls: seq<Request>)

  const ListError: string := "Error listing meetings: "
  const TranscriptError: string := "Error fetching transcript: "
  const DetailsError: string := "Error fetching meeting details: "

  /** The `try`/`catch` boundary of a handler: a value becomes a plain text
      result; a thrown error becomes a flagged result whose text is the
      tool's prefix followed by the error message. */
  function Conclude(prefix: string, p: Printer, outcome: Result<string>): (r: ToolResult)
    ensures r.isError <==> outcome.Err?
    ensures outcome.Ok? ==> r.text == outcome.value
    ensures outcome.Err? ==> r.text == prefix + Message(p, outcome.error) && StartsWith(r.text, prefix)
  {
    match outcome
    case Ok(text) => ToolResult(text, false)
    case Err(e) => ToolResult(prefix + Message(p, e), true)
  }

  /** The outcome of a throwing step that runs only when the previous one
      succeeded. */
  function Then<T>(first: Result<Json>, next: Json -> Result<T>): Result<T> {
    match first
    case Ok(v) => next(v)
    case Err(e) => Err(e)
  }

  /** `list_meetings`: one `/meetings` call carrying the filtered query;
      inline transcripts cost no further call.  On success the text is the
      dump of `{count, meetings}` over the summaries; any failure, upstream
      or in the shape of the reply, becomes a flagged result. */
  function ListMeetings(p: Printer, api: Api, apiKey: string, a: ListArgs): (r: Reply)
    ensures r.calls == [Request(apiKey, "/meetings", ListQuery(p, a))]
    ensures var fetched := Classify(api(r.calls[0]));
            !r.result.isError <==> fetched.Ok? && Summarize(fetched.value, a.limit, a.includeTranscript).Ok?
    ensures var fetched := Classify(api(r.calls[0]));
            !r.result.isError ==>
              r.result.text == p.dump(Payload(Summarize(fetched.value, a.limit, a.includeTranscript).value))
    ensures var fetched := Classify(api(r.calls[0]));
            fetched.Err? ==> r.result == ToolResult(ListError + Message(p, fetched.error), true)
    ensures r.result.isError ==> StartsWith(r.result.text, ListError)
  {
    var fetched := FathomFetch(p, api, apiKey, "/meetings", ListParams(a));
    var summaries := Then(fetched.result, (data: Json) => Summarize(data, a.limit, a.includeTranscript));
    var text := match summaries
                case Ok(s) => Ok(p.dump(Payload(s)))
                case Err(e) => Err(e);
    Reply(Conclude(ListError, p, text), fetched.calls)
  }

  /** `get_transcript`: the calls are exactly those of the recording-first
      fetch; on success the text is the normalised payload, and a failure of
      both endpoints or of normalisation becomes a flagged result. */
  function GetTranscript(p: Printer, api: Api, apiKey: string, meetingId: string,
                         recordingId: Option<string>): (r: Reply)
    ensures var fetched := FetchTranscript(p, api, apiKey, meetingId, recordingId);
            && r.calls == fetched.calls
            && (!r.result.isError <==> fetched.result.Ok? && Normalize(p, fetched.result.value).Ok?)
            && (!r.result.isError ==> r.result.text == Normalize(p, fetched.result.value).value)
            && (fetched.result.Err? ==> r.result == ToolResult(TranscriptError + Message(p, fetched.result.error), true))
    ensures 1 <= |r.calls| <= 2
    ensures r.result.isError ==> StartsWith(r.result.text, TranscriptError)
  {
    var fetched := FetchTranscript(p, api, apiKey, meetingId, recordingId);
    var text := Then(fetched.result, (t: Json) => Normalize(p, t));
    Reply(Conclude(TranscriptError, p, text), fetched.calls)
  }

  /** `get_meeting_details`: one call to the meeting resource, whose record
      is dumped whole, unprojected. */
  function GetMeetingDetails(p: Printer, api: Api, apiKey: string, meetingId: string): (r: Reply)
    ensures r.calls == [Request(apiKey, MeetingPath(meetingId), [])]
    ensures var fetched := Classify(api(r.calls[0]));
            && (!r.result.isError <==> fetched.Ok?)
            && (fetched.Ok? ==> r.result.text == p.dump(fetched.value))
            && (fetched.Err? ==> r.result.text == DetailsError + Message(p, fetched.error))
  {
    var fetched := FathomFetch(p, api, apiKey, MeetingPath(meetingId), []);
    var text := Then(fetched.result, (data: Json) => Ok(p.dump(data)));
    Reply(Conclude(DetailsError, p, text), fetched.calls)
  }
}
