/** End-to-end cases: what the tools return against fixed upstream behaviour. */
module Scenarios {
  import opened JsValues
  import opened Upstream
  import opened Meetings
  import opened Transcripts
  import Tools
  import Worker

  /** Five meeting records; the second has no title but a name, the others
      neither a title nor a name. */
  function Record(i: int): Json {
    if i == 1 then Obj([("id", Num(i)), ("name", Str("Standup"))])
    else Obj([("id", Num(i))])
  }

  /** An upstream that answers every request with a bare array of five records. */
  function FiveRecords(req: Request): Response {
    Received(200, "", Some(Arr([Record(0), Record(1), Record(2), Record(3), Record(4)])))
  }

  /** `list_meetings({limit: 2})` over five bare-array records lists the
      first two after exactly one call with an empty query; their titles are
      stated by `ListTwoOfFiveTitles`. */
  lemma ListTwoOfFive(p: Printer, apiKey: string)
    ensures var a := WithDefaults(None, None, None, Some(2));
            var r := Tools.ListMeetings(p, FiveRecords, apiKey, a);
            && r.calls == [Request(apiKey, "/meetings", [])]
            && !r.result.isError
            && r.result.text == p.dump(Payload([Summary(Record(0), false), Summary(Record(1), false)]))
  {
    var a := WithDefaults(None, None, None, Some(2));
    assert a == ListArgs(None, None, false, 2);
    var r := Tools.ListMeetings(p, FiveRecords, apiKey, a);
    ListParamsToEntries(p, a);
    assert ListQuery(p, a) == [];
    var data := Arr([Record(0), Record(1), Record(2), Record(3), Record(4)]);
    assert Classify(FiveRecords(r.calls[0])) == Ok(data);
    FirstTwoSummaries();
  }

  /** The summaries of the five records under `limit` 2. */
  lemma FirstTwoSummaries()
    ensures Summarize(Arr([Record(0), Record(1), Record(2), Record(3), Record(4)]), 2, false)
            == Ok([Summary(Record(0), false), Summary(Record(1), false)])
  {
    var data := Arr([Record(0), Record(1), Record(2), Record(3), Record(4)]);
    assert Selected(data, 2) == [Record(0), Record(1)];
    var s := ProjectAll([Record(0), Record(1)], false);
    assert s.Ok?;
    assert s.value[0] == Summary(Record(0), false);
    assert s.value[1] == Summary(Record(1), false);
    assert s.value == [Summary(Record(0), false), Summary(Record(1), false)];
  }

  /** The titles of the two listed meetings: the name stands in for a
      missing title, and the placeholder for a missing name. */
  lemma ListTwoOfFiveTitles()
    ensures Member(Summary(Record(0), false), "title") == Str(UntitledMeeting)
    ensures Member(Summary(Record(1), false), "title") == Str("Standup")
  {
    SummaryIdentity(Record(0), false);
    SummaryIdentity(Record(1), false);
    LookupAt(Record(1).fields, 1);
  }

  /** The transcript payload the meeting endpoint returns. */
  function MeetingWithTranscript(): Json {
    Obj([("transcript", Arr([Obj([("speaker", Str("A")), ("text", Str("hi"))])]))])
  }

  /** An upstream whose recording endpoint answers 404 and whose meeting
      endpoint carries a one-segment transcript. */
  function RecordingMissing(req: Request): Response {
    if req.path == RecordingTranscriptPath("m1") then Received(404, "not found", None)
    else Received(200, "", Some(MeetingWithTranscript()))
  }

  /** `get_transcript({meeting_id: "m1"})` falls back to the meeting
      endpoint after the 404 and yields `[A]: hi`. */
  lemma TranscriptFallsBack(p: Printer, apiKey: string)
    requires apiKey != ""
    ensures var r := Worker.GetTranscript(p, RecordingMissing, apiKey, "m1", None);
            && r.calls == [Request(apiKey, "/recordings/m1/transcript", []),
                           Request(apiKey, "/meetings/m1", [("include_transcript", "true")])]
            && r.result == Tools.ToolResult("[A]: hi", false)
  {
    var seg := Obj([("speaker", Str("A")), ("text", Str("hi"))]);
    LookupAt(seg.fields, 0);
    LookupAt(seg.fields, 1);
    assert SpeakerOf(seg) == Str("A");
    assert ContentOf(seg) == Str("hi");
    assert Line("A", "hi") == "[A]: hi";
    assert RenderSegment(p, seg) == Ok("[A]: hi");
    var lines := RenderAll(p, [seg]);
    assert lines.Ok? && lines.value[0] == "[A]: hi";
    assert lines.value == ["[A]: hi"];
    assert Normalize(p, MeetingWithTranscript()) == Ok("[A]: hi");
    assert RecordingTranscriptPath("m1") == "/recordings/m1/transcript";
    assert MeetingPath("m1") == "/meetings/m1";
  }
}
