/** The transcript half of `get_transcript`: the recording-then-meeting
    fetch order, and the reduction of whichever payload arrived to
    `[speaker]: content` lines joined by newlines. */
module Transcripts {
  import opened JsValues
  import opened Upstream

  const UnknownSpeaker: string := "Unknown"

  /** `recording_id || meeting_id` */
  function TranscriptId(meetingId: string, recordingId: Option<string>): (rid: string)
    ensures recordingId.Some? && recordingId.value != "" ==> rid == recordingId.value
    ensures !(recordingId.Some? && recordingId.value != "") ==> rid == meetingId
  {
    if Truthy(OptString(recordingId)) then recordingId.value else meetingId
  }

  /** The recording-scoped transcript resource. */
  function RecordingTranscriptPath(rid: string): string {
    "/recordings/" + rid + "/transcript"
  }

  /** The parameters of the fallback call. */
  const FallbackParams: seq<(string, Json)> := [("include_transcript", Str("true"))]

  /** The upstream half of `get_transcript`: the recording endpoint is asked
      first; the meeting endpoint is asked only when that first call threw,
      and its outcome is final.  At most two calls, never a retry. */
  function FetchTranscript(p: Printer, api: Api, apiKey: string, meetingId: string,
                           recordingId: Option<string>): (r: Traced<Json>)
    ensures 1 <= |r.calls| <= 2
    ensures r.calls[0] == Request(apiKey, RecordingTranscriptPath(TranscriptId(meetingId, recordingId)), [])
    ensures |r.calls| == 2 <==> Classify(api(r.calls[0])).Err?
    ensures |r.calls| == 1 ==> r.result == Classify(api(r.calls[0]))
    ensures |r.calls| == 2 ==> r.calls[1] == Request(apiKey, MeetingPath(meetingId), [("include_transcript", "true")])
    ensures |r.calls| == 2 ==> r.result == Classify(api(r.calls[1]))
    ensures forall i | 0 <= i < |r.calls| :: r.calls[i].apiKey == apiKey
  {
    var first := FathomFetch(p, api, apiKey, RecordingTranscriptPath(TranscriptId(meetingId, recordingId)), []);
    if first.result.Ok? then first
    else
      var second := FathomFetch(p, api, apiKey, MeetingPath(meetingId), FallbackParams);
      assert Query(p, FallbackParams) == [("include_transcript", "true")];
      Traced(second.result, first.calls + second.calls)
  }

  /** `seg.speaker || seg.speaker_name || "Unknown"` */
  function SpeakerOf(seg: Json): (r: Json)
    ensures Truthy(r)
    ensures Truthy(Member(seg, "speaker")) ==> r == Member(seg, "speaker")
    ensures !Truthy(Member(seg, "speaker")) && Truthy(Member(seg, "speaker_name")) ==> r == Member(seg, "speaker_name")
    ensures !Truthy(Member(seg, "speaker")) && !Truthy(Member(seg, "speaker_name")) ==> r == Str(UnknownSpeaker)
  {
    Or(Or(Member(seg, "speaker"), Member(seg, "speaker_name")), Str(UnknownSpeaker))
  }

  /** `seg.text || seg.content || ""` */
  function ContentOf(seg: Json): (r: Json)
    ensures Truthy(Member(seg, "text")) ==> r == Member(seg, "text")
    ensures !Truthy(Member(seg, "text")) && Truthy(Member(seg, "content")) ==> r == Member(seg, "content")
    ensures !Truthy(Member(seg, "text")) && !Truthy(Member(seg, "content")) ==> r == Str("")
  {
    Or(Or(Member(seg, "text"), Member(seg, "content")), Str(""))
  }

  /** The template `[${speaker}]: ${content}` */
  function Line(speaker: string, content: string): string {
    "[" + speaker + "]: " + content
  }

  /** One segment rendered; reading `speaker` of a `null` or `undefined`
      segment throws. */
  function RenderSegment(p: Printer, seg: Json): (r: Result<string>)
    ensures r.Err? <==> Nullish(seg)
    ensures r.Err? ==> r.error.TypeError?
    ensures r.Ok? ==> r.value == Line(ToStr(p, SpeakerOf(seg)), ToStr(p, ContentOf(seg)))
  {
    var _ :- Read(seg, "speaker");
    Ok(Line(ToStr(p, SpeakerOf(seg)), ToStr(p, ContentOf(seg))))
  }

  /** `segs.map(render)`: every segment rendered, in order; the first one
      that cannot be read makes the whole map throw. */
  function RenderAll(p: Printer, segs: seq<Json>): (r: Result<seq<string>>)
    ensures r.Ok? <==> forall i | 0 <= i < |segs| :: !Nullish(segs[i])
    ensures r.Err? ==> r.error.TypeError?
    ensures r.Ok? ==> |r.value| == |segs|
    ensures r.Ok? ==> forall i | 0 <= i < |segs| :: RenderSegment(p, segs[i]) == Ok(r.value[i])
    decreases |segs|
  {
    if segs == [] then Ok([])
    else
      var head :- RenderSegment(p, segs[0]);
      var tail :- RenderAll(p, segs[1..]);
      assert forall i | 1 <= i < |segs| :: segs[i] == segs[1..][i - 1];
      Ok([head] + tail)
  }

  /** `lines.join("\n")` */
  function Join(lines: seq<string>): string
    decreases |lines|
  {
    if lines == [] then ""
    else if |lines| == 1 then lines[0]
    else lines[0] + "\n" + Join(lines[1..])
  }

  /** The index of the first `c` in `s`, or `|s|` when there is none. */
  function IndexOf(s: string, c: char): (i: nat)
    ensures i <= |s|
    ensures i < |s| ==> s[i] == c
    ensures forall j | 0 <= j < i :: s[j] != c
    decreases |s|
  {
    if s == [] then 0
    else if s[0] == c then 0
    else 1 + IndexOf(s[1..], c)
  }

  /** `s.split("\n")`: the pieces between newlines; the empty string is one
      empty piece. */
  function Split(s: string): (pieces: seq<string>)
    ensures |pieces| >= 1
    decreases |s|
  {
    var i := IndexOf(s, '\n');
    if i == |s| then [s] else [s[..i]] + Split(s[i + 1..])
  }

  /** A line that holds no newline stays one piece. */
  lemma SplitNoNewline(s: string)
    requires '\n' !in s
    ensures Split(s) == [s]
  {
  }

  /** The first `c` of `a + [c] + b` is the one after `a`, when `a` holds none. */
  lemma IndexOfAfter(a: string, c: char, b: string)
    requires c !in a
    ensures IndexOf(a + [c] + b, c) == |a|
  {
    var s := a + [c] + b;
    assert forall j | 0 <= j < |a| :: s[j] == a[j];
    assert s[|a|] == c;
  }

  /** Splitting the joined lines gives the lines back, as long as none of
      them holds a newline itself. */
  lemma {:induction false} SplitJoin(lines: seq<string>)
    requires |lines| > 0
    requires forall i | 0 <= i < |lines| :: '\n' !in lines[i]
    ensures Split(Join(lines)) == lines
    decreases |lines|
  {
    if |lines| == 1 {
      SplitNoNewline(lines[0]);
    } else {
      var rest := Join(lines[1..]);
      var s := lines[0] + "\n" + rest;
      assert Join(lines) == s;
      IndexOfAfter(lines[0], '\n', rest);
      assert s[..|lines[0]|] == lines[0];
      assert s[|lines[0]| + 1..] == rest;
      SplitJoin(lines[1..]);
      assert lines == [lines[0]] + lines[1..];
    }
  }

  /** Reads a rendered line back into its speaker and content. */
  function ParseLine(line: string): Option<(string, string)> {
    if |line| == 0 || line[0] != '[' then None
    else
      var rest := line[1..];
      var i := IndexOf(rest, ']');
      if i + 3 <= |rest| && rest[i..i + 3] == "]: " then Some((rest[..i], rest[i + 3..]))
      else None
  }

  /** A rendered line names its speaker and content unambiguously when the
      speaker holds no `]`. */
  lemma ParseLineOfLine(speaker: string, content: string)
    requires ']' !in speaker
    ensures ParseLine(Line(speaker, content)) == Some((speaker, content))
  {
    var line := Line(speaker, content);
    var rest := line[1..];
    assert rest == speaker + [']'] + (": " + content);
    IndexOfAfter(speaker, ']', ": " + content);
    assert rest[|speaker|..|speaker| + 3] == "]: ";
    assert rest[..|speaker|] == speaker;
    assert rest[|speaker| + 3..] == content;
  }

  /** A segment without `speaker` or `speaker_name` renders as
      `[Unknown]: content`. */
  lemma UnknownSpeakerLine(p: Printer, seg: Json)
    requires !Nullish(seg)
    requires !Truthy(Member(seg, "speaker")) && !Truthy(Member(seg, "speaker_name"))
    ensures RenderSegment(p, seg) == Ok("[Unknown]: " + ToStr(p, ContentOf(seg)))
  {
    var content := ToStr(p, ContentOf(seg));
    assert Line(UnknownSpeaker, content) == "[Unknown]: " + content;
  }

  /** The segments rendered and joined by newlines. */
  function Render(p: Printer, segs: seq<Json>): (r: Result<string>)
    ensures r.Ok? <==> forall i | 0 <= i < |segs| :: !Nullish(segs[i])
    ensures r.Err? ==> r.error.TypeError?
    ensures segs == [] ==> r == Ok("")
  {
    var lines :- RenderAll(p, segs);
    Ok(Join(lines))
  }

  /** The rendered text has one line per segment, each naming that
      segment's speaker and content, whenever no speaker holds `]` and no
      speaker or content holds a newline. */
  lemma RenderLines(p: Printer, segs: seq<Json>)
    requires |segs| > 0
    requires Render(p, segs).Ok?
    requires forall i | 0 <= i < |segs| ::
               ']' !in ToStr(p, SpeakerOf(segs[i]))
               && '\n' !in ToStr(p, SpeakerOf(segs[i])) && '\n' !in ToStr(p, ContentOf(segs[i]))
    ensures var pieces := Split(Render(p, segs).value);
            && |pieces| == |segs|
            && forall i | 0 <= i < |segs| ::
                 ParseLine(pieces[i]) == Some((ToStr(p, SpeakerOf(segs[i])), ToStr(p, ContentOf(segs[i]))))
  {
    var lines := RenderAll(p, segs).value;
    forall i | 0 <= i < |lines|
      ensures '\n' !in lines[i]
      ensures ParseLine(lines[i]) == Some((ToStr(p, SpeakerOf(segs[i])), ToStr(p, ContentOf(segs[i]))))
    {
      var sp := ToStr(p, SpeakerOf(segs[i]));
      var ct := ToStr(p, ContentOf(segs[i]));
      assert lines[i] == "[" + sp + "]: " + ct;
      ParseLineOfLine(sp, ct);
    }
    SplitJoin(lines);
  }

  /** `get_transcript`'s normalisation, tried in this order: a string payload
      is the text; a truthy `transcript` array is rendered and a truthy
      `transcript` scalar stringified; then `segments`, else `utterances`, is
      rendered; otherwise the whole payload is dumped as JSON.  Only reads on
      `null`/`undefined` and a truthy non-array segment list throw. */
  function Normalize(p: Printer, t: Json): (r: Result<string>)
    ensures t.Str? ==> r == Ok(t.s)
    ensures !t.Str? && Nullish(t) ==> r.Err?
    ensures r.Err? ==> r.error.TypeError?
    ensures var tr := Member(t, "transcript");
            !t.Str? && !Nullish(t) && Truthy(tr) ==> r == (if tr.Arr? then Render(p, tr.items) else Ok(ToStr(p, tr)))
    ensures var segs := Member(t, "segments");
            (!t.Str? && !Nullish(t) && !Truthy(Member(t, "transcript")) && Truthy(segs) && segs.Arr?)
              ==> r == Render(p, segs.items)
    ensures var us := Member(t, "utterances");
            (!t.Str? && !Nullish(t) && !Truthy(Member(t, "transcript")) && !Truthy(Member(t, "segments"))
             && Truthy(us) && us.Arr?)
              ==> r == Render(p, us.items)
    ensures var segs := Or(Member(t, "segments"), Member(t, "utterances"));
            (!t.Str? && !Nullish(t) && !Truthy(Member(t, "transcript")) && Truthy(segs) && !segs.Arr?)
              ==> r.Err?
    ensures (!t.Str? && !Nullish(t) && !Truthy(Member(t, "transcript")) && !Truthy(Member(t, "segments"))
             && !Truthy(Member(t, "utterances")))
              ==> r == Ok(p.dump(t))
  {
    if t.Str? then Ok(t.s)
    else
      var tr :- Read(t, "transcript");
      if Truthy(tr) then
        if tr.Arr? then Render(p, tr.items) else Ok(ToStr(p, tr))
      else
        var segs := Or(Member(t, "segments"), Member(t, "utterances"));
        if !Truthy(segs) then Ok(p.dump(t))
        else if segs.Arr? then Render(p, segs.items)
        else Err(TypeError("segs.map is not a function"))
  }

  /** An empty `transcript` array is still truthy: it yields the empty text,
      never the JSON dump. */
  lemma EmptyTranscriptIsEmptyText(p: Printer)
    ensures Normalize(p, Obj([("transcript", Arr([]))])) == Ok("")
  {
  }

  /** When `segments` is truthy, `utterances` is never consulted: two
      payloads that agree on `transcript` and `segments` normalise alike,
      whatever else they carry. */
  lemma SegmentsBeforeUtterances(p: Printer, t1: Json, t2: Json)
    requires t1.Obj? && t2.Obj?
    requires Member(t1, "transcript") == Member(t2, "transcript")
    requires Member(t1, "segments") == Member(t2, "segments")
    requires Truthy(Member(t1, "segments"))
    ensures Normalize(p, t1) == Normalize(p, t2)
  {
  }
}
