/** The meeting-list half of `list_meetings`: the query it sends, how the
    list is found inside the reply, the `limit` cut and the projection of
    every record onto the summary shape. */
module Meetings {
  import opened JsValues
  import opened Upstream

  /** The inputs of `list_meetings` once the schema has applied its defaults. */
  datatype ListArgs = ListArgs(
    createdAfter: Option<string>,
    createdBefore: Option<string>,
    includeTranscript: bool,
    limit: int)

  const DefaultLimit: int := 20
  const UntitledMeeting: string := "Untitled meeting"

  /** The schema's defaults: `include_transcript` is false and `limit` is 20
      when the caller leaves them out; the dates stay optional. */
  function WithDefaults(createdAfter: Option<string>, createdBefore: Option<string>,
                        includeTranscript: Option<bool>, limit: Option<int>): (a: ListArgs)
    ensures a.createdAfter == createdAfter && a.createdBefore == createdBefore
    ensures a.includeTranscript <==> includeTranscript == Some(true)
    ensures limit.None? ==> a.limit == DefaultLimit
    ensures limit.Some? ==> a.limit == limit.value
  {
    ListArgs(createdAfter, createdBefore,
             match includeTranscript case Some(b) => b case None => false,
             match limit case Some(n) => n case None => DefaultLimit)
  }

  /** The parameter object `list_meetings` builds: each date only when it is
      truthy, and `include_transcript: "true"` only when requested. */
  function ListParams(a: ListArgs): seq<(string, Json)> {
    (if Truthy(OptString(a.createdAfter)) then [("created_after", OptString(a.createdAfter))] else [])
    + (if Truthy(OptString(a.createdBefore)) then [("created_before", OptString(a.createdBefore))] else [])
    + (if a.includeTranscript then [("include_transcript", Str("true"))] else [])
  }

  /** The query entries of the `/meetings` call, written out. */
  function ListEntries(a: ListArgs): seq<(string, string)> {
    (if Truthy(OptString(a.createdAfter)) then [("created_after", a.createdAfter.value)] else [])
    + (if Truthy(OptString(a.createdBefore)) then [("created_before", a.createdBefore.value)] else [])
    + (if a.includeTranscript then [("include_transcript", "true")] else [])
  }

  /** `fathomFetch` turns the parameter object into exactly those entries. */
  lemma ListParamsToEntries(p: Printer, a: ListArgs)
    ensures Query(p, ListParams(a)) == ListEntries(a)
  {
    var pa := if Truthy(OptString(a.createdAfter)) then [("created_after", OptString(a.createdAfter))] else [];
    var pb := if Truthy(OptString(a.createdBefore)) then [("created_before", OptString(a.createdBefore))] else [];
    var pc := if a.includeTranscript then [("include_transcript", Str("true"))] else [];
    assert ListParams(a) == pa + pb + pc;
    QueryConcat(p, pa + pb, pc);
    QueryConcat(p, pa, pb);
  }

  /** Which entries the written-out query holds. */
  lemma ListEntriesFacts(a: ListArgs)
    ensures var q := ListEntries(a);
            && (forall v :: HasQueryEntry(q, "created_after", v) <==> a.createdAfter == Some(v) && v != "")
            && (forall v :: HasQueryEntry(q, "created_before", v) <==> a.createdBefore == Some(v) && v != "")
            && (HasQueryKey(q, "include_transcript") <==> a.includeTranscript)
            && (a.includeTranscript ==> HasQueryEntry(q, "include_transcript", "true"))
  {
    var qa := if Truthy(OptString(a.createdAfter)) then [("created_after", a.createdAfter.value)] else [];
    var qb := if Truthy(OptString(a.createdBefore)) then [("created_before", a.createdBefore.value)] else [];
    var qc := if a.includeTranscript then [("include_transcript", "true")] else [];
    EntryInConcat(qa + qb, qc);
    EntryInConcat(qa, qb);
    forall v
      ensures HasQueryEntry(qa, "created_after", v) <==> a.createdAfter == Some(v) && v != ""
      ensures HasQueryEntry(qb, "created_before", v) <==> a.createdBefore == Some(v) && v != ""
    {
      if a.createdAfter == Some(v) && v != "" {
        assert qa[0] == ("created_after", v);
      }
      if a.createdBefore == Some(v) && v != "" {
        assert qb[0] == ("created_before", v);
      }
    }
    if a.includeTranscript {
      assert qc[0] == ("include_transcript", "true");
    }
  }

  /** The query string of the `/meetings` call: each date exactly when it is
      a non-empty string, `include_transcript=true` exactly when requested,
      and nothing else. */
  function ListQuery(p: Printer, a: ListArgs): (q: seq<(string, string)>)
    ensures forall v :: HasQueryEntry(q, "created_after", v) <==> a.createdAfter == Some(v) && v != ""
    ensures forall v :: HasQueryEntry(q, "created_before", v) <==> a.createdBefore == Some(v) && v != ""
    ensures HasQueryKey(q, "include_transcript") <==> a.includeTranscript
    ensures a.includeTranscript ==> HasQueryEntry(q, "include_transcript", "true")
    ensures forall i | 0 <= i < |q| ::
              q[i].0 == "created_after" || q[i].0 == "created_before" || q[i].0 == "include_transcript"
  {
    ListParamsToEntries(p, a);
    ListEntriesFacts(a);
    Query(p, ListParams(a))
  }

  /** `Array.isArray(data) ? data : (data.meetings || data.data || [])`:
      the list value, before `.slice` is applied to it. */
  function ListSource(data: Json): (r: Result<Json>)
    ensures data.Arr? ==> r == Ok(data)
    ensures r.Err? <==> Nullish(data)
    ensures r.Ok? ==> Truthy(r.value)
    ensures !data.Arr? && !Nullish(data) ==>
              && (Truthy(Member(data, "meetings")) ==> r == Ok(Member(data, "meetings")))
              && (!Truthy(Member(data, "meetings")) && Truthy(Member(data, "data")) ==> r == Ok(Member(data, "data")))
              && (!Truthy(Member(data, "meetings")) && !Truthy(Member(data, "data")) ==> r == Ok(Arr([])))
  {
    if data.Arr? then Ok(data)
    else
      var m :- Read(data, "meetings");
      // `data` is known not to be nullish here, so reading `data.data` cannot throw
      if Truthy(m) then Ok(m) else Ok(Or(Member(data, "data"), Arr([])))
  }

  /** The end index of `xs.slice(0, limit)` on a list of length `len`: a
      negative `limit` counts back from the end. */
  function SliceEnd(len: nat, limit: int): (e: nat)
    ensures e <= len
    ensures 0 <= limit ==> e == (if limit < len then limit else len)
    ensures limit < 0 ==> e == (if len + limit < 0 then 0 else len + limit)
  {
    if limit < 0 then (if len + limit < 0 then 0 else len + limit)
    else if limit < len then limit
    else len
  }

  /** `m.title || m.name || "Untitled meeting"` */
  function TitleOf(m: Json): (r: Json)
    ensures Truthy(r)
    ensures Truthy(Member(m, "title")) ==> r == Member(m, "title")
    ensures !Truthy(Member(m, "title")) && Truthy(Member(m, "name")) ==> r == Member(m, "name")
    ensures !Truthy(Member(m, "title")) && !Truthy(Member(m, "name")) ==> r == Str(UntitledMeeting)
  {
    Or(Or(Member(m, "title"), Member(m, "name")), Str(UntitledMeeting))
  }

  /** `m.created_at || m.date || m.recorded_at` */
  function DateOf(m: Json): (r: Json)
    ensures Truthy(Member(m, "created_at")) ==> r == Member(m, "created_at")
    ensures !Truthy(Member(m, "created_at")) && Truthy(Member(m, "date")) ==> r == Member(m, "date")
    ensures !Truthy(Member(m, "created_at")) && !Truthy(Member(m, "date")) ==> r == Member(m, "recorded_at")
  {
    Or(Or(Member(m, "created_at"), Member(m, "date")), Member(m, "recorded_at"))
  }

  /** `m.duration || m.duration_seconds` */
  function DurationOf(m: Json): (r: Json)
    ensures Truthy(Member(m, "duration")) ==> r == Member(m, "duration")
    ensures !Truthy(Member(m, "duration")) ==> r == Member(m, "duration_seconds")
  {
    Or(Member(m, "duration"), Member(m, "duration_seconds"))
  }

  /** `m.participants || m.attendees || []` */
  function ParticipantsOf(m: Json): (r: Json)
    ensures Truthy(r)
    ensures Truthy(Member(m, "participants")) ==> r == Member(m, "participants")
    ensures !Truthy(Member(m, "participants")) && Truthy(Member(m, "attendees")) ==> r == Member(m, "attendees")
    ensures !Truthy(Member(m, "participants")) && !Truthy(Member(m, "attendees")) ==> r == Arr([])
  {
    Or(Or(Member(m, "participants"), Member(m, "attendees")), Arr([]))
  }

  /** `m.recording_id || m.recordings?.[0]?.id` */
  function RecordingIdOf(m: Json): (r: Json)
    ensures Truthy(Member(m, "recording_id")) ==> r == Member(m, "recording_id")
    ensures !Truthy(Member(m, "recording_id")) && Nullish(Member(m, "recordings")) ==> r == Undefined
    ensures !Truthy(Member(m, "recording_id")) && Member(m, "recordings") == Arr([]) ==> r == Undefined
    ensures var rs := Member(m, "recordings");
            !Truthy(Member(m, "recording_id")) && rs.Arr? && |rs.items| > 0 ==> r == OptMember(rs.items[0], "id")
  {
    Or(Member(m, "recording_id"), OptMember(OptFirst(Member(m, "recordings")), "id"))
  }

  /** The entry appended when inline transcripts were requested and the
      record carries a truthy one; no upstream call is made for it. */
  function InlineTranscript(m: Json, includeTranscript: bool): seq<(string, Json)> {
    if includeTranscript && Truthy(Member(m, "transcript")) then [("transcript", Member(m, "transcript"))]
    else []
  }

  /** The summary object of a readable record, keys in the source's order. */
  function Summary(m: Json, includeTranscript: bool): Json {
    Obj([("id", Member(m, "id")), ("title", TitleOf(m)), ("date", DateOf(m)),
         ("duration_seconds", DurationOf(m)), ("participants", ParticipantsOf(m)),
         ("recording_id", RecordingIdOf(m))]
        + InlineTranscript(m, includeTranscript))
  }

  /** One meeting record projected onto the summary shape; reading `id` of
      a `null` or `undefined` record throws. */
  function Project(m: Json, includeTranscript: bool): (r: Result<Json>)
    ensures r.Err? <==> Nullish(m)
    ensures r.Ok? ==> r.value == Summary(m, includeTranscript)
  {
    var _ :- Read(m, "id");
    Ok(Summary(m, includeTranscript))
  }

  /** The identity fields of a summary: `id` copied verbatim and a title
      that is always truthy. */
  lemma SummaryIdentity(m: Json, includeTranscript: bool)
    ensures var s := Summary(m, includeTranscript);
            && Member(s, "id") == Member(m, "id")
            && Member(s, "title") == TitleOf(m) && Truthy(Member(s, "title"))
  {
    var fields := Summary(m, includeTranscript).fields;
    LookupAt(fields, 0);
    LookupAt(fields, 1);
  }

  /** The remaining fields of a summary: the date, duration, participant and
      recording fallbacks. */
  lemma SummaryFallbacks(m: Json, includeTranscript: bool)
    ensures var s := Summary(m, includeTranscript);
            && Member(s, "date") == DateOf(m)
            && Member(s, "duration_seconds") == DurationOf(m)
            && Member(s, "participants") == ParticipantsOf(m)
            && Member(s, "recording_id") == RecordingIdOf(m)
  {
    var fields := Summary(m, includeTranscript).fields;
    LookupAt(fields, 2);
    LookupAt(fields, 3);
    LookupAt(fields, 4);
    LookupAt(fields, 5);
  }

  /** A summary carries a `transcript` key exactly when inline transcripts
      were requested and the record's own `transcript` is truthy, and then it
      is that value. */
  lemma SummaryTranscript(m: Json, includeTranscript: bool)
    ensures var s := Summary(m, includeTranscript);
            && (HasKey(s, "transcript") <==> includeTranscript && Truthy(Member(m, "transcript")))
            && (HasKey(s, "transcript") ==> Member(s, "transcript") == Member(m, "transcript"))
  {
    var fields := Summary(m, includeTranscript).fields;
    if includeTranscript && Truthy(Member(m, "transcript")) {
      LookupAt(fields, 6);
    } else {
      assert |fields| == 6;
    }
  }

  /** `sliced.map(project)`: every record projected, in order; the first
      record that cannot be read makes the whole map throw. */
  function ProjectAll(ms: seq<Json>, includeTranscript: bool): (r: Result<seq<Json>>)
    ensures r.Ok? <==> forall i | 0 <= i < |ms| :: !Nullish(ms[i])
    ensures r.Ok? ==> |r.value| == |ms|
    ensures r.Ok? ==> forall i | 0 <= i < |ms| :: Project(ms[i], includeTranscript) == Ok(r.value[i])
    decreases |ms|
  {
    if ms == [] then Ok([])
    else
      var head :- Project(ms[0], includeTranscript);
      var tail :- ProjectAll(ms[1..], includeTranscript);
      assert forall i | 1 <= i < |ms| :: ms[i] == ms[1..][i - 1];
      Ok([head] + tail)
  }

  /** The list found in the reply, when it is an array. */
  predicate ListIsArray(data: Json) {
    ListSource(data).Ok? && ListSource(data).value.Arr?
  }

  /** The records the summaries are taken from: the first `limit` of the
      list found in the reply. */
  function Selected(data: Json, limit: int): seq<Json>
    requires ListIsArray(data)
  {
    var xs := ListSource(data).value.items;
    xs[..SliceEnd(|xs|, limit)]
  }

  /** The summaries `list_meetings` reports: the list is found in the reply,
      cut to `limit` with `.slice`, then projected; a truthy list that is not
      an array cannot be sliced and mapped, so the call throws. */
  function Summarize(data: Json, limit: int, includeTranscript: bool): (r: Result<seq<Json>>)
    ensures r.Ok? ==> ListIsArray(data)
    ensures r.Ok? ==> |r.value| == |Selected(data, limit)|
    ensures r.Ok? ==> forall i | 0 <= i < |r.value| ::
              Project(Selected(data, limit)[i], includeTranscript) == Ok(r.value[i])
    ensures r.Ok? <==> ListIsArray(data) && forall i | 0 <= i < |Selected(data, limit)| ::
                         !Nullish(Selected(data, limit)[i])
  {
    var list :- ListSource(data);
    // a string list survives `.slice` but not `.map`; nothing else has `.slice`
    if list.Str? then Err(TypeError("sliced.map is not a function"))
    else if !list.Arr? then Err(TypeError("meetings.slice is not a function"))
    else ProjectAll(Selected(data, limit), includeTranscript)
  }

  /** The object `list_meetings` serialises: `count` is the number of
      summaries it lists. */
  function Payload(summaries: seq<Json>): (r: Json)
    ensures Member(r, "meetings") == Arr(summaries)
    ensures Member(r, "count") == Num(|Member(r, "meetings").items|)
  {
    var fields := [("count", Num(|summaries|)), ("meetings", Arr(summaries))];
    LookupAt(fields, 0);
    LookupAt(fields, 1);
    Obj(fields)
  }

  /** With `limit >= 0` the summaries are the first `min(limit, n)` records
      of an `n`-record list, in order. */
  lemma SummarizeTakesPrefix(data: Json, limit: int, includeTranscript: bool)
    requires 0 <= limit
    requires Summarize(data, limit, includeTranscript).Ok?
    ensures var xs := ListSource(data).value.items;
            var r := Summarize(data, limit, includeTranscript).value;
            && |r| == (if limit < |xs| then limit else |xs|)
            && forall i | 0 <= i < |r| :: Project(xs[i], includeTranscript) == Ok(r[i])
  {
  }

  /** A bare array, the same array under `meetings`, and the same array
      under `data` (with `meetings` falsy) give the same summaries, whatever
      other keys -- a pagination cursor, say -- the reply object carries. */
  lemma ShapeInvariance(data: Json, xs: seq<Json>, limit: int, includeTranscript: bool)
    requires data.Obj?
    ensures Member(data, "meetings") == Arr(xs) ==>
              Summarize(data, limit, includeTranscript) == Summarize(Arr(xs), limit, includeTranscript)
    ensures (!Truthy(Member(data, "meetings")) && Member(data, "data") == Arr(xs)) ==>
              Summarize(data, limit, includeTranscript) == Summarize(Arr(xs), limit, includeTranscript)
  {
  }

  /** Only `meetings` and `data` are consulted: a reply object whose list
      sits only under `items` yields no summaries, whatever else it carries. */
  lemma ItemsKeyIgnored(data: Json, xs: seq<Json>, limit: int, includeTranscript: bool)
    requires data.Obj? && Member(data, "items") == Arr(xs)
    requires !Truthy(Member(data, "meetings")) && !Truthy(Member(data, "data"))
    ensures Summarize(data, limit, includeTranscript) == Ok([])
  {
  }

  /** `meetings` wins over `data` when both hold lists, in whichever order
      the reply object lists them. */
  lemma MeetingsBeforeData(data: Json, xs: seq<Json>, ys: seq<Json>, limit: int, includeTranscript: bool)
    requires data.Obj? && Member(data, "meetings") == Arr(xs) && Member(data, "data") == Arr(ys)
    ensures Summarize(data, limit, includeTranscript) == Summarize(Arr(xs), limit, includeTranscript)
  {
  }
}
