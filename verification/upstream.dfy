/** The upstream client `fathomFetch`: builds the query string from a
    parameter object, issues one request to the Fathom API (an oracle here)
    and splits the reply into a parsed body or a thrown error. */
module Upstream {
  import opened JsValues

  /** One upstream call: the `X-Api-Key` header value, the path below the
      API base, and the query entries in the order they are appended. */
  datatype Request = Request(apiKey: string, path: string, query: seq<(string, string)>)

  /** What `fetch` delivers: a reply with its status, its text and the
      outcome of parsing that text as JSON, or a rejection. */
  datatype Response =
    | Received(status: int, text: string, json: Option<Json>)
    | Rejected(reason: string)

  /** The Fathom API, as seen by the servers. */
  type Api = Request -> Response

  /** A result together with the upstream calls issued to obtain it, in order. */
  datatype Traced<+T> = Traced(result: Result<T>, calls: seq<Request>)

  /** `res.ok`: the status lies in 200-299. */
  predicate StatusOk(status: int) {
    200 <= status <= 299
  }

  predicate HasQueryKey(q: seq<(string, string)>, k: string) {
    exists i | 0 <= i < |q| :: q[i].0 == k
  }

  predicate HasQueryEntry(q: seq<(string, string)>, k: string, v: string) {
    exists i | 0 <= i < |q| :: q[i] == (k, v)
  }

  /** Whether the parameter object holds `k` with a value other than
      `undefined` and `null`. */
  predicate Sends(params: seq<(string, Json)>, k: string) {
    exists j | 0 <= j < |params| :: params[j].0 == k && !Nullish(params[j].1)
  }

  /** The query string of a request: one entry per parameter whose value is
      neither `undefined` nor `null`, its value passed through `String`, in
      the parameter object's order. */
  function Query(p: Printer, params: seq<(string, Json)>): (q: seq<(string, string)>)
    ensures |q| <= |params|
    decreases |params|
  {
    if params == [] then []
    else
      var last := params[|params| - 1];
      Query(p, params[..|params| - 1]) + (if Nullish(last.1) then [] else [(last.0, ToStr(p, last.1))])
  }

  /** A key appears in the query string exactly when the parameter object
      gives it a value other than `undefined` and `null`. */
  lemma {:induction false} QuerySendsExactly(p: Printer, params: seq<(string, Json)>, k: string)
    ensures HasQueryKey(Query(p, params), k) <==> Sends(params, k)
    decreases |params|
  {
    if params != [] {
      var init := params[..|params| - 1];
      var last := params[|params| - 1];
      var q0 := Query(p, init);
      var q := Query(p, params);
      QuerySendsExactly(p, init, k);
      assert forall j | 0 <= j < |init| :: init[j] == params[j];
      if Nullish(last.1) {
        assert q == q0;
        if Sends(params, k) {
          var j :| 0 <= j < |params| && params[j].0 == k && !Nullish(params[j].1);
          assert j < |init|;
        }
      } else {
        assert q == q0 + [(last.0, ToStr(p, last.1))];
        if HasQueryKey(q, k) {
          var i :| 0 <= i < |q| && q[i].0 == k;
          if i < |q0| {
            assert q0[i].0 == k;
          } else {
            assert params[|params| - 1].0 == k;
          }
        }
        if Sends(params, k) {
          var j :| 0 <= j < |params| && params[j].0 == k && !Nullish(params[j].1);
          if j < |init| {
            assert Sends(init, k);
            var i :| 0 <= i < |q0| && q0[i].0 == k;
            assert q[i] == q0[i];
          } else {
            assert q[|q| - 1].0 == k;
          }
        }
      }
    }
  }

  /** Every entry of the query string comes from a parameter that is neither
      `undefined` nor `null`, and carries that parameter's `String` value. */
  lemma {:induction false} QueryEntryOrigin(p: Printer, params: seq<(string, Json)>, i: int)
    requires 0 <= i < |Query(p, params)|
    ensures exists j | 0 <= j < |params| ::
              params[j].0 == Query(p, params)[i].0 && !Nullish(params[j].1)
              && Query(p, params)[i].1 == ToStr(p, params[j].1)
    decreases |params|
  {
    var init := params[..|params| - 1];
    var last := params[|params| - 1];
    var q0 := Query(p, init);
    var q := Query(p, params);
    if i < |q0| {
      assert q[i] == q0[i];
      QueryEntryOrigin(p, init, i);
      var j :| 0 <= j < |init| && init[j].0 == q0[i].0 && !Nullish(init[j].1) && q0[i].1 == ToStr(p, init[j].1);
      assert params[j] == init[j];
    } else {
      assert !Nullish(last.1) && q[i] == (last.0, ToStr(p, last.1));
      assert params[|params| - 1] == last;
    }
  }

  /** Building the query string of two parameter objects one after the
      other is the same as building each and concatenating. */
  lemma {:induction false} QueryConcat(p: Printer, a: seq<(string, Json)>, b: seq<(string, Json)>)
    ensures Query(p, a + b) == Query(p, a) + Query(p, b)
    decreases |b|
  {
    if b == [] {
      assert a + b == a;
    } else {
      var b0 := b[..|b| - 1];
      QueryConcat(p, a, b0);
      assert (a + b)[..|a + b| - 1] == a + b0;
      assert (a + b)[|a + b| - 1] == b[|b| - 1];
    }
  }

  /** An entry occurs in a concatenation exactly when it occurs in a part. */
  lemma EntryInConcat(q1: seq<(string, string)>, q2: seq<(string, string)>)
    ensures forall k, v :: HasQueryEntry(q1 + q2, k, v) <==> HasQueryEntry(q1, k, v) || HasQueryEntry(q2, k, v)
    ensures forall k :: HasQueryKey(q1 + q2, k) <==> HasQueryKey(q1, k) || HasQueryKey(q2, k)
  {
    forall k, v | HasQueryEntry(q1 + q2, k, v)
      ensures HasQueryEntry(q1, k, v) || HasQueryEntry(q2, k, v)
    {
      var i :| 0 <= i < |q1 + q2| && (q1 + q2)[i] == (k, v);
      if i >= |q1| {
        assert q2[i - |q1|] == (k, v);
      }
    }
    forall k, v | HasQueryEntry(q1, k, v)
      ensures HasQueryEntry(q1 + q2, k, v)
    {
      var i :| 0 <= i < |q1| && q1[i] == (k, v);
      assert (q1 + q2)[i] == (k, v);
    }
    forall k, v | HasQueryEntry(q2, k, v)
      ensures HasQueryEntry(q1 + q2, k, v)
    {
      var i :| 0 <= i < |q2| && q2[i] == (k, v);
      assert (q1 + q2)[|q1| + i] == (k, v);
    }
    forall k | HasQueryKey(q1 + q2, k)
      ensures HasQueryKey(q1, k) || HasQueryKey(q2, k)
    {
      var i :| 0 <= i < |q1 + q2| && (q1 + q2)[i].0 == k;
      if i >= |q1| {
        assert q2[i - |q1|].0 == k;
      }
    }
    forall k | HasQueryKey(q1, k)
      ensures HasQueryKey(q1 + q2, k)
    {
      var i :| 0 <= i < |q1| && q1[i].0 == k;
      assert (q1 + q2)[i].0 == k;
    }
    forall k | HasQueryKey(q2, k)
      ensures HasQueryKey(q1 + q2, k)
    {
      var i :| 0 <= i < |q2| && q2[i].0 == k;
      assert (q1 + q2)[|q1| + i].0 == k;
    }
  }

  /** When no parameter is `undefined` or `null`, every parameter is sent, in
      order. */
  lemma {:induction false} QueryKeepsAll(p: Printer, params: seq<(string, Json)>)
    requires forall j | 0 <= j < |params| :: !Nullish(params[j].1)
    ensures |Query(p, params)| == |params|
    ensures forall j | 0 <= j < |params| ::
              Query(p, params)[j] == (params[j].0, ToStr(p, params[j].1))
    decreases |params|
  {
    if params != [] {
      var init := params[..|params| - 1];
      assert forall j | 0 <= j < |init| :: init[j] == params[j];
      QueryKeepsAll(p, init);
    }
  }

  /** The request `fathomFetch` sends: the caller's key and path, and the
      filtered query. */
  function MakeRequest(p: Printer, apiKey: string, path: string, params: seq<(string, Json)>): (req: Request)
    ensures req.apiKey == apiKey && req.path == path
  {
    Request(apiKey, path, Query(p, params))
  }

  /** How `fathomFetch` splits a reply: a non-2xx reply throws an error
      carrying the status and the reply text; a 2xx reply yields the parsed
      body, and a body that is not JSON throws. */
  function Classify(resp: Response): (r: Result<Json>)
    ensures r.Ok? <==> resp.Received? && StatusOk(resp.status) && resp.json.Some?
    ensures r.Ok? ==> r.value == resp.json.value
    ensures resp.Received? && !StatusOk(resp.status) ==> r == Err(ApiError(resp.status, resp.text))
    ensures r.Err? && r.error.ApiError? ==> resp.Received? && !StatusOk(resp.status)
  {
    match resp
    case Rejected(reason) => Err(FetchRejected(reason))
    case Received(status, text, json) =>
      if !StatusOk(status) then Err(ApiError(status, text))
      else if json.None? then Err(InvalidJson("Unexpected token in JSON"))
      else Ok(json.value)
  }

  /** The meeting resource, `/meetings/{id}`. */
  function MeetingPath(meetingId: string): string {
    "/meetings/" + meetingId
  }

  /** Every key, at once: the query carries a key iff the parameter object
      gives it a value other than `undefined` or `null`. */
  lemma QuerySendsAll(p: Printer, params: seq<(string, Json)>)
    ensures forall k :: HasQueryKey(Query(p, params), k) <==> Sends(params, k)
  {
    forall k ensures HasQueryKey(Query(p, params), k) <==> Sends(params, k) {
      QuerySendsExactly(p, params, k);
    }
  }

  /** One call of `fathomFetch`: exactly one upstream request, carrying the
      caller's key and path and exactly the keys whose values are set; the
      call succeeds iff the reply is a 2xx with a JSON body, which is then
      the result, and a non-2xx reply throws with its status and text. */
  function FathomFetch(p: Printer, api: Api, apiKey: string, path: string, params: seq<(string, Json)>): (r: Traced<Json>)
    ensures |r.calls| == 1 && r.calls[0] == MakeRequest(p, apiKey, path, params)
    ensures r.calls[0].apiKey == apiKey && r.calls[0].path == path
    ensures forall k :: HasQueryKey(r.calls[0].query, k) <==> Sends(params, k)
    ensures var resp := api(r.calls[0]);
            r.result.Ok? <==> resp.Received? && StatusOk(resp.status) && resp.json.Some?
    ensures var resp := api(r.calls[0]);
            r.result.Ok? ==> resp.Received? && resp.json.Some? && r.result.value == resp.json.value
    ensures var resp := api(r.calls[0]);
            resp.Received? && !StatusOk(resp.status) ==> r.result == Err(ApiError(resp.status, resp.text))
    ensures r.result == Classify(api(r.calls[0]))
  {
    var req := MakeRequest(p, apiKey, path, params);
    QuerySendsAll(p, params);
    Traced(Classify(api(req)), [req])
  }
}
