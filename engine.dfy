/** What the in-process executor and the schema-hint describer share: the
    context they pass along, the POST body they build, and the GraphQL handler
    seen as the calls it makes on its response writer. */
module Engine {
  import opened Json
  import opened Text

  /** The request-scoped values a `context.Context` carries. */
  datatype Ctx = Ctx(values: map<string, string>)

  /** `context.Background()`. */
  const Background: Ctx := Ctx(map[])

  /** An optional `func(context.Context) context.Context`. */
  function EnrichCtx(enrich: Option<Ctx -> Ctx>, ctx: Ctx): Ctx
  {
    match enrich
    case None => ctx
    case Some(f) => f(ctx)
  }

  /** A call the handler makes on its `http.ResponseWriter`. */
  datatype WriterCall = HeaderCall | WriteHeaderCall(status: int) | WriteCall(chunk: string)

  /** `handler.Server.ServeHTTP` for a context and a decoded POST body. */
  type Handler = (Ctx, Object) -> seq<WriterCall>

  /** The POST body: `{"query": q}`, plus `"variables"` only for non-nil variables. */
  function RequestBody(query: string, variables: Option<Object>): (body: Object)
    ensures "query" in body && body["query"] == JStr(query)
    ensures "variables" in body <==> variables.Some?
    ensures variables.Some? ==> body["variables"] == JObj(variables.value)
    ensures forall k :: k in body ==> k == "query" || k == "variables"
  {
    if variables.Some? then map["query" := JStr(query), "variables" := JObj(variables.value)]
    else map["query" := JStr(query)]
  }

  /** The chunks passed to `Write`, in order. */
  function Chunks(calls: seq<WriterCall>): (r: seq<string>)
    ensures |r| <= |calls|
    decreases |calls|
  {
    if |calls| == 0 then []
    else
      var last := calls[|calls| - 1];
      Chunks(calls[..|calls| - 1]) + (if last.WriteCall? then [last.chunk] else [])
  }

  /** The bytes written through `Write`: the chunks, one after the other. */
  function BodyWritten(calls: seq<WriterCall>): string
  {
    Concat(Chunks(calls))
  }

  /** The status of the last `WriteHeader`, or `initial` when there is none. */
  function LastStatus(calls: seq<WriterCall>, initial: int): int
    decreases |calls|
  {
    if |calls| == 0 then initial
    else if calls[|calls| - 1].WriteHeaderCall? then calls[|calls| - 1].status
    else LastStatus(calls[..|calls| - 1], initial)
  }

  function Sum(xs: seq<int>): int
    decreases |xs|
  {
    if |xs| == 0 then 0 else xs[0] + Sum(xs[1..])
  }

  lemma {:induction false} ConcatLength(cs: seq<string>, ns: seq<int>)
    requires |ns| == |cs| && forall k :: 0 <= k < |cs| ==> ns[k] == |cs[k]|
    ensures |Concat(cs)| == Sum(ns)
    decreases |cs|
  {
    if |cs| > 0 {
      ConcatLength(cs[1..], ns[1..]);
    }
  }

  /** Given counts that match the chunks one for one, as `Write` reports them,
      chunk `j` lies in the body at the sum of the earlier counts and spans
      its own count. */
  lemma ChunkPlacement(calls: seq<WriterCall>, reported: seq<int>, j: nat)
    requires |reported| == |Chunks(calls)|
    requires forall k :: 0 <= k < |reported| ==> reported[k] == |Chunks(calls)[k]|
    requires j < |reported|
    ensures var off := Sum(reported[..j]);
      0 <= off && off + reported[j] <= |BodyWritten(calls)|
      && BodyWritten(calls)[off..off + reported[j]] == Chunks(calls)[j]
  {
    var cs := Chunks(calls);
    assert cs == cs[..j] + [cs[j]] + cs[j + 1..];
    ConcatSplit(cs[..j] + [cs[j]], cs[j + 1..]);
    ConcatAppend(cs[..j], cs[j]);
    ConcatLength(cs[..j], reported[..j]);
  }

  /** What one in-process request returns: the body the handler wrote for it. */
  function Served(serve: Handler, ctx: Ctx, query: string, variables: Option<Object>): (body: string)
    ensures (forall c :: c in serve(ctx, RequestBody(query, variables)) ==> !c.WriteCall?) ==> body == ""
  {
    NoWritesNoChunks(serve(ctx, RequestBody(query, variables)));
    BodyWritten(serve(ctx, RequestBody(query, variables)))
  }

  /** A handler that never calls `Write` leaves no chunks. */
  lemma {:induction false} NoWritesNoChunks(calls: seq<WriterCall>)
    ensures (forall c :: c in calls ==> !c.WriteCall?) ==> Chunks(calls) == []
    decreases |calls|
  {
    if |calls| > 0 && forall c :: c in calls ==> !c.WriteCall? {
      var init := calls[..|calls| - 1];
      assert forall c :: c in init ==> c in calls;
      NoWritesNoChunks(init);
    }
  }
}
