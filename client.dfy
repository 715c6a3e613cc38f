/** client.go and types.go: the HTTP client, its lazily built describer, the
    schema-hint enrichment of the errors a server returns, and the query
    rendering used in error reports. */
module Client {
  import opened Json
  import opened Text
  import opened ErrorType
  import opened Describer
  import Inline

  // ---------------------------------------------------------------------
  // The types of types.go that the client uses
  // ---------------------------------------------------------------------

  /** `ExecutionMode`: `ExecutionModeInline` is 0, `ExecutionModeHTTP` is 1. */
  datatype ExecutionMode = ExecutionModeInline | ExecutionModeHTTP

  function ModeValue(m: ExecutionMode): (v: int)
    ensures v == 0 <==> m == ExecutionModeInline
    ensures v == 1 <==> m == ExecutionModeHTTP
  {
    match m
    case ExecutionModeInline => 0
    case ExecutionModeHTTP => 1
  }

  /** `Config`, without the authentication block the client never reads. */
  datatype Config = Config(url: string, format: string, pretty: bool, token: string, timeout: int, debug: bool)

  /** `QueryOptions`: a nil variables map is `None`. */
  datatype QueryOptions = QueryOptions(query: string, variables: Option<Object>, operationName: string)

  /** `MutationOptions`: a nil `Input` is `None`. */
  datatype MutationOptions = MutationOptions(mutation: string, variables: Option<Object>, operationName: string, input: Option<Json>)

  /** `GraphQLRequest`. */
  datatype GraphQLRequest = GraphQLRequest(query: string, variables: Option<Object>, operationName: string)

  /** The JSON encoding of a request: `variables` and `operationName` carry
      `omitempty`, so a nil or empty map and an empty name are left out. */
  function RequestJson(r: GraphQLRequest): (body: Object)
    ensures "query" in body && body["query"] == JStr(r.query)
    ensures "variables" in body <==> r.variables.Some? && r.variables.value != map[]
    ensures "variables" in body ==> body["variables"] == JObj(r.variables.value)
    ensures "operationName" in body <==> r.operationName != ""
    ensures "operationName" in body ==> body["operationName"] == JStr(r.operationName)
    ensures body.Keys <= {"query", "variables", "operationName"}
  {
    var q: Object := map["query" := JStr(r.query)];
    var v := if r.variables.Some? && r.variables.value != map[] then q["variables" := JObj(r.variables.value)] else q;
    if r.operationName != "" then v["operationName" := JStr(r.operationName)] else v
  }

  // ---------------------------------------------------------------------
  // The transport (the resty client)
  // ---------------------------------------------------------------------

  /** One POST as the resty client sends it. */
  datatype HttpRequest = HttpRequest(url: string, headers: map<string, string>, timeoutSeconds: int, debug: bool, body: Object)

  /** The network: the response body, or the error text of a failed request. */
  type Transport = HttpRequest -> Result<string, string>

  /** `NewHTTPClient`'s timeout: the configured seconds, 30 when zero. */
  function TimeoutSeconds(configured: int): (t: int)
    ensures configured != 0 ==> t == configured
    ensures configured == 0 ==> t == 30
  {
    if configured == 0 then 30 else configured
  }

  /** The headers of every request: the client's bearer token when one is
      configured, and the JSON content type set per request. */
  function RequestHeaders(token: string): (h: map<string, string>)
    ensures "Content-Type" in h && h["Content-Type"] == "application/json"
    ensures "Authorization" in h <==> token != ""
    ensures token != "" ==> h["Authorization"] == "Bearer " + token
    ensures h.Keys <= {"Content-Type", "Authorization"}
  {
    var client: map<string, string> := if token != "" then map["Authorization" := "Bearer " + token] else map[];
    client["Content-Type" := "application/json"]
  }

  // ---------------------------------------------------------------------
  // Errors
  // ---------------------------------------------------------------------

  datatype ClientError =
    | WrongMode
    | UrlNotConfigured
    | UrlScheme
    | RequestFailed(cause: string)
    | ResponseParseFailed(body: string)
    /** `GraphQLResponseError{Response, Query}`. */
    | ResponseError(response: Object, query: string)

  /** The texts `fmt.Errorf` writes for the client's own errors (the JSON
      decoder's message inside a parse error is not modelled). */
  function ClientErrorText(e: ClientError): (r: Option<string>)
    ensures e.RequestFailed? ==> r.Some? && HasPrefix(r.value, "request failed: ")
    ensures e.ResponseError? <==> r.None?
  {
    match e
    case WrongMode => Some("HTTP client only supports ExecutionModeHTTP")
    case UrlNotConfigured => Some("GraphQL URL is not configured")
    case UrlScheme => Some("URL must start with http:// or https://")
    case RequestFailed(cause) =>
      var r := "request failed: " + cause;
      assert r[..|"request failed: "|] == "request failed: ";
      Some(r)
    case ResponseParseFailed(body) => Some("failed to parse response\nBody: " + body)
    case ResponseError(_, _) => None
  }

  /** The two results of an operation: the decoded response, if any, and the error. */
  datatype Outcome = Outcome(result: Option<Object>, err: Option<ClientError>)

  // ---------------------------------------------------------------------
  // Schema-hint enrichment (enrichErrors)
  // ---------------------------------------------------------------------

  /** What a hint lookup by type name returns. */
  type Hinter = string -> Result<string, FetchError>

  /** The lookup `enrichErrors` makes: `Describe` on a describer with the
      given exec, which prints without argument lists and descriptions. */
  function DescriberHints(exec: Exec, decode: string -> Option<Json>): Hinter
  {
    n => DescribeResult(exec, decode, n, false, true)
  }

  /** The server already attached a hint: `extensions` is a map holding
      `schemaHint`. */
  predicate ServerHinted(e: Object)
  {
    var ext := ObjAt(e, "extensions");
    ext.Some? && "schemaHint" in ext.value
  }

  /** The hint `enrichErrors` attaches to one error object, if any. */
  function HintFor(e: Object, hint: Hinter): (r: Option<string>)
    ensures r.Some? <==>
      StrAt(e, "message") != "" && !ServerHinted(e) && ReferencedType(StrAt(e, "message")) != ""
      && hint(ReferencedType(StrAt(e, "message"))).Success?
      && hint(ReferencedType(StrAt(e, "message"))).value != ""
    ensures r.Some? ==> r.value == hint(ReferencedType(StrAt(e, "message"))).value
  {
    var msg := StrAt(e, "message");
    if msg == "" || ServerHinted(e) then None
    else
      var typeName := ReferencedType(msg);
      if typeName == "" then None
      else
        var h := hint(typeName);
        if h.Success? && h.value != "" then Some(h.value) else None
  }

  /** One error after enrichment: non-objects and errors without a hint are
      left alone; otherwise `extensions` (a new map when it was missing or not
      a map) gains `schemaHint`, and nothing else changes. */
  function EnrichEntry(e: Json, hint: Hinter): (r: Json)
    ensures r.JObj? <==> e.JObj?
    ensures e.JObj? ==> e.fields.Keys <= r.fields.Keys
  {
    if e.JObj? && HintFor(e.fields, hint).Some? then
      var ext := ObjOrEmpty(e.fields, "extensions");
      JObj(e.fields["extensions" := JObj(ext["schemaHint" := JStr(HintFor(e.fields, hint).value)])])
    else e
  }

  /** What enrichment does to one error. */
  lemma EnrichEntrySpec(e: Json, hint: Hinter)
    ensures var r := EnrichEntry(e, hint);
      (!e.JObj? || HintFor(e.fields, hint).None? ==> r == e)
      && (e.JObj? && HintFor(e.fields, hint).Some? ==>
          r.JObj? && r.fields.Keys == e.fields.Keys + {"extensions"}
          && (forall k :: k in e.fields && k != "extensions" ==> r.fields[k] == e.fields[k])
          && ObjAt(r.fields, "extensions").Some?
          && var ext := ObjAt(r.fields, "extensions").value;
             ext.Keys == ObjOrEmpty(e.fields, "extensions").Keys + {"schemaHint"}
             && ext["schemaHint"] == JStr(HintFor(e.fields, hint).value)
             && (forall k :: k in ObjOrEmpty(e.fields, "extensions") && k != "schemaHint" ==>
                   ext[k] == ObjOrEmpty(e.fields, "extensions")[k]))
  {
  }

  /** The whole errors array after enrichment, element by element. */
  function EnrichAll(es: seq<Json>, hint: Hinter): (r: seq<Json>)
    ensures |r| == |es|
    decreases |es|
  {
    if |es| == 0 then []
    else EnrichAll(es[..|es| - 1], hint) + [EnrichEntry(es[|es| - 1], hint)]
  }

  /** One more entry of a prefix adds its enrichment to the prefix's. */
  lemma EnrichAllStep(es: seq<Json>, hint: Hinter, i: nat)
    requires i < |es|
    ensures EnrichAll(es[..i + 1], hint) == EnrichAll(es[..i], hint) + [EnrichEntry(es[i], hint)]
  {
    assert es[..i + 1][..i] == es[..i];
  }

  lemma {:induction false} EnrichAllAt(es: seq<Json>, hint: Hinter, i: nat)
    requires i < |es|
    ensures EnrichAll(es, hint)[i] == EnrichEntry(es[i], hint)
    decreases |es|
  {
    if i < |es| - 1 {
      assert es[..|es| - 1][i] == es[i];
      EnrichAllAt(es[..|es| - 1], hint, i);
    }
  }

  /** Enrichment is idempotent: an enriched error carries a hint that the
      next pass respects. */
  lemma EnrichEntryIdempotent(e: Json, hint: Hinter)
    ensures EnrichEntry(EnrichEntry(e, hint), hint) == EnrichEntry(e, hint)
  {
    var r := EnrichEntry(e, hint);
    if e.JObj? && HintFor(e.fields, hint).Some? {
      assert ServerHinted(r.fields);
    }
  }

  /** The client keeps a hint the server sent, where the in-process presenter
      replaces it. */
  lemma HintPoliciesDiffer(e: Object, hint: Hinter, typeName: string, h: string)
    requires ServerHinted(e)
    requires typeName != "" && h != ""
    ensures EnrichEntry(JObj(e), hint) == JObj(e)
    ensures var ext := ObjAt(e, "extensions").value;
      Inline.PresentedExtensions(Some(ext), typeName, Success(h)) == Some(ext["schemaHint" := JStr(h)])
  {
    Inline.PresenterOverwrites(ObjAt(e, "extensions").value, typeName, h);
  }

  // ---------------------------------------------------------------------
  // One operation (executeOperation)
  // ---------------------------------------------------------------------

  /** `executeOperation` as a function of the configuration, the network and
      the hint lookup. */
  function OperationOutcome(config: Config, post: Transport, decode: string -> Option<Json>, hint: Hinter,
                            query: string, variables: Option<Object>, operationName: string): (out: Outcome)
    ensures out.result.Some? || out.err.Some?
  {
    if config.url == "" then Outcome(None, Some(UrlNotConfigured))
    else if !HasPrefix(config.url, "http://") && !HasPrefix(config.url, "https://") then Outcome(None, Some(UrlScheme))
    else
      var request := HttpRequest(config.url, RequestHeaders(config.token), TimeoutSeconds(config.timeout), config.debug,
                                 RequestJson(GraphQLRequest(query, variables, operationName)));
      match post(request)
      case Failure(cause) => Outcome(None, Some(RequestFailed(cause)))
      case Success(body) => ResponseOutcome(decode, hint, body, query)
  }

  /** The part of `executeOperation` after the response arrived. */
  function ResponseOutcome(decode: string -> Option<Json>, hint: Hinter, body: string, query: string): (out: Outcome)
    ensures out.result.None? <==> DecodeObject(decode, body).None?
    ensures out.result.Some? && out.err.Some? ==> out.err == Some(ResponseError(out.result.value, query))
  {
    match DecodeObject(decode, body)
    case None => Outcome(None, Some(ResponseParseFailed(body)))
    case Some(result) =>
      match ArrAt(result, "errors")
      case None => Outcome(Some(result), None)
      case Some(es) =>
        var enriched := result["errors" := JArr(EnrichAll(es, hint))];
        Outcome(Some(enriched), Some(ResponseError(enriched, query)))
  }

  /** The URL errors come first; a success is a response without an `errors`
      array; a response returned with an error is the one the error carries. */
  lemma OperationOutcomeShape(config: Config, post: Transport, decode: string -> Option<Json>, hint: Hinter,
                              query: string, variables: Option<Object>, operationName: string)
    ensures var out := OperationOutcome(config, post, decode, hint, query, variables, operationName);
      (config.url == "" ==> out == Outcome(None, Some(UrlNotConfigured)))
      && (config.url != "" && !HasPrefix(config.url, "http://") && !HasPrefix(config.url, "https://") ==>
            out == Outcome(None, Some(UrlScheme)))
      && (out.err.None? ==> out.result.Some? && ArrAt(out.result.value, "errors").None?)
      && (out.result.Some? && out.err.Some? ==> out.err == Some(ResponseError(out.result.value, query)))
  {
  }

  /** The URL is checked before anything is sent: a bad URL gives the same
      outcome whatever the network would do. */
  lemma UrlCheckedFirst(config: Config, post1: Transport, post2: Transport, decode: string -> Option<Json>, hint: Hinter,
                        query: string, variables: Option<Object>, operationName: string)
    requires !HasPrefix(config.url, "http://") && !HasPrefix(config.url, "https://")
    ensures OperationOutcome(config, post1, decode, hint, query, variables, operationName)
         == OperationOutcome(config, post2, decode, hint, query, variables, operationName)
    ensures OperationOutcome(config, post1, decode, hint, query, variables, operationName).result.None?
  {
  }

  /** A response with an `errors` array, even an empty one, is returned
      together with a `GraphQLResponseError` carrying that same response,
      whose errors are the enriched ones and whose other keys are untouched. */
  lemma ErrorsArrayIsResponseError(config: Config, post: Transport, decode: string -> Option<Json>, hint: Hinter,
                                   query: string, variables: Option<Object>, operationName: string,
                                   body: string, result: Object, es: seq<Json>)
    requires HasPrefix(config.url, "http://") || HasPrefix(config.url, "https://")
    requires post(HttpRequest(config.url, RequestHeaders(config.token), TimeoutSeconds(config.timeout), config.debug,
                              RequestJson(GraphQLRequest(query, variables, operationName)))) == Success(body)
    requires DecodeObject(decode, body) == Some(result)
    requires "errors" in result && result["errors"] == JArr(es)
    ensures var out := OperationOutcome(config, post, decode, hint, query, variables, operationName);
      out.result.Some? && out.err == Some(ResponseError(out.result.value, query))
      && out.result.value.Keys == result.Keys
      && out.result.value["errors"] == JArr(EnrichAll(es, hint))
      && forall k :: k in result && k != "errors" ==> out.result.value[k] == result[k]
  {
  }

  /** `Input` is wrapped as the `input` variable, over whatever variables
      were given (a nil map is created first). */
  function MutationVariables(variables: Option<Object>, input: Option<Json>): (r: Option<Object>)
    ensures input.None? ==> r == variables
    ensures input.Some? ==> r.Some? && "input" in r.value && r.value["input"] == input.value
    ensures input.Some? ==>
      r.value.Keys == (if variables.Some? then variables.value.Keys else {}) + {"input"}
      && forall k :: variables.Some? && k in variables.value && k != "input" ==> r.value[k] == variables.value[k]
  {
    match input
    case None => variables
    case Some(v) =>
      var m := if variables.Some? then variables.value else map[];
      Some(m["input" := v])
  }

  // ---------------------------------------------------------------------
  // The client (HTTPClient)
  // ---------------------------------------------------------------------

  class HTTPClient {
    const config: Config
    /** The resty client's transport. */
    const post: Transport
    /** The JSON parser. */
    const decode: string -> Option<Json>
    /** The exec function of the describer `NewDescriberFromHTTPClient` builds. */
    const describerExec: Exec
    var describer: Describer?

    /** The describer, once built, answers with `describerExec` and keeps its
        cache invariant. */
    ghost predicate Valid()
      reads this, describer
    {
      describer != null ==> describer.Valid() && describer.exec == describerExec && describer.decode == decode
    }

    /** The hint lookup `enrichErrors` makes. */
    function Hints(): Hinter
    {
      DescriberHints(describerExec, decode)
    }

    /** `NewHTTPClient`: no describer until one is needed. */
    constructor NewHTTPClient(config: Config, post: Transport, decode: string -> Option<Json>, describerExec: Exec)
      ensures this.config == config && this.post == post && this.decode == decode && this.describerExec == describerExec
      ensures describer == null && Valid()
    {
      this.config := config;
      this.post := post;
      this.decode := decode;
      this.describerExec := describerExec;
      describer := null;
    }

    /** `getDescriber`: built on first use, the same one afterwards. */
    method GetDescriber() returns (d: Describer)
      requires Valid()
      modifies this
      ensures Valid() && describer == d
      ensures old(describer) != null ==> d == old(describer)
      ensures old(describer) == null ==> fresh(d) && d.cache == map[]
    {
      if describer == null {
        describer := new Describer(describerExec, decode);
      }
      d := describer;
    }

    /** `c.getDescriber().Describe(ctx, typeName)`. */
    method LookupHint(typeName: string) returns (hint: Result<string, FetchError>)
      requires Valid()
      modifies this, describer
      ensures Valid()
      ensures hint == Hints()(typeName)
      ensures old(describer) != null ==> describer == old(describer)
      ensures old(describer) == null ==> fresh(describer)
    {
      var d := GetDescriber();
      hint := d.Describe(typeName);
    }

    /** The body of `enrichErrors`'s loop for one error. */
    method EnrichOne(e: Json) returns (r: Json)
      requires Valid()
      modifies this, describer
      ensures Valid()
      ensures r == EnrichEntry(e, Hints())
      ensures old(describer) != null ==> describer == old(describer)
      ensures old(describer) == null && describer != null ==> fresh(describer)
    {
      r := e;
      if !e.JObj? {
        return;
      }
      var em := e.fields;
      var msg := StrAt(em, "message");
      if msg == "" {
        return;
      }
      var ext := ObjAt(em, "extensions");
      if ext.Some? && "schemaHint" in ext.value {
        return;
      }
      var typeName := ExtractTypeFromErrorMsg(msg);
      if typeName == "" {
        return;
      }
      var hint := LookupHint(typeName);
      if hint.Failure? || hint.value == "" {
        return;
      }
      var m := if ext.Some? then ext.value else map[];
      r := JObj(em["extensions" := JObj(m["schemaHint" := JStr(hint.value)])]);
    }

    /** `enrichErrors`: every error of the array, in place. */
    method EnrichErrors(errors: array<Json>)
      requires Valid()
      modifies this, describer, errors
      ensures Valid()
      ensures errors[..] == EnrichAll(old(errors[..]), Hints())
    {
      ghost var orig := errors[..];
      var i := 0;
      while i < errors.Length
        invariant 0 <= i <= errors.Length
        invariant Valid()
        invariant errors[..i] == EnrichAll(orig[..i], Hints())
        invariant errors[i..] == orig[i..]
        invariant old(describer) != null ==> describer == old(describer)
        invariant old(describer) == null && describer != null ==> fresh(describer)
      {
        assert errors[i] == orig[i] by { assert errors[i..][0] == errors[i]; }
        var e := EnrichOne(errors[i]);
        EnrichAllStep(orig, Hints(), i);
        ghost var done := errors[..i];
        errors[i] := e;
        assert errors[..i] == done;
        assert errors[..i + 1] == done + [e];
        assert errors[i + 1..] == orig[i + 1..];
        i := i + 1;
      }
      assert orig[..i] == orig;
    }

    /** `executeOperation`. */
    method ExecuteOperation(query: string, variables: Option<Object>, operationName: string) returns (out: Outcome)
      requires Valid()
      modifies this, describer
      ensures Valid()
      ensures out == OperationOutcome(config, post, decode, Hints(), query, variables, operationName)
    {
      if config.url == "" {
        return Outcome(None, Some(UrlNotConfigured));
      }
      if !HasPrefix(config.url, "http://") && !HasPrefix(config.url, "https://") {
        return Outcome(None, Some(UrlScheme));
      }
      var request := GraphQLRequest(query, None, "");
      if variables.Some? {
        request := request.(variables := variables);
      }
      if operationName != "" {
        request := request.(operationName := operationName);
      }
      assert request == GraphQLRequest(query, variables, operationName);
      var resp := post(HttpRequest(config.url, RequestHeaders(config.token), TimeoutSeconds(config.timeout), config.debug,
                                   RequestJson(request)));
      if resp.Failure? {
        return Outcome(None, Some(RequestFailed(resp.error)));
      }
      out := HandleResponse(resp.value, query);
    }

    /** Parsing the response, and enriching its errors when it has any. */
    method HandleResponse(body: string, query: string) returns (out: Outcome)
      requires Valid()
      modifies this, describer
      ensures Valid()
      ensures out == ResponseOutcome(decode, Hints(), body, query)
    {
      var result := DecodeObject(decode, body);
      if result.None? {
        return Outcome(None, Some(ResponseParseFailed(body)));
      }
      var rawErrors := ArrAt(result.value, "errors");
      if rawErrors.Some? {
        var es := rawErrors.value;
        var a := new Json[|es|](k requires 0 <= k < |es| => es[k]);
        assert a[..] == es;
        EnrichErrors(a);
        var enriched := result.value["errors" := JArr(a[..])];
        return Outcome(Some(enriched), Some(ResponseError(enriched, query)));
      }
      out := Outcome(result, None);
    }

    /** `Execute`: HTTP mode only. */
    method Execute(mode: ExecutionMode, opts: QueryOptions) returns (out: Outcome)
      requires Valid()
      modifies this, describer
      ensures Valid()
      ensures mode != ExecutionModeHTTP ==> out == Outcome(None, Some(WrongMode))
      ensures mode == ExecutionModeHTTP ==>
        out == OperationOutcome(config, post, decode, Hints(), opts.query, opts.variables, opts.operationName)
    {
      if mode != ExecutionModeHTTP {
        return Outcome(None, Some(WrongMode));
      }
      out := ExecuteOperation(opts.query, opts.variables, opts.operationName);
    }

    /** `ExecuteMutation`: HTTP mode only, with `Input` wrapped as `input`. */
    method ExecuteMutation(mode: ExecutionMode, opts: MutationOptions) returns (out: Outcome)
      requires Valid()
      modifies this, describer
      ensures Valid()
      ensures mode != ExecutionModeHTTP ==> out == Outcome(None, Some(WrongMode))
      ensures mode == ExecutionModeHTTP ==>
        out == OperationOutcome(config, post, decode, Hints(), opts.mutation,
                                MutationVariables(opts.variables, opts.input), opts.operationName)
    {
      if mode != ExecutionModeHTTP {
        return Outcome(None, Some(WrongMode));
      }
      var variables := opts.variables;
      if opts.input.Some? {
        var m := if variables.Some? then variables.value else map[];
        variables := Some(m["input" := opts.input.value]);
      }
      out := ExecuteOperation(opts.mutation, variables, opts.operationName);
    }
  }

  // ---------------------------------------------------------------------
  // Query rendering for error reports (formatQueryForError)
  // ---------------------------------------------------------------------

  const TruncateAbove: nat := 100
  const TruncatedKeep: nat := 97

  /** One numbered line: `"   %s | %s"` with the number right-aligned in two columns. */
  function NumberedLine(n: nat, line: string): (r: string)
    ensures r == "   " + Pad2(n) + " | " + line
  {
    "   " + Pad2(n) + " | " + line
  }

  /** The numbered lines, counting from one. */
  function NumberedLines(lines: seq<string>): (r: seq<string>)
    ensures |r| == |lines|
    decreases |lines|
  {
    if |lines| == 0 then []
    else NumberedLines(lines[..|lines| - 1]) + [NumberedLine(|lines|, lines[|lines| - 1])]
  }

  lemma {:induction false} NumberedLinesAt(lines: seq<string>, i: nat)
    requires i < |lines|
    ensures NumberedLines(lines)[i] == NumberedLine(i + 1, lines[i])
    decreases |lines|
  {
    if i < |lines| - 1 {
      assert lines[..|lines| - 1][i] == lines[i];
      NumberedLinesAt(lines[..|lines| - 1], i);
    }
  }

  /** The rendering of a query: one line is indented (and cut to 97 bytes
      when longer than 100 bytes); several lines are numbered. */
  function QueryForError(query: string): (r: string)
    ensures HasPrefix(r, "   ")
  {
    var lines := Split(query, '\n');
    if |lines| <= 1 then
      if Utf8Length(query) > TruncateAbove then
        "   " + Utf8Prefix(query, TruncatedKeep) + TruncationNote(Utf8Length(query))
      else "   " + query
    else
      var numbered := NumberedLines(lines);
      NumberedLinesAt(lines, 0);
      assert Join(numbered, "\n") == numbered[0] + "\n" + Join(numbered[1..], "\n");
      Join(numbered, "\n")
  }

  /** What follows the kept part of a truncated query. */
  function TruncationNote(bytes: nat): string
  {
    "... (truncated, length: " + NatToString(bytes) + " chars)"
  }

  /** `formatQueryForError`. */
  method FormatQueryForError(query: string) returns (r: string)
    ensures r == QueryForError(query)
  {
    var lines := Split(query, '\n');
    if |lines| <= 1 {
      if Utf8Length(query) > TruncateAbove {
        return "   " + Utf8Prefix(query, TruncatedKeep) + TruncationNote(Utf8Length(query));
      }
      return "   " + query;
    }
    var result: seq<string> := [];
    var i := 0;
    while i < |lines|
      invariant 0 <= i <= |lines|
      invariant result == NumberedLines(lines[..i])
    {
      assert lines[..i + 1][..i] == lines[..i];
      result := result + [NumberedLine(i + 1, lines[i])];
      i := i + 1;
    }
    assert lines[..i] == lines;
    r := Join(result, "\n");
  }

  /** A query splits into several lines exactly when it holds a newline. */
  lemma SeveralLinesIffNewline(query: string)
    ensures |Split(query, '\n')| >= 2 <==> '\n' in query
  {
    var lines := Split(query, '\n');
    JoinSplit(query, '\n');
    if |lines| >= 2 {
      assert Join(lines, "\n") == lines[0] + "\n" + Join(lines[1..], "\n");
      assert query[|lines[0]|] == '\n';
    } else {
      assert query == lines[0];
    }
  }

  /** A one-line query of at most 100 bytes is shown indented, whole. */
  lemma SingleLineRendering(query: string)
    requires '\n' !in query && Utf8Length(query) <= TruncateAbove
    ensures QueryForError(query) == "   " + query
  {
    SeveralLinesIffNewline(query);
  }

  /** A one-line query longer than 100 bytes keeps the longest run of whole
      characters that fits in 97 bytes, which is never the whole query, and
      reports its length in bytes. */
  lemma SingleLineTruncated(query: string)
    requires '\n' !in query && Utf8Length(query) > TruncateAbove
    ensures QueryForError(query) == "   " + Utf8Prefix(query, TruncatedKeep) + TruncationNote(Utf8Length(query))
    ensures |Utf8Prefix(query, TruncatedKeep)| < |query|
  {
    SeveralLinesIffNewline(query);
    var kept := Utf8Prefix(query, TruncatedKeep);
    assert |kept| == |query| ==> kept == query;
  }

  /** For an ASCII query bytes are characters: a one-line query longer than
      100 characters keeps its first 97 and reports its character count. */
  lemma AsciiSingleLineRendering(query: string)
    requires '\n' !in query && IsAscii(query) && |query| > TruncateAbove
    ensures QueryForError(query) == "   " + query[..TruncatedKeep] + TruncationNote(|query|)
  {
    SeveralLinesIffNewline(query);
    AsciiUtf8(query, TruncatedKeep);
  }

  /** `n` copies of `c`. */
  function Repeated(c: char, n: nat): (r: string)
    ensures |r| == n
    decreases n
  {
    if n == 0 then [] else [c] + Repeated(c, n - 1)
  }

  /** A one-line query of sixty two-byte characters (such as `\U{e9}`) is 120
      bytes long, so it is cut after 48 characters (96 bytes) and reported as
      120 long. */
  lemma WideQueryTruncated(c: char)
    requires Utf8Width(c) == 2
    ensures QueryForError(Repeated(c, 60)) == "   " + Repeated(c, 48) + TruncationNote(120)
  {
    var q := Repeated(c, 60);
    RepeatedLacks(c, 60, '\n');
    SeveralLinesIffNewline(q);
    Utf8LengthRepeated(c, 60);
    Utf8LengthRepeated(c, 48);
    RepeatedConcat(c, 48, 12);
    Utf8PrefixConcat(Repeated(c, 48), Repeated(c, 12), TruncatedKeep);
    assert Repeated(c, 12) == [c] + Repeated(c, 11);
    Utf8PrefixCons(c, Repeated(c, 11), 1);
  }

  lemma {:induction false} RepeatedLacks(c: char, n: nat, d: char)
    requires c != d
    ensures d !in Repeated(c, n)
    decreases n
  {
    if n > 0 {
      RepeatedLacks(c, n - 1, d);
    }
  }

  lemma {:induction false} Utf8LengthRepeated(c: char, n: nat)
    ensures Utf8Length(Repeated(c, n)) == n * Utf8Width(c)
    decreases n
  {
    if n > 0 {
      var s := Repeated(c, n);
      assert s[0] == c && s[1..] == Repeated(c, n - 1);
      Utf8LengthRepeated(c, n - 1);
      assert n * Utf8Width(c) == (n - 1) * Utf8Width(c) + Utf8Width(c);
    }
  }

  lemma {:induction false} RepeatedConcat(c: char, m: nat, n: nat)
    ensures Repeated(c, m + n) == Repeated(c, m) + Repeated(c, n)
    decreases m
  {
    if m > 0 {
      RepeatedConcat(c, m - 1, n);
    }
  }

  /** A multi-line query is rendered line for line: splitting the rendering
      at newlines gives, for each source line, its number and the line itself. */
  lemma MultiLineRendering(query: string)
    requires '\n' in query
    ensures var lines := Split(query, '\n');
      Split(QueryForError(query), '\n') == NumberedLines(lines)
      && forall i :: 0 <= i < |lines| ==> NumberedLines(lines)[i] == "   " + Pad2(i + 1) + " | " + lines[i]
  {
    var lines := Split(query, '\n');
    SeveralLinesIffNewline(query);
    var numbered := NumberedLines(lines);
    assert QueryForError(query) == Join(numbered, "\n");
    forall i | 0 <= i < |lines|
      ensures numbered[i] == NumberedLine(i + 1, lines[i])
      ensures '\n' !in numbered[i]
    {
      NumberedLinesAt(lines, i);
      NumberedLineNoNewline(i + 1, lines[i]);
    }
    SplitJoin(numbered, '\n');
  }

  /** A numbered line of a line without a newline has none either. */
  lemma NumberedLineNoNewline(n: nat, line: string)
    requires '\n' !in line
    ensures '\n' !in NumberedLine(n, line)
  {
    PadHasNoNewline(n);
    var p := Pad2(n);
    assert NumberedLine(n, line) == "   " + p + " | " + line;
    forall k | 0 <= k < |NumberedLine(n, line)| ensures NumberedLine(n, line)[k] != '\n' {
      if k >= |"   " + p + " | "| {
        assert NumberedLine(n, line)[k] == line[k - |"   " + p + " | "|];
      } else if k >= 3 && k < 3 + |p| {
        assert NumberedLine(n, line)[k] == p[k - 3];
      }
    }
  }

  lemma PadHasNoNewline(n: nat)
    ensures '\n' !in Pad2(n)
  {
    assert forall k :: 0 <= k < |NatToString(n)| ==> NatToString(n)[k] != '\n';
  }
}
