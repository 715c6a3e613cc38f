/** inline.go: the in-process executor, its options, the response recorder it
    hands to the GraphQL handler, and the schema-hint error presenter. */
module Inline {
  import opened Json
  import opened Engine
  import opened ErrorType
  import opened Describer
  import Text

  // ---------------------------------------------------------------------
  // Options (inlineConfig, WithContextEnricher, WithSchemaHints)
  // ---------------------------------------------------------------------

  datatype InlineOption =
    | WithContextEnricher(fn: Option<Ctx -> Ctx>)
    | WithSchemaHints

  class InlineConfig {
    var enrich: Option<Ctx -> Ctx>
    var schemaHints: bool

    constructor ()
      ensures enrich == None && !schemaHints
    {
      enrich := None;
      schemaHints := false;
    }

    /** `o(cfg)` for one option. */
    method Apply(o: InlineOption)
      modifies this
      ensures o.WithContextEnricher? ==> enrich == o.fn && schemaHints == old(schemaHints)
      ensures o.WithSchemaHints? ==> schemaHints && enrich == old(enrich)
    {
      match o
      case WithContextEnricher(fn) => enrich := fn;
      case WithSchemaHints => schemaHints := true;
    }
  }

  /** The configuration after applying `opts` in order to a zero one. */
  function ConfigAfter(opts: seq<InlineOption>): (r: (Option<Ctx -> Ctx>, bool))
    ensures r.1 <==> exists i :: 0 <= i < |opts| && opts[i].WithSchemaHints?
    decreases |opts|
  {
    if |opts| == 0 then (None, false)
    else
      var prev := ConfigAfter(opts[..|opts| - 1]);
      var last := opts[|opts| - 1];
      assert forall i :: 0 <= i < |opts| - 1 ==> opts[..|opts| - 1][i] == opts[i];
      match last
      case WithContextEnricher(fn) => (fn, prev.1)
      case WithSchemaHints => (prev.0, true)
  }

  /** A later `WithContextEnricher` replaces an earlier one: the enricher in
      force is the one of the last such option. */
  lemma {:induction false} LastEnricherWins(opts: seq<InlineOption>, fn: Option<Ctx -> Ctx>, rest: seq<InlineOption>)
    requires forall i :: 0 <= i < |rest| ==> rest[i].WithSchemaHints?
    ensures ConfigAfter(opts + [WithContextEnricher(fn)] + rest).0 == fn
    decreases |rest|
  {
    var all := opts + [WithContextEnricher(fn)] + rest;
    if |rest| > 0 {
      var init := rest[..|rest| - 1];
      assert all[..|all| - 1] == opts + [WithContextEnricher(fn)] + init;
      LastEnricherWins(opts, fn, init);
    } else {
      assert all[..|all| - 1] == opts;
    }
  }

  /** Without any `WithContextEnricher` there is no enricher. */
  lemma {:induction false} NoEnricherByDefault(opts: seq<InlineOption>)
    requires forall i :: 0 <= i < |opts| ==> opts[i].WithSchemaHints?
    ensures ConfigAfter(opts).0 == None
    decreases |opts|
  {
    if |opts| > 0 {
      NoEnricherByDefault(opts[..|opts| - 1]);
    }
  }

  // ---------------------------------------------------------------------
  // The response recorder (inlineRecorder)
  // ---------------------------------------------------------------------

  class InlineRecorder {
    var body: string
    var header: map<string, seq<string>>
    var status: int

    constructor ()
      ensures body == "" && header == map[] && status == 0
    {
      body := "";
      header := map[];
      status := 0;
    }

    /** `Header`: the recorder's header map. */
    method Header() returns (h: map<string, seq<string>>)
      ensures h == header
    {
      h := header;
    }

    /** `Write`: appends to the body and reports the whole chunk written. */
    method Write(b: string) returns (n: int, err: Option<string>)
      modifies this
      ensures body == old(body) + b && n == |b| && err == None
      ensures header == old(header) && status == old(status)
    {
      body := body + b;
      n := |b|;
      err := None;
    }

    /** `WriteHeader`: records the status. */
    method WriteHeader(s: int)
      modifies this
      ensures status == s && body == old(body) && header == old(header)
    {
      status := s;
    }
  }

  /** The handler's calls, made on the recorder one after the other;
      `reported` is what each `Write` returned: the length of its own chunk,
      which `Engine.ChunkPlacement` locates in the body. */
  method Replay(rr: InlineRecorder, calls: seq<WriterCall>) returns (reported: seq<int>)
    modifies rr
    ensures rr.body == old(rr.body) + BodyWritten(calls)
    ensures rr.status == LastStatus(calls, old(rr.status))
    ensures rr.header == old(rr.header)
    ensures |reported| == |Chunks(calls)|
    ensures forall j :: 0 <= j < |reported| ==> reported[j] == |Chunks(calls)[j]|
  {
    reported := [];
    var i := 0;
    while i < |calls|
      invariant 0 <= i <= |calls|
      invariant rr.body == old(rr.body) + BodyWritten(calls[..i])
      invariant rr.status == LastStatus(calls[..i], old(rr.status))
      invariant rr.header == old(rr.header)
      invariant |reported| == |Chunks(calls[..i])|
      invariant forall j :: 0 <= j < |reported| ==> reported[j] == |Chunks(calls[..i])[j]|
    {
      assert calls[..i + 1][..i] == calls[..i];
      assert !calls[i].WriteCall? ==> Chunks(calls[..i + 1]) == Chunks(calls[..i]);
      match calls[i] {
        case HeaderCall =>
          var _ := rr.Header();
        case WriteHeaderCall(s) =>
          rr.WriteHeader(s);
        case WriteCall(chunk) =>
          assert Chunks(calls[..i + 1]) == Chunks(calls[..i]) + [chunk];
          Text.ConcatAppend(Chunks(calls[..i]), chunk);
          var n, _ := rr.Write(chunk);
          reported := reported + [n];
      }
      i := i + 1;
    }
    assert calls[..i] == calls;
  }

  // ---------------------------------------------------------------------
  // The schema-hint error presenter (makeSchemaHintPresenter)
  // ---------------------------------------------------------------------

  /** A `*gqlerror.Error`: its message and its extensions map, which may be nil. */
  class GqlError {
    var message: string
    var extensions: Option<Object>

    constructor (message: string)
      ensures this.message == message && extensions == None
    {
      this.message := message;
      extensions := None;
    }
  }

  /** The error the engine hands to the presenter. */
  datatype EngineError = GqlErr(e: GqlError) | PlainError(text: string)

  /** The presenter's effect on the extensions: with a type name and a
      non-empty hint, `schemaHint` is set (a nil map is created first);
      otherwise nothing changes. */
  function PresentedExtensions(ext: Option<Object>, typeName: string, described: Result<string, FetchError>)
    : (r: Option<Object>)
    ensures typeName == "" || described.Failure? || described.value == "" ==> r == ext
    ensures typeName != "" && described.Success? && described.value != "" ==>
      r.Some? && "schemaHint" in r.value && r.value["schemaHint"] == JStr(described.value)
      && r.value.Keys == (if ext.Some? then ext.value.Keys else {}) + {"schemaHint"}
      && forall k :: ext.Some? && k in ext.value && k != "schemaHint" ==> r.value[k] == ext.value[k]
  {
    if typeName != "" && described.Success? && described.value != "" then
      var m := if ext.Some? then ext.value else map[];
      Some(m["schemaHint" := JStr(described.value)])
    else ext
  }

  /** The presenter overwrites a `schemaHint` that is already there. */
  lemma PresenterOverwrites(ext: Object, typeName: string, hint: string)
    requires "schemaHint" in ext && typeName != "" && hint != ""
    ensures PresentedExtensions(Some(ext), typeName, Success(hint)) == Some(ext["schemaHint" := JStr(hint)])
  {
  }

  /** The presenter for describer `d`: always an error, with the original
      message (or the plain error's text), and a hint when the message names a
      type that `d` can describe. */
  method Present(d: Describer, err: EngineError) returns (g: GqlError)
    requires d.Valid()
    modifies d, if err.GqlErr? then {err.e} else {}
    ensures d.Valid()
    ensures err.GqlErr? ==> g == err.e && g.message == old(err.e.message)
    ensures err.PlainError? ==> fresh(g) && g.message == err.text
    ensures g.extensions == PresentedExtensions(
              if err.GqlErr? then old(err.e.extensions) else None,
              ReferencedType(g.message),
              DescribeResult(d.exec, d.decode, ReferencedType(g.message), false, true))
  {
    if err.GqlErr? {
      g := err.e;
    } else {
      g := new GqlError(err.text);
    }
    AttachHint(d, g, ReferencedType(g.message));
  }

  /** The hint part of the presenter, for the type name its switch found. */
  method AttachHint(d: Describer, g: GqlError, typeName: string)
    requires d.Valid()
    modifies d, g
    ensures d.Valid()
    ensures g.message == old(g.message)
    ensures g.extensions == PresentedExtensions(old(g.extensions), typeName,
                                                DescribeResult(d.exec, d.decode, typeName, false, true))
  {
    if typeName != "" {
      var hint := d.Describe(typeName);
      if hint.Success? && hint.value != "" {
        if g.extensions.None? {
          g.extensions := Some(map[]);
        }
        g.extensions := Some(g.extensions.value["schemaHint" := JStr(hint.value)]);
      }
    }
  }

  // ---------------------------------------------------------------------
  // The executor (InlineExecutor, NewInlineExecutor, Execute)
  // ---------------------------------------------------------------------

  class InlineExecutor {
    /** The gqlgen handler built from the schema. */
    const serve: Handler
    const enrich: Option<Ctx -> Ctx>
    /** The describer of the installed schema-hint presenter, if any. */
    const hints: Option<Describer>

    /** `NewInlineExecutor`: options apply in order; the presenter is
        installed exactly when `WithSchemaHints` is among them. */
    constructor NewInlineExecutor(serve: Handler, decode: string -> Option<Json>, opts: seq<InlineOption>)
      ensures this.serve == serve
      ensures enrich == ConfigAfter(opts).0
      ensures hints.Some? <==> exists i :: 0 <= i < |opts| && opts[i].WithSchemaHints?
      ensures hints.Some? ==>
                (fresh(hints.value) && hints.value.Valid() && hints.value.cache == map[]
                 && forall q :: hints.value.exec(q) == Success(Served(serve, Background, q, None)))
    {
      var cfg := new InlineConfig();
      var i := 0;
      while i < |opts|
        invariant 0 <= i <= |opts|
        invariant (cfg.enrich, cfg.schemaHints) == ConfigAfter(opts[..i])
      {
        assert opts[..i + 1][..i] == opts[..i];
        cfg.Apply(opts[i]);
        i := i + 1;
      }
      assert opts[..i] == opts;
      this.serve := serve;
      enrich := cfg.enrich;
      if cfg.schemaHints {
        var d := new Describer.NewSchemaHintDescriber(serve, decode);
        hints := Some(d);
      } else {
        hints := None;
      }
    }

    /** `Execute`: the enricher first, then the POST body, then the handler
        writing into a fresh recorder, whose body is the answer. */
    method Execute(ctx: Ctx, query: string, variables: Option<Object>) returns (r: Result<string, string>)
      ensures r == Success(Served(serve, EnrichCtx(enrich, ctx), query, variables))
    {
      var c := ctx;
      if enrich.Some? {
        c := enrich.value(c);
      }
      assert c == EnrichCtx(enrich, ctx);
      var body: Object := map["query" := JStr(query)];
      if variables.Some? {
        body := body["variables" := JObj(variables.value)];
      }
      assert body == RequestBody(query, variables);
      var rr := new InlineRecorder();
      var calls := serve(c, body);
      var _ := Replay(rr, calls);
      assert rr.body == BodyWritten(calls);
      r := Success(rr.body);
    }
  }
}
