/** The `Describer` of describe.go: it fetches a type's `__type` payload with
    an injected exec function, caches successful payloads per name, and prints
    them with the SDL printer. */
module Describer {
  import opened Json
  import opened Text
  import opened Sdl
  import opened Engine

  /** The errors `fetch` returns. */
  datatype FetchError =
    | IntrospectionFailed(cause: string)
    | ParseFailed
    | MissingData
    | TypeNotFound(typeName: string)

  /** The error texts, as `fmt.Errorf` writes them (the JSON decoder's own
      message after "failed to parse introspection response: " is not modelled). */
  function ErrorText(e: FetchError): (r: string)
    ensures e.TypeNotFound? ==> Contains(r, Quote(e.typeName))
  {
    match e
    case IntrospectionFailed(cause) => "introspection failed: " + cause
    case ParseFailed => "failed to parse introspection response"
    case MissingData => "missing data in introspection response"
    case TypeNotFound(n) =>
      var r := "type " + Quote(n) + " not found in schema";
      assert OccursAt(r, Quote(n), 5);
      ContainsIffOccurrence(r, Quote(n));
      r
  }

  /** The exec function with nil variables: query text to response bytes, or
      the error it returned. */
  type Exec = string -> Result<string, string>

  /** `fetch` after the cache miss: decode the response and take
      `data.__type`. */
  function Interpret(raw: Result<string, string>, decode: string -> Option<Json>, typeName: string): (r: Result<Object, FetchError>)
    ensures raw.Failure? ==> r == Failure(IntrospectionFailed(raw.error))
    ensures r.Failure? && r.error.TypeNotFound? ==> r.error.typeName == typeName
    ensures r.Success? ==> raw.Success? && DecodeObject(decode, raw.value).Some?
  {
    match raw
    case Failure(e) => Failure(IntrospectionFailed(e))
    case Success(bytes) =>
      match DecodeObject(decode, bytes)
      case None => Failure(ParseFailed)
      case Some(result) =>
        match ObjAt(result, "data")
        case None => Failure(MissingData)
        case Some(data) =>
          match ObjAt(data, "__type")
          case None => Failure(TypeNotFound(typeName))
          case Some(t) => Success(t)
  }

  /** A fresh introspection of one type. */
  function Lookup(exec: Exec, decode: string -> Option<Json>, typeName: string): Result<Object, FetchError>
  {
    Interpret(exec(BuildDescribeQuery(typeName)), decode, typeName)
  }

  /** What `DescribeWith` returns for a name: the printed payload or the fetch error. */
  function DescribeResult(exec: Exec, decode: string -> Option<Json>, typeName: string,
                          showArgs: bool, noDescriptions: bool): (r: Result<string, FetchError>)
    ensures r.Success? <==> Lookup(exec, decode, typeName).Success?
    ensures r.Failure? ==> r.error == Lookup(exec, decode, typeName).error
  {
    match Lookup(exec, decode, typeName)
    case Success(t) => Success(TypeSDL(t, showArgs, noDescriptions))
    case Failure(e) => Failure(e)
  }

  /** One `fetch` on a cache: a hit answers from the cache and leaves it as it
      is; a miss answers with `miss` and stores it only when it succeeded. */
  function CacheStep(cache: map<string, Object>, typeName: string, miss: Result<Object, FetchError>)
    : (res: (Result<Object, FetchError>, map<string, Object>))
    ensures typeName in cache ==> res == (Success(cache[typeName]), cache)
    ensures typeName !in cache ==> res.0 == miss
    ensures forall n :: n in cache ==> n in res.1 && res.1[n] == cache[n]
    ensures res.1.Keys == cache.Keys + (if res.0.Success? then {typeName} else {})
    ensures typeName in res.1 ==> res.0 == Success(res.1[typeName])
  {
    if typeName in cache then (Success(cache[typeName]), cache)
    else if miss.Success? then (miss, cache[typeName := miss.value])
    else (miss, cache)
  }

  /** On a hit the outcome of exec plays no part, so exec need not be called. */
  lemma CacheHitIgnoresExec(cache: map<string, Object>, typeName: string, m1: Result<Object, FetchError>, m2: Result<Object, FetchError>)
    requires typeName in cache
    ensures CacheStep(cache, typeName, m1) == CacheStep(cache, typeName, m2)
  {
  }

  /** Failures are not cached: exec failure, bad JSON, missing `data` and a
      null `__type` all leave the cache as it was. */
  lemma FailuresNotCached(cache: map<string, Object>, typeName: string, e: FetchError)
    ensures CacheStep(cache, typeName, Failure(e)).1 == cache
  {
  }

  /** A type the server reports as null is "not found", and the error names it. */
  lemma NullTypeNotFound(exec: Exec, decode: string -> Option<Json>, typeName: string, data: Object)
    requires exec(BuildDescribeQuery(typeName)).Success?
    requires decode(exec(BuildDescribeQuery(typeName)).value) == Some(JObj(map["data" := JObj(data)]))
    requires "__type" in data && data["__type"] == JNull
    ensures Lookup(exec, decode, typeName) == Failure(TypeNotFound(typeName))
    ensures ErrorText(TypeNotFound(typeName)) == "type " + Quote(typeName) + " not found in schema"
  {
  }

  /** End to end: a server answering the describe query with the payload of
      a type, its fields listed in any order, prints that type's SDL with the
      fields in (type, name) order. */
  lemma DescribeDescribedType(exec: Exec, decode: string -> Option<Json>, td: TypeDesc, canon: TypeDesc,
                              showArgs: bool, noDescriptions: bool)
    requires WellFormedType(td)
    requires td.CompositeType? ==> DescKeysDistinct(td.fields) && DescKeysDistinct(td.inputFields)
    requires CanonicalFormOf(canon, td)
    requires exec(BuildDescribeQuery(td.name)).Success?
    requires decode(exec(BuildDescribeQuery(td.name)).value)
             == Some(JObj(map["data" := JObj(map["__type" := JObj(Payload(td))])]))
    ensures DescribeResult(exec, decode, td.name, showArgs, noDescriptions) == Success(ReferenceSDL(canon, showArgs, !noDescriptions))
  {
    DescribedTypeSDLAnyOrder(td, canon, showArgs, noDescriptions);
  }

  /** The exec log after one fetch: a miss is one more call to exec. */
  ghost function CallsAfter(calls: seq<(string, bool)>, cache: map<string, Object>, typeName: string, ok: bool)
    : seq<(string, bool)>
  {
    if typeName in cache then calls else calls + [(typeName, ok)]
  }

  /** The describer's invariant on its state: cached payloads are what a
      fresh fetch would give; a name is cached exactly when a call of exec for
      it succeeded; and after a successful call for a name there is no further
      call for it. */
  ghost predicate CacheValid(exec: Exec, decode: string -> Option<Json>,
                             cache: map<string, Object>, calls: seq<(string, bool)>)
  {
    (forall n :: n in cache ==> Lookup(exec, decode, n) == Success(cache[n]))
    && (forall n :: n in cache <==> exists i :: 0 <= i < |calls| && calls[i] == (n, true))
    && (forall i, j :: 0 <= i < j < |calls| && calls[i].0 == calls[j].0 ==> !calls[i].1)
  }

  /** A miss keeps the invariant. */
  lemma MissKeepsValid(exec: Exec, decode: string -> Option<Json>, cache: map<string, Object>,
                       calls: seq<(string, bool)>, typeName: string)
    requires CacheValid(exec, decode, cache, calls) && typeName !in cache
    ensures var r := Lookup(exec, decode, typeName);
      CacheValid(exec, decode, CacheStep(cache, typeName, r).1, calls + [(typeName, r.Success?)])
  {
    var r := Lookup(exec, decode, typeName);
    var cache' := CacheStep(cache, typeName, r).1;
    var calls' := calls + [(typeName, r.Success?)];
    MissKeepsLookups(exec, decode, cache, typeName, r);
    assert cache'.Keys == if r.Success? then cache.Keys + {typeName} else cache.Keys;
    MissLogsCachedNames(cache, calls, typeName, r.Success?, cache', calls');
    MissAfterNoSuccess(cache, calls, typeName, r.Success?);
  }

  lemma MissKeepsLookups(exec: Exec, decode: string -> Option<Json>, cache: map<string, Object>,
                         typeName: string, r: Result<Object, FetchError>)
    requires forall n :: n in cache ==> Lookup(exec, decode, n) == Success(cache[n])
    requires typeName !in cache && r == Lookup(exec, decode, typeName)
    ensures var cache' := CacheStep(cache, typeName, r).1;
      forall n :: n in cache' ==> Lookup(exec, decode, n) == Success(cache'[n])
  {
    var cache' := CacheStep(cache, typeName, r).1;
    assert cache' == if r.Success? then cache[typeName := r.value] else cache;
    forall n | n in cache' ensures Lookup(exec, decode, n) == Success(cache'[n]) {
      if n != typeName { assert cache'[n] == cache[n]; }
    }
  }

  lemma MissLogsCachedNames(cache: map<string, Object>, calls: seq<(string, bool)>, typeName: string, ok: bool,
                            cache': map<string, Object>, calls': seq<(string, bool)>)
    requires forall n :: n in cache <==> exists i :: 0 <= i < |calls| && calls[i] == (n, true)
    requires typeName !in cache
    requires cache'.Keys == (if ok then cache.Keys + {typeName} else cache.Keys)
    requires calls' == calls + [(typeName, ok)]
    ensures forall n :: n in cache' <==> exists i :: 0 <= i < |calls'| && calls'[i] == (n, true)
  {
    forall n ensures n in cache' <==> exists i :: 0 <= i < |calls'| && calls'[i] == (n, true) {
      if n in cache {
        var i :| 0 <= i < |calls| && calls[i] == (n, true);
        assert calls'[i] == (n, true);
      } else if n == typeName && ok {
        assert calls'[|calls|] == (n, true);
      } else {
        forall i | 0 <= i < |calls'| ensures calls'[i] != (n, true) {
          if i < |calls| { assert calls'[i] == calls[i]; }
        }
      }
    }
  }

  lemma MissAfterNoSuccess(cache: map<string, Object>, calls: seq<(string, bool)>, typeName: string, ok: bool)
    requires forall n :: n in cache <==> exists i :: 0 <= i < |calls| && calls[i] == (n, true)
    requires forall i, j :: 0 <= i < j < |calls| && calls[i].0 == calls[j].0 ==> !calls[i].1
    requires typeName !in cache
    ensures var calls' := calls + [(typeName, ok)];
      forall i, j :: 0 <= i < j < |calls'| && calls'[i].0 == calls'[j].0 ==> !calls'[i].1
  {
    var calls' := calls + [(typeName, ok)];
    forall i, j | 0 <= i < j < |calls'| && calls'[i].0 == calls'[j].0 ensures !calls'[i].1 {
      assert calls'[i] == calls[i];
    }
  }

  class Describer {
    const exec: Exec
    const decode: string -> Option<Json>
    var cache: map<string, Object>
    /** Each call of exec so far: the name fetched and whether it was cached. */
    ghost var calls: seq<(string, bool)>

    /** Cached payloads are what a fresh fetch would give; a name is cached
        exactly when a call for it succeeded; and after a successful call for
        a name there is no further call for it. */
    ghost predicate Valid()
      reads this
    {
      CacheValid(exec, decode, cache, calls)
    }

    constructor (exec: Exec, decode: string -> Option<Json>)
      ensures this.exec == exec && this.decode == decode
      ensures cache == map[] && calls == []
      ensures Valid()
    {
      this.exec := exec;
      this.decode := decode;
      cache := map[];
      calls := [];
    }

    /** `newSchemaHintDescriber`: exec posts `{"query": q}` to the handler
        itself and returns whatever it wrote. */
    constructor NewSchemaHintDescriber(serve: Handler, decode: string -> Option<Json>)
      ensures forall q :: exec(q) == Success(Served(serve, Background, q, None))
      ensures this.decode == decode && cache == map[] && calls == []
      ensures Valid()
    {
      exec := q => Success(Served(serve, Background, q, None));
      this.decode := decode;
      cache := map[];
      calls := [];
    }

    /** `NewDescriber`: exec runs the query through an in-process executor
        with handler `serve` and context enricher `enrich`. */
    constructor NewDescriber(serve: Handler, enrich: Option<Ctx -> Ctx>, decode: string -> Option<Json>)
      ensures forall q :: exec(q) == Success(Served(serve, EnrichCtx(enrich, Background), q, None))
      ensures this.decode == decode && cache == map[] && calls == []
      ensures Valid()
    {
      exec := q => Success(Served(serve, EnrichCtx(enrich, Background), q, None));
      this.decode := decode;
      cache := map[];
      calls := [];
    }

    /** `fetch` after a miss: one call of exec, then the checks of the
        response in the order the source makes them. */
    method Introspect(typeName: string) returns (r: Result<Object, FetchError>)
      ensures r == Lookup(exec, decode, typeName)
    {
      var raw := exec(BuildDescribeQuery(typeName));
      if raw.Failure? {
        return Failure(IntrospectionFailed(raw.error));
      }
      var result := DecodeObject(decode, raw.value);
      if result.None? {
        return Failure(ParseFailed);
      }
      var data := ObjAt(result.value, "data");
      if data.None? {
        return Failure(MissingData);
      }
      var typeInfo := ObjAt(data.value, "__type");
      if typeInfo.None? {
        return Failure(TypeNotFound(typeName));
      }
      r := Success(typeInfo.value);
    }

    /** `fetch`: the cached payload, or one call of exec whose payload is
        stored only on success. */
    method Fetch(typeName: string) returns (r: Result<Object, FetchError>)
      requires Valid()
      modifies this
      ensures Valid()
      ensures r == Lookup(exec, decode, typeName)
      ensures (r, cache) == CacheStep(old(cache), typeName, Lookup(exec, decode, typeName))
      ensures calls == CallsAfter(old(calls), old(cache), typeName, r.Success?)
    {
      if typeName in cache {
        return Success(cache[typeName]);
      }
      MissKeepsValid(exec, decode, cache, calls, typeName);
      r := Introspect(typeName);
      if r.Success? {
        cache := cache[typeName := r.value];
      }
      calls := calls + [(typeName, r.Success?)];
    }

    /** `DescribeWith`: `showArgs` as given, descriptions when asked for. */
    method DescribeWith(typeName: string, showArgs: bool, showDescriptions: bool) returns (r: Result<string, FetchError>)
      requires Valid()
      modifies this
      ensures Valid()
      ensures r == DescribeResult(exec, decode, typeName, showArgs, !showDescriptions)
      ensures cache == CacheStep(old(cache), typeName, Lookup(exec, decode, typeName)).1
      ensures calls == CallsAfter(old(calls), old(cache), typeName, r.Success?)
    {
      var typeInfo := Fetch(typeName);
      if typeInfo.Failure? {
        return Failure(typeInfo.error);
      }
      var text := FormatTypeSDL(typeInfo.value, showArgs, !showDescriptions);
      r := Success(text);
    }

    /** `Describe`: no argument lists, no descriptions. */
    method Describe(typeName: string) returns (r: Result<string, FetchError>)
      requires Valid()
      modifies this
      ensures Valid()
      ensures r == DescribeResult(exec, decode, typeName, false, true)
      ensures cache == CacheStep(old(cache), typeName, Lookup(exec, decode, typeName)).1
      ensures calls == CallsAfter(old(calls), old(cache), typeName, r.Success?)
    {
      r := DescribeWith(typeName, false, false);
    }
  }

  /** Describing the same type twice calls exec at most once when the first
      attempt succeeds, and the two answers agree. */
  method DescribeTwice(d: Describer, typeName: string) returns (first: Result<string, FetchError>, second: Result<string, FetchError>)
    requires d.Valid()
    modifies d
    ensures d.Valid()
    ensures first == second
    ensures first.Success? ==> |d.calls| <= |old(d.calls)| + 1
  {
    first := d.Describe(typeName);
    second := d.Describe(typeName);
  }
}
