/** formatter.go: the formatter registry, the null-stripping rebuild the JSON
    formatter applies, the text rendering of GraphQL errors, the errors
    short-circuit of the table, TOON and LLM formatters, and the
    deterministic branches of the table cell rendering. */
module Formatter {
  import opened Json
  import opened Text
  import opened Sorting

  // ---------------------------------------------------------------------
  // Formatters
  // ---------------------------------------------------------------------

  /** The built-in formatters and a user-registered one. */
  datatype Formatter =
    | JSONFormatter(pretty: bool)
    | TableFormatter
    | CompactFormatter
    | TOONFormatter
    | LLMFormatter
    | CustomFormatter(customName: string, format: Object -> Result<string, string>)

  /** `Name()`. */
  function Name(f: Formatter): (n: string)
    ensures f.JSONFormatter? ==> n == "json"
    ensures f.TableFormatter? ==> n == "table"
    ensures f.CompactFormatter? ==> n == "compact"
    ensures f.TOONFormatter? ==> n == "toon"
    ensures f.LLMFormatter? ==> n == "llm"
    ensures f.CustomFormatter? ==> n == f.customName
  {
    match f
    case JSONFormatter(_) => "json"
    case TableFormatter => "table"
    case CompactFormatter => "compact"
    case TOONFormatter => "toon"
    case LLMFormatter => "llm"
    case CustomFormatter(n, _) => n
  }

  /** The encoders and writers the formatters hand their data to: JSON
      marshalling (with or without indentation), the TOON encoder, and the
      map-order-dependent table and markdown writers. */
  datatype Renderers = Renderers(
    marshal: (Json, bool) -> Result<string, string>,
    toon: Object -> Result<string, string>,
    table: Object -> string,
    markdown: Object -> string,
    show: Json -> string)

  /** The non-empty `errors` array the non-JSON formatters report instead of data. */
  function ReportedErrors(data: Object): (r: Option<seq<Json>>)
    ensures r.Some? <==> ArrAt(data, "errors").Some? && |ArrAt(data, "errors").value| > 0
    ensures r.Some? ==> r == ArrAt(data, "errors")
  {
    match ArrAt(data, "errors")
    case Some(es) => if |es| > 0 then Some(es) else None
    case None => None
  }

  /** `Format` of each formatter. */
  function Format(f: Formatter, data: Object, rs: Renderers): (r: Result<string, string>)
    ensures f.TableFormatter? || f.LLMFormatter? ==> r.Success?
    ensures f.JSONFormatter? && r.Failure? ==> HasPrefix(r.error, "failed to marshal JSON: ")
  {
    match f
    case JSONFormatter(pretty) =>
      (match rs.marshal(StripNulls(JObj(data)), pretty)
       case Success(out) => Success(out)
       case Failure(e) => Failure("failed to marshal JSON: " + e))
    case TableFormatter =>
      (match ReportedErrors(data)
       case Some(es) => Success(ErrorsText(es, rs.show))
       case None => Success(rs.table(data)))
    case CompactFormatter => rs.marshal(JObj(data), false)
    case TOONFormatter =>
      (match ReportedErrors(data)
       case Some(es) => Success(ErrorsText(es, rs.show))
       case None =>
         var dataField := if ObjAt(data, "data").Some? then ObjAt(data, "data").value else data;
         match rs.toon(dataField)
         case Success(out) => Success(out)
         case Failure(e) => Failure("TOON encoding failed: " + e))
    case LLMFormatter =>
      (match ReportedErrors(data)
       case Some(es) => Success("## GraphQL Errors\n\n" + ErrorsText(es, rs.show))
       case None => Success(rs.markdown(ObjOrEmpty(data, "data"))))
    case CustomFormatter(_, format) => format(data)
  }

  /** With a non-empty `errors` array the table, TOON and LLM formatters
      print the errors and nothing of the data, whatever their writers do. */
  lemma ErrorsShortCircuit(f: Formatter, data: Object, rs: Renderers, rs': Renderers)
    requires f.TableFormatter? || f.TOONFormatter? || f.LLMFormatter?
    requires ArrAt(data, "errors").Some? && |ArrAt(data, "errors").value| > 0
    requires rs'.show == rs.show
    ensures Format(f, data, rs) == Format(f, data, rs')
    ensures Format(f, data, rs).Success?
    ensures var text := ErrorsText(ArrAt(data, "errors").value, rs.show);
      Format(f, data, rs).value == (if f.LLMFormatter? then "## GraphQL Errors\n\n" + text else text)
  {
  }

  /** An empty `errors` array does not short-circuit. */
  lemma EmptyErrorsRenderData(data: Object, rs: Renderers)
    requires "errors" in data && data["errors"] == JArr([])
    ensures Format(TableFormatter, data, rs) == Success(rs.table(data))
    ensures Format(LLMFormatter, data, rs) == Success(rs.markdown(ObjOrEmpty(data, "data")))
  {
  }

  /** The JSON formatter never sees a null map entry. */
  lemma JsonFormatterStripsNulls(pretty: bool, data: Object, rs: Renderers)
    ensures Format(JSONFormatter(pretty), data, rs).Success? <==> rs.marshal(StripNulls(JObj(data)), pretty).Success?
    ensures NullFree(StripNulls(JObj(data)))
  {
  }

  // ---------------------------------------------------------------------
  // The registry (DefaultFormatterRegistry)
  // ---------------------------------------------------------------------

  /** The names a fresh registry holds. */
  const DefaultNames: set<string> := {"json", "json-pretty", "table", "compact", "toon", "llm"}

  /** The formatters `NewFormatterRegistry` starts with, by name. */
  function DefaultFormatters(): (m: map<string, Formatter>)
    ensures m.Keys == DefaultNames
  {
    map["json" := JSONFormatter(false), "json-pretty" := JSONFormatter(true), "table" := TableFormatter,
        "compact" := CompactFormatter, "toon" := TOONFormatter, "llm" := LLMFormatter]
  }

  class FormatterRegistry {
    var formatters: map<string, Formatter>

    /** `NewFormatterRegistry`: the six defaults. */
    constructor NewFormatterRegistry()
      ensures formatters.Keys == DefaultNames
      ensures formatters == DefaultFormatters()
      ensures formatters["json"] == JSONFormatter(false) && formatters["json-pretty"] == JSONFormatter(true)
      ensures formatters["table"] == TableFormatter && formatters["compact"] == CompactFormatter
      ensures formatters["toon"] == TOONFormatter && formatters["llm"] == LLMFormatter
    {
      var m: map<string, Formatter> := map[];
      m := m["json" := JSONFormatter(false)];
      m := m["json-pretty" := JSONFormatter(true)];
      m := m["table" := TableFormatter];
      m := m["compact" := CompactFormatter];
      m := m["toon" := TOONFormatter];
      m := m["llm" := LLMFormatter];
      formatters := m;
    }

    /** `Register`: a taken name is refused and nothing changes; a new name is added. */
    method Register(name: string, f: Formatter) returns (err: Option<string>)
      modifies this
      ensures name in old(formatters) ==>
        err == Some("formatter '" + name + "' already registered") && formatters == old(formatters)
      ensures name !in old(formatters) ==> err == None && formatters == old(formatters)[name := f]
    {
      if name in formatters {
        return Some("formatter '" + name + "' already registered");
      }
      formatters := formatters[name := f];
      err := None;
    }

    /** `Get`: the registered formatter, or an error naming the missing one. */
    method Get(name: string) returns (r: Result<Formatter, string>)
      ensures name in formatters ==> r.Success? && r.value == formatters[name]
      ensures name !in formatters ==> r == Failure("formatter '" + name + "' not found")
    {
      if name !in formatters {
        return Failure("formatter '" + name + "' not found");
      }
      r := Success(formatters[name]);
    }

    /** `List`: every registered name once, in ascending order. */
    method List() returns (names: seq<string>)
      ensures forall n :: n in names <==> n in formatters
      ensures StrictlyAscending(names)
      ensures |names| == |formatters|
    {
      var keys := formatters.Keys;
      var collected: seq<string> := [];
      while keys != {}
        invariant keys <= formatters.Keys
        invariant forall x :: x in collected ==> x in formatters && x !in keys
        invariant forall x :: x in formatters ==> x in keys || x in collected
        invariant Distinct(collected)
        decreases |keys|
      {
        var n :| n in keys;
        collected := collected + [n];
        keys := keys - {n};
      }
      names := SortBy(LexLess, collected);
      SortedNames(collected);
      forall n ensures n in names <==> n in formatters {
        assert (n in names) == (n in multiset(names));
        assert (n in collected) == (n in multiset(collected));
      }
      DistinctCardinality(names);
      assert (set x | x in names) == formatters.Keys;
    }
  }

  predicate Distinct<T(==)>(xs: seq<T>)
  {
    forall i, j :: 0 <= i < j < |xs| ==> xs[i] != xs[j]
  }

  predicate StrictlyAscending(xs: seq<string>)
  {
    forall i, j :: 0 <= i < j < |xs| ==> LexLess(xs[i], xs[j])
  }

  lemma LexStrictOrder()
    ensures StrictOrder(LexLess)
  {
    forall a: string ensures !LexLess(a, a) { LexLessIrreflexive(a); }
    forall a: string, b: string, c: string | LexLess(a, b) && LexLess(b, c) ensures LexLess(a, c) {
      LexLessTransitive(a, b, c);
    }
  }

  /** Sorting distinct names gives them strictly ascending. */
  lemma SortedNames(xs: seq<string>)
    requires Distinct(xs)
    ensures StrictlyAscending(SortBy(LexLess, xs))
    ensures multiset(SortBy(LexLess, xs)) == multiset(xs)
  {
    var ys := SortBy(LexLess, xs);
    LexStrictOrder();
    SortBySortedPermutation(LexLess, xs);
    DistinctCount(xs);
    forall i, j | 0 <= i < j < |ys| ensures LexLess(ys[i], ys[j]) {
      if ys[i] == ys[j] {
        RepeatCount(ys, i, j);
        assert false;
      }
      LexLessTotal(ys[i], ys[j]);
    }
  }

  lemma {:induction false} DistinctCount<T>(xs: seq<T>)
    requires Distinct(xs)
    ensures forall x :: multiset(xs)[x] <= 1
    decreases |xs|
  {
    if |xs| > 0 {
      var init := xs[..|xs| - 1];
      DistinctCount(init);
      assert xs == init + [xs[|xs| - 1]];
      assert xs[|xs| - 1] !in init;
    }
  }

  lemma RepeatCount<T>(xs: seq<T>, i: nat, j: nat)
    requires i < j < |xs| && xs[i] == xs[j]
    ensures multiset(xs)[xs[i]] >= 2
  {
    assert xs == xs[..j] + xs[j..];
    assert xs[i] in xs[..j];
    assert xs[j..][0] == xs[j];
  }

  /** A sequence without repeats has as many elements as its set. */
  lemma {:induction false} DistinctCardinality(xs: seq<string>)
    requires StrictlyAscending(xs)
    ensures |(set x | x in xs)| == |xs| && Distinct(xs)
    decreases |xs|
  {
    LexStrictOrder();
    if |xs| > 0 {
      var init := xs[..|xs| - 1];
      DistinctCardinality(init);
      assert xs == init + [xs[|xs| - 1]];
      assert xs[|xs| - 1] !in init by {
        forall k | 0 <= k < |init| ensures init[k] != xs[|xs| - 1] {
          assert LexLess(xs[k], xs[|xs| - 1]);
          LexLessIrreflexive(xs[k]);
        }
      }
      assert (set x | x in xs) == (set x | x in init) + {xs[|xs| - 1]};
    }
  }

  lemma AscendingDistinct(xs: seq<string>)
    requires StrictlyAscending(xs)
    ensures Distinct(xs)
  {
    forall i, j | 0 <= i < j < |xs| ensures xs[i] != xs[j] {
      LexLessIrreflexive(xs[i]);
    }
  }

  /** Two listings of the same names are the same: there is one ascending
      order. */
  lemma ListingUnique(a: seq<string>, b: seq<string>)
    requires StrictlyAscending(a) && StrictlyAscending(b)
    requires forall n :: n in a <==> n in b
    ensures a == b
  {
    AscendingDistinct(a);
    AscendingDistinct(b);
    DistinctCount(a);
    DistinctCount(b);
    forall x ensures multiset(a)[x] == multiset(b)[x] {
      assert (x in a) == (x in b);
      assert (x in multiset(a)) == (x in a) && (x in multiset(b)) == (x in b);
    }
    assert multiset(a) == multiset(b);
    forall i, j | 0 <= i < |a| && 0 <= j < |a| && a[i] != a[j] ensures LexLess(a[i], a[j]) || LexLess(a[j], a[i]) {
      LexLessTotal(a[i], a[j]);
    }
    LexStrictOrder();
    assert SortedBy(LexLess, a) by {
      forall i, j | 0 <= i < j < |a| ensures !LexLess(a[j], a[i]) { LexLessAsymmetric(a[i], a[j]); }
    }
    assert SortedBy(LexLess, b) by {
      forall i, j | 0 <= i < j < |b| ensures !LexLess(b[j], b[i]) { LexLessAsymmetric(b[i], b[j]); }
    }
    SortedUnique(LexLess, a, b);
  }

  // ---------------------------------------------------------------------
  // stripNullValues
  // ---------------------------------------------------------------------

  /** No map at any depth has a null value (list elements may be null). */
  predicate NullFree(v: Json)
  {
    match v
    case JObj(m) => forall k :: k in m ==> m[k] != JNull && NullFree(m[k])
    case JArr(items) => forall i :: 0 <= i < |items| ==> NullFree(items[i])
    case _ => true
  }

  /** `stripNullValues`: maps lose their null entries, lists keep their
      length, anything else is returned as it is. */
  function StripNulls(v: Json): (r: Json)
    ensures NullFree(r)
    ensures r == JNull <==> v == JNull
    ensures v.JObj? ==> r.JObj? && r.fields.Keys == set k | k in v.fields && v.fields[k] != JNull
    ensures v.JArr? ==> r.JArr? && |r.items| == |v.items|
    ensures !v.JObj? && !v.JArr? ==> r == v
  {
    match v
    case JObj(m) =>
      JObj(map k | k in m && m[k] != JNull :: StripNulls(m[k]))
    case JArr(items) =>
      JArr(seq(|items|, i requires 0 <= i < |items| => StripNulls(items[i])))
    case _ => v
  }

  /** A null-free value is left as it is. */
  lemma {:induction false} StripNullFree(v: Json)
    requires NullFree(v)
    ensures StripNulls(v) == v
  {
    match v
    case JObj(m) =>
      var r := StripNulls(v).fields;
      forall k | k in m ensures r[k] == m[k] { StripNullFree(m[k]); }
    case JArr(items) =>
      var r := StripNulls(v).items;
      forall i | 0 <= i < |items| ensures r[i] == items[i] { StripNullFree(items[i]); }
    case _ =>
  }

  /** Stripping twice is stripping once. */
  lemma StripIdempotent(v: Json)
    ensures StripNulls(StripNulls(v)) == StripNulls(v)
  {
    StripNullFree(StripNulls(v));
  }

  /** Null list elements stay, and every element is stripped in place. */
  lemma StripKeepsListElements(items: seq<Json>, i: nat)
    requires i < |items|
    ensures StripNulls(JArr(items)).items[i] == StripNulls(items[i])
    ensures items[i] == JNull ==> StripNulls(JArr(items)).items[i] == JNull
  {
  }

  // ---------------------------------------------------------------------
  // formatErrors
  // ---------------------------------------------------------------------

  /** The text of one error object: message, then the optional path, code
      and schema-hint parts. */
  function ErrorObjectText(em: Object, show: Json -> string): string
  {
    MessageText(em) + PathText(em, show) + CodeText(em) + HintText(em)
  }

  function MessageText(em: Object): string
  {
    "Error: " + StrAt(em, "message") + "\n"
  }

  /** `Path: a.b.c` for a non-empty path array. */
  function PathText(em: Object, show: Json -> string): (r: string)
    ensures r != "" <==> ArrAt(em, "path").Some? && |ArrAt(em, "path").value| > 0
  {
    match ArrAt(em, "path")
    case Some(path) =>
      if |path| > 0 then "Path: " + Join(Shown(path, show), ".") + "\n" else ""
    case None => ""
  }

  /** Each path element as `%v` prints it. */
  function Shown(xs: seq<Json>, show: Json -> string): (r: seq<string>)
    ensures |r| == |xs|
    ensures forall i :: 0 <= i < |xs| ==> r[i] == show(xs[i])
  {
    seq(|xs|, i requires 0 <= i < |xs| => show(xs[i]))
  }

  function CodeText(em: Object): string
  {
    match ObjAt(em, "extensions")
    case Some(ext) => if "code" in ext && ext["code"].JStr? then "Code: " + ext["code"].s + "\n" else ""
    case None => ""
  }

  function HintText(em: Object): string
  {
    match ObjAt(em, "extensions")
    case Some(ext) => if "schemaHint" in ext && ext["schemaHint"].JStr? then "Schema hint:\n" + ext["schemaHint"].s else ""
    case None => ""
  }

  /** The newline between entries: after every error object but the last. */
  function Separator(i: nat, n: nat): string
  {
    if i + 1 < n then "\n" else ""
  }

  /** The part written for error `i` of `n`: an error object gets a newline
      after it unless it is the last; a non-object is printed as
      `Error i: v` and, as the loop moves on straight away, gets none. */
  function EntryText(i: nat, n: nat, e: Json, show: Json -> string): string
  {
    if e.JObj? then ErrorObjectText(e.fields, show) + Separator(i, n)
    else "Error " + NatToString(i + 1) + ": " + show(e) + "\n"
  }

  /** The part written for each error, in order. */
  function EntryTexts(es: seq<Json>, show: Json -> string): (r: seq<string>)
    ensures |r| == |es|
    ensures forall i :: 0 <= i < |es| ==> r[i] == EntryText(i, |es|, es[i], show)
  {
    seq(|es|, i requires 0 <= i < |es| => EntryText(i, |es|, es[i], show))
  }

  /** `formatErrors`'s result. */
  function ErrorsText(es: seq<Json>, show: Json -> string): string
  {
    Concat(EntryTexts(es, show))
  }

  /** `formatErrors`. */
  method FormatErrors(es: seq<Json>, show: Json -> string) returns (text: string)
    ensures text == ErrorsText(es, show)
  {
    text := "";
    ghost var all := EntryTexts(es, show);
    var i := 0;
    while i < |es|
      invariant 0 <= i <= |es|
      invariant text == Concat(all[..i])
    {
      var entry := FormatEntry(i, |es|, es[i], show);
      ConcatPrefixStep(all, i);
      text := text + entry;
      i := i + 1;
    }
    assert all[..i] == all;
  }

  /** What one turn of `formatErrors`'s loop writes. */
  method FormatEntry(i: nat, n: nat, e: Json, show: Json -> string) returns (out: string)
    ensures out == EntryText(i, n, e, show)
  {
    if !e.JObj? {
      return "Error " + NatToString(i + 1) + ": " + show(e) + "\n";
    }
    var em := e.fields;
    var message := "Error: " + StrAt(em, "message") + "\n";
    var pathLine := "";
    var path := ArrAt(em, "path");
    if path.Some? && |path.value| > 0 {
      var parts: seq<string> := [];
      var j := 0;
      while j < |path.value|
        invariant 0 <= j <= |path.value|
        invariant parts == Shown(path.value[..j], show)
      {
        parts := parts + [show(path.value[j])];
        j := j + 1;
      }
      assert path.value[..j] == path.value;
      pathLine := "Path: " + Join(parts, ".") + "\n";
    }
    var codeLine, hintPart := "", "";
    var ext := ObjAt(em, "extensions");
    if ext.Some? {
      if "code" in ext.value && ext.value["code"].JStr? {
        codeLine := "Code: " + ext.value["code"].s + "\n";
      }
      if "schemaHint" in ext.value && ext.value["schemaHint"].JStr? {
        hintPart := "Schema hint:\n" + ext.value["schemaHint"].s;
      }
    }
    var sep := if i + 1 < n then "\n" else "";
    out := message + pathLine + codeLine + hintPart + sep;
  }

  /** The texts of a list of error objects. */
  function ObjectTexts(es: seq<Json>, show: Json -> string): (r: seq<string>)
    requires forall i :: 0 <= i < |es| ==> es[i].JObj?
    ensures |r| == |es|
    ensures forall i :: 0 <= i < |es| ==> r[i] == ErrorObjectText(es[i].fields, show)
  {
    seq(|es|, i requires 0 <= i < |es| => ErrorObjectText(es[i].fields, show))
  }

  /** Error objects are rendered as their texts joined by a single newline,
      with none after the last. */
  lemma ObjectErrorsText(es: seq<Json>, show: Json -> string)
    requires |es| > 0
    requires forall i :: 0 <= i < |es| ==> es[i].JObj?
    ensures ErrorsText(es, show) == Join(ObjectTexts(es, show), "\n")
  {
    var parts := ObjectTexts(es, show);
    var ends := EntryTexts(es, show);
    forall i | 0 <= i < |parts| ensures ends[i] == parts[i] + (if i + 1 < |parts| then "\n" else "") {
      assert ends[i] == ErrorObjectText(es[i].fields, show) + Separator(i, |es|);
    }
    ConcatSeparated(parts, "\n", ends);
  }

  /** A schema hint attached to an error is shown in the rendering. */
  lemma HintShown(es: seq<Json>, show: Json -> string, i: nat, hint: string)
    requires i < |es| && es[i].JObj?
    requires ObjAt(es[i].fields, "extensions").Some?
    requires var ext := ObjAt(es[i].fields, "extensions").value;
      "schemaHint" in ext && ext["schemaHint"] == JStr(hint)
    ensures Contains(ErrorsText(es, show), "Schema hint:\n" + hint)
  {
    var em := es[i].fields;
    var w := "Schema hint:\n" + hint;
    assert HintText(em) == w;
    var before := MessageText(em) + PathText(em, show) + CodeText(em);
    assert EntryTexts(es, show)[i] == before + w + Separator(i, |es|);
    ContainsInside(before, w, Separator(i, |es|));
    ContainsConcat(EntryTexts(es, show), i, w);
  }

  /** A non-object error is numbered from one and followed by no blank line. */
  lemma NonObjectEntry(i: nat, n: nat, e: Json, show: Json -> string)
    requires !e.JObj?
    ensures EntryText(i, n, e, show) == "Error " + NatToString(i + 1) + ": " + show(e) + "\n"
    ensures DigitsValue(NatToString(i + 1)) == i + 1
  {
    NatToStringRoundTrip(i + 1);
  }

  // ---------------------------------------------------------------------
  // formatTableValue (its deterministic branches)
  // ---------------------------------------------------------------------

  /** A table cell. Numbers and maps are printed by `other` (the float and
      map-iteration branches are not modelled). */
  function TableValue(v: Json, other: Json -> string): (r: string)
    ensures v.JArr? ==> |r| >= 2 && r[0] == '[' && r[|r| - 1] == ']'
  {
    match v
    case JNull => "null"
    case JStr(s) => s
    case JBool(b) => if b then "true" else "false"
    case JArr(items) =>
      if |items| == 0 then "[]"
      else if |items| == 1 then "[" + TableValue(items[0], other) + "]"
      else "[" + TableValue(items[0], other) + ", ... +" + NatToString(|items| - 1) + " more]"
    case _ => other(v)
  }

  /** Lists show their first cell and how many more there are. */
  lemma TableValueList(items: seq<Json>, other: Json -> string)
    requires |items| >= 2
    ensures var r := TableValue(JArr(items), other);
      HasPrefix(r, "[" + TableValue(items[0], other) + ", ... +")
      && exists digits :: r == "[" + TableValue(items[0], other) + ", ... +" + digits + " more]"
          && (forall k :: 0 <= k < |digits| ==> '0' <= digits[k] <= '9')
          && DigitsValue(digits) == |items| - 1
  {
    var head := "[" + TableValue(items[0], other) + ", ... +";
    var digits := NatToString(|items| - 1);
    var r := TableValue(JArr(items), other);
    assert r == head + digits + " more]";
    assert r[..|head|] == head;
    NatToStringRoundTrip(|items| - 1);
  }

  /** Scalars print as their text, and short lists as brackets. */
  lemma TableValueScalars(s: string, b: bool, x: Json, other: Json -> string)
    ensures TableValue(JNull, other) == "null"
    ensures TableValue(JStr(s), other) == s
    ensures TableValue(JBool(b), other) == (if b then "true" else "false")
    ensures TableValue(JArr([]), other) == "[]"
    ensures TableValue(JArr([x]), other) == "[" + TableValue(x, other) + "]"
  {
  }
}
