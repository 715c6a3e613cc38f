/** The SDL printer of pkg/describe.go: type-reference rendering, the field
    ordering, field lines and whole type declarations, over introspection
    payloads decoded as JSON. */
module Sdl {
  import opened Json
  import opened Text
  import opened Sorting

  // ---------------------------------------------------------------------
  // Type references (formatTypeRef)
  // ---------------------------------------------------------------------

  /** `formatTypeRef`: renders one introspection `__Type` reference node. */
  function TypeRefText(t: Json): (r: string)
    ensures |r| > 0
    decreases t
  {
    match t
    case JObj(m) =>
      var kind := StrAt(m, "kind");
      var name := StrAt(m, "name");
      if kind == "NON_NULL" then (if "ofType" in m then TypeRefText(m["ofType"]) else "Unknown") + "!"
      else if kind == "LIST" then "[" + (if "ofType" in m then TypeRefText(m["ofType"]) else "Unknown") + "]"
      else if name != "" then name
      else "Unknown"
    case _ => "Unknown"
  }

  /** A type reference as the GraphQL type system has it: a named type under
      any number of NON_NULL and LIST wrappers. */
  datatype TypeRef =
    | Named(kind: string, name: string)
    | NonNull(ofType: TypeRef)
    | ListOf(ofType: TypeRef)

  predicate WellFormedRef(t: TypeRef)
  {
    match t
    case Named(k, n) => n != "" && k != "NON_NULL" && k != "LIST"
    case NonNull(x) => WellFormedRef(x)
    case ListOf(x) => WellFormedRef(x)
  }

  /** The number of wrappers around the named type. */
  function Wrappers(t: TypeRef): nat
  {
    match t
    case Named(_, _) => 0
    case NonNull(x) => 1 + Wrappers(x)
    case ListOf(x) => 1 + Wrappers(x)
  }

  /** The SDL notation of a type reference: `T!` for non-null, `[T]` for list. */
  function Notation(t: TypeRef): string
  {
    match t
    case Named(_, n) => n
    case NonNull(x) => Notation(x) + "!"
    case ListOf(x) => "[" + Notation(x) + "]"
  }

  /** One `__Type` node of an introspection payload; `ofType` is absent
      when the query did not ask for it. */
  function RefNode(kind: Json, name: Json, ofType: Option<Json>): Json
  {
    match ofType
    case Some(o) => JObj(map["kind" := kind, "name" := name, "ofType" := o])
    case None => JObj(map["kind" := kind, "name" := name])
  }

  /** The introspection payload a server returns for `t` when the query asks for
      `depth` nested `ofType` levels: the innermost node requested carries no
      `ofType` key. */
  function RefJson(t: TypeRef, depth: nat): Json
  {
    match t
    case Named(k, n) => RefNode(JStr(k), JStr(n), if depth == 0 then None else Some(JNull))
    case NonNull(x) => RefNode(JStr("NON_NULL"), JNull, if depth == 0 then None else Some(RefJson(x, depth - 1)))
    case ListOf(x) => RefNode(JStr("LIST"), JNull, if depth == 0 then None else Some(RefJson(x, depth - 1)))
  }

  /** How `formatTypeRef` reads one node. */
  lemma TypeRefTextOfNode(kind: string, name: Json, ofType: Option<Json>)
    ensures TypeRefText(RefNode(JStr(kind), name, ofType)) ==
      var inner := if ofType.Some? then TypeRefText(ofType.value) else "Unknown";
      if kind == "NON_NULL" then inner + "!"
      else if kind == "LIST" then "[" + inner + "]"
      else if name.JStr? && name.s != "" then name.s
      else "Unknown"
  {
    assert "kind" != "name" && "kind" != "ofType" && "name" != "ofType";
  }

  /** The notation with the reference cut after `depth` nested levels: a
      wrapper whose inner node was not requested shows `Unknown` inside. */
  function NotationCut(t: TypeRef, depth: nat): string
  {
    match t
    case Named(_, n) => n
    case NonNull(x) => (if depth == 0 then "Unknown" else NotationCut(x, depth - 1)) + "!"
    case ListOf(x) => "[" + (if depth == 0 then "Unknown" else NotationCut(x, depth - 1)) + "]"
  }

  /** Rendering the introspection payload of a reference gives its SDL
      notation, cut to `Unknown` where the payload stops. */
  lemma {:induction false} TypeRefTextOfPayload(t: TypeRef, depth: nat)
    requires WellFormedRef(t)
    ensures TypeRefText(RefJson(t, depth)) == NotationCut(t, depth)
    decreases t
  {
    match t
    case Named(k, n) =>
      var below := if depth == 0 then None else Some(JNull);
      assert RefJson(t, depth) == RefNode(JStr(k), JStr(n), below);
      TypeRefTextOfNode(k, JStr(n), below);
    case NonNull(x) =>
      var below := if depth == 0 then None else Some(RefJson(x, depth - 1));
      assert RefJson(t, depth) == RefNode(JStr("NON_NULL"), JNull, below);
      TypeRefTextOfNode("NON_NULL", JNull, below);
      if depth > 0 { TypeRefTextOfPayload(x, depth - 1); }
    case ListOf(x) =>
      var below := if depth == 0 then None else Some(RefJson(x, depth - 1));
      assert RefJson(t, depth) == RefNode(JStr("LIST"), JNull, below);
      TypeRefTextOfNode("LIST", JNull, below);
      if depth > 0 { TypeRefTextOfPayload(x, depth - 1); }
  }

  /** A payload deep enough for the reference renders its full notation. */
  lemma {:induction false} NotationCutDeepEnough(t: TypeRef, depth: nat)
    requires Wrappers(t) <= depth
    ensures NotationCut(t, depth) == Notation(t)
    decreases t
  {
    match t
    case Named(_, _) =>
    case NonNull(x) => NotationCutDeepEnough(x, depth - 1);
    case ListOf(x) => NotationCutDeepEnough(x, depth - 1);
  }

  /** The nesting the describe query's TypeRef fragment asks for. */
  const DescribeRefDepth: nat := 4

  /** References with at most four wrappers come back whole from the describe
      query and render as their SDL notation; `[Book!]!` is one of them. */
  lemma DescribedRefRendering(t: TypeRef)
    requires WellFormedRef(t) && Wrappers(t) <= DescribeRefDepth
    ensures TypeRefText(RefJson(t, DescribeRefDepth)) == Notation(t)
  {
    TypeRefTextOfPayload(t, DescribeRefDepth);
    NotationCutDeepEnough(t, DescribeRefDepth);
  }

  lemma BookListExample()
    ensures TypeRefText(RefJson(NonNull(ListOf(NonNull(Named("OBJECT", "Book")))), DescribeRefDepth)) == "[Book!]!"
  {
    var book := NonNull(Named("OBJECT", "Book"));
    var t := NonNull(ListOf(book));
    assert Wrappers(t) == 3;
    DescribedRefRendering(t);
    assert Notation(book) == "Book!";
    assert Notation(ListOf(book)) == "[Book!]";
    assert Notation(t) == "[Book!]!";
  }

  /** The fallbacks of `formatTypeRef`: a node that is not an object, or a named
      node without a name, is `Unknown`; a wrapper without `ofType` wraps `Unknown`. */
  lemma TypeRefTextFallbacks(t: Json)
    ensures !t.JObj? ==> TypeRefText(t) == "Unknown"
    ensures (t.JObj? && StrAt(t.fields, "kind") != "NON_NULL" && StrAt(t.fields, "kind") != "LIST"
             && StrAt(t.fields, "name") == "") ==> TypeRefText(t) == "Unknown"
    ensures t.JObj? && StrAt(t.fields, "kind") == "NON_NULL" && "ofType" !in t.fields ==> TypeRefText(t) == "Unknown!"
    ensures t.JObj? && StrAt(t.fields, "kind") == "LIST" && "ofType" !in t.fields ==> TypeRefText(t) == "[Unknown]"
  {
  }

  // ---------------------------------------------------------------------
  // Keywords (sdlKeyword)
  // ---------------------------------------------------------------------

  /** `sdlKeyword`: the declaration keyword for an introspection kind. */
  function SdlKeyword(kind: string): (r: string)
    ensures forall i :: 0 <= i < |r| ==> !IsUpperAscii(r[i])
    ensures kind == "OBJECT" ==> r == "type"
    ensures kind == "INPUT_OBJECT" ==> r == "input"
    ensures kind == "INTERFACE" ==> r == "interface"
    ensures kind == "UNION" ==> r == "union"
    ensures kind != "OBJECT" && kind != "INPUT_OBJECT" && kind != "INTERFACE" && kind != "UNION" ==>
      r == ToLower(kind)
  {
    if kind == "OBJECT" then "type"
    else if kind == "INPUT_OBJECT" then "input"
    else if kind == "INTERFACE" then "interface"
    else if kind == "UNION" then "union"
    else ToLower(kind)
  }

  // ---------------------------------------------------------------------
  // Field ordering (sortFieldsByType)
  // ---------------------------------------------------------------------

  /** The entries of a JSON list that are objects, in order. */
  function ObjectEntries(xs: seq<Json>): (r: seq<Object>)
    ensures |r| <= |xs|
    decreases |xs|
  {
    if |xs| == 0 then []
    else
      var last := xs[|xs| - 1];
      ObjectEntries(xs[..|xs| - 1]) + (if last.JObj? then [last.fields] else [])
  }

  /** Every object entry of the list appears in `ObjectEntries`, and nothing else. */
  lemma {:induction false} ObjectEntriesMembers(xs: seq<Json>, m: Object)
    ensures m in ObjectEntries(xs) <==> JObj(m) in xs
    decreases |xs|
  {
    if |xs| > 0 {
      var init := xs[..|xs| - 1];
      ObjectEntriesMembers(init, m);
      assert xs == init + [xs[|xs| - 1]];
    }
  }

  /** The sort key of a field: its rendered type, then its name. */
  function Key(f: Object): (string, string)
  {
    (TypeRefText(Field(f, "type")), StrAt(f, "name"))
  }

  predicate KeyLess(a: (string, string), b: (string, string))
  {
    LexLess(a.0, b.0) || (a.0 == b.0 && LexLess(a.1, b.1))
  }

  /** The comparator handed to `sort.Slice`. */
  predicate Before(f: Object, g: Object)
  {
    KeyLess(Key(f), Key(g))
  }

  lemma KeyLessTransitive(a: (string, string), b: (string, string), c: (string, string))
    requires KeyLess(a, b) && KeyLess(b, c)
    ensures KeyLess(a, c)
  {
    if LexLess(a.0, b.0) && LexLess(b.0, c.0) { LexLessTransitive(a.0, b.0, c.0); }
    if a.0 == b.0 && b.0 == c.0 && LexLess(a.1, b.1) && LexLess(b.1, c.1) { LexLessTransitive(a.1, b.1, c.1); }
  }

  lemma KeyLessIrreflexive(a: (string, string))
    ensures !KeyLess(a, a)
  {
    LexLessIrreflexive(a.0);
    LexLessIrreflexive(a.1);
  }

  /** The comparator is a strict order, as `sort.Slice` requires. */
  lemma BeforeStrictOrder()
    ensures StrictOrder(Before)
  {
    forall f: Object ensures !Before(f, f) { KeyLessIrreflexive(Key(f)); }
    forall f: Object, g: Object, h: Object | Before(f, g) && Before(g, h) ensures Before(f, h) {
      KeyLessTransitive(Key(f), Key(g), Key(h));
    }
  }

  /** `sort.Slice(fields, less)` with the (type, name) comparator. */
  function SortByKey(xs: seq<Object>): (r: seq<Object>)
    ensures |r| == |xs|
  {
    SortBy(Before, xs)
  }

  /** `sortFieldsByType`: the object entries of `fields`, ordered by
      (rendered type, name). */
  method SortFieldsByType(fields: seq<Json>) returns (out: seq<Object>)
    ensures out == SortByKey(ObjectEntries(fields))
    ensures SortedBy(Before, out)
    ensures forall m :: m in out <==> JObj(m) in fields
  {
    out := [];
    for i := 0 to |fields|
      invariant out == ObjectEntries(fields[..i])
    {
      assert fields[..i + 1][..i] == fields[..i];
      if fields[i].JObj? {
        out := out + [fields[i].fields];
      }
    }
    assert fields[..|fields|] == fields;
    ghost var entries := out;
    out := SortByKey(out);
    BeforeStrictOrder();
    SortBySortedPermutation(Before, entries);
    forall m ensures m in out <==> JObj(m) in fields {
      ObjectEntriesMembers(fields, m);
      assert m in out <==> m in multiset(entries);
    }
  }

  // ---------------------------------------------------------------------
  // Field lines (formatSDLField)
  // ---------------------------------------------------------------------

  /** The `name: Type` parts of the object entries of an argument list. */
  function ArgParts(args: seq<Json>): (r: seq<string>)
    ensures |r| <= |args|
    decreases |args|
  {
    if |args| == 0 then []
    else
      ArgParts(args[..|args| - 1]) + ArgPart(args[|args| - 1])
  }

  /** The `name: Type` part of one argument entry; entries that are not
      objects are skipped. */
  function ArgPart(arg: Json): (r: seq<string>)
    ensures |r| <= 1
  {
    if arg.JObj? then [StrAt(arg.fields, "name") + ": " + TypeRefText(Field(arg.fields, "type"))] else []
  }

  /** The SDL line of one field. */
  function FieldLine(field: Object, showArgs: bool): string
  {
    var fname := StrAt(field, "name");
    var ftype := TypeRefText(Field(field, "type"));
    match ArrAt(field, "args")
    case Some(args) =>
      if showArgs && |args| > 0 then "  " + fname + "(" + Join(ArgParts(args), ", ") + "): " + ftype + "\n"
      else "  " + fname + ": " + ftype + "\n"
    case None => "  " + fname + ": " + ftype + "\n"
  }

  /** `formatSDLField`. */
  method FormatSDLField(field: Object, showArgs: bool) returns (line: string)
    ensures line == FieldLine(field, showArgs)
  {
    var fname := StrAt(field, "name");
    var ftype := TypeRefText(Field(field, "type"));
    if showArgs {
      var argsOpt := ArrAt(field, "args");
      if argsOpt.Some? && |argsOpt.value| > 0 {
        var args := argsOpt.value;
        var argParts: seq<string> := [];
        for i := 0 to |args|
          invariant argParts == ArgParts(args[..i])
        {
          assert args[..i + 1][..i] == args[..i];
          if args[i].JObj? {
            var am := args[i].fields;
            argParts := argParts + [StrAt(am, "name") + ": " + TypeRefText(Field(am, "type"))];
          }
        }
        assert args[..|args|] == args;
        line := "  " + fname + "(" + Join(argParts, ", ") + "): " + ftype + "\n";
        return;
      }
    }
    line := "  " + fname + ": " + ftype + "\n";
  }

  // ---------------------------------------------------------------------
  // Type declarations (FormatTypeSDL)
  // ---------------------------------------------------------------------

  /** The names of the enum values that are objects with a non-empty name. */
  function EnumNames(vals: seq<Json>): (r: seq<string>)
    ensures |r| <= |vals|
    ensures forall k :: 0 <= k < |r| ==> r[k] != ""
    decreases |vals|
  {
    if |vals| == 0 then []
    else
      var last := vals[|vals| - 1];
      EnumNames(vals[..|vals| - 1])
        + (if last.JObj? && StrAt(last.fields, "name") != "" then [StrAt(last.fields, "name")] else [])
  }

  /** The lines of a field list, in the given order. */
  function FieldLines(fs: seq<Object>, showArgs: bool): (r: seq<string>)
    ensures |r| == |fs|
    decreases |fs|
  {
    if |fs| == 0 then [] else FieldLines(fs[..|fs| - 1], showArgs) + [FieldLine(fs[|fs| - 1], showArgs)]
  }

  /** The printed block of one field list: its object entries, sorted, one line each. */
  function FieldsBlock(fields: Option<seq<Json>>, showArgs: bool): string
  {
    match fields
    case Some(fs) => if |fs| > 0 then Concat(FieldLines(SortByKey(ObjectEntries(fs)), showArgs)) else ""
    case None => ""
  }

  function DescriptionLine(typeData: Object, noDescriptions: bool): string
  {
    var description := StrAt(typeData, "description");
    if !noDescriptions && description != "" then "# " + description + "\n" else ""
  }

  function EnumValues(typeData: Object): seq<Json>
  {
    match ArrAt(typeData, "enumValues")
    case Some(vals) => vals
    case None => []
  }

  /** The declaration after the description comment. */
  function Declaration(typeData: Object, showArgs: bool): string
  {
    var name := StrAt(typeData, "name");
    var kind := StrAt(typeData, "kind");
    if kind == "SCALAR" then "scalar " + name + "\n"
    else if kind == "ENUM" then "enum " + name + " { " + Join(EnumNames(EnumValues(typeData)), " ") + " }\n"
    else
      CompositeDeclaration(kind, name,
        FieldsBlock(ArrAt(typeData, "fields"), showArgs), FieldsBlock(ArrAt(typeData, "inputFields"), showArgs))
  }

  /** An object, interface, union or input declaration around its field blocks. */
  function CompositeDeclaration(kind: string, name: string, fieldsText: string, inputText: string): string
  {
    SdlKeyword(kind) + " " + name + " {\n" + fieldsText + inputText + "}\n"
  }

  /** The text `FormatTypeSDL` produces. */
  function TypeSDL(typeData: Object, showArgs: bool, noDescriptions: bool): string
  {
    DescriptionLine(typeData, noDescriptions) + Declaration(typeData, showArgs)
  }

  /** `printFields`: the lines of one field list in (type, name) order. */
  method PrintFields(fields: seq<Json>, showArgs: bool) returns (text: string)
    ensures text == Concat(FieldLines(SortByKey(ObjectEntries(fields)), showArgs))
  {
    var sorted := SortFieldsByType(fields);
    text := "";
    for i := 0 to |sorted|
      invariant text == Concat(FieldLines(sorted[..i], showArgs))
    {
      var line := FormatSDLField(sorted[i], showArgs);
      FieldLinesStep(sorted, i, showArgs);
      text := text + line;
    }
    assert sorted[..|sorted|] == sorted;
  }

  /** One more field of a list adds its line to the printed prefix. */
  lemma FieldLinesStep(objs: seq<Object>, i: nat, showArgs: bool)
    requires i < |objs|
    ensures Concat(FieldLines(objs[..i + 1], showArgs))
         == Concat(FieldLines(objs[..i], showArgs)) + FieldLine(objs[i], showArgs)
  {
    assert objs[..i + 1][..i] == objs[..i];
    assert FieldLines(objs[..i + 1], showArgs) == FieldLines(objs[..i], showArgs) + [FieldLine(objs[i], showArgs)];
    ConcatAppend(FieldLines(objs[..i], showArgs), FieldLine(objs[i], showArgs));
  }

  /** The enum value names, joined by spaces. */
  method EnumValueList(vals: seq<Json>) returns (text: string)
    ensures text == Join(EnumNames(vals), " ")
  {
    var parts: seq<string> := [];
    for i := 0 to |vals|
      invariant parts == EnumNames(vals[..i])
    {
      assert vals[..i + 1][..i] == vals[..i];
      if vals[i].JObj? {
        var n := StrAt(vals[i].fields, "name");
        if n != "" {
          parts := parts + [n];
        }
      }
    }
    assert vals[..|vals|] == vals;
    text := Join(parts, " ");
  }

  /** `FormatTypeSDL`. */
  method FormatTypeSDL(typeData: Object, showArgs: bool, noDescriptions: bool) returns (r: string)
    ensures r == TypeSDL(typeData, showArgs, noDescriptions)
  {
    var b := "";
    var name := StrAt(typeData, "name");
    var description := StrAt(typeData, "description");
    var kind := StrAt(typeData, "kind");

    if !noDescriptions && description != "" {
      b := b + "# " + description + "\n";
    }
    assert b == DescriptionLine(typeData, noDescriptions);

    var decl: string;
    if kind == "SCALAR" {
      decl := "scalar " + name + "\n";
    } else if kind == "ENUM" {
      var values := EnumValueList(EnumValues(typeData));
      decl := "enum " + name + " { " + values + " }\n";
    } else {
      decl := ObjectDeclaration(typeData, showArgs);
    }
    assert decl == Declaration(typeData, showArgs);
    r := b + decl;
  }

  /** The declaration of an object, interface, union or input type. */
  method ObjectDeclaration(typeData: Object, showArgs: bool) returns (decl: string)
    requires StrAt(typeData, "kind") != "SCALAR" && StrAt(typeData, "kind") != "ENUM"
    ensures decl == Declaration(typeData, showArgs)
  {
    var head := SdlKeyword(StrAt(typeData, "kind")) + " " + StrAt(typeData, "name") + " {\n";
    var fieldsText := PrintFieldList(ArrAt(typeData, "fields"), showArgs);
    var inputText := PrintFieldList(ArrAt(typeData, "inputFields"), showArgs);
    decl := head + fieldsText + inputText + "}\n";
  }

  /** One `printFields` call, made only when the list is present and non-empty. */
  method PrintFieldList(fields: Option<seq<Json>>, showArgs: bool) returns (text: string)
    ensures text == FieldsBlock(fields, showArgs)
  {
    text := "";
    if fields.Some? && |fields.value| > 0 {
      text := PrintFields(fields.value, showArgs);
    }
  }


  // ---------------------------------------------------------------------
  // Order independence of the printed fields
  // ---------------------------------------------------------------------

  lemma KeyLessTotal(a: (string, string), b: (string, string))
    requires a != b
    ensures KeyLess(a, b) || KeyLess(b, a)
  {
    if a.0 != b.0 { LexLessTotal(a.0, b.0); } else { LexLessTotal(a.1, b.1); }
  }

  /** No two different entries share a (type, name) key; GraphQL field names
      within one type are unique, which gives this. */
  predicate KeysDistinct(xs: seq<Object>)
  {
    forall i, j :: 0 <= i < |xs| && 0 <= j < |xs| && Key(xs[i]) == Key(xs[j]) ==> xs[i] == xs[j]
  }

  lemma KeysDistinctTotal(xs: seq<Object>)
    requires KeysDistinct(xs)
    ensures TotalOn(Before, xs)
  {
    forall i, j | 0 <= i < |xs| && 0 <= j < |xs| && xs[i] != xs[j] ensures Before(xs[i], xs[j]) || Before(xs[j], xs[i]) {
      KeyLessTotal(Key(xs[i]), Key(xs[j]));
    }
  }

  /** The printed field order does not depend on the order the server lists
      the fields in. */
  lemma FieldsBlockOrderIndependent(xs: seq<Json>, ys: seq<Json>, showArgs: bool)
    requires multiset(ObjectEntries(xs)) == multiset(ObjectEntries(ys))
    requires KeysDistinct(ObjectEntries(xs))
    ensures FieldsBlock(Some(xs), showArgs) == FieldsBlock(Some(ys), showArgs)
  {
    BeforeStrictOrder();
    KeysDistinctTotal(ObjectEntries(xs));
    SortOrderIndependent(Before, ObjectEntries(xs), ObjectEntries(ys));
  }

  /** Replacing the field list touches no other member of a type payload. */
  lemma FieldsUpdateKeepsOthers(typeData: Object, v: Json, noDescriptions: bool)
    ensures StrAt(typeData["fields" := v], "name") == StrAt(typeData, "name")
    ensures StrAt(typeData["fields" := v], "kind") == StrAt(typeData, "kind")
    ensures DescriptionLine(typeData["fields" := v], noDescriptions) == DescriptionLine(typeData, noDescriptions)
    ensures EnumValues(typeData["fields" := v]) == EnumValues(typeData)
    ensures ArrAt(typeData["fields" := v], "inputFields") == ArrAt(typeData, "inputFields")
  {
    assert "name" != "fields" && "kind" != "fields" && "description" != "fields";
    assert "enumValues" != "fields" && "inputFields" != "fields";
  }

  /** Listing a type's fields in another order leaves its SDL unchanged. */
  lemma TypeSDLOrderIndependent(typeData: Object, xs: seq<Json>, ys: seq<Json>, showArgs: bool, noDescriptions: bool)
    requires multiset(ObjectEntries(xs)) == multiset(ObjectEntries(ys))
    requires KeysDistinct(ObjectEntries(xs))
    ensures TypeSDL(typeData["fields" := JArr(xs)], showArgs, noDescriptions)
         == TypeSDL(typeData["fields" := JArr(ys)], showArgs, noDescriptions)
  {
    FieldsBlockOrderIndependent(xs, ys, showArgs);
    FieldsUpdateKeepsOthers(typeData, JArr(xs), noDescriptions);
    FieldsUpdateKeepsOthers(typeData, JArr(ys), noDescriptions);
    var t1 := typeData["fields" := JArr(xs)];
    var t2 := typeData["fields" := JArr(ys)];
    assert ArrAt(t1, "fields") == Some(xs) && ArrAt(t2, "fields") == Some(ys);
    assert FieldsBlock(ArrAt(t1, "fields"), showArgs) == FieldsBlock(ArrAt(t2, "fields"), showArgs);
    assert Declaration(t1, showArgs) == Declaration(t2, showArgs);
    assert DescriptionLine(t1, noDescriptions) == DescriptionLine(t2, noDescriptions);
    assert TypeSDL(t1, showArgs, noDescriptions) == DescriptionLine(t1, noDescriptions) + Declaration(t1, showArgs);
    assert TypeSDL(t2, showArgs, noDescriptions) == DescriptionLine(t2, noDescriptions) + Declaration(t2, showArgs);
  }

  /** Replacing both field lists touches no other member of a type payload. */
  lemma ListsUpdateKeepsOthers(typeData: Object, f: Json, i: Json, noDescriptions: bool)
    ensures StrAt(typeData["fields" := f]["inputFields" := i], "name") == StrAt(typeData, "name")
    ensures StrAt(typeData["fields" := f]["inputFields" := i], "kind") == StrAt(typeData, "kind")
    ensures DescriptionLine(typeData["fields" := f]["inputFields" := i], noDescriptions) == DescriptionLine(typeData, noDescriptions)
    ensures EnumValues(typeData["fields" := f]["inputFields" := i]) == EnumValues(typeData)
  {
    assert "name" != "fields" && "kind" != "fields" && "description" != "fields" && "enumValues" != "fields";
    assert "name" != "inputFields" && "kind" != "inputFields" && "description" != "inputFields";
    assert "enumValues" != "inputFields";
  }

  /** Listing a type's fields and its input fields in other orders leaves its
      SDL unchanged: both blocks are sorted before they are printed. */
  lemma TypeSDLListsOrderIndependent(typeData: Object, xs: seq<Json>, ys: seq<Json>, us: seq<Json>, vs: seq<Json>,
                                     showArgs: bool, noDescriptions: bool)
    requires multiset(ObjectEntries(xs)) == multiset(ObjectEntries(ys))
    requires KeysDistinct(ObjectEntries(xs))
    requires multiset(ObjectEntries(us)) == multiset(ObjectEntries(vs))
    requires KeysDistinct(ObjectEntries(us))
    ensures TypeSDL(typeData["fields" := JArr(xs)]["inputFields" := JArr(us)], showArgs, noDescriptions)
         == TypeSDL(typeData["fields" := JArr(ys)]["inputFields" := JArr(vs)], showArgs, noDescriptions)
  {
    FieldsBlockOrderIndependent(xs, ys, showArgs);
    FieldsBlockOrderIndependent(us, vs, showArgs);
    ListsUpdateKeepsOthers(typeData, JArr(xs), JArr(us), noDescriptions);
    ListsUpdateKeepsOthers(typeData, JArr(ys), JArr(vs), noDescriptions);
    ListsUpdateSetsLists(typeData, xs, us);
    ListsUpdateSetsLists(typeData, ys, vs);
    TypeSDLCongruence(typeData["fields" := JArr(xs)]["inputFields" := JArr(us)],
                      typeData["fields" := JArr(ys)]["inputFields" := JArr(vs)], showArgs, noDescriptions);
  }

  lemma ListsUpdateSetsLists(typeData: Object, xs: seq<Json>, us: seq<Json>)
    ensures ArrAt(typeData["fields" := JArr(xs)]["inputFields" := JArr(us)], "fields") == Some(xs)
    ensures ArrAt(typeData["fields" := JArr(xs)]["inputFields" := JArr(us)], "inputFields") == Some(us)
  {
    assert "fields" != "inputFields";
  }

  /** A type's SDL depends only on its name, kind, description, enum values
      and the two printed field blocks. */
  lemma TypeSDLCongruence(t1: Object, t2: Object, showArgs: bool, noDescriptions: bool)
    requires StrAt(t1, "name") == StrAt(t2, "name") && StrAt(t1, "kind") == StrAt(t2, "kind")
    requires DescriptionLine(t1, noDescriptions) == DescriptionLine(t2, noDescriptions)
    requires EnumValues(t1) == EnumValues(t2)
    requires FieldsBlock(ArrAt(t1, "fields"), showArgs) == FieldsBlock(ArrAt(t2, "fields"), showArgs)
    requires FieldsBlock(ArrAt(t1, "inputFields"), showArgs) == FieldsBlock(ArrAt(t2, "inputFields"), showArgs)
    ensures TypeSDL(t1, showArgs, noDescriptions) == TypeSDL(t2, showArgs, noDescriptions)
  {
  }

  // ---------------------------------------------------------------------
  // A structured type descriptor and the SDL it stands for
  // ---------------------------------------------------------------------

  datatype ArgDesc = ArgDesc(name: string, typ: TypeRef)
  datatype FieldDesc = FieldDesc(name: string, typ: TypeRef, args: seq<ArgDesc>)

  /** The kind of a type declared with a field block: the four kinds of
      section 4.2.2 of the GraphQL specification that have one, or a kind
      name the printer does not know. */
  datatype CompositeKind = ObjectKind | InputObjectKind | InterfaceKind | UnionKind | OtherKind(kindName: string)

  /** The `__TypeKind` value introspection reports for a composite kind. */
  function CompositeKindName(k: CompositeKind): string
  {
    match k
    case ObjectKind => "OBJECT"
    case InputObjectKind => "INPUT_OBJECT"
    case InterfaceKind => "INTERFACE"
    case UnionKind => "UNION"
    case OtherKind(n) => n
  }

  /** The SDL keyword a composite kind is declared with. */
  function Keyword(k: CompositeKind): string
  {
    match k
    case ObjectKind => "type"
    case InputObjectKind => "input"
    case InterfaceKind => "interface"
    case UnionKind => "union"
    case OtherKind(n) => ToLower(n)
  }

  /** A kind name that none of the six named kinds uses. */
  predicate UnknownKindName(n: string)
  {
    n != "SCALAR" && n != "ENUM" && n != "OBJECT" && n != "INPUT_OBJECT" && n != "INTERFACE" && n != "UNION"
  }

  /** The printer's keyword for a reported kind is that kind's SDL keyword. */
  lemma KeywordOfKind(k: CompositeKind)
    requires k.OtherKind? ==> UnknownKindName(k.kindName)
    ensures SdlKeyword(CompositeKindName(k)) == Keyword(k)
  {
  }

  /** A named type as the schema defines it. */
  datatype TypeDesc =
    | ScalarType(name: string, description: string)
    | EnumType(name: string, description: string, values: seq<string>)
    | CompositeType(kind: CompositeKind, name: string, description: string, fields: seq<FieldDesc>, inputFields: seq<FieldDesc>)

  predicate DescribableRef(t: TypeRef)
  {
    WellFormedRef(t) && Wrappers(t) <= DescribeRefDepth
  }

  predicate WellFormedField(f: FieldDesc)
  {
    DescribableRef(f.typ) && forall k :: 0 <= k < |f.args| ==> DescribableRef(f.args[k].typ)
  }

  /** The order the printer promises: by type notation, then by name. */
  predicate DescBefore(f: FieldDesc, g: FieldDesc)
  {
    KeyLess((Notation(f.typ), f.name), (Notation(g.typ), g.name))
  }

  predicate InCanonicalOrder(fs: seq<FieldDesc>)
  {
    forall i, j :: 0 <= i < j < |fs| ==> !DescBefore(fs[j], fs[i])
  }

  predicate WellFormedType(td: TypeDesc)
  {
    match td
    case ScalarType(_, _) => true
    case EnumType(_, _, vals) => forall k :: 0 <= k < |vals| ==> vals[k] != ""
    case CompositeType(kind, _, _, fs, ins) =>
      (kind.OtherKind? ==> UnknownKindName(kind.kindName))
      && (forall k :: 0 <= k < |fs| ==> WellFormedField(fs[k]))
      && (forall k :: 0 <= k < |ins| ==> WellFormedField(ins[k]))
  }

  // The introspection payload of a descriptor, as the describe query returns it.

  function ArgJson(a: ArgDesc): Json
  {
    JObj(map["name" := JStr(a.name), "type" := RefJson(a.typ, DescribeRefDepth)])
  }

  function FieldObject(f: FieldDesc): Object
  {
    map["name" := JStr(f.name), "type" := RefJson(f.typ, DescribeRefDepth),
        "args" := JArr(ArgsJson(f.args))]
  }

  function ArgsJson(args: seq<ArgDesc>): (r: seq<Json>)
    ensures |r| == |args|
    decreases |args|
  {
    if |args| == 0 then [] else ArgsJson(args[..|args| - 1]) + [ArgJson(args[|args| - 1])]
  }

  function FieldObjects(fs: seq<FieldDesc>): (r: seq<Object>)
    ensures |r| == |fs|
    decreases |fs|
  {
    if |fs| == 0 then [] else FieldObjects(fs[..|fs| - 1]) + [FieldObject(fs[|fs| - 1])]
  }

  function FieldsJson(fs: seq<FieldDesc>): (r: seq<Json>)
    ensures |r| == |fs|
    decreases |fs|
  {
    if |fs| == 0 then [] else FieldsJson(fs[..|fs| - 1]) + [JObj(FieldObject(fs[|fs| - 1]))]
  }

  function EnumValuesJson(vals: seq<string>): (r: seq<Json>)
    ensures |r| == |vals|
    decreases |vals|
  {
    if |vals| == 0 then [] else EnumValuesJson(vals[..|vals| - 1]) + [JObj(map["name" := JStr(vals[|vals| - 1])])]
  }

  function KindName(td: TypeDesc): string
  {
    match td
    case ScalarType(_, _) => "SCALAR"
    case EnumType(_, _, _) => "ENUM"
    case CompositeType(kind, _, _, _, _) => CompositeKindName(kind)
  }

  function Payload(td: TypeDesc): Object
  {
    var common := map["kind" := JStr(KindName(td)), "name" := JStr(td.name), "description" := JStr(td.description)];
    match td
    case ScalarType(_, _) =>
      common["fields" := JNull]["inputFields" := JNull]["enumValues" := JNull]
    case EnumType(_, _, vals) =>
      common["fields" := JNull]["inputFields" := JNull]
        ["enumValues" := JArr(EnumValuesJson(vals))]
    case CompositeType(_, _, _, fs, ins) =>
      common["fields" := JArr(FieldsJson(fs))]["inputFields" := JArr(FieldsJson(ins))]["enumValues" := JNull]
  }

  // The SDL of a descriptor, written from the SDL notation.

  function ArgText(a: ArgDesc): string { a.name + ": " + Notation(a.typ) }

  function ArgTexts(args: seq<ArgDesc>): (r: seq<string>)
    ensures |r| == |args|
    decreases |args|
  {
    if |args| == 0 then [] else ArgTexts(args[..|args| - 1]) + [ArgText(args[|args| - 1])]
  }

  function ReferenceFieldLine(f: FieldDesc, showArgs: bool): string
  {
    if showArgs && |f.args| > 0 then "  " + f.name + "(" + Join(ArgTexts(f.args), ", ") + "): " + Notation(f.typ) + "\n"
    else "  " + f.name + ": " + Notation(f.typ) + "\n"
  }

  function ReferenceFieldLines(fs: seq<FieldDesc>, showArgs: bool): string
    decreases |fs|
  {
    if |fs| == 0 then "" else ReferenceFieldLines(fs[..|fs| - 1], showArgs) + ReferenceFieldLine(fs[|fs| - 1], showArgs)
  }

  function ReferenceSDL(td: TypeDesc, showArgs: bool, showDescriptions: bool): string
  {
    (if showDescriptions && td.description != "" then "# " + td.description + "\n" else "") +
    match td
    case ScalarType(name, _) => "scalar " + name + "\n"
    case EnumType(name, _, vals) => "enum " + name + " { " + Join(vals, " ") + " }\n"
    case CompositeType(kind, name, _, fs, ins) =>
      Keyword(kind) + " " + name + " {\n"
      + ReferenceFieldLines(fs, showArgs) + ReferenceFieldLines(ins, showArgs) + "}\n"
  }

  // Proof that the printer renders a payload as its reference SDL.

  lemma {:induction false} ObjectEntriesOfFields(fs: seq<FieldDesc>)
    ensures ObjectEntries(FieldsJson(fs)) == FieldObjects(fs)
    decreases |fs|
  {
    if |fs| > 0 {
      var init := fs[..|fs| - 1];
      ObjectEntriesOfFields(init);
      assert FieldsJson(fs)[..|fs| - 1] == FieldsJson(init);
    }
  }

  lemma {:induction false} FieldObjectsAt(fs: seq<FieldDesc>, k: nat)
    requires k < |fs|
    ensures FieldObjects(fs)[k] == FieldObject(fs[k])
    decreases |fs|
  {
    if k < |fs| - 1 { FieldObjectsAt(fs[..|fs| - 1], k); }
  }

  lemma FieldKey(f: FieldDesc)
    requires WellFormedField(f)
    ensures Key(FieldObject(f)) == (Notation(f.typ), f.name)
  {
    DescribedRefRendering(f.typ);
  }

  lemma {:induction false} ArgPartsOfArgs(args: seq<ArgDesc>)
    requires forall k :: 0 <= k < |args| ==> DescribableRef(args[k].typ)
    ensures ArgParts(ArgsJson(args)) == ArgTexts(args)
    decreases |args|
  {
    if |args| > 0 {
      var init := args[..|args| - 1];
      ArgPartsOfArgs(init);
      var last := args[|args| - 1];
      var js := ArgsJson(args);
      assert js[..|args| - 1] == ArgsJson(init);
      ArgPartOfArg(last);
    }
  }

  lemma ArgPartOfArg(a: ArgDesc)
    requires DescribableRef(a.typ)
    ensures ArgPart(ArgJson(a)) == [ArgText(a)]
  {
    var m := ArgJson(a).fields;
    assert StrAt(m, "name") == a.name;
    assert Field(m, "type") == RefJson(a.typ, DescribeRefDepth);
    DescribedRefRendering(a.typ);
  }

  lemma FieldLineOfPayload(f: FieldDesc, showArgs: bool)
    requires WellFormedField(f)
    ensures FieldLine(FieldObject(f), showArgs) == ReferenceFieldLine(f, showArgs)
  {
    var obj := FieldObject(f);
    var js := ArgsJson(f.args);
    FieldKey(f);
    ArgPartsOfArgs(f.args);
    assert ArrAt(obj, "args") == Some(js);
    assert StrAt(obj, "name") == f.name;
    var ftype := TypeRefText(Field(obj, "type"));
    assert ftype == Notation(f.typ);
    if showArgs && |f.args| > 0 {
      assert FieldLine(obj, showArgs) == "  " + f.name + "(" + Join(ArgTexts(f.args), ", ") + "): " + ftype + "\n";
    } else {
      assert FieldLine(obj, showArgs) == "  " + f.name + ": " + ftype + "\n";
    }
  }

  lemma {:induction false} FieldLinesOfPayload(fs: seq<FieldDesc>, showArgs: bool)
    requires forall k :: 0 <= k < |fs| ==> WellFormedField(fs[k])
    ensures Concat(FieldLines(FieldObjects(fs), showArgs)) == ReferenceFieldLines(fs, showArgs)
    decreases |fs|
  {
    if |fs| > 0 {
      var init := fs[..|fs| - 1];
      var last := fs[|fs| - 1];
      FieldLinesOfPayload(init, showArgs);
      FieldLineOfPayload(last, showArgs);
      var objs := FieldObjects(fs);
      assert objs[..|fs| - 1] == FieldObjects(init);
      assert FieldLines(objs, showArgs) == FieldLines(FieldObjects(init), showArgs) + [FieldLine(FieldObject(last), showArgs)];
      ConcatAppend(FieldLines(FieldObjects(init), showArgs), FieldLine(FieldObject(last), showArgs));
    }
  }

  lemma FieldsBlockOfPayload(fs: seq<FieldDesc>, showArgs: bool)
    requires forall k :: 0 <= k < |fs| ==> WellFormedField(fs[k])
    requires InCanonicalOrder(fs)
    ensures FieldsBlock(Some(FieldsJson(fs)), showArgs) == ReferenceFieldLines(fs, showArgs)
  {
    var objs := FieldObjects(fs);
    ObjectEntriesOfFields(fs);
    forall k | 0 <= k < |fs| ensures Key(objs[k]) == (Notation(fs[k].typ), fs[k].name) {
      FieldObjectsAt(fs, k);
      FieldKey(fs[k]);
    }
    SortedIdentity(Before, objs);
    FieldLinesOfPayload(fs, showArgs);
  }

  lemma {:induction false} EnumNamesOfValues(vals: seq<string>)
    requires forall k :: 0 <= k < |vals| ==> vals[k] != ""
    ensures EnumNames(EnumValuesJson(vals)) == vals
    decreases |vals|
  {
    if |vals| > 0 {
      var init := vals[..|vals| - 1];
      var js := EnumValuesJson(vals);
      EnumNamesOfValues(init);
      assert js[..|vals| - 1] == EnumValuesJson(init);
      assert js[|vals| - 1] == JObj(map["name" := JStr(vals[|vals| - 1])]);
      assert StrAt(js[|vals| - 1].fields, "name") == vals[|vals| - 1];
      assert EnumNames(js) == EnumNames(EnumValuesJson(init)) + [vals[|vals| - 1]];
      assert vals == init + [vals[|vals| - 1]];
    }
  }

  /** What the printer reads from a payload: the entries `Payload` wrote. */
  lemma PayloadEntries(td: TypeDesc)
    ensures StrAt(Payload(td), "name") == td.name
    ensures StrAt(Payload(td), "kind") == KindName(td)
    ensures StrAt(Payload(td), "description") == td.description
    ensures td.EnumType? ==> EnumValues(Payload(td)) == EnumValuesJson(td.values)
    ensures td.CompositeType? ==>
      ArrAt(Payload(td), "fields") == Some(FieldsJson(td.fields))
      && ArrAt(Payload(td), "inputFields") == Some(FieldsJson(td.inputFields))
  {
  }

  /** The declaration printed for a composite payload, with its blocks in order. */
  lemma CompositeDeclarationOfPayload(td: TypeDesc, showArgs: bool)
    requires WellFormedType(td) && td.CompositeType?
    requires InCanonicalOrder(td.fields) && InCanonicalOrder(td.inputFields)
    ensures Declaration(Payload(td), showArgs)
         == Keyword(td.kind) + " " + td.name + " {\n"
            + ReferenceFieldLines(td.fields, showArgs) + ReferenceFieldLines(td.inputFields, showArgs) + "}\n"
  {
    var p := Payload(td);
    PayloadEntries(td);
    KeywordOfKind(td.kind);
    var k := CompositeKindName(td.kind);
    assert k != "SCALAR" && k != "ENUM";
    FieldsBlockOfPayload(td.fields, showArgs);
    FieldsBlockOfPayload(td.inputFields, showArgs);
    assert Declaration(p, showArgs)
        == CompositeDeclaration(k, td.name, ReferenceFieldLines(td.fields, showArgs),
                                ReferenceFieldLines(td.inputFields, showArgs));
  }

  /** The printer turns the describe payload of a type whose fields are in
      (type, name) order into that type's SDL declaration. */
  lemma DescribedTypeSDL(td: TypeDesc, showArgs: bool, noDescriptions: bool)
    requires WellFormedType(td)
    requires td.CompositeType? ==> InCanonicalOrder(td.fields) && InCanonicalOrder(td.inputFields)
    ensures TypeSDL(Payload(td), showArgs, noDescriptions) == ReferenceSDL(td, showArgs, !noDescriptions)
  {
    var p := Payload(td);
    PayloadEntries(td);
    assert DescriptionLine(p, noDescriptions)
        == (if !noDescriptions && td.description != "" then "# " + td.description + "\n" else "");
    match td
    case ScalarType(_, _) =>
    case EnumType(_, _, vals) =>
      EnumNamesOfValues(vals);
    case CompositeType(_, _, _, _, _) =>
      CompositeDeclarationOfPayload(td, showArgs);
  }

  // A server lists fields in declaration order; the printer sorts them.

  /** The (notation, name) key a described field is sorted by. */
  function DescKey(f: FieldDesc): (string, string)
  {
    (Notation(f.typ), f.name)
  }

  /** No two different fields of a list share a sort key; GraphQL field names
      are unique within a type, which gives this. */
  predicate DescKeysDistinct(fs: seq<FieldDesc>)
  {
    forall f, g :: f in fs && g in fs && DescKey(f) == DescKey(g) ==> f == g
  }

  /** `canon` is `td` with each of its field lists reordered into (type, name)
      order; a type without field lists is its own canonical form. */
  predicate CanonicalFormOf(canon: TypeDesc, td: TypeDesc)
  {
    if td.CompositeType? then
      canon.CompositeType? && canon.kind == td.kind && canon.name == td.name
      && canon.description == td.description
      && multiset(canon.fields) == multiset(td.fields)
      && multiset(canon.inputFields) == multiset(td.inputFields)
      && InCanonicalOrder(canon.fields) && InCanonicalOrder(canon.inputFields)
    else canon == td
  }

  /** `f` applied to each element of a list, in order. */
  function Mapped<T, U>(f: T -> U, xs: seq<T>): (r: seq<U>)
    ensures |r| == |xs|
    decreases |xs|
  {
    if |xs| == 0 then [] else Mapped(f, xs[..|xs| - 1]) + [f(xs[|xs| - 1])]
  }

  lemma {:induction false} MappedConcat<T, U>(f: T -> U, a: seq<T>, b: seq<T>)
    ensures Mapped(f, a + b) == Mapped(f, a) + Mapped(f, b)
    decreases |b|
  {
    if |b| == 0 {
      assert a + b == a;
    } else {
      MappedConcat(f, a, b[..|b| - 1]);
      assert (a + b)[..|a + b| - 1] == a + b[..|b| - 1];
    }
  }

  /** Taking one element out of a list takes it out of the list's multiset. */
  lemma MultisetWithout<T>(xs: seq<T>, i: nat)
    requires i < |xs|
    ensures multiset(xs[..i] + xs[i + 1..]) == multiset(xs) - multiset{xs[i]}
  {
    assert xs == xs[..i] + [xs[i]] + xs[i + 1..];
    assert multiset(xs) == multiset(xs[..i]) + multiset{xs[i]} + multiset(xs[i + 1..]);
  }

  /** The mapped list, around one of its elements. */
  lemma MappedAround<T, U>(f: T -> U, xs: seq<T>, i: nat)
    requires i < |xs|
    ensures multiset(Mapped(f, xs)) == multiset(Mapped(f, xs[..i] + xs[i + 1..])) + multiset{f(xs[i])}
  {
    var a, x, b := xs[..i], xs[i], xs[i + 1..];
    assert xs == (a + [x]) + b;
    assert (a + [x])[..|a + [x]| - 1] == a;
    var fa, fx, fb := Mapped(f, a), f(x), Mapped(f, b);
    assert Mapped(f, a + [x]) == fa + [fx];
    MappedConcat(f, a + [x], b);
    MappedConcat(f, a, b);
    assert Mapped(f, xs) == fa + [fx] + fb;
    assert Mapped(f, xs[..i] + xs[i + 1..]) == fa + fb;
    MultisetSplice(fa, fx, fb);
  }

  /** An element spliced into a list adds one copy of it to the multiset. */
  lemma MultisetSplice<T>(a: seq<T>, x: T, b: seq<T>)
    ensures multiset(a + [x] + b) == multiset(a + b) + multiset{x}
  {
    assert multiset(a + [x] + b) == multiset(a) + multiset{x} + multiset(b);
  }

  /** Reordering a list reorders its mapped list the same way. */
  lemma {:induction false} MappedPermutation<T, U>(f: T -> U, xs: seq<T>, ys: seq<T>)
    requires multiset(xs) == multiset(ys)
    ensures multiset(Mapped(f, xs)) == multiset(Mapped(f, ys))
    decreases |xs|
  {
    if |xs| == 0 {
      assert |multiset(ys)| == 0;
    } else {
      var x := xs[|xs| - 1];
      var init := xs[..|xs| - 1];
      assert x in multiset(ys);
      var i :| 0 <= i < |ys| && ys[i] == x;
      MultisetWithout(xs, |xs| - 1);
      MultisetWithout(ys, i);
      assert xs[..|xs| - 1] + xs[|xs|..] == init;
      MappedPermutation(f, init, ys[..i] + ys[i + 1..]);
      MappedAround(f, xs, |xs| - 1);
      MappedAround(f, ys, i);
    }
  }

  lemma {:induction false} FieldObjectsMapped(fs: seq<FieldDesc>)
    ensures FieldObjects(fs) == Mapped(FieldObject, fs)
    decreases |fs|
  {
    if |fs| > 0 {
      FieldObjectsMapped(fs[..|fs| - 1]);
    }
  }

  /** Reordering the fields reorders their payload objects the same way. */
  lemma FieldObjectsPermutation(fs: seq<FieldDesc>, gs: seq<FieldDesc>)
    requires multiset(fs) == multiset(gs)
    ensures multiset(FieldObjects(fs)) == multiset(FieldObjects(gs))
  {
    FieldObjectsMapped(fs);
    FieldObjectsMapped(gs);
    MappedPermutation(FieldObject, fs, gs);
  }

  /** Fields with distinct keys give payload objects with distinct keys. */
  lemma FieldObjectKeysDistinct(fs: seq<FieldDesc>)
    requires forall k :: 0 <= k < |fs| ==> WellFormedField(fs[k])
    requires DescKeysDistinct(fs)
    ensures KeysDistinct(FieldObjects(fs))
  {
    var objs := FieldObjects(fs);
    forall i, j | 0 <= i < |objs| && 0 <= j < |objs| && Key(objs[i]) == Key(objs[j])
      ensures objs[i] == objs[j]
    {
      FieldObjectsAt(fs, i);
      FieldObjectsAt(fs, j);
      FieldKey(fs[i]);
      FieldKey(fs[j]);
      assert fs[i] in fs && fs[j] in fs && DescKey(fs[i]) == DescKey(fs[j]);
    }
  }

  /** The canonical form of a well-formed type is well formed, with distinct keys. */
  lemma CanonicalWellFormed(canon: TypeDesc, td: TypeDesc)
    requires WellFormedType(td) && CanonicalFormOf(canon, td)
    requires td.CompositeType? ==> DescKeysDistinct(td.fields) && DescKeysDistinct(td.inputFields)
    ensures WellFormedType(canon)
    ensures canon.CompositeType? ==> DescKeysDistinct(canon.fields) && DescKeysDistinct(canon.inputFields)
  {
    if td.CompositeType? {
      forall k | 0 <= k < |canon.fields| ensures WellFormedField(canon.fields[k]) {
        assert canon.fields[k] in multiset(td.fields);
        var m :| 0 <= m < |td.fields| && td.fields[m] == canon.fields[k];
      }
      forall k | 0 <= k < |canon.inputFields| ensures WellFormedField(canon.inputFields[k]) {
        assert canon.inputFields[k] in multiset(td.inputFields);
        var m :| 0 <= m < |td.inputFields| && td.inputFields[m] == canon.inputFields[k];
      }
      forall f | f in canon.fields ensures f in td.fields {
        assert f in multiset(canon.fields);
      }
      forall f | f in canon.inputFields ensures f in td.inputFields {
        assert f in multiset(canon.inputFields);
      }
    }
  }

  /** A field list and its canonical reordering give payload lists holding the
      same objects, those of the canonical list under distinct keys. */
  lemma FieldsJsonReordered(canon: seq<FieldDesc>, fs: seq<FieldDesc>)
    requires multiset(canon) == multiset(fs)
    requires forall k :: 0 <= k < |canon| ==> WellFormedField(canon[k])
    requires DescKeysDistinct(canon)
    ensures multiset(ObjectEntries(FieldsJson(canon))) == multiset(ObjectEntries(FieldsJson(fs)))
    ensures KeysDistinct(ObjectEntries(FieldsJson(canon)))
  {
    ObjectEntriesOfFields(canon);
    ObjectEntriesOfFields(fs);
    FieldObjectsPermutation(canon, fs);
    FieldObjectKeysDistinct(canon);
  }

  /** The printer turns the describe payload of any well-formed type, with its
      fields and input fields in whatever order the server lists them, into
      the SDL of that type with both lists in (type, name) order. */
  lemma DescribedTypeSDLAnyOrder(td: TypeDesc, canon: TypeDesc, showArgs: bool, noDescriptions: bool)
    requires WellFormedType(td)
    requires td.CompositeType? ==> DescKeysDistinct(td.fields) && DescKeysDistinct(td.inputFields)
    requires CanonicalFormOf(canon, td)
    ensures TypeSDL(Payload(td), showArgs, noDescriptions) == ReferenceSDL(canon, showArgs, !noDescriptions)
  {
    CanonicalWellFormed(canon, td);
    DescribedTypeSDL(canon, showArgs, noDescriptions);
    if td.CompositeType? {
      var t := Payload(canon);
      var xs, ys := FieldsJson(canon.fields), FieldsJson(td.fields);
      var us, vs := FieldsJson(canon.inputFields), FieldsJson(td.inputFields);
      PayloadListsReplaced(td, canon);
      FieldsJsonReordered(canon.fields, td.fields);
      FieldsJsonReordered(canon.inputFields, td.inputFields);
      TypeSDLListsOrderIndependent(t, xs, ys, us, vs, showArgs, noDescriptions);
    }
  }

  /** The payload of a type and of its canonical form differ only in the two lists. */
  lemma PayloadListsReplaced(td: TypeDesc, canon: TypeDesc)
    requires td.CompositeType? && CanonicalFormOf(canon, td)
    ensures var t := Payload(canon);
      t["fields" := JArr(FieldsJson(canon.fields))]["inputFields" := JArr(FieldsJson(canon.inputFields))] == t
      && t["fields" := JArr(FieldsJson(td.fields))]["inputFields" := JArr(FieldsJson(td.inputFields))] == Payload(td)
  {
  }

  lemma FieldObjectsOfThree(a: FieldDesc, b: FieldDesc, c: FieldDesc)
    ensures FieldObjects([a, b, c]) == [FieldObject(a), FieldObject(b), FieldObject(c)]
  {
    assert [a, b, c][..2] == [a, b];
    assert [a, b][..1] == [a];
    assert [a][..0] == [];
    assert FieldObjects([a]) == [FieldObject(a)];
    assert FieldObjects([a, b]) == [FieldObject(a), FieldObject(b)];
  }

  /** Three fields in strictly ascending (type, name) order, listed by the server
      as second, third, first, are printed first, second, third. */
  lemma SortThreeFields(a: FieldDesc, b: FieldDesc, c: FieldDesc)
    requires WellFormedField(a) && WellFormedField(b) && WellFormedField(c)
    requires DescBefore(a, b) && DescBefore(b, c)
    ensures SortByKey(ObjectEntries(FieldsJson([b, c, a]))) == FieldObjects([a, b, c])
  {
    ObjectEntriesOfFields([b, c, a]);
    FieldObjectsOfThree(b, c, a);
    FieldObjectsOfThree(a, b, c);
    FieldKey(a);
    FieldKey(b);
    FieldKey(c);
    BeforeStrictOrder();
    SortRotated(Before, FieldObject(a), FieldObject(b), FieldObject(c));
  }

  /** A `Book` type listed by the server as `id: ID!`, `title: String!`,
      `author: Author!` prints its fields ordered by type notation:
      `Author!` < `ID!` < `String!`. */
  lemma BookFieldOrder(id: FieldDesc, title: FieldDesc, author: FieldDesc)
    requires id == FieldDesc("id", NonNull(Named("SCALAR", "ID")), [])
    requires title == FieldDesc("title", NonNull(Named("SCALAR", "String")), [])
    requires author == FieldDesc("author", NonNull(Named("OBJECT", "Author")), [])
    ensures SortByKey(ObjectEntries(FieldsJson([id, title, author]))) == FieldObjects([author, id, title])
  {
    assert Notation(id.typ) == "ID!";
    assert Notation(title.typ) == "String!";
    assert Notation(author.typ) == "Author!";
    assert LexLess("Author!", "ID!");
    assert LexLess("ID!", "String!");
    SortThreeFields(author, id, title);
  }

  // ---------------------------------------------------------------------
  // The introspection query (buildDescribeQuery)
  // ---------------------------------------------------------------------

  /** The fragment nests `ofType` four levels below the top reference, which is
      where `DescribeRefDepth` comes from. */
  const TypeRefFragment: string :=
    "fragment TypeRef on __Type {\n  kind name\n"
    + "  ofType { kind name ofType { kind name ofType { kind name ofType { kind name } } } }\n}"

  const DescribeQueryHead: string := "query {\n  __type(name: "

  const DescribeQueryTail: string :=
    ") {\n    name kind description\n"
    + "    fields { name type { ...TypeRef } args { name type { ...TypeRef } } }\n"
    + "    inputFields { name type { ...TypeRef } }\n"
    + "    enumValues { name }\n  }\n}\n" + TypeRefFragment

  /** `buildDescribeQuery`: the `__type` query for one name, written with `%q`. */
  function BuildDescribeQuery(typeName: string): (q: string)
    ensures |q| == |DescribeQueryHead| + |Quote(typeName)| + |DescribeQueryTail|
  {
    DescribeQueryHead + Quote(typeName) + DescribeQueryTail
  }

  /** Different type names give different queries, so the query identifies the
      type being described. */
  lemma DescribeQueryInjective(a: string, b: string)
    requires BuildDescribeQuery(a) == BuildDescribeQuery(b)
    ensures a == b
  {
    var qa, qb := BuildDescribeQuery(a), BuildDescribeQuery(b);
    var h, t := |DescribeQueryHead|, |DescribeQueryTail|;
    assert Quote(a) == qa[h..|qa| - t];
    assert Quote(b) == qb[h..|qb| - t];
    QuoteInjective(a, b);
  }

  /** A plain name (no quote, backslash or control escape) stands in the query
      between double quotes as it is. */
  lemma DescribeQueryOfPlainName(typeName: string)
    requires forall k :: 0 <= k < |typeName| ==> !NeedsEscape(typeName[k])
    ensures BuildDescribeQuery(typeName) == DescribeQueryHead + ("\"" + typeName + "\"") + DescribeQueryTail
  {
    QuotePlain(typeName);
  }
}
