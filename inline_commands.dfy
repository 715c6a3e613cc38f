/** inline_commands.go: the command set built over the in-process executor —
    its options, its command list, where an operation and its variables come
    from, the `types` listing, the printing of a result, and the login,
    logout and whoami actions. The token store of token.go appears only as
    far as these actions use it. */
module InlineCommands {
  import opened Json
  import opened Text
  import opened Engine
  import opened Describer
  import Sdl
  import Inline
  import Cli
  import Formatter

  // ---------------------------------------------------------------------
  // The token store (token.go), as the command set sees it
  // ---------------------------------------------------------------------

  /** Go's `strings.TrimSpace` cut set: the characters `unicode.IsSpace` accepts. */
  const SpaceChars: set<char> :=
    {' ', '\t', '\n', '\r', '\U{0B}', '\U{0C}', '\U{85}', '\U{A0}', '\U{1680}',
     '\U{2000}', '\U{2001}', '\U{2002}', '\U{2003}', '\U{2004}', '\U{2005}', '\U{2006}',
     '\U{2007}', '\U{2008}', '\U{2009}', '\U{200A}', '\U{2028}', '\U{2029}', '\U{202F}',
     '\U{205F}', '\U{3000}'}

  /** A `TokenStore`: its directory, and the contents of `{dir}/token` when
      that file exists. */
  class TokenStore {
    const dir: string
    var saved: Option<string>

    /** `NewTokenStoreAt`, over whatever token file the directory holds. */
    constructor NewTokenStoreAt(dir: string, onDisk: Option<string>)
      ensures this.dir == dir && saved == onDisk
    {
      this.dir := dir;
      saved := onDisk;
    }

    /** `Save`: the token file holds the token without surrounding space. */
    method Save(token: string)
      modifies this
      ensures saved == Some(Trim(token, SpaceChars))
    {
      saved := Some(Trim(token, SpaceChars));
    }

    /** `Exists`: whether the token file is there. */
    method Exists() returns (b: bool)
      ensures b <==> saved.Some?
    {
      b := saved.Some?;
    }

    /** `Clear`: the token file is gone. */
    method Clear()
      modifies this
      ensures saved == None
    {
      saved := None;
    }
  }

  // ---------------------------------------------------------------------
  // Options (LoginConfig, WithTokenStore, WithLogin, NewInlineCommandSet)
  // ---------------------------------------------------------------------

  /** A `LoginConfig`, copied by value as Go copies the struct. */
  datatype LoginConfig = LoginConfig(
    mutation: string,
    extractToken: Object -> Result<string, string>,
    tokens: Option<TokenStore>)

  datatype CommandSetOption =
    | WithTokenStore(ts: Option<TokenStore>)
    | WithLogin(cfg: LoginConfig)

  /** The set's store and login once `o` has run on a set holding `s`. */
  function ApplyOption(s: (Option<TokenStore>, Option<LoginConfig>), o: CommandSetOption)
    : (Option<TokenStore>, Option<LoginConfig>)
  {
    match o
    case WithTokenStore(ts) => (ts, s.1)
    case WithLogin(cfg) =>
      var login := if cfg.tokens.None? then cfg.(tokens := s.0) else cfg;
      (if s.0.None? then login.tokens else s.0, Some(login))
  }

  /** The store and login after the options, in order, on an empty set. */
  function SetupAfter(opts: seq<CommandSetOption>): (Option<TokenStore>, Option<LoginConfig>)
    decreases |opts|
  {
    if |opts| == 0 then (None, None)
    else ApplyOption(SetupAfter(opts[..|opts| - 1]), opts[|opts| - 1])
  }

  /** A login configured without a store takes the set's store, and a set
      without a store takes the login's; afterwards one has a store exactly
      when the other has. */
  lemma WithLoginSharesStore(opts: seq<CommandSetOption>, cfg: LoginConfig)
    ensures var before := SetupAfter(opts);
            var after := SetupAfter(opts + [WithLogin(cfg)]);
            after.1.Some? && after.1.value.mutation == cfg.mutation
            && after.1.value.extractToken == cfg.extractToken
            && (cfg.tokens.None? ==> after.1.value.tokens == before.0 && after.0 == before.0)
            && (before.0.None? ==> after.0 == cfg.tokens && after.1.value.tokens == cfg.tokens)
            && (before.0.Some? ==> after.0 == before.0)
            && (after.0.Some? <==> after.1.value.tokens.Some?)
  {
    assert (opts + [WithLogin(cfg)])[..|opts|] == opts;
  }

  /** A later `WithTokenStore` replaces the set's store but not the store the
      login already took. */
  lemma LaterStoreLeavesLogin(opts: seq<CommandSetOption>, ts: Option<TokenStore>)
    ensures var before := SetupAfter(opts);
            SetupAfter(opts + [WithTokenStore(ts)]) == (ts, before.1)
  {
    assert (opts + [WithTokenStore(ts)])[..|opts|] == opts;
  }

  /** The options apply in order: a store given before a store-less login
      reaches the login, and one given after it does not. */
  lemma OptionOrderMatters(ts: TokenStore, cfg: LoginConfig)
    requires cfg.tokens.None?
    ensures SetupAfter([WithTokenStore(Some(ts)), WithLogin(cfg)]) == (Some(ts), Some(cfg.(tokens := Some(ts))))
    ensures SetupAfter([WithLogin(cfg), WithTokenStore(Some(ts))]) == (Some(ts), Some(cfg))
  {
    var a := [WithTokenStore(Some(ts)), WithLogin(cfg)];
    var b := [WithLogin(cfg), WithTokenStore(Some(ts))];
    assert a[..1] == [WithTokenStore(Some(ts))] && b[..1] == [WithLogin(cfg)];
    assert a[..1][..0] == [] && b[..1][..0] == [];
    assert SetupAfter(a[..1]) == (Some(ts), None);
    assert SetupAfter(b[..1]) == (None, Some(cfg));
  }

  /** A login is configured exactly when some option is a `WithLogin`. */
  lemma {:induction false} LoginConfiguredIff(opts: seq<CommandSetOption>)
    ensures SetupAfter(opts).1.Some? <==> exists i :: 0 <= i < |opts| && opts[i].WithLogin?
    decreases |opts|
  {
    if |opts| > 0 {
      var init := opts[..|opts| - 1];
      LoginConfiguredIff(init);
      assert forall i :: 0 <= i < |init| ==> init[i] == opts[i];
      if SetupAfter(init).1.Some? {
        var i :| 0 <= i < |init| && init[i].WithLogin?;
        assert opts[i].WithLogin?;
      }
    }
  }

  // ---------------------------------------------------------------------
  // The operation and its variables (readInlineOperation)
  // ---------------------------------------------------------------------

  /** The flags of the `query` and `mutation` commands; an unset `--format`
      is None. */
  datatype OperationFlags = OperationFlags(
    query: string, file: string, variables: string, varFile: string,
    format: Option<string>, output: string, args: seq<string>)

  const OperationRequired: string := "operation required: pass as argument, --query, or --file"

  /** The operation text: the `--file` contents, else `--query`, else the
      first argument, else an error. */
  function OperationSource(readFile: Cli.ReadFile, f: OperationFlags): (r: Result<string, string>)
    ensures f.file != "" ==>
      r == (match readFile(f.file)
            case Success(data) => Success(data)
            case Failure(e) => Failure("failed to read file: " + e))
    ensures f.file == "" && f.query != "" ==> r == Success(f.query)
    ensures f.file == "" && f.query == "" && |f.args| > 0 ==> r == Success(f.args[0])
    ensures f.file == "" && f.query == "" && |f.args| == 0 ==> r == Failure(OperationRequired)
  {
    if f.file != "" then
      match readFile(f.file)
      case Success(data) => Success(data)
      case Failure(e) => Failure("failed to read file: " + e)
    else if f.query != "" then Success(f.query)
    else if |f.args| > 0 then Success(f.args[0])
    else Failure(OperationRequired)
  }

  /** The variables: decoded from `--var-file`, else from `--variables`
      unless it is the literal `{}`, else none. */
  function InlineVariables(readFile: Cli.ReadFile, decode: string -> Option<Json>, varFile: string, text: string)
    : (r: Result<Option<Object>, string>)
    ensures varFile == "" && (text == "" || text == "{}") ==> r == Success(None)
    ensures varFile != "" && readFile(varFile).Failure? ==> r == Failure("failed to read variables file: " + readFile(varFile).error)
    ensures r.Success? && r.value.Some? ==>
      (varFile != "" && readFile(varFile).Success? && decode(readFile(varFile).value) == Some(JObj(r.value.value)))
      || (varFile == "" && text != "{}" && decode(text) == Some(JObj(r.value.value)))
  {
    if varFile != "" then
      match readFile(varFile)
      case Failure(e) => Failure("failed to read variables file: " + e)
      case Success(data) =>
        match Cli.DecodeVariables(decode, data)
        case None => Failure("invalid variables JSON in file")
        case Some(v) => Success(v)
    else if text != "" && text != "{}" then
      match Cli.DecodeVariables(decode, text)
      case None => Failure("invalid variables JSON")
      case Some(v) => Success(v)
    else Success(None)
  }

  /** `readInlineOperation`: the operation first, and only then its variables. */
  function InlineOperation(readFile: Cli.ReadFile, decode: string -> Option<Json>, f: OperationFlags)
    : (r: Result<(string, Option<Object>), string>)
    ensures OperationSource(readFile, f).Failure? ==> r == Failure(OperationSource(readFile, f).error)
    ensures OperationSource(readFile, f).Success? ==>
      (r.Success? <==> InlineVariables(readFile, decode, f.varFile, f.variables).Success?)
    ensures r.Success? ==>
      r.value == (OperationSource(readFile, f).value, InlineVariables(readFile, decode, f.varFile, f.variables).value)
    ensures r.Failure? && OperationSource(readFile, f).Success? ==>
      r.error == InlineVariables(readFile, decode, f.varFile, f.variables).error
  {
    match OperationSource(readFile, f)
    case Failure(e) => Failure(e)
    case Success(op) =>
      match InlineVariables(readFile, decode, f.varFile, f.variables)
      case Failure(e) => Failure(e)
      case Success(vars) => Success((op, vars))
  }

  /** The operation is found by the same precedence as the standalone
      builder's `getQueryString`: both succeed together, with the same text. */
  lemma SamePrecedenceAsBuilder(readFile: Cli.ReadFile, f: OperationFlags)
    ensures OperationSource(readFile, f).Success? <==>
            Cli.OperationText(Cli.QueryKind, readFile, f.file, f.query, f.args).Success?
    ensures OperationSource(readFile, f).Success? ==>
            OperationSource(readFile, f).value == Cli.OperationText(Cli.QueryKind, readFile, f.file, f.query, f.args).value
  {
  }

  /** A variables file is read as the standalone builder reads it. */
  lemma VarFileAsBuilder(readFile: Cli.ReadFile, decode: string -> Option<Json>, varFile: string, text: string)
    requires varFile != ""
    ensures InlineVariables(readFile, decode, varFile, text) == Cli.Variables(readFile, decode, varFile, text)
  {
  }

  /** The difference from the standalone builder: `--variables '{}'` is no
      variables here, and an empty variables map there. */
  lemma EmptyObjectLiteral(readFile: Cli.ReadFile, decode: string -> Option<Json>)
    requires decode("{}") == Some(JObj(map[]))
    ensures InlineVariables(readFile, decode, "", "{}") == Success(None)
    ensures Cli.Variables(readFile, decode, "", "{}") == Success(Some(map[]))
  {
  }

  // ---------------------------------------------------------------------
  // The `types` listing
  // ---------------------------------------------------------------------

  const TypesQuery: string := "{ __schema { types { name kind } } }"

  /** The kinds listed, in the order they are printed, each with its label
      (the `order` slice and the `labels` map side by side). */
  const KindTable: seq<(string, string)> :=
    [("OBJECT", "Types"), ("INTERFACE", "Interfaces"), ("UNION", "Unions"),
     ("ENUM", "Enums"), ("INPUT_OBJECT", "Inputs"), ("SCALAR", "Scalars")]

  /** One of the six kinds the listing prints. */
  predicate PrintedKind(kind: string)
  {
    exists i :: 0 <= i < |KindTable| && KindTable[i].0 == kind
  }

  /** A name survives the builtin and filter checks; `filter` is already lower case. */
  predicate Listed(name: string, filter: string, showBuiltin: bool)
  {
    (showBuiltin || !HasPrefix(name, "__")) && (filter == "" || Contains(ToLower(name), filter))
  }

  /** The names, in input order, of the listed type entries of kind `kind`. */
  function GroupOf(types: seq<Json>, filter: string, showBuiltin: bool, kind: string): (r: seq<string>)
    ensures |r| <= |types|
    ensures forall j :: 0 <= j < |r| ==> Listed(r[j], filter, showBuiltin)
    decreases |types|
  {
    if |types| == 0 then []
    else
      var prev := GroupOf(types[..|types| - 1], filter, showBuiltin, kind);
      var t := types[|types| - 1];
      if t.JObj? && StrAt(t.fields, "kind") == kind && Listed(StrAt(t.fields, "name"), filter, showBuiltin)
      then prev + [StrAt(t.fields, "name")]
      else prev
  }

  /** `byKind[k]`, where a missing kind reads as an empty list. */
  function Group(byKind: map<string, seq<string>>, k: string): seq<string>
  {
    if k in byKind then byKind[k] else []
  }

  /** A name is in a group exactly when some listed object entry of that
      kind carries it. */
  lemma {:induction false} GroupMembership(types: seq<Json>, filter: string, showBuiltin: bool, kind: string, n: string)
    ensures n in GroupOf(types, filter, showBuiltin, kind) <==>
      exists i :: 0 <= i < |types| && types[i].JObj? && StrAt(types[i].fields, "kind") == kind
                  && StrAt(types[i].fields, "name") == n && Listed(n, filter, showBuiltin)
    decreases |types|
  {
    if |types| > 0 {
      var init := types[..|types| - 1];
      GroupMembership(init, filter, showBuiltin, kind, n);
      assert forall i :: 0 <= i < |init| ==> init[i] == types[i];
    }
  }

  /** Grouping keeps the input order: the group of a concatenation is the
      concatenation of the groups. */
  lemma {:induction false} GroupKeepsOrder(t1: seq<Json>, t2: seq<Json>, filter: string, showBuiltin: bool, kind: string)
    ensures GroupOf(t1 + t2, filter, showBuiltin, kind) == GroupOf(t1, filter, showBuiltin, kind) + GroupOf(t2, filter, showBuiltin, kind)
    decreases |t2|
  {
    if |t2| == 0 {
      assert t1 + t2 == t1;
    } else {
      var init := t2[..|t2| - 1];
      assert (t1 + t2)[..|t1 + t2| - 1] == t1 + init;
      GroupKeepsOrder(t1, init, filter, showBuiltin, kind);
    }
  }

  /** The filter matches in any case: a name containing the flag's text is
      listed unless it is a hidden builtin. */
  lemma SubstringListed(name: string, flag: string, showBuiltin: bool)
    requires Contains(name, flag)
    requires showBuiltin || !HasPrefix(name, "__")
    ensures Listed(name, ToLower(flag), showBuiltin)
  {
    if flag != "" {
      ContainsIffOccurrence(name, flag);
      var i :| OccursAt(name, flag, i);
      var ln, lf := ToLower(name), ToLower(flag);
      forall j | 0 <= j < |flag| ensures ln[i..i + |flag|][j] == lf[j] {
        assert name[i + j] == flag[j];
      }
      assert OccursAt(ln, lf, i);
      ContainsIffOccurrence(ln, lf);
    }
  }

  /** The line printed for one name. */
  function NameLine(n: string): string
  {
    "  " + n + "\n"
  }

  function NameLines(names: seq<string>): string
  {
    Concat(seq(|names|, j requires 0 <= j < |names| => NameLine(names[j])))
  }

  /** The print of one group: nothing when it is empty, else its label and
      one indented line per name. */
  function Section(heading: string, names: seq<string>): (r: string)
    ensures r == "" <==> names == []
    ensures names != [] ==> HasPrefix(r, heading + ":\n")
  {
    if names == [] then "" else heading + ":\n" + NameLines(names)
  }

  /** Every name of a group has its own line in the group's print. */
  lemma SectionShowsEach(heading: string, names: seq<string>, j: nat)
    requires j < |names|
    ensures Contains(Section(heading, names), NameLine(names[j]))
  {
    var lines := seq(|names|, i requires 0 <= i < |names| => NameLine(names[i]));
    ContainsSelf(lines[j]);
    ContainsConcat(lines, j, NameLine(names[j]));
    ContainsExtend(heading + ":\n", NameLines(names), "", NameLine(names[j]));
    assert heading + ":\n" + NameLines(names) + "" == Section(heading, names);
  }

  /** The sections of the six kinds, in the printing order. */
  function Sections(types: seq<Json>, filter: string, showBuiltin: bool): (r: seq<string>)
    ensures |r| == |KindTable|
  {
    seq(|KindTable|, i requires 0 <= i < |KindTable| => Section(KindTable[i].1, GroupOf(types, filter, showBuiltin, KindTable[i].0)))
  }

  /** The whole listing: the sections of the six kinds, one after the other. */
  function Listing(types: seq<Json>, filter: string, showBuiltin: bool): (r: string)
    ensures r == "" <==> forall i :: 0 <= i < |KindTable| ==> GroupOf(types, filter, showBuiltin, KindTable[i].0) == []
  {
    var sections := Sections(types, filter, showBuiltin);
    ConcatEmpty(sections);
    assert forall i :: 0 <= i < |KindTable| ==>
      sections[i] == Section(KindTable[i].1, GroupOf(types, filter, showBuiltin, KindTable[i].0));
    Concat(sections)
  }

  /** The fixed order of the printed groups and their labels. */
  lemma ListingOrder(types: seq<Json>, filter: string, showBuiltin: bool)
    ensures var s := Sections(types, filter, showBuiltin);
      && s[0] == Section("Types", GroupOf(types, filter, showBuiltin, "OBJECT"))
      && s[1] == Section("Interfaces", GroupOf(types, filter, showBuiltin, "INTERFACE"))
      && s[2] == Section("Unions", GroupOf(types, filter, showBuiltin, "UNION"))
      && s[3] == Section("Enums", GroupOf(types, filter, showBuiltin, "ENUM"))
      && s[4] == Section("Inputs", GroupOf(types, filter, showBuiltin, "INPUT_OBJECT"))
      && s[5] == Section("Scalars", GroupOf(types, filter, showBuiltin, "SCALAR"))
  {
  }

  /** A listed name of one of the six kinds is printed. */
  lemma ListingShowsName(types: seq<Json>, filter: string, showBuiltin: bool, k: nat, j: nat)
    requires k < |KindTable| && j < |GroupOf(types, filter, showBuiltin, KindTable[k].0)|
    ensures Contains(Listing(types, filter, showBuiltin), NameLine(GroupOf(types, filter, showBuiltin, KindTable[k].0)[j]))
  {
    var names := GroupOf(types, filter, showBuiltin, KindTable[k].0);
    SectionShowsEach(KindTable[k].1, names, j);
    ContainsConcat(Sections(types, filter, showBuiltin), k, NameLine(names[j]));
  }

  /** An entry that is not an object, or whose kind is not one of the six,
      changes nothing in the listing. */
  lemma OtherKindsNeverPrinted(types: seq<Json>, t: Json, filter: string, showBuiltin: bool)
    requires !t.JObj? || !PrintedKind(StrAt(t.fields, "kind"))
    ensures Listing(types + [t], filter, showBuiltin) == Listing(types, filter, showBuiltin)
  {
    assert (types + [t])[..|types|] == types;
    assert Sections(types + [t], filter, showBuiltin) == Sections(types, filter, showBuiltin);
  }

  /** The grouping loop: kept names appended to `byKind[kind]` in input order. */
  method GroupByKind(types: seq<Json>, filter: string, showBuiltin: bool) returns (byKind: map<string, seq<string>>)
    ensures forall k :: Group(byKind, k) == GroupOf(types, filter, showBuiltin, k)
    ensures forall k :: k in byKind ==> byKind[k] != []
  {
    byKind := map[];
    var i := 0;
    while i < |types|
      invariant 0 <= i <= |types|
      invariant forall k :: Group(byKind, k) == GroupOf(types[..i], filter, showBuiltin, k)
      invariant forall k :: k in byKind ==> byKind[k] != []
    {
      assert types[..i + 1][..i] == types[..i];
      var t := types[i];
      if t.JObj? {
        var name := StrAt(t.fields, "name");
        var kind := StrAt(t.fields, "kind");
        if Listed(name, filter, showBuiltin) {
          byKind := byKind[kind := Group(byKind, kind) + [name]];
        }
      }
      i := i + 1;
    }
    assert types[..i] == types;
  }

  /** The printing loop: the six kinds in order, empty groups skipped. */
  method PrintListing(byKind: map<string, seq<string>>, ghost types: seq<Json>, ghost filter: string, ghost showBuiltin: bool)
    returns (out: string)
    requires forall k :: Group(byKind, k) == GroupOf(types, filter, showBuiltin, k)
    ensures out == Listing(types, filter, showBuiltin)
  {
    ghost var sections := Sections(types, filter, showBuiltin);
    out := "";
    var i := 0;
    while i < |KindTable|
      invariant 0 <= i <= |KindTable|
      invariant out == Concat(sections[..i])
    {
      var k, heading := KindTable[i].0, KindTable[i].1;
      var names := Group(byKind, k);
      SectionOfGroup(byKind, types, filter, showBuiltin, i);
      ghost var before := out;
      if |names| != 0 {
        out := EmitSection(out, heading, names);
      }
      ConcatStep(sections, i);
      i := i + 1;
    }
    assert sections[..i] == sections;
  }

  /** The `i`-th section is printed from the `i`-th kind's group of the map. */
  lemma SectionOfGroup(byKind: map<string, seq<string>>, types: seq<Json>, filter: string, showBuiltin: bool, i: nat)
    requires forall k :: Group(byKind, k) == GroupOf(types, filter, showBuiltin, k)
    requires i < |KindTable|
    ensures Sections(types, filter, showBuiltin)[i] == Section(KindTable[i].1, Group(byKind, KindTable[i].0))
  {
  }

  lemma ConcatStep(parts: seq<string>, i: nat)
    requires i < |parts|
    ensures Concat(parts[..i + 1]) == Concat(parts[..i]) + parts[i]
  {
    assert parts[..i + 1] == parts[..i] + [parts[i]];
    ConcatAppend(parts[..i], parts[i]);
  }

  /** One group's print appended to `out`: its label, then a line per name. */
  method EmitSection(out: string, heading: string, names: seq<string>) returns (out': string)
    requires names != []
    ensures out' == out + Section(heading, names)
  {
    out' := out + heading + ":\n";
    ghost var lines := seq(|names|, j requires 0 <= j < |names| => NameLine(names[j]));
    var j := 0;
    while j < |names|
      invariant 0 <= j <= |names|
      invariant out' == out + heading + ":\n" + Concat(lines[..j])
    {
      assert lines[..j + 1] == lines[..j] + [lines[j]];
      ConcatAppend(lines[..j], lines[j]);
      out' := out' + "  " + names[j] + "\n";
      j := j + 1;
    }
    assert lines[..j] == lines;
  }

  /** `data.__schema.types` of a response, a missing level read as empty. */
  function SchemaTypes(result: Object): seq<Json>
  {
    var schema := ObjOrEmpty(ObjOrEmpty(result, "data"), "__schema");
    match ArrAt(schema, "types")
    case Some(ts) => ts
    case None => []
  }

  /** What the `types` action prints for a response, or its error. */
  function TypesOutcome(decode: string -> Option<Json>, raw: string, filterFlag: string, showBuiltin: bool)
    : (r: Result<string, string>)
    ensures r.Failure? <==> DecodeObject(decode, raw).None?
  {
    match DecodeObject(decode, raw)
    case None => Failure("failed to parse response")
    case Some(result) => Success(Listing(SchemaTypes(result), ToLower(filterFlag), showBuiltin))
  }

  // ---------------------------------------------------------------------
  // Printing a result (printInlineResult)
  // ---------------------------------------------------------------------

  /** What an action writes: text on standard output, and possibly a file
      (its path and contents). */
  datatype Printed = Printed(stdout: string, file: Option<(string, string)>)

  /** The `schemaHint` extension of an error map, when it is a string. */
  function HintOf(em: Object): Option<string>
  {
    match ObjAt(em, "extensions")
    case Some(ext) => if "schemaHint" in ext && ext["schemaHint"].JStr? then Some(ext["schemaHint"].s) else None
    case None => None
  }

  /** The lines printed for one error entry: none for a non-map entry. */
  function ErrorLines(e: Json): (r: string)
  {
    if !e.JObj? then ""
    else
      var head := "Error: " + StrAt(e.fields, "message") + "\n";
      match HintOf(e.fields)
      case Some(h) => head + ("Schema hint:\n" + h + "\n")
      case None => head
  }

  function ErrorLinesOf(errs: seq<Json>): (r: seq<string>)
    ensures |r| == |errs|
  {
    seq(|errs|, i requires 0 <= i < |errs| => ErrorLines(errs[i]))
  }

  /** The text printed for the errors of a response. */
  function ErrorReport(errs: seq<Json>): string
  {
    Concat(ErrorLinesOf(errs))
  }

  lemma ErrorReportAppend(a: seq<Json>, b: seq<Json>)
    ensures ErrorReport(a + b) == ErrorReport(a) + ErrorReport(b)
  {
    assert ErrorLinesOf(a + b) == ErrorLinesOf(a) + ErrorLinesOf(b);
    ConcatSplit(ErrorLinesOf(a), ErrorLinesOf(b));
  }

  /** Entries that are not maps are skipped. */
  lemma NonMapErrorSkipped(a: seq<Json>, e: Json, b: seq<Json>)
    requires !e.JObj?
    ensures ErrorReport(a + [e] + b) == ErrorReport(a + b)
  {
    ErrorReportAppend(a + [e], b);
    ErrorReportAppend(a, [e]);
    ErrorReportAppend(a, b);
    assert ErrorLines(e) == "";
    assert ErrorLinesOf([e]) == [""];
    assert Concat([""]) == "" + Concat([""][1..]);
  }

  /** Every map entry's message is printed, and its hint when it has one. */
  lemma ErrorReportShowsEach(errs: seq<Json>, i: nat)
    requires i < |errs| && errs[i].JObj?
    ensures Contains(ErrorReport(errs), "Error: " + StrAt(errs[i].fields, "message") + "\n")
    ensures HintOf(errs[i].fields).Some? ==>
      Contains(ErrorReport(errs), "Schema hint:\n" + HintOf(errs[i].fields).value + "\n")
  {
    var head := "Error: " + StrAt(errs[i].fields, "message") + "\n";
    var lines := ErrorLinesOf(errs);
    match HintOf(errs[i].fields)
    case Some(h) =>
      var tail := "Schema hint:\n" + h + "\n";
      assert lines[i] == head + tail;
      ContainsInside("", head, tail);
      assert "" + head + tail == lines[i];
      ContainsInside(head, tail, "");
      assert head + tail + "" == lines[i];
      ContainsConcat(lines, i, head);
      ContainsConcat(lines, i, tail);
    case None =>
      assert lines[i] == head;
      ContainsSelf(head);
      ContainsConcat(lines, i, head);
  }

  /** The printing loop over the errors. */
  method ReportErrors(errs: seq<Json>) returns (out: string)
    ensures out == ErrorReport(errs)
  {
    ghost var lines := ErrorLinesOf(errs);
    out := "";
    var i := 0;
    while i < |errs|
      invariant 0 <= i <= |errs|
      invariant out == Concat(lines[..i])
    {
      var e := errs[i];
      var printed := "";
      if e.JObj? {
        var msg := StrAt(e.fields, "message");
        printed := "Error: " + msg + "\n";
        var ext := ObjAt(e.fields, "extensions");
        if ext.Some? && "schemaHint" in ext.value && ext.value["schemaHint"].JStr? {
          printed := printed + ("Schema hint:\n" + ext.value["schemaHint"].s + "\n");
        }
      }
      assert printed == ErrorLines(e) == lines[i];
      assert lines[..i + 1] == lines[..i] + [lines[i]];
      ConcatAppend(lines[..i], lines[i]);
      out := out + printed;
      i := i + 1;
    }
    assert lines[..i] == lines;
  }

  /** The formatter the result is printed with: the named default, or the
      compact JSON one for an unknown name. */
  function ChosenFormatter(name: string): (f: Formatter.Formatter)
    ensures name !in Formatter.DefaultNames ==> f == Formatter.JSONFormatter(false)
    ensures name in Formatter.DefaultNames ==> f == Formatter.DefaultFormatters()[name]
  {
    var defaults := Formatter.DefaultFormatters();
    if name in defaults then defaults[name] else defaults["json"]
  }

  /** The `errors` entries when there is at least one. */
  function ReportedErrors(result: Object): Option<seq<Json>>
  {
    match ArrAt(result, "errors")
    case Some(es) => if |es| > 0 then Some(es) else None
    case None => None
  }

  /** `printInlineResult` on a response body. The decoder's own error text is
      not modelled: an undecodable body fails with the empty text. */
  function InlineResult(decode: string -> Option<Json>, raw: string, format: string, output: string,
                        rs: Formatter.Renderers): (r: Result<Printed, string>)
    ensures r.Success? && r.value.file.Some? ==> output != "" && r.value.stdout == "" && r.value.file.value.0 == output
    ensures DecodeObject(decode, raw).None? ==> r.Failure?
  {
    match DecodeObject(decode, raw)
    case None => Failure("")
    case Some(result) =>
      match ReportedErrors(result)
      case Some(es) => Success(Printed(ErrorReport(es), None))
      case None =>
        match Formatter.Format(ChosenFormatter(format), result, rs)
        case Failure(e) => Failure(e)
        case Success(out) =>
          if output != "" then Success(Printed("", Some((output, out))))
          else Success(Printed(out + "\n", None))
  }

  /** With errors, the result is the error report on standard output, whatever
      the format and output flags say. */
  lemma ErrorsBypassFormatting(decode: string -> Option<Json>, raw: string, format: string, output: string,
                               rs: Formatter.Renderers, result: Object)
    requires DecodeObject(decode, raw) == Some(result)
    requires ArrAt(result, "errors").Some? && |ArrAt(result, "errors").value| > 0
    ensures InlineResult(decode, raw, format, output, rs) == Success(Printed(ErrorReport(ArrAt(result, "errors").value), None))
  {
  }

  /** Without errors, the formatted text goes to the output file when one is
      named, and to standard output otherwise. */
  lemma FormattedDestination(decode: string -> Option<Json>, raw: string, format: string, output: string,
                             rs: Formatter.Renderers, result: Object)
    requires DecodeObject(decode, raw) == Some(result) && ReportedErrors(result).None?
    requires Formatter.Format(ChosenFormatter(format), result, rs).Success?
    ensures var out := Formatter.Format(ChosenFormatter(format), result, rs).value;
            InlineResult(decode, raw, format, output, rs)
              == if output != "" then Success(Printed("", Some((output, out)))) else Success(Printed(out + "\n", None))
  {
  }

  /** `printInlineResult`, with a fresh registry. */
  method PrintInlineResult(decode: string -> Option<Json>, raw: string, format: string, output: string,
                           rs: Formatter.Renderers) returns (r: Result<Printed, string>)
    ensures r == InlineResult(decode, raw, format, output, rs)
  {
    var decoded := DecodeObject(decode, raw);
    if decoded.None? {
      return Failure("");
    }
    var result := decoded.value;
    var errs := ArrAt(result, "errors");
    if errs.Some? && |errs.value| > 0 {
      var text := ReportErrors(errs.value);
      return Success(Printed(text, None));
    }
    var reg := new Formatter.FormatterRegistry.NewFormatterRegistry();
    var got := reg.Get(format);
    if got.Failure? {
      got := reg.Get("json");
    }
    var out := Formatter.Format(got.value, result, rs);
    if out.Failure? {
      return Failure(out.error);
    }
    if output != "" {
      return Success(Printed("", Some((output, out.value))));
    }
    r := Success(Printed(out.value + "\n", None));
  }

  /** The `--format` value: the flag when given, else the command's default. */
  function FormatChoice(kind: Cli.OperationKind, format: Option<string>): string
  {
    match format
    case Some(f) => f
    case None => if kind.QueryKind? then "toon" else "json"
  }

  /** The query or mutation action: read the operation, run it in process,
      print the result. */
  function OperationOutcome(serve: Handler, enrich: Option<Ctx -> Ctx>, decode: string -> Option<Json>,
                            readFile: Cli.ReadFile, kind: Cli.OperationKind, f: OperationFlags,
                            rs: Formatter.Renderers): (r: Result<Printed, string>)
    ensures InlineOperation(readFile, decode, f).Failure? ==> r == Failure(InlineOperation(readFile, decode, f).error)
  {
    match InlineOperation(readFile, decode, f)
    case Failure(e) => Failure(e)
    case Success(opVars) =>
      InlineResult(decode, Served(serve, EnrichCtx(enrich, Background), opVars.0, opVars.1),
                   FormatChoice(kind, f.format), f.output, rs)
  }

  // ---------------------------------------------------------------------
  // Login
  // ---------------------------------------------------------------------

  /** `%s` of an error's `message`: a string as it is, nil as Go prints it,
      anything else through `show`. */
  function MessageText(em: Object, show: Json -> string): string
  {
    match Field(em, "message")
    case JStr(s) => s
    case JNull => "%!s(<nil>)"
    case v => show(v)
  }

  /** The login mutation's variables: exactly the two credentials. */
  function LoginVariables(email: string, password: string): (vars: Object)
    ensures vars.Keys == {"email", "password"}
    ensures vars["email"] == JStr(email) && vars["password"] == JStr(password)
  {
    map["email" := JStr(email), "password" := JStr(password)]
  }

  /** A successful login: the store the token goes to, and the token. */
  datatype LoginDone = LoginDone(store: TokenStore, token: string)

  /** The login action on the mutation's response body, up to saving. */
  function LoginOutcome(decode: string -> Option<Json>, raw: string, cfg: LoginConfig, show: Json -> string)
    : (r: Result<LoginDone, string>)
    ensures DecodeObject(decode, raw).None? ==> r == Failure("failed to parse response")
    ensures DecodeObject(decode, raw).Some? && ReportedErrors(DecodeObject(decode, raw).value).Some? ==>
      r.Failure? && HasPrefix(r.error, "login failed")
    ensures r.Success? <==>
      DecodeObject(decode, raw).Some? && ReportedErrors(DecodeObject(decode, raw).value).None?
      && cfg.extractToken(ObjOrEmpty(DecodeObject(decode, raw).value, "data")).Success?
      && cfg.tokens.Some?
    ensures r.Success? ==>
      r.value.store == cfg.tokens.value
      && r.value.token == cfg.extractToken(ObjOrEmpty(DecodeObject(decode, raw).value, "data")).value
  {
    match DecodeObject(decode, raw)
    case None => Failure("failed to parse response")
    case Some(result) =>
      match ReportedErrors(result)
      case Some(es) =>
        if es[0].JObj? then Failure("login failed: " + MessageText(es[0].fields, show))
        else Failure("login failed")
      case None =>
        match cfg.extractToken(ObjOrEmpty(result, "data"))
        case Failure(e) => Failure("failed to extract token: " + e)
        case Success(token) =>
          if cfg.tokens.None? then Failure("no token store configured")
          else Success(LoginDone(cfg.tokens.value, token))
  }

  /** The first error's message is the failure, whatever the rest of the
      configuration. */
  lemma LoginReportsFirstError(decode: string -> Option<Json>, raw: string, cfg: LoginConfig, show: Json -> string,
                               result: Object, m: string)
    requires DecodeObject(decode, raw) == Some(result)
    requires ArrAt(result, "errors").Some? && |ArrAt(result, "errors").value| > 0
    requires ArrAt(result, "errors").value[0] == JObj(map["message" := JStr(m)])
    ensures LoginOutcome(decode, raw, cfg, show) == Failure("login failed: " + m)
  {
  }

  /** Without a store, a login that gets a token still fails. */
  lemma LoginNeedsStore(decode: string -> Option<Json>, raw: string, cfg: LoginConfig, show: Json -> string, result: Object)
    requires DecodeObject(decode, raw) == Some(result) && ReportedErrors(result).None?
    requires cfg.extractToken(ObjOrEmpty(result, "data")).Success? && cfg.tokens.None?
    ensures LoginOutcome(decode, raw, cfg, show) == Failure("no token store configured")
  {
  }

  // ---------------------------------------------------------------------
  // The command set (InlineCommandSet, NewInlineCommandSet, Commands and
  // the command actions)
  // ---------------------------------------------------------------------

  const BaseCommands: seq<string> := ["query", "mutation", "describe", "types"]
  const LoginCommands: seq<string> := ["login", "logout", "whoami"]

  /** The exec function of a describer over an in-process executor. */
  function InlineExec(serve: Handler, enrich: Option<Ctx -> Ctx>): Exec
  {
    q => Success(Served(serve, EnrichCtx(enrich, Background), q, None))
  }

  /** The describe action's answer: the SDL text, or the error's text. */
  function DescribeText(r: Result<string, FetchError>): Result<string, string>
  {
    match r
    case Success(s) => Success(s)
    case Failure(e) => Failure(ErrorText(e))
  }

  class InlineCommandSet {
    const exec: Inline.InlineExecutor
    /** The JSON parser the actions decode responses with. */
    const decode: string -> Option<Json>
    var tokens: Option<TokenStore>
    var login: Option<LoginConfig>

    /** `CommandSetOption`s applied one at a time. */
    method Apply(o: CommandSetOption)
      modifies this
      ensures (tokens, login) == ApplyOption(old((tokens, login)), o)
    {
      match o
      case WithTokenStore(ts) =>
        tokens := ts;
      case WithLogin(cfg) =>
        var l := cfg;
        if l.tokens.None? {
          l := l.(tokens := tokens);
        }
        login := Some(l);
        if tokens.None? {
          tokens := l.tokens;
        }
    }

    /** `NewInlineCommandSet`: the options in order. */
    constructor NewInlineCommandSet(exec: Inline.InlineExecutor, decode: string -> Option<Json>, opts: seq<CommandSetOption>)
      ensures this.exec == exec && this.decode == decode
      ensures (tokens, login) == SetupAfter(opts)
    {
      this.exec := exec;
      this.decode := decode;
      tokens := None;
      login := None;
      new;
      var i := 0;
      while i < |opts|
        invariant 0 <= i <= |opts|
        invariant this.exec == exec && this.decode == decode
        invariant (tokens, login) == SetupAfter(opts[..i])
      {
        assert opts[..i + 1][..i] == opts[..i];
        Apply(opts[i]);
        i := i + 1;
      }
      assert opts[..i] == opts;
    }

    /** `Commands`: the four operation commands, then the three session
        commands exactly when a login is configured. */
    method Commands() returns (cmds: seq<string>)
      ensures |cmds| >= 4 && cmds[..4] == BaseCommands
      ensures "login" in cmds <==> login.Some?
      ensures cmds == BaseCommands + (if login.Some? then LoginCommands else [])
    {
      cmds := ["query", "mutation", "describe", "types"];
      if login.Some? {
        cmds := cmds + ["login", "logout", "whoami"];
      }
    }

    /** The `query` and `mutation` actions. */
    method RunOperation(kind: Cli.OperationKind, readFile: Cli.ReadFile, f: OperationFlags, rs: Formatter.Renderers)
      returns (r: Result<Printed, string>)
      ensures r == OperationOutcome(exec.serve, exec.enrich, decode, readFile, kind, f, rs)
    {
      var op := InlineOperation(readFile, decode, f);
      if op.Failure? {
        return Failure(op.error);
      }
      var raw := exec.Execute(Background, op.value.0, op.value.1);
      r := PrintInlineResult(decode, raw.value, FormatChoice(kind, f.format), f.output, rs);
    }

    /** The `describe` action: a fresh describer over the executor. */
    method Describe(args: seq<string>, showArgs: bool, descriptions: bool) returns (r: Result<string, string>)
      ensures |args| == 0 ==> r == Failure("TYPE_NAME argument is required")
      ensures |args| > 0 ==>
        r == DescribeText(DescribeResult(InlineExec(exec.serve, exec.enrich), decode, args[0], showArgs, !descriptions))
    {
      if |args| == 0 {
        return Failure("TYPE_NAME argument is required");
      }
      var d := new Describer.NewDescriber(exec.serve, exec.enrich, decode);
      var hint := d.DescribeWith(args[0], showArgs, descriptions);
      assert d.exec(Sdl.BuildDescribeQuery(args[0])) == InlineExec(exec.serve, exec.enrich)(Sdl.BuildDescribeQuery(args[0]));
      r := DescribeText(hint);
    }

    /** The `types` action. */
    method Types(filterFlag: string, showBuiltin: bool) returns (r: Result<string, string>)
      ensures r == TypesOutcome(decode, Served(exec.serve, EnrichCtx(exec.enrich, Background), TypesQuery, None),
                                filterFlag, showBuiltin)
    {
      var raw := exec.Execute(Background, TypesQuery, None);
      var decoded := DecodeObject(decode, raw.value);
      if decoded.None? {
        return Failure("failed to parse response");
      }
      var types := SchemaTypes(decoded.value);
      var filter := ToLower(filterFlag);
      var byKind := GroupByKind(types, filter, showBuiltin);
      var out := PrintListing(byKind, types, filter, showBuiltin);
      r := Success(out);
    }

    /** The `login` action: run the mutation with the two flags as
        variables; on success the token is saved in the login's store. */
    method Login(email: string, password: string, show: Json -> string) returns (r: Result<string, string>)
      requires login.Some?
      modifies if login.value.tokens.Some? then {login.value.tokens.value} else {}
      ensures var done := LoginOutcome(decode, Served(exec.serve, EnrichCtx(exec.enrich, Background),
                                                      login.value.mutation, Some(LoginVariables(email, password))),
                                       login.value, show);
        match done
        case Success(d) =>
          r == Success("Logged in. Token saved to " + d.store.dir + "\n") && d.store.saved == Some(Trim(d.token, SpaceChars))
        case Failure(e) =>
          r == Failure(e) && (login.value.tokens.Some? ==> login.value.tokens.value.saved == old(login.value.tokens.value.saved))
    {
      var cfg := login.value;
      var raw := exec.Execute(Background, cfg.mutation, Some(LoginVariables(email, password)));
      var done := LoginOutcome(decode, raw.value, cfg, show);
      if done.Failure? {
        return Failure(done.error);
      }
      var ts := done.value.store;
      ts.Save(done.value.token);
      r := Success("Logged in. Token saved to " + ts.dir + "\n");
    }

    /** The `logout` action: without a store or a saved token there is no
        session; otherwise the token file is removed. */
    method Logout() returns (out: string)
      requires login.Some?
      modifies if login.value.tokens.Some? then {login.value.tokens.value} else {}
      ensures login.value.tokens.None? || old(login.value.tokens.value.saved).None? ==> out == "No active session.\n"
      ensures login.value.tokens.Some? && old(login.value.tokens.value.saved).Some? ==>
        out == "Logged out.\n" && login.value.tokens.value.saved == None
    {
      var ts := login.value.tokens;
      if ts.None? {
        return "No active session.\n";
      }
      var present := ts.value.Exists();
      if !present {
        return "No active session.\n";
      }
      ts.value.Clear();
      out := "Logged out.\n";
    }

    /** The `whoami` action; `formatInfo` is the store's `FormatInfo` for the
        saved token, whose claims parsing is not modelled. */
    method Whoami(formatInfo: string -> string) returns (out: string)
      requires login.Some?
      ensures login.value.tokens.None? || login.value.tokens.value.saved.None? ==> out == "Not logged in.\n"
      ensures login.value.tokens.Some? && login.value.tokens.value.saved.Some? ==>
        var info := formatInfo(login.value.tokens.value.saved.value);
        out == (if info == "" then "Token exists but could not be parsed. Try logging in again.\n" else info + "\n")
    {
      var ts := login.value.tokens;
      if ts.None? {
        return "Not logged in.\n";
      }
      var present := ts.value.Exists();
      if !present {
        return "Not logged in.\n";
      }
      var info := formatInfo(ts.value.saved.value);
      if info == "" {
        out := "Token exists but could not be parsed. Try logging in again.\n";
      } else {
        out := info + "\n";
      }
    }
  }
}
