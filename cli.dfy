/** cli.go: where a command's operation text and variables come from, the
    introspection query that lists a root type's operations, the extraction
    of its field list, and the case-insensitive filter over it. */
module Cli {
  import opened Json
  import opened Text

  // ---------------------------------------------------------------------
  // Operation and variables sources (getQueryString, getMutationString, getVariables)
  // ---------------------------------------------------------------------

  /** Reading a file: its contents, or the error text of the failed read. */
  type ReadFile = string -> Result<string, string>

  datatype OperationKind = QueryKind | MutationKind

  /** The word used in the messages, and in the flag names. */
  function KindWord(k: OperationKind): string
  {
    match k
    case QueryKind => "query"
    case MutationKind => "mutation"
  }

  /** The error when no source gives an operation. */
  function MissingOperationText(k: OperationKind): string
  {
    KindWord(k) + " is required (use --" + KindWord(k) + ", --" + KindWord(k) + "-file, or provide as argument)"
  }

  /** `getQueryString` / `getMutationString`: the `--query-file` contents,
      else `--query`, else the first positional argument, else an error. */
  function OperationText(k: OperationKind, readFile: ReadFile, fileFlag: string, textFlag: string, args: seq<string>)
    : (r: Result<string, string>)
    ensures fileFlag != "" ==>
      r == (match readFile(fileFlag)
            case Success(data) => Success(data)
            case Failure(e) => Failure("failed to read " + KindWord(k) + " file: " + e))
    ensures fileFlag == "" && textFlag != "" ==> r == Success(textFlag)
    ensures fileFlag == "" && textFlag == "" && |args| > 0 ==> r == Success(args[0])
    ensures fileFlag == "" && textFlag == "" && |args| == 0 ==> r == Failure(MissingOperationText(k))
  {
    if fileFlag != "" then
      match readFile(fileFlag)
      case Success(data) => Success(data)
      case Failure(e) => Failure("failed to read " + KindWord(k) + " file: " + e)
    else if textFlag != "" then Success(textFlag)
    else if |args| > 0 then Success(args[0])
    else Failure(MissingOperationText(k))
  }

  /** A file flag decides alone: the inline text and the arguments play no part. */
  lemma FileFlagWins(k: OperationKind, readFile: ReadFile, fileFlag: string, t1: string, t2: string, a1: seq<string>, a2: seq<string>)
    requires fileFlag != ""
    ensures OperationText(k, readFile, fileFlag, t1, a1) == OperationText(k, readFile, fileFlag, t2, a2)
  {
  }

  /** Without a file, an inline text is preferred to any argument and no file is read. */
  lemma InlineTextBeatsArguments(k: OperationKind, r1: ReadFile, r2: ReadFile, textFlag: string, a1: seq<string>, a2: seq<string>)
    requires textFlag != ""
    ensures OperationText(k, r1, "", textFlag, a1) == OperationText(k, r2, "", textFlag, a2) == Success(textFlag)
  {
  }

  /** Every successful text comes from one of the three sources. */
  lemma OperationTextSource(k: OperationKind, readFile: ReadFile, fileFlag: string, textFlag: string, args: seq<string>)
    requires OperationText(k, readFile, fileFlag, textFlag, args).Success?
    ensures var t := OperationText(k, readFile, fileFlag, textFlag, args).value;
      (fileFlag != "" && readFile(fileFlag) == Success(t)) || t == textFlag || (|args| > 0 && t == args[0])
  {
  }

  /** `json.Unmarshal` into a `map[string]interface{}` variable: `null`
      leaves it nil, an object fills it, anything else is an error. */
  function DecodeVariables(decode: string -> Option<Json>, raw: string): (r: Option<Option<Object>>)
  {
    match decode(raw)
    case Some(JNull) => Some(None)
    case Some(JObj(m)) => Some(Some(m))
    case _ => None
  }

  /** `getVariables`: from `--variables-file`, else from `--variables`, else nil. */
  function Variables(readFile: ReadFile, decode: string -> Option<Json>, fileFlag: string, textFlag: string)
    : (r: Result<Option<Object>, string>)
    ensures fileFlag == "" && textFlag == "" ==> r == Success(None)
    ensures fileFlag != "" && readFile(fileFlag).Failure? ==> r == Failure("failed to read variables file: " + readFile(fileFlag).error)
    ensures r.Success? && r.value.Some? ==>
      (fileFlag != "" && readFile(fileFlag).Success? && decode(readFile(fileFlag).value) == Some(JObj(r.value.value)))
      || (fileFlag == "" && decode(textFlag) == Some(JObj(r.value.value)))
  {
    if fileFlag != "" then
      match readFile(fileFlag)
      case Failure(e) => Failure("failed to read variables file: " + e)
      case Success(data) =>
        match DecodeVariables(decode, data)
        case None => Failure("invalid variables JSON in file")
        case Some(v) => Success(v)
    else if textFlag != "" then
      match DecodeVariables(decode, textFlag)
      case None => Failure("invalid variables JSON")
      case Some(v) => Success(v)
    else Success(None)
  }

  /** A variables file, when named, is the only source consulted. */
  lemma VariablesFileWins(readFile: ReadFile, decode: string -> Option<Json>, fileFlag: string, t1: string, t2: string)
    requires fileFlag != ""
    ensures Variables(readFile, decode, fileFlag, t1) == Variables(readFile, decode, fileFlag, t2)
  {
  }

  // ---------------------------------------------------------------------
  // buildOperationListQuery
  // ---------------------------------------------------------------------

  const ListQueryOpen: string := "\n\t{\n\t\t__type(name: \""
  const ListQueryFields: string := "\") {\n\t\t\tfields {\n\t\t\t\tname"
  const DescriptionLine: string := "\n\t\t\t\tdescription"
  const ArgsBlock: string :=
    "\n\t\t\t\targs {\n\t\t\t\t\tname\n\t\t\t\t\ttype {\n\t\t\t\t\t\tkind\n\t\t\t\t\t\tname"
    + "\n\t\t\t\t\t\tofType {\n\t\t\t\t\t\t\tkind\n\t\t\t\t\t\t\tname"
    + "\n\t\t\t\t\t\t\tofType {\n\t\t\t\t\t\t\t\tkind\n\t\t\t\t\t\t\t\tname"
    + "\n\t\t\t\t\t\t\t\tofType {\n\t\t\t\t\t\t\t\t\tkind\n\t\t\t\t\t\t\t\t\tname"
    + "\n\t\t\t\t\t\t\t\t}\n\t\t\t\t\t\t\t}\n\t\t\t\t\t\t}\n\t\t\t\t\t}\n\t\t\t\t}"
  const ListQueryClose: string := "\n\t\t\t}\n\t\t}\n\t}"

  /** The query text for a root type and the two switches. */
  function OperationListQuery(typeName: string, includeDesc: bool, includeArgs: bool): string
  {
    var head := ListQueryOpen + typeName + ListQueryFields;
    var withDesc := if includeDesc then head + DescriptionLine else head;
    var withArgs := if includeArgs then withDesc + ArgsBlock else withDesc;
    withArgs + ListQueryClose
  }

  /** `buildOperationListQuery`: the query grows piece by piece. */
  method BuildOperationListQuery(typeName: string, includeDesc: bool, includeArgs: bool) returns (query: string)
    ensures query == OperationListQuery(typeName, includeDesc, includeArgs)
  {
    query := ListQueryOpen + typeName + ListQueryFields;
    if includeDesc {
      query := query + DescriptionLine;
    }
    if includeArgs {
      query := query + ArgsBlock;
    }
    query := query + ListQueryClose;
  }

  /** The type name sits inside `__type(name: "...")`, right at the start. */
  lemma ListQueryNamesType(typeName: string, includeDesc: bool, includeArgs: bool)
    ensures HasPrefix(OperationListQuery(typeName, includeDesc, includeArgs), ListQueryOpen + typeName + ListQueryFields)
  {
    var head := ListQueryOpen + typeName + ListQueryFields;
    var q := OperationListQuery(typeName, includeDesc, includeArgs);
    var d := if includeDesc then DescriptionLine else "";
    var a := if includeArgs then ArgsBlock else "";
    assert q == head + (d + a + ListQueryClose);
    assert q[..|head|] == head;
  }

  /** The description line is there when asked for, and so is the argument block. */
  lemma ListQueryHasRequestedParts(typeName: string, includeDesc: bool, includeArgs: bool)
    ensures includeDesc ==> Contains(OperationListQuery(typeName, includeDesc, includeArgs), DescriptionLine)
    ensures includeArgs ==> Contains(OperationListQuery(typeName, includeDesc, includeArgs), ArgsBlock)
  {
    var head := ListQueryOpen + typeName + ListQueryFields;
    var q := OperationListQuery(typeName, includeDesc, includeArgs);
    var withDesc := if includeDesc then head + DescriptionLine else head;
    var a := if includeArgs then ArgsBlock else "";
    assert q == withDesc + a + ListQueryClose;
    if includeDesc {
      ContainsInside(head, DescriptionLine, a + ListQueryClose);
      assert head + DescriptionLine + (a + ListQueryClose) == q;
    }
    if includeArgs {
      ContainsInside(withDesc, ArgsBlock, ListQueryClose);
    }
  }

  /** Each switch adds exactly its part and nothing else differs, so the
      switches can be read back from the length. */
  lemma ListQuerySwitchesDetermined(typeName: string, d1: bool, a1: bool, d2: bool, a2: bool)
    requires |OperationListQuery(typeName, d1, a1)| == |OperationListQuery(typeName, d2, a2)|
    ensures d1 == d2 && a1 == a2
  {
    ListQueryLength(typeName, d1, a1);
    ListQueryLength(typeName, d2, a2);
  }

  lemma ListQueryLength(typeName: string, includeDesc: bool, includeArgs: bool)
    ensures |OperationListQuery(typeName, includeDesc, includeArgs)|
         == |typeName| + 57 + (if includeDesc then 16 else 0) + (if includeArgs then 221 else 0)
  {
    assert |ListQueryOpen| == 20 && |ListQueryFields| == 25 && |ListQueryClose| == 12;
    assert |DescriptionLine| == 16 && |ArgsBlock| == 221;
  }

  // ---------------------------------------------------------------------
  // extractOperationFields
  // ---------------------------------------------------------------------

  datatype ExtractError = MissingDataField | MissingTypeField | MissingFieldsArray

  function ExtractErrorText(e: ExtractError): string
  {
    match e
    case MissingDataField => "invalid response structure: missing 'data' field"
    case MissingTypeField => "invalid response structure: missing '__type' field"
    case MissingFieldsArray => "invalid response structure: missing 'fields' array"
  }

  /** The three errors read differently. */
  lemma ExtractErrorsDistinct(e1: ExtractError, e2: ExtractError)
    requires e1 != e2
    ensures ExtractErrorText(e1) != ExtractErrorText(e2)
  {
    var t1, t2 := ExtractErrorText(e1), ExtractErrorText(e2);
    assert t1[37] != t2[37] || |t1| != |t2|;
  }

  /** `extractOperationFields`: `data.__type.fields`, or the first step that is missing. */
  function ExtractOperationFields(result: Object): (r: Result<seq<Json>, ExtractError>)
    ensures r.Success? <==>
      ObjAt(result, "data").Some? && ObjAt(ObjAt(result, "data").value, "__type").Some?
      && ArrAt(ObjAt(ObjAt(result, "data").value, "__type").value, "fields").Some?
    ensures r.Success? ==> r.value == result["data"].fields["__type"].fields["fields"].items
    ensures r == Failure(MissingDataField) <==> ObjAt(result, "data").None?
    ensures r == Failure(MissingTypeField) <==>
      ObjAt(result, "data").Some? && ObjAt(ObjAt(result, "data").value, "__type").None?
    ensures r == Failure(MissingFieldsArray) <==>
      ObjAt(result, "data").Some? && ObjAt(ObjAt(result, "data").value, "__type").Some?
      && ArrAt(ObjAt(ObjAt(result, "data").value, "__type").value, "fields").None?
  {
    match ObjAt(result, "data")
    case None => Failure(MissingDataField)
    case Some(data) =>
      match ObjAt(data, "__type")
      case None => Failure(MissingTypeField)
      case Some(typeInfo) =>
        match ArrAt(typeInfo, "fields")
        case None => Failure(MissingFieldsArray)
        case Some(fields) => Success(fields)
  }

  // ---------------------------------------------------------------------
  // filterOperations
  // ---------------------------------------------------------------------

  /** An entry the filter keeps: a map whose string `name` contains the
      filter, ignoring ASCII case. */
  predicate Selected(op: Json, filter: string)
  {
    op.JObj? && "name" in op.fields && op.fields["name"].JStr?
    && Contains(ToLower(op.fields["name"].s), ToLower(filter))
  }

  /** The positions of the selected entries, ascending. */
  function SelectedIndices(ops: seq<Json>, filter: string): (idx: seq<nat>)
    ensures forall k :: 0 <= k < |idx| ==> idx[k] < |ops| && Selected(ops[idx[k]], filter)
    ensures forall k, l :: 0 <= k < l < |idx| ==> idx[k] < idx[l]
    ensures forall i :: 0 <= i < |ops| && Selected(ops[i], filter) ==> i in idx
    decreases |ops|
  {
    if |ops| == 0 then []
    else
      var prev := SelectedIndices(ops[..|ops| - 1], filter);
      assert forall i :: 0 <= i < |ops| - 1 ==> ops[..|ops| - 1][i] == ops[i];
      if Selected(ops[|ops| - 1], filter) then prev + [|ops| - 1] else prev
  }

  /** The entries at those positions. */
  function Pick(ops: seq<Json>, idx: seq<nat>): (r: seq<Json>)
    requires forall k :: 0 <= k < |idx| ==> idx[k] < |ops|
    ensures |r| == |idx|
    ensures forall k :: 0 <= k < |idx| ==> r[k] == ops[idx[k]]
  {
    seq(|idx|, k requires 0 <= k < |idx| => ops[idx[k]])
  }

  /** `filterOperations`: the selected entries in input order. */
  method FilterOperations(operations: seq<Json>, filter: string) returns (filtered: seq<Json>)
    ensures filtered == Pick(operations, SelectedIndices(operations, filter))
  {
    filtered := [];
    var i := 0;
    while i < |operations|
      invariant 0 <= i <= |operations|
      invariant filtered == Pick(operations, SelectedIndices(operations[..i], filter))
    {
      var op := operations[i];
      assert operations[..i + 1][..i] == operations[..i];
      if op.JObj? && "name" in op.fields && op.fields["name"].JStr? {
        if Contains(ToLower(op.fields["name"].s), ToLower(filter)) {
          filtered := filtered + [op];
        }
      }
      i := i + 1;
    }
    assert operations[..i] == operations;
  }

  /** The filter keeps exactly the selected entries, as a subsequence of
      the input: positions ascend, so order is kept and the result is never
      longer than the input. */
  lemma FilterIsSelectedSubsequence(ops: seq<Json>, filter: string)
    ensures var idx := SelectedIndices(ops, filter);
      var r := Pick(ops, idx);
      |r| <= |ops|
      && (forall x :: x in r ==> x in ops && Selected(x, filter))
      && (forall i :: 0 <= i < |ops| && Selected(ops[i], filter) ==> ops[i] in r)
  {
    var idx := SelectedIndices(ops, filter);
    var r := Pick(ops, idx);
    AscendingBounded(idx, |ops|);
    forall i | 0 <= i < |ops| && Selected(ops[i], filter) ensures ops[i] in r {
      var k :| 0 <= k < |idx| && idx[k] == i;
      assert r[k] == ops[i];
    }
  }

  /** Ascending positions below `n` are at most `n` many. */
  lemma {:induction false} AscendingBounded(idx: seq<nat>, n: nat)
    requires forall k :: 0 <= k < |idx| ==> idx[k] < n
    requires forall k, l :: 0 <= k < l < |idx| ==> idx[k] < idx[l]
    ensures |idx| <= n
    decreases n
  {
    if |idx| > 0 {
      var init := idx[..|idx| - 1];
      assert forall k :: 0 <= k < |init| ==> init[k] < idx[|idx| - 1];
      AscendingBounded(init, idx[|idx| - 1]);
    }
  }

  /** An empty filter keeps every named map entry. */
  lemma EmptyFilterKeepsNamed(op: Json)
    requires op.JObj? && "name" in op.fields && op.fields["name"].JStr?
    ensures Selected(op, "")
  {
    assert HasPrefix(ToLower(op.fields["name"].s), ToLower(""));
  }
}
