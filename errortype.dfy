/** Recovering the type a GraphQL validation error is about from its message:
    the four message patterns of `extractTypeFromErrorMsg` and of the schema
    hint presenter, written as matchers over the text. */
module ErrorType {
  import opened Json
  import opened Text

  /** What group 1 of a pattern may contain: `[^"]+` or `[^.]+`. */
  datatype CaptureClass = NoQuote | NoDot

  /** A pattern `lead [^"]+ mid (group) tail`. With `NoQuote` the group is
      `([^"]+)` followed by the literal `tail`; with `NoDot` it is `([^.]+)`
      followed by `\.[^"]+"` and `tail` is unused. */
  datatype Pattern = Pattern(lead: string, mid: string, capture: CaptureClass, tail: string)

  /** `Cannot query field "[^"]+" on type "([^"]+)"` */
  const OutputField := Pattern("Cannot query field \"", "\" on type \"", NoQuote, "\"")
  /** `Field "[^"]+" is not defined by type "([^"]+)"` */
  const InputField := Pattern("Field \"", "\" is not defined by type \"", NoQuote, "\"")
  /** `Unknown argument "[^"]+" on field "([^.]+)\.[^"]+"` */
  const UnknownArg := Pattern("Unknown argument \"", "\" on field \"", NoDot, "")
  /** `Field "[^"]+" of type "([^"]+)" must have a selection of subfields` */
  const NeedsSubfield := Pattern("Field \"", "\" of type \"", NoQuote, "\" must have a selection of subfields")

  /** The cut set of `strings.Trim(raw, "[]!")`. */
  const WrapperChars: set<char> := {'[', ']', '!'}

  /** The shape every pattern above has: the literal after a `[^"]+` run opens
      with the quote that ends the run. */
  predicate WellFormedPattern(p: Pattern)
  {
    p.lead != [] && p.mid != [] && p.mid[0] == '"'
    && (p.capture.NoQuote? ==> p.tail != [] && p.tail[0] == '"')
  }

  lemma PatternsWellFormed()
    ensures WellFormedPattern(OutputField) && WellFormedPattern(InputField)
    ensures WellFormedPattern(UnknownArg) && WellFormedPattern(NeedsSubfield)
  {
  }

  /** No character of `s[i..j]` is `c`. */
  predicate Free(s: string, i: int, j: int, c: char)
    requires 0 <= i <= j <= |s|
  {
    forall m :: i <= m < j ==> s[m] != c
  }

  /** The end of the longest run from `i` without `stop`. */
  function RunEnd(s: string, i: nat, stop: char): (e: nat)
    requires i <= |s|
    ensures i <= e <= |s|
    ensures Free(s, i, e, stop)
    ensures e < |s| ==> s[e] == stop
    decreases |s| - i
  {
    if i == |s| || s[i] == stop then i else RunEnd(s, i + 1, stop)
  }

  /** A stop character after a run without it ends the run there. */
  lemma {:induction false} RunEndAt(s: string, i: nat, k: nat, stop: char)
    requires i <= k < |s| && Free(s, i, k, stop) && s[k] == stop
    ensures RunEnd(s, i, stop) == k
    decreases k - i
  {
    if i < k {
      RunEndAt(s, i + 1, k, stop);
    }
  }

  /** The match starting at `i`, if any, and its group 1. Each `[^"]+` can only
      end at the next quote and `[^.]+` only at the next dot, so there is at
      most one match per start. */
  function MatchAt(p: Pattern, s: string, i: nat): (r: Option<string>)
    requires i <= |s|
  {
    if !OccursAt(s, p.lead, i) then None else MatchAfterLead(p, s, i + |p.lead|)
  }

  /** The rest of a match after its lead: the `[^"]+` run ending at the next
      quote, then `mid` and the group. */
  function MatchAfterLead(p: Pattern, s: string, j: nat): (r: Option<string>)
    requires j <= |s|
  {
    var k := RunEnd(s, j, '"');
    if k == j || !OccursAt(s, p.mid, k) then None else GroupAt(p, s, k + |p.mid|)
  }

  /** Group 1 starting at `c`, and what must follow it. */
  function GroupAt(p: Pattern, s: string, c: nat): (r: Option<string>)
  {
    if c > |s| then None
    else
      match p.capture
      case NoQuote =>
        var e := RunEnd(s, c, '"');
        if e == c || !OccursAt(s, p.tail, e) then None else Some(s[c..e])
      case NoDot =>
        var e := RunEnd(s, c, '.');
        if e == c || e == |s| then None
        else
          var f := RunEnd(s, e + 1, '"');
          if f == e + 1 || f == |s| then None else Some(s[c..e])
  }

  /** The regular expression matches `s` from `i`, with its first run ending at
      `k` and group 1 being `s[k + |mid|..e]`. This is the language of the
      pattern, independent of how `MatchAt` searches for it. */
  ghost predicate MatchesAt(p: Pattern, s: string, i: nat, k: nat, e: nat)
  {
    OccursAt(s, p.lead, i) && i + |p.lead| < k <= |s| && Free(s, i + |p.lead|, k, '"')
    && OccursAt(s, p.mid, k)
    && k + |p.mid| < e <= |s|
    && match p.capture
       case NoQuote => Free(s, k + |p.mid|, e, '"') && OccursAt(s, p.tail, e)
       case NoDot =>
         Free(s, k + |p.mid|, e, '.') && e < |s| && s[e] == '.'
         && exists f :: e + 1 < f < |s| && s[f] == '"' && Free(s, e + 1, f, '"')
  }

  /** Every match of the pattern is the one `MatchAt` finds. */
  lemma MatchAtComplete(p: Pattern, s: string, i: nat, k: nat, e: nat)
    requires WellFormedPattern(p) && MatchesAt(p, s, i, k, e)
    ensures MatchAt(p, s, i) == Some(s[k + |p.mid|..e])
  {
    assert s[k] == p.mid[0];
    RunEndAt(s, i + |p.lead|, k, '"');
    MatchAtAfterLead(p, s, i);
    MatchAfterLeadAtGroup(p, s, i + |p.lead|, k);
    GroupAtComplete(p, s, i, k, e);
  }

  /** A match needs the lead, and is then what follows the lead. */
  lemma MatchAtNeedsLead(p: Pattern, s: string, i: nat)
    requires i <= |s| && MatchAt(p, s, i).Some?
    ensures OccursAt(s, p.lead, i) && MatchAfterLead(p, s, i + |p.lead|) == MatchAt(p, s, i)
  {
  }

  /** After the lead, `MatchAt` is `MatchAfterLead`. */
  lemma MatchAtAfterLead(p: Pattern, s: string, i: nat)
    requires OccursAt(s, p.lead, i)
    ensures MatchAt(p, s, i) == MatchAfterLead(p, s, i + |p.lead|)
  {
  }

  /** A match after the lead needs a non-empty run up to a quote and `mid`
      there, and is then the group after them. */
  lemma MatchAfterLeadNeedsMid(p: Pattern, s: string, j: nat) returns (k: nat)
    requires j <= |s| && MatchAfterLead(p, s, j).Some?
    ensures j < k <= |s| && Free(s, j, k, '"') && OccursAt(s, p.mid, k)
    ensures GroupAt(p, s, k + |p.mid|) == MatchAfterLead(p, s, j)
  {
    k := RunEnd(s, j, '"');
  }

  /** After the run and `mid`, `MatchAfterLead` is `GroupAt`. */
  lemma MatchAfterLeadAtGroup(p: Pattern, s: string, j: nat, k: nat)
    requires j < k <= |s| && RunEnd(s, j, '"') == k && OccursAt(s, p.mid, k)
    ensures MatchAfterLead(p, s, j) == GroupAt(p, s, k + |p.mid|)
  {
  }

  /** A match's group is the one `GroupAt` finds. */
  lemma GroupAtComplete(p: Pattern, s: string, i: nat, k: nat, e: nat)
    requires WellFormedPattern(p) && MatchesAt(p, s, i, k, e)
    ensures GroupAt(p, s, k + |p.mid|) == Some(s[k + |p.mid|..e])
  {
    var c := k + |p.mid|;
    match p.capture
    case NoQuote =>
      assert s[e] == p.tail[0];
      RunEndAt(s, c, e, '"');
    case NoDot =>
      RunEndAt(s, c, e, '.');
      var f :| e + 1 < f < |s| && s[f] == '"' && Free(s, e + 1, f, '"');
      RunEndAt(s, e + 1, f, '"');
  }

  /** What `MatchAt` finds is a match of the pattern. */
  lemma MatchAtSound(p: Pattern, s: string, i: nat)
    requires i <= |s| && MatchAt(p, s, i).Some?
    ensures exists k: nat, e: nat :: MatchesAt(p, s, i, k, e) && MatchAt(p, s, i) == Some(s[k + |p.mid|..e])
  {
    MatchAtNeedsLead(p, s, i);
    var k, e := MatchAfterLeadSound(p, s, i, i + |p.lead|);
  }

  /** The first run's end and the group's end of what `MatchAfterLead` finds
      after a lead at `i`. */
  lemma MatchAfterLeadSound(p: Pattern, s: string, i: nat, j: nat) returns (k: nat, e: nat)
    requires OccursAt(s, p.lead, i) && j == i + |p.lead|
    requires j <= |s| && MatchAfterLead(p, s, j).Some?
    ensures MatchesAt(p, s, i, k, e) && MatchAfterLead(p, s, j) == Some(s[k + |p.mid|..e])
  {
    k := MatchAfterLeadNeedsMid(p, s, j);
    e := GroupAtSound(p, s, i, k);
  }

  /** What `GroupAt` finds after a lead and a first run completes a match. */
  lemma GroupAtSound(p: Pattern, s: string, i: nat, k: nat) returns (e: nat)
    requires OccursAt(s, p.lead, i) && i + |p.lead| < k <= |s| && Free(s, i + |p.lead|, k, '"')
    requires OccursAt(s, p.mid, k) && GroupAt(p, s, k + |p.mid|).Some?
    ensures MatchesAt(p, s, i, k, e) && GroupAt(p, s, k + |p.mid|) == Some(s[k + |p.mid|..e])
  {
    var c := k + |p.mid|;
    match p.capture
    case NoQuote =>
      e := RunEnd(s, c, '"');
      assert e != c && OccursAt(s, p.tail, e);
    case NoDot =>
      e := RunEnd(s, c, '.');
      assert e != c && e < |s|;
      var f := RunEnd(s, e + 1, '"');
      assert f != e + 1 && f < |s| && s[f] == '"' && Free(s, e + 1, f, '"');
  }

  /** A match needs the lead's first character at its start. */
  lemma MatchStartsWithLead(p: Pattern, s: string, i: nat)
    requires WellFormedPattern(p) && i <= |s| && MatchAt(p, s, i).Some?
    ensures i < |s| && s[i] == p.lead[0]
  {
    assert s[i..i + |p.lead|][0] == p.lead[0];
  }

  /** The leftmost match from `i` on. */
  function FindFrom(p: Pattern, s: string, i: nat): (r: Option<string>)
    requires i <= |s|
    decreases |s| - i
  {
    match MatchAt(p, s, i)
    case Some(c) => Some(c)
    case None => if i == |s| then None else FindFrom(p, s, i + 1)
  }

  /** `re.FindStringSubmatch(s)` with `len(m) == 2`: group 1 of the leftmost match. */
  function FindSubmatch(p: Pattern, s: string): (r: Option<string>)
  {
    FindFrom(p, s, 0)
  }

  lemma {:induction false} FindFromLeftmost(p: Pattern, s: string, i: nat)
    requires i <= |s|
    ensures FindFrom(p, s, i).Some? ==>
      exists j :: i <= j <= |s| && MatchAt(p, s, j) == FindFrom(p, s, i)
        && forall m :: i <= m < j ==> MatchAt(p, s, m).None?
    ensures FindFrom(p, s, i).None? <==> forall j :: i <= j <= |s| ==> MatchAt(p, s, j).None?
    decreases |s| - i
  {
    if FindFrom(p, s, i).Some? {
      var j := FindFromFirst(p, s, i);
    }
    FindFromNone(p, s, i);
  }

  /** Without a match at `i`, the search goes on from the next position. */
  lemma FindFromStep(p: Pattern, s: string, i: nat)
    requires i <= |s| && MatchAt(p, s, i).None?
    ensures i == |s| ==> FindFrom(p, s, i).None?
    ensures i < |s| ==> FindFrom(p, s, i) == FindFrom(p, s, i + 1)
  {
  }

  /** Where the search's result starts: a match with none before it. */
  lemma {:induction false} FindFromFirst(p: Pattern, s: string, i: nat) returns (j: nat)
    requires i <= |s| && FindFrom(p, s, i).Some?
    ensures i <= j <= |s| && MatchAt(p, s, j) == FindFrom(p, s, i)
    ensures forall m :: i <= m < j ==> MatchAt(p, s, m).None?
    decreases |s| - i
  {
    if MatchAt(p, s, i).Some? {
      j := i;
    } else {
      FindFromStep(p, s, i);
      j := FindFromFirst(p, s, i + 1);
    }
  }

  /** The search finds nothing exactly when no position holds a match. */
  lemma {:induction false} FindFromNone(p: Pattern, s: string, i: nat)
    requires i <= |s|
    ensures FindFrom(p, s, i).None? <==> forall j :: i <= j <= |s| ==> MatchAt(p, s, j).None?
    decreases |s| - i
  {
    if MatchAt(p, s, i).None? {
      FindFromStep(p, s, i);
      if i < |s| {
        FindFromNone(p, s, i + 1);
      }
    }
  }

  /** The search finds the match with the leftmost start, and finds nothing
      exactly when there is no match anywhere. */
  lemma FindLeftmost(p: Pattern, s: string)
    ensures FindSubmatch(p, s).Some? ==>
      exists j :: 0 <= j <= |s| && MatchAt(p, s, j) == FindSubmatch(p, s)
        && forall m :: 0 <= m < j ==> MatchAt(p, s, m).None?
    ensures FindSubmatch(p, s).None? <==> forall j :: 0 <= j <= |s| ==> MatchAt(p, s, j).None?
  {
    FindFromLeftmost(p, s, 0);
  }

  /** A text in which the lead's first character occurs at most at the start,
      and no match begins there, has no match. */
  lemma NoMatchWithoutLead(p: Pattern, s: string)
    requires WellFormedPattern(p)
    requires forall j :: 0 < j < |s| ==> s[j] != p.lead[0]
    requires |s| == 0 || s[0] != p.lead[0] || MatchAt(p, s, 0).None?
    ensures FindSubmatch(p, s).None?
  {
    forall j | 0 <= j <= |s| ensures MatchAt(p, s, j).None? {
      if MatchAt(p, s, j).Some? { MatchStartsWithLead(p, s, j); }
    }
    FindLeftmost(p, s);
  }

  /** The type a validation message is about, as the presenter's `switch`
      decides it: the first pattern that matches wins, and the last one has
      list and non-null markers trimmed; no match gives "". */
  function ReferencedType(msg: string): (r: string)
    ensures r != "" ==> FindSubmatch(OutputField, msg).Some? || FindSubmatch(InputField, msg).Some?
                        || FindSubmatch(UnknownArg, msg).Some? || FindSubmatch(NeedsSubfield, msg).Some?
  {
    match FindSubmatch(OutputField, msg)
    case Some(t) => t
    case None =>
      match FindSubmatch(InputField, msg)
      case Some(t) => t
      case None =>
        match FindSubmatch(UnknownArg, msg)
        case Some(t) => t
        case None =>
          match FindSubmatch(NeedsSubfield, msg)
          case Some(raw) => Trim(raw, WrapperChars)
          case None => ""
  }

  /** Group 1 of the first pattern of `ps` that matches. */
  function FirstMatch(ps: seq<Pattern>, msg: string): Option<string>
  {
    if |ps| == 0 then None
    else match FindSubmatch(ps[0], msg)
      case Some(t) => Some(t)
      case None => FirstMatch(ps[1..], msg)
  }

  /** The presenter's switch, read as a first match over the first three
      patterns followed by the trimmed fourth. */
  lemma ReferencedTypeAsFirstMatch(msg: string)
    ensures ReferencedType(msg) == match FirstMatch([OutputField, InputField, UnknownArg], msg)
      case Some(t) => t
      case None => match FindSubmatch(NeedsSubfield, msg)
        case Some(raw) => Trim(raw, WrapperChars)
        case None => ""
  {
    var ps := [OutputField, InputField, UnknownArg];
    assert ps[1..] == [InputField, UnknownArg];
    assert ps[1..][1..] == [UnknownArg];
    assert ps[1..][1..][1..] == [];
    assert FirstMatch([UnknownArg], msg) == FindSubmatch(UnknownArg, msg);
    assert FirstMatch([InputField, UnknownArg], msg)
      == if FindSubmatch(InputField, msg).Some? then FindSubmatch(InputField, msg) else FindSubmatch(UnknownArg, msg);
  }

  /** `extractTypeFromErrorMsg`: the first three patterns in a loop, then the
      trimmed fourth. It finds the same type as the presenter for every message. */
  method ExtractTypeFromErrorMsg(msg: string) returns (typeName: string)
    ensures typeName == ReferencedType(msg)
  {
    ReferencedTypeAsFirstMatch(msg);
    var patterns := [OutputField, InputField, UnknownArg];
    var i := 0;
    while i < |patterns|
      invariant 0 <= i <= |patterns|
      invariant FirstMatch(patterns, msg) == FirstMatch(patterns[i..], msg)
    {
      var m := FindSubmatch(patterns[i], msg);
      if m.Some? {
        return m.value;
      }
      assert patterns[i..][1..] == patterns[i + 1..];
      i := i + 1;
    }
    var m := FindSubmatch(NeedsSubfield, msg);
    if m.Some? {
      return Trim(m.value, WrapperChars);
    }
    return "";
  }

  /** The trimmed result of the last pattern neither starts nor ends with `[`,
      `]` or `!`. */
  lemma NeedsSubfieldTrimmed(msg: string)
    requires FindSubmatch(OutputField, msg).None? && FindSubmatch(InputField, msg).None?
    requires FindSubmatch(UnknownArg, msg).None? && FindSubmatch(NeedsSubfield, msg).Some?
    ensures var r := ReferencedType(msg);
      r == [] || (r[0] !in WrapperChars && r[|r| - 1] !in WrapperChars)
  {
    var l := TrimLeft(FindSubmatch(NeedsSubfield, msg).value, WrapperChars);
    var r := TrimRight(l, WrapperChars);
    assert ReferencedType(msg) == r;
    if r != [] { assert r[0] == l[0]; }
  }

  /** A name inside double quotes in a message: non-empty, without a quote. */
  predicate QuotedName(x: string)
  {
    x != [] && forall m :: 0 <= m < |x| ==> x[m] != '"'
  }

  /** A message made of the pattern's literals around the names `x` and `y`,
      followed by any text, yields `y`. */
  lemma QuotedPatternRoundTrip(p: Pattern, x: string, y: string, rest: string)
    requires WellFormedPattern(p) && p.capture.NoQuote?
    requires QuotedName(x) && QuotedName(y)
    ensures FindSubmatch(p, p.lead + x + p.mid + y + p.tail + rest) == Some(y)
  {
    var s := p.lead + x + p.mid + y + p.tail + rest;
    var k := |p.lead| + |x|;
    var e := k + |p.mid| + |y|;
    assert s[..|p.lead|] == p.lead;
    assert s[|p.lead|..k] == x;
    assert s[k..k + |p.mid|] == p.mid;
    assert s[k + |p.mid|..e] == y;
    assert s[e..e + |p.tail|] == p.tail;
    assert MatchesAt(p, s, 0, k, e);
    MatchAtComplete(p, s, 0, k, e);
  }

  /** The same for a `([^.]+)\.[^"]+"` group: a dot-free `y`, a dot, a name
      `z` and a quote, followed by any text, yield `y`. */
  lemma DottedPatternRoundTrip(p: Pattern, x: string, y: string, z: string, rest: string)
    requires WellFormedPattern(p) && p.capture.NoDot?
    requires QuotedName(x) && QuotedName(z)
    requires y != [] && forall m :: 0 <= m < |y| ==> y[m] != '.'
    ensures FindSubmatch(p, p.lead + x + p.mid + y + "." + z + "\"" + rest) == Some(y)
  {
    var s := p.lead + x + p.mid + y + "." + z + "\"" + rest;
    var k := |p.lead| + |x|;
    var e := k + |p.mid| + |y|;
    assert s[..|p.lead|] == p.lead;
    assert s[|p.lead|..k] == x;
    assert s[k..k + |p.mid|] == p.mid;
    assert s[k + |p.mid|..e] == y;
    assert s[e] == '.';
    assert s[e + 1..e + 1 + |z|] == z;
    assert s[e + 1 + |z|] == '"';
    assert MatchesAt(p, s, 0, k, e);
    MatchAtComplete(p, s, 0, k, e);
  }

  /** For a selection of an unknown output field, the type recovered is the one
      the message names. */
  lemma CannotQueryFieldRoundTrip(field: string, typeName: string, rest: string)
    requires QuotedName(field) && QuotedName(typeName)
    ensures ReferencedType("Cannot query field \"" + field + "\" on type \"" + typeName + "\"" + rest) == typeName
  {
    QuotedPatternRoundTrip(OutputField, field, typeName, rest);
  }

  /** Each pattern on its own recovers the name it captures: the input type of
      an undefined input field, the part of a field coordinate before its dot,
      and the type notation of a field that needs a selection. */
  lemma PatternRoundTrips(x: string, y: string, z: string, rest: string)
    requires QuotedName(x) && QuotedName(y) && QuotedName(z)
    requires forall m :: 0 <= m < |y| ==> y[m] != '.'
    ensures FindSubmatch(InputField, "Field \"" + x + "\" is not defined by type \"" + y + "\"" + rest) == Some(y)
    ensures FindSubmatch(UnknownArg, "Unknown argument \"" + x + "\" on field \"" + y + "." + z + "\"" + rest) == Some(y)
    ensures FindSubmatch(NeedsSubfield, "Field \"" + x + "\" of type \"" + y
                         + "\" must have a selection of subfields" + rest) == Some(y)
  {
    QuotedPatternRoundTrip(InputField, x, y, rest);
    DottedPatternRoundTrip(UnknownArg, x, y, z, rest);
    QuotedPatternRoundTrip(NeedsSubfield, x, y, rest);
  }
}
