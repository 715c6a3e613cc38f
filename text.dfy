/** The string operations of Go's `strings`, `fmt` and `sort` packages that the
    core relies on, restricted to ASCII where Go would do Unicode case mapping. */
module Text {

  /** The ASCII part of `unicode.ToLower`. */
  function LowerChar(c: char): char
  {
    if 'A' <= c <= 'Z' then (c as int + 32) as char else c
  }

  predicate IsUpperAscii(c: char) { 'A' <= c <= 'Z' }

  /** `strings.ToLower`, restricted to ASCII letters. */
  function ToLower(s: string): (r: string)
    ensures |r| == |s|
    ensures forall i :: 0 <= i < |s| ==> r[i] == LowerChar(s[i])
    ensures forall i :: 0 <= i < |r| ==> !IsUpperAscii(r[i])
  {
    seq(|s|, i requires 0 <= i < |s| => LowerChar(s[i]))
  }

  /** `strings.HasPrefix`. */
  predicate HasPrefix(s: string, p: string)
  {
    |p| <= |s| && s[..|p|] == p
  }

  /** `strings.Contains`: `w` occurs somewhere in `s`. */
  predicate Contains(s: string, w: string)
    decreases |s|
  {
    HasPrefix(s, w) || (|s| > 0 && Contains(s[1..], w))
  }

  /** `w` occurs in `s` starting at index `i`. */
  predicate OccursAt(s: string, w: string, i: int)
  {
    0 <= i <= |s| - |w| && s[i..i + |w|] == w
  }

  /** `Contains` said with an occurrence index. */
  lemma {:induction false} ContainsIffOccurrence(s: string, w: string)
    ensures Contains(s, w) <==> exists i :: OccursAt(s, w, i)
    decreases |s|
  {
    if HasPrefix(s, w) {
      assert OccursAt(s, w, 0);
    } else if |s| > 0 {
      ContainsIffOccurrence(s[1..], w);
      if Contains(s[1..], w) {
        var i :| OccursAt(s[1..], w, i);
        assert s[i + 1..i + 1 + |w|] == s[1..][i..i + |w|];
        assert OccursAt(s, w, i + 1);
      } else {
        forall i | OccursAt(s, w, i)
          ensures false
        {
          if i > 0 {
            var t := s[1..];
            assert i - 1 + |w| <= |t|;
            assert t[i - 1..i - 1 + |w|] == s[i..i + |w|];
            assert OccursAt(t, w, i - 1);
          }
        }
      }
    } else {
      assert forall i :: !OccursAt(s, w, i);
    }
  }

  /** `strings.Join`. */
  function Join(parts: seq<string>, sep: string): string
    decreases |parts|
  {
    if |parts| == 0 then ""
    else if |parts| == 1 then parts[0]
    else parts[0] + sep + Join(parts[1..], sep)
  }

  /** Concatenation of all parts, as a `strings.Builder` collects them. */
  function Concat(parts: seq<string>): string
    decreases |parts|
  {
    if |parts| == 0 then "" else parts[0] + Concat(parts[1..])
  }

  /** A concatenation is empty exactly when every part is. */
  lemma {:induction false} ConcatEmpty(parts: seq<string>)
    ensures Concat(parts) == "" <==> forall k :: 0 <= k < |parts| ==> parts[k] == ""
    decreases |parts|
  {
    if |parts| > 0 {
      ConcatEmpty(parts[1..]);
      assert forall k :: 1 <= k < |parts| ==> parts[k] == parts[1..][k - 1];
    }
  }

  lemma {:induction false} ConcatSplit(x: seq<string>, y: seq<string>)
    ensures Concat(x + y) == Concat(x) + Concat(y)
    decreases |x|
  {
    if |x| == 0 {
      assert x + y == y;
    } else {
      assert (x + y)[1..] == x[1..] + y;
      ConcatSplit(x[1..], y);
    }
  }

  /** A text contains itself. */
  lemma ContainsSelf(s: string)
    ensures Contains(s, s)
  {
    ContainsInside("", s, "");
    assert "" + s + "" == s;
  }

  lemma {:induction false} ConcatAppend(parts: seq<string>, x: string)
    ensures Concat(parts + [x]) == Concat(parts) + x
    decreases |parts|
  {
    if |parts| == 0 {
      assert parts + [x] == [x];
    } else {
      assert (parts + [x])[1..] == parts[1..] + [x];
      ConcatAppend(parts[1..], x);
    }
  }

  /** One more part of a list adds that part to the concatenation of the prefix. */
  lemma ConcatPrefixStep(parts: seq<string>, i: nat)
    requires i < |parts|
    ensures Concat(parts[..i + 1]) == Concat(parts[..i]) + parts[i]
  {
    assert parts[..i + 1] == parts[..i] + [parts[i]];
    ConcatAppend(parts[..i], parts[i]);
  }

  lemma {:induction false} JoinAppend(parts: seq<string>, x: string, sep: string)
    requires |parts| > 0
    ensures Join(parts + [x], sep) == Join(parts, sep) + sep + x
    decreases |parts|
  {
    if |parts| == 1 {
      assert (parts + [x])[1..] == [x];
    } else {
      assert (parts + [x])[1..] == parts[1..] + [x];
      JoinAppend(parts[1..], x, sep);
    }
  }

  /** `strings.Split(s, string(c))`: the pieces between occurrences of `c`.
      There is always at least one piece. */
  function Split(s: string, c: char): (r: seq<string>)
    ensures |r| >= 1
    ensures forall i :: 0 <= i < |r| ==> c !in r[i]
    decreases |s|
  {
    if |s| == 0 then [""]
    else if s[0] == c then [""] + Split(s[1..], c)
    else var rest := Split(s[1..], c); [[s[0]] + rest[0]] + rest[1..]
  }

  /** Joining the pieces of a split with the separator gives back the text. */
  lemma {:induction false} JoinSplit(s: string, c: char)
    ensures Join(Split(s, c), [c]) == s
    decreases |s|
  {
    if |s| > 0 {
      var rest := Split(s[1..], c);
      JoinSplit(s[1..], c);
      if s[0] == c {
        assert Split(s, c) == [""] + rest;
        assert ([""] + rest)[1..] == rest;
      } else {
        assert Split(s, c) == [[s[0]] + rest[0]] + rest[1..];
        JoinFirstExtended(rest, [s[0]], [c]);
        assert s == [s[0]] + s[1..];
      }
    }
  }

  /** Putting text in front of the first part puts it in front of the join. */
  lemma JoinFirstExtended(parts: seq<string>, x: string, sep: string)
    requires |parts| >= 1
    ensures Join([x + parts[0]] + parts[1..], sep) == x + Join(parts, sep)
  {
    var first := x + parts[0];
    if |parts| > 1 {
      assert ([first] + parts[1..])[1..] == parts[1..];
    }
  }

  /** A text without the separator splits into itself alone. */
  lemma {:induction false} SplitNoSeparator(s: string, c: char)
    requires c !in s
    ensures Split(s, c) == [s]
    decreases |s|
  {
    if |s| > 0 {
      assert c !in s[1..] by {
        forall k | 0 <= k < |s[1..]| ensures s[1..][k] != c { assert s[1..][k] == s[k + 1]; }
      }
      SplitNoSeparator(s[1..], c);
      assert s == [s[0]] + s[1..];
    }
  }

  /** `strings.TrimLeft(s, cutset)`: drops the longest prefix made of `cut`. */
  function TrimLeft(s: string, cut: set<char>): (r: string)
    ensures |r| <= |s| && r == s[|s| - |r|..]
    ensures forall k :: 0 <= k < |s| - |r| ==> s[k] in cut
    ensures r == [] || r[0] !in cut
    decreases |s|
  {
    if |s| > 0 && s[0] in cut then TrimLeft(s[1..], cut) else s
  }

  /** `strings.TrimRight(s, cutset)`: drops the longest suffix made of `cut`. */
  function TrimRight(s: string, cut: set<char>): (r: string)
    ensures |r| <= |s| && r == s[..|r|]
    ensures forall k :: |r| <= k < |s| ==> s[k] in cut
    ensures r == [] || r[|r| - 1] !in cut
    decreases |s|
  {
    if |s| > 0 && s[|s| - 1] in cut then TrimRight(s[..|s| - 1], cut) else s
  }

  /** `strings.Trim(s, cutset)`: the text between the longest prefix and the
      longest suffix made of `cut`. */
  function Trim(s: string, cut: set<char>): (r: string)
  {
    TrimRight(TrimLeft(s, cut), cut)
  }

  /** Trim removes exactly the surrounding characters of the cut set. */
  lemma TrimCharacterized(s: string, cut: set<char>)
    ensures var r := Trim(s, cut);
      exists i, j :: 0 <= i <= j <= |s| && r == s[i..j]
        && (forall k :: 0 <= k < i ==> s[k] in cut)
        && (forall k :: j <= k < |s| ==> s[k] in cut)
        && (r == [] || (r[0] !in cut && r[|r| - 1] !in cut))
  {
    var l := TrimLeft(s, cut);
    var r := TrimRight(l, cut);
    var i := |s| - |l|;
    var j := i + |r|;
    SliceOfSuffix(s, l, r, i, cut);
    assert 0 <= i <= j <= |s| && r == s[i..j]
      && (forall k :: 0 <= k < i ==> s[k] in cut)
      && (forall k :: j <= k < |s| ==> s[k] in cut)
      && (r == [] || (r[0] !in cut && r[|r| - 1] !in cut));
  }

  /** A prefix of a suffix is a slice of the whole, and what the prefix
      leaves of the suffix is what the slice leaves of the whole. */
  lemma SliceOfSuffix<T>(s: seq<T>, l: seq<T>, r: seq<T>, i: nat, cut: set<T>)
    requires i <= |s| && l == s[i..] && |r| <= |l| && r == l[..|r|]
    requires forall k :: |r| <= k < |l| ==> l[k] in cut
    ensures r == s[i..i + |r|]
    ensures forall k :: i + |r| <= k < |s| ==> s[k] in cut
    ensures |r| > 0 ==> r[0] == l[0]
  {
    forall k | i + |r| <= k < |s| ensures s[k] in cut {
      assert s[k] == l[k - i];
    }
  }

  /** Go's `<` on strings: byte-wise lexicographic order. */
  predicate LexLess(a: string, b: string)
    decreases |a|
  {
    if |a| == 0 then |b| > 0
    else if |b| == 0 then false
    else if a[0] != b[0] then a[0] < b[0]
    else LexLess(a[1..], b[1..])
  }

  lemma {:induction false} LexLessIrreflexive(a: string)
    ensures !LexLess(a, a)
    decreases |a|
  {
    if |a| > 0 { LexLessIrreflexive(a[1..]); }
  }

  lemma {:induction false} LexLessTransitive(a: string, b: string, c: string)
    requires LexLess(a, b) && LexLess(b, c)
    ensures LexLess(a, c)
    decreases |a|
  {
    if |a| > 0 && |b| > 0 && |c| > 0 && a[0] == b[0] && b[0] == c[0] {
      LexLessTransitive(a[1..], b[1..], c[1..]);
    }
  }

  lemma {:induction false} LexLessTotal(a: string, b: string)
    requires a != b
    ensures LexLess(a, b) || LexLess(b, a)
    decreases |a|
  {
    if |a| > 0 && |b| > 0 && a[0] == b[0] {
      assert a == [a[0]] + a[1..] && b == [b[0]] + b[1..];
      LexLessTotal(a[1..], b[1..]);
    }
  }

  lemma {:induction false} LexLessAsymmetric(a: string, b: string)
    requires LexLess(a, b)
    ensures !LexLess(b, a)
    decreases |a|
  {
    if |a| > 0 && |b| > 0 && a[0] == b[0] {
      LexLessAsymmetric(a[1..], b[1..]);
    }
  }

  function DigitChar(d: nat): char
    requires d < 10
  {
    "0123456789"[d]
  }

  lemma DigitCharValue(d: nat)
    requires d < 10
    ensures DigitChar(d) as int - '0' as int == d
  {
  }

  /** `fmt.Sprintf("%d", n)` for a natural number. */
  function NatToString(n: nat): (r: string)
    ensures |r| >= 1
    ensures forall k :: 0 <= k < |r| ==> '0' <= r[k] <= '9'
    decreases n
  {
    if n < 10 then [DigitChar(n)] else NatToString(n / 10) + [DigitChar(n % 10)]
  }

  /** Every character is a decimal digit. */
  predicate IsDigits(s: string)
  {
    forall k :: 0 <= k < |s| ==> '0' <= s[k] <= '9'
  }

  /** Reads back a string of decimal digits. */
  function DigitsValue(s: string): nat
    requires IsDigits(s)
    decreases |s|
  {
    if |s| == 0 then 0
    else 10 * DigitsValue(s[..|s| - 1]) + (s[|s| - 1] as int - '0' as int)
  }

  /** Decimal rendering round-trips, so distinct numbers render differently. */
  lemma {:induction false} NatToStringRoundTrip(n: nat)
    ensures DigitsValue(NatToString(n)) == n
    decreases n
  {
    if n >= 10 {
      var s, p, d := NatToString(n), NatToString(n / 10), n % 10;
      assert s == p + [DigitChar(d)];
      assert s[..|s| - 1] == p && s[|s| - 1] == DigitChar(d);
      DigitCharValue(d);
      NatToStringRoundTrip(n / 10);
      assert DigitsValue(s) == 10 * DigitsValue(p) + d;
    } else {
      DigitCharValue(n);
      assert NatToString(n) == [DigitChar(n)];
    }
  }

  /** `fmt.Sprintf("%d", i)` for any integer. */
  function IntToString(i: int): string
  {
    if i < 0 then "-" + NatToString(-i) else NatToString(i)
  }

  /** The digits of a rendered integer read back to its magnitude, after a
      minus sign when it is negative. */
  lemma IntToStringDigits(i: int)
    ensures i >= 0 ==> IsDigits(IntToString(i)) && DigitsValue(IntToString(i)) == i
    ensures i < 0 ==> |IntToString(i)| >= 2 && IntToString(i)[0] == '-'
    ensures i < 0 ==> IsDigits(IntToString(i)[1..]) && DigitsValue(IntToString(i)[1..]) == -i
  {
    if i < 0 {
      assert IntToString(i)[1..] == NatToString(-i);
      NatToStringRoundTrip(-i);
    } else {
      NatToStringRoundTrip(i);
    }
  }

  /** The number of bytes UTF-8 spends on one character. */
  function Utf8Width(c: char): (w: nat)
    ensures 1 <= w <= 4
    ensures w == 1 <==> c as int < 0x80
  {
    if c as int < 0x80 then 1
    else if c as int < 0x800 then 2
    else if c as int < 0x1_0000 then 3
    else 4
  }

  /** `len(s)` of a Go string: its length in UTF-8 bytes. */
  function Utf8Length(s: string): (n: nat)
    ensures n >= |s|
    decreases |s|
  {
    if |s| == 0 then 0 else Utf8Width(s[0]) + Utf8Length(s[1..])
  }

  predicate IsAscii(s: string)
  {
    forall k :: 0 <= k < |s| ==> s[k] as int < 0x80
  }

  /** The longest prefix of whole characters that fits in `limit` bytes. */
  function Utf8Prefix(s: string, limit: nat): (r: string)
    ensures |r| <= |s| && r == s[..|r|]
    ensures Utf8Length(r) <= limit
    ensures |r| < |s| ==> Utf8Length(r) + Utf8Width(s[|r|]) > limit
    decreases |s|
  {
    if |s| == 0 || Utf8Width(s[0]) > limit then ""
    else
      var rest := Utf8Prefix(s[1..], limit - Utf8Width(s[0]));
      assert ([s[0]] + rest)[1..] == rest;
      [s[0]] + rest
  }

  /** When the first character fits, the prefix keeps it and continues with
      what is left of the limit. */
  lemma Utf8PrefixCons(x: char, rest: string, limit: nat)
    ensures Utf8Width(x) <= limit ==> Utf8Prefix([x] + rest, limit) == [x] + Utf8Prefix(rest, limit - Utf8Width(x))
    ensures Utf8Width(x) > limit ==> Utf8Prefix([x] + rest, limit) == []
  {
    assert ([x] + rest)[0] == x && ([x] + rest)[1..] == rest;
  }

  /** A prefix that fits in the limit is kept whole, and the rest of the
      limit goes to what follows it. */
  lemma {:induction false} Utf8PrefixConcat(a: string, b: string, limit: nat)
    requires Utf8Length(a) <= limit
    ensures Utf8Prefix(a + b, limit) == a + Utf8Prefix(b, limit - Utf8Length(a))
    decreases |a|
  {
    if |a| == 0 {
      assert a + b == b;
    } else {
      var t := a[1..];
      var left: nat := limit - Utf8Width(a[0]);
      assert Utf8Length(a) == Utf8Width(a[0]) + Utf8Length(t);
      var m: nat := left - Utf8Length(t);
      assert m == limit - Utf8Length(a);
      var tail := Utf8Prefix(b, m);
      Utf8PrefixConcat(t, b, left);
      ConcatHead(a, b);
      Utf8PrefixConcatStep(a + b, t + b, limit, t + tail);
      ConcatHead(a, tail);
    }
  }

  /** Splitting a non-empty first operand into its head and tail. */
  lemma ConcatHead<T>(a: seq<T>, b: seq<T>)
    requires |a| > 0
    ensures (a + b)[0] == a[0] && (a + b)[1..] == a[1..] + b
    ensures [a[0]] + (a[1..] + b) == a + b
  {
    assert a == [a[0]] + a[1..];
  }

  /** One step of the induction above: a first character that fits is kept. */
  lemma Utf8PrefixConcatStep(s: string, rest: string, limit: nat, kept: string)
    requires |s| > 0 && s[1..] == rest && Utf8Width(s[0]) <= limit
    requires Utf8Prefix(rest, limit - Utf8Width(s[0])) == kept
    ensures Utf8Prefix(s, limit) == [s[0]] + kept
  {
  }

  /** For ASCII text, bytes and characters coincide. */
  lemma {:induction false} AsciiUtf8(s: string, limit: nat)
    requires IsAscii(s)
    ensures Utf8Length(s) == |s|
    ensures Utf8Prefix(s, limit) == s[..if limit < |s| then limit else |s|]
    decreases |s|
  {
    if |s| > 0 {
      assert IsAscii(s[1..]);
      AsciiUtf8(s[1..], if limit > 0 then limit - 1 else 0);
      if limit > 0 {
        var r := Utf8Prefix(s, limit);
        assert r == [s[0]] + Utf8Prefix(s[1..], limit - 1);
        assert r == [s[0]] + s[1..][..if limit - 1 < |s| - 1 then limit - 1 else |s| - 1];
      }
    }
  }

  /** `fmt.Sprintf("%2d", n)`: right-aligned in a field of width two. */
  function Pad2(n: nat): (r: string)
    ensures |r| >= 2
    ensures n >= 10 ==> r == NatToString(n)
  {
    if n < 10 then " " + NatToString(n) else NatToString(n)
  }

  /** The escapes `%q` writes for the characters that need one; other
      characters are written as they are (see README for what is not modelled). */
  function EscapeChar(c: char): string
  {
    if c == '"' then "\\\""
    else if c == '\\' then "\\\\"
    else if c == '\n' then "\\n"
    else if c == '\t' then "\\t"
    else if c == '\r' then "\\r"
    else [c]
  }

  predicate NeedsEscape(c: char)
  {
    c == '"' || c == '\\' || c == '\n' || c == '\t' || c == '\r'
  }

  function EscapeAll(s: string): string
    decreases |s|
  {
    if |s| == 0 then "" else EscapeChar(s[0]) + EscapeAll(s[1..])
  }

  /** `fmt.Sprintf("%q", s)`. */
  function Quote(s: string): string
  {
    "\"" + EscapeAll(s) + "\""
  }

  /** A text without characters needing an escape is quoted as it stands. */
  lemma {:induction false} QuotePlain(s: string)
    requires forall k :: 0 <= k < |s| ==> !NeedsEscape(s[k])
    ensures Quote(s) == "\"" + s + "\""
  {
    EscapePlain(s);
  }

  lemma {:induction false} EscapePlain(s: string)
    requires forall k :: 0 <= k < |s| ==> !NeedsEscape(s[k])
    ensures EscapeAll(s) == s
    decreases |s|
  {
    if |s| > 0 {
      EscapePlain(s[1..]);
      assert s == [s[0]] + s[1..];
    }
  }

  /** Quoting loses nothing: different texts have different quoted forms. */
  lemma QuoteInjective(a: string, b: string)
    requires Quote(a) == Quote(b)
    ensures a == b
  {
    assert EscapeAll(a) == Quote(a)[1..|Quote(a)| - 1];
    assert EscapeAll(b) == Quote(b)[1..|Quote(b)| - 1];
    EscapeInjective(a, b);
  }

  lemma {:induction false} EscapeInjective(a: string, b: string)
    requires EscapeAll(a) == EscapeAll(b)
    ensures a == b
    decreases |a|
  {
    if |a| > 0 && |b| > 0 {
      var ea, eb := EscapeChar(a[0]), EscapeChar(b[0]);
      var e := EscapeAll(a);
      assert e == ea + EscapeAll(a[1..]) && e == eb + EscapeAll(b[1..]);
      assert e[0] == ea[0] == eb[0];
      if ea[0] == '\\' {
        assert NeedsEscape(a[0]) && NeedsEscape(b[0]);
        assert |ea| == 2 == |eb|;
        assert e[1] == ea[1] == eb[1];
      }
      assert a[0] == b[0];
      assert EscapeAll(a[1..]) == e[|ea|..] == EscapeAll(b[1..]);
      EscapeInjective(a[1..], b[1..]);
      assert a == [a[0]] + a[1..] && b == [b[0]] + b[1..];
    }
  }

  /** A piece without the separator, then the separator, splits off as the
      first piece. */
  lemma {:induction false} SplitAfterPiece(x: string, y: string, c: char)
    requires c !in x
    ensures Split(x + [c] + y, c) == [x] + Split(y, c)
    decreases |x|
  {
    var s := x + [c] + y;
    if |x| == 0 {
      assert s[1..] == y;
    } else {
      assert s[1..] == x[1..] + [c] + y;
      assert c !in x[1..] by {
        forall k | 0 <= k < |x[1..]| ensures x[1..][k] != c { assert x[1..][k] == x[k + 1]; }
      }
      SplitAfterPiece(x[1..], y, c);
      assert [x[0]] + x[1..] == x;
    }
  }

  /** Splitting a join of pieces without the separator gives the pieces back. */
  lemma {:induction false} SplitJoin(parts: seq<string>, c: char)
    requires |parts| >= 1
    requires forall i :: 0 <= i < |parts| ==> c !in parts[i]
    ensures Split(Join(parts, [c]), c) == parts
    decreases |parts|
  {
    if |parts| == 1 {
      SplitNoSeparator(parts[0], c);
    } else {
      SplitJoin(parts[1..], c);
      SplitAfterPiece(parts[0], Join(parts[1..], [c]), c);
      assert [parts[0]] + parts[1..] == parts;
    }
  }

  /** A text occurs in anything built around it. */
  lemma ContainsInside(a: string, w: string, b: string)
    ensures Contains(a + w + b, w)
  {
    var s := a + w + b;
    assert s[|a|..|a| + |w|] == w;
    assert OccursAt(s, w, |a|);
    ContainsIffOccurrence(s, w);
  }

  /** Extending a text on either side keeps what it contains. */
  lemma ContainsExtend(a: string, s: string, b: string, w: string)
    requires Contains(s, w)
    ensures Contains(a + s + b, w)
  {
    ContainsIffOccurrence(s, w);
    var i :| OccursAt(s, w, i);
    var t := a + s + b;
    assert t[|a| + i..|a| + i + |w|] == s[i..i + |w|];
    assert OccursAt(t, w, |a| + i);
    ContainsIffOccurrence(t, w);
  }

  /** Parts each followed by a separator except the last concatenate to
      their join. */
  lemma {:induction false} ConcatSeparated(parts: seq<string>, sep: string, ends: seq<string>)
    requires |parts| > 0 && |ends| == |parts|
    requires forall i :: 0 <= i < |parts| ==> ends[i] == parts[i] + (if i + 1 < |parts| then sep else "")
    ensures Concat(ends) == Join(parts, sep)
    decreases |parts|
  {
    if |parts| > 1 {
      forall i | 0 <= i < |parts| - 1
        ensures ends[1..][i] == parts[1..][i] + (if i + 1 < |parts[1..]| then sep else "")
      {
        assert ends[1..][i] == ends[i + 1] && parts[1..][i] == parts[i + 1];
      }
      ConcatSeparated(parts[1..], sep, ends[1..]);
      assert ends[0] == parts[0] + sep;
    } else {
      assert ends[0] == parts[0] + "";
      assert ends[1..] == [];
    }
  }

  /** What a part contains, the concatenation contains. */
  lemma {:induction false} ContainsConcat(parts: seq<string>, i: nat, w: string)
    requires i < |parts| && Contains(parts[i], w)
    ensures Contains(Concat(parts), w)
    decreases |parts|
  {
    if i == 0 {
      ContainsExtend("", parts[0], Concat(parts[1..]), w);
      assert "" + parts[0] + Concat(parts[1..]) == Concat(parts);
    } else {
      ContainsConcat(parts[1..], i - 1, w);
      ContainsExtend(parts[0], Concat(parts[1..]), "", w);
      assert parts[0] + Concat(parts[1..]) + "" == Concat(parts);
    }
  }
}
