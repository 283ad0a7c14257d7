/** Shared vocabulary of the dashboard model: optional values, the string
    operations the TypeScript code takes from the JavaScript runtime
    (trim, split, join, includes, toLowerCase, toUpperCase, toString) and the
    two lenient number parsers (parseInt, parseFloat). */
module Base {

  datatype Option<+T> = None | Some(value: T)

  // ---------------------------------------------------------------------
  // Characters and case

  /** The characters String.prototype.trim and the number parsers skip:
      ECMAScript's WhiteSpace (tab, vertical tab, form feed, the no-break
      and byte-order marks, and the Unicode space separators) and its
      LineTerminator characters. */
  predicate IsSpace(c: char) {
    || c == ' ' || c == '\t' || c == '\n' || c == '\r'
    || c == '\U{000B}' || c == '\U{000C}' || c == '\U{00A0}' || c == '\U{1680}'
    || ('\U{2000}' <= c <= '\U{200A}')
    || c == '\U{2028}' || c == '\U{2029}' || c == '\U{202F}' || c == '\U{205F}'
    || c == '\U{3000}' || c == '\U{FEFF}'
  }

  predicate IsDigit(c: char) {
    '0' <= c <= '9'
  }

  function DigitValue(c: char): (d: nat)
    requires IsDigit(c)
    ensures d < 10
  {
    c as int - '0' as int
  }

  function DigitChar(d: nat): (c: char)
    requires d < 10
    ensures IsDigit(c) && DigitValue(c) == d
  {
    ('0' as int + d) as char
  }

  function LowerChar(c: char): char {
    if 'A' <= c <= 'Z' then (c as int + 32) as char else c
  }

  function UpperChar(c: char): char {
    if 'a' <= c <= 'z' then (c as int - 32) as char else c
  }

  /** String.prototype.toLowerCase on the ASCII letters. */
  function Lower(s: string): (r: string)
    ensures |r| == |s|
    ensures forall i :: 0 <= i < |s| ==> r[i] == LowerChar(s[i])
  {
    seq(|s|, i requires 0 <= i < |s| => LowerChar(s[i]))
  }

  lemma LowerSlice(s: string, i: nat, j: nat)
    requires i <= j <= |s|
    ensures Lower(s)[i..j] == Lower(s[i..j])
  {
  }

  // ---------------------------------------------------------------------
  // Substrings and prefixes

  /** `sub` occurs in `s` at position `i`. */
  predicate OccursAt(s: string, sub: string, i: int) {
    0 <= i && i + |sub| <= |s| && s[i..i + |sub|] == sub
  }

  /** String.prototype.includes: `sub` occurs somewhere in `s`. */
  predicate Contains(s: string, sub: string) {
    exists i | 0 <= i <= |s| :: OccursAt(s, sub, i)
  }

  lemma ContainsAt(s: string, sub: string, i: nat)
    requires OccursAt(s, sub, i)
    ensures Contains(s, sub)
  {
  }

  lemma ContainsEmpty(s: string)
    ensures Contains(s, "")
  {
    assert OccursAt(s, "", 0);
  }

  /** A string without the first character of `sub` does not contain it. */
  lemma NotContainsHead(s: string, sub: string)
    requires sub != [] && sub[0] !in s
    ensures !Contains(s, sub)
  {
    forall i | 0 <= i <= |s|
      ensures !OccursAt(s, sub, i)
    {
      if i + |sub| <= |s| {
        assert s[i..i + |sub|][0] == s[i] && s[i] in s;
      }
    }
  }

  /** Occurrence is transitive: a string containing `mid` contains every
      substring of `mid`. */
  lemma {:induction false} ContainsTrans(s: string, mid: string, sub: string)
    requires Contains(s, mid) && Contains(mid, sub)
    ensures Contains(s, sub)
  {
    var i: nat, j: nat :| OccursAt(s, mid, i) && OccursAt(mid, sub, j);
    assert OccursAt(s, mid, i) && OccursAt(mid, sub, j);
    forall k | 0 <= k < |sub|
      ensures s[i + j + k] == sub[k]
    {
      assert sub[k] == mid[j + k] == s[i + j + k];
    }
    assert s[i + j..i + j + |sub|] == sub;
    ContainsAt(s, sub, i + j);
  }

  /** Lower-casing preserves occurrences. */
  lemma {:induction false} LowerContains(s: string, sub: string)
    requires Contains(s, sub)
    ensures Contains(Lower(s), Lower(sub))
  {
    var i: nat :| OccursAt(s, sub, i);
    assert OccursAt(s, sub, i);
    LowerSlice(s, i, i + |sub|);
    ContainsAt(Lower(s), Lower(sub), i);
  }

  /** The case-insensitive `includes` test used by every search box. */
  predicate ContainsIgnoreCase(s: string, query: string) {
    Contains(Lower(s), Lower(query))
  }

  // ---------------------------------------------------------------------
  // trim

  function TrimStart(s: string): (r: string)
    ensures |r| <= |s| && r == s[|s| - |r|..]
    ensures r == [] || !IsSpace(r[0])
    ensures forall i :: 0 <= i < |s| - |r| ==> IsSpace(s[i])
  {
    if s != [] && IsSpace(s[0]) then TrimStart(s[1..]) else s
  }

  function TrimEnd(s: string): (r: string)
    ensures |r| <= |s| && r == s[..|r|]
    ensures r == [] || !IsSpace(r[|r| - 1])
    ensures forall i :: |r| <= i < |s| ==> IsSpace(s[i])
  {
    if s != [] && IsSpace(s[|s| - 1]) then TrimEnd(s[..|s| - 1]) else s
  }

  /** String.prototype.trim: the result neither starts nor ends with white
      space; TrimIsSlice states that only white space was cut off. */
  function Trim(s: string): (r: string)
    ensures |r| <= |s|
    ensures r == [] || (!IsSpace(r[0]) && !IsSpace(r[|r| - 1]))
  {
    TrimEnd(TrimStart(s))
  }

  /** Trimming cuts white space, and only white space, off both ends. */
  lemma TrimIsSlice(s: string)
    ensures exists i :: TrimmedAt(s, Trim(s), i)
  {
    assert TrimmedAt(s, Trim(s), |s| - |TrimStart(s)|);
  }

  /** `r` is the slice of `s` at `i`, and everything around it is white
      space. */
  predicate TrimmedAt(s: string, r: string, i: int) {
    && 0 <= i <= |s| - |r|
    && r == s[i..i + |r|]
    && (forall j :: 0 <= j < i ==> IsSpace(s[j]))
    && (forall j :: i + |r| <= j < |s| ==> IsSpace(s[j]))
  }

  /** Trimming only removes characters. */
  lemma TrimKeeps(s: string, c: char)
    requires c !in s
    ensures c !in Trim(s)
  {
    var t := TrimStart(s);
    var r := TrimEnd(t);
    assert forall i :: 0 <= i < |r| ==> r[i] == s[|s| - |t| + i];
  }

  /** `s.replace(/c/g, '')`: every `c` removed, the other characters kept
      in order (StripCharAppend). */
  function StripChar(s: string, c: char): (r: string)
    ensures c !in r
    ensures |r| <= |s|
    ensures forall x :: x in r <==> x in s && x != c
    ensures |s| == 1 ==> r == (if s[0] == c then [] else s)
  {
    if s == [] then "" else (if s[0] == c then "" else [s[0]]) + StripChar(s[1..], c)
  }

  lemma {:induction false} StripCharAbsent(s: string, c: char)
    requires c !in s
    ensures StripChar(s, c) == s
  {
    if s != [] {
      StripCharAbsent(s[1..], c);
    }
  }

  /** Removal works piecewise, so the kept characters keep their order. */
  lemma {:induction false} StripCharAppend(a: string, b: string, c: char)
    ensures StripChar(a + b, c) == StripChar(a, c) + StripChar(b, c)
  {
    if a == [] {
      assert a + b == b;
    } else {
      var ab := a + b;
      assert ab[0] == a[0] && ab[1..] == a[1..] + b;
      StripCharAppend(a[1..], b, c);
      var h := if a[0] == c then "" else [a[0]];
      AppendAssoc(h, StripChar(a[1..], c), StripChar(b, c));
    }
  }

  // ---------------------------------------------------------------------
  // split and join

  function Count(s: string, c: char): nat {
    if s == [] then 0 else (if s[0] == c then 1 else 0) + Count(s[1..], c)
  }

  /** String.prototype.split with a one-character separator. */
  function Split(s: string, c: char): (r: seq<string>)
    ensures |r| >= 1
  {
    if s == [] then [""] else SplitStep(s[0], Split(s[1..], c), c)
  }

  /** Splitting text joined at a separator splits each side. */
  lemma {:induction false} SplitConcat(a: string, b: string, c: char)
    ensures Split(a + [c] + b, c) == Split(a, c) + Split(b, c)
  {
    var s := a + [c] + b;
    if a == [] {
      assert s == [c] + b && s[1..] == b;
    } else {
      assert s[0] == a[0] && s[1..] == a[1..] + [c] + b;
      SplitConcat(a[1..], b, c);
      SplitConsConcat(a[0], Split(a[1..], c), Split(b, c), c);
    }
  }

  /** One more leading character, on a split that continues after `ra`. */
  lemma SplitConsConcat(x: char, ra: seq<string>, rb: seq<string>, c: char)
    requires |ra| >= 1
    ensures SplitStep(x, ra + rb, c) == SplitStep(x, ra, c) + rb
  {
    if x != c {
      assert (ra + rb)[0] == ra[0] && (ra + rb)[1..] == ra[1..] + rb;
    }
  }

  /** How Split goes from the split of `s[1..]` to that of `s`. */
  function SplitStep(x: char, rest: seq<string>, c: char): seq<string>
    requires |rest| >= 1
  {
    if x == c then [""] + rest else [[x] + rest[0]] + rest[1..]
  }

  lemma {:induction false} SplitShape(s: string, c: char)
    ensures |Split(s, c)| == Count(s, c) + 1
    ensures forall k :: 0 <= k < |Split(s, c)| ==> c !in Split(s, c)[k]
  {
    if s != [] {
      SplitShape(s[1..], c);
    }
  }

  /** Array.prototype.join. */
  function Join(parts: seq<string>, sep: string): string {
    if parts == [] then ""
    else if |parts| == 1 then parts[0]
    else parts[0] + sep + Join(parts[1..], sep)
  }

  lemma {:induction false} JoinSplit(s: string, c: char)
    ensures Join(Split(s, c), [c]) == s
  {
    if s != [] {
      JoinSplit(s[1..], c);
      var rest := Split(s[1..], c);
      if s[0] != c && |rest| > 1 {
        assert Split(s, c)[1..] == rest[1..];
      }
    }
  }

  /** Splitting a string that has no separator gives the string back. */
  lemma {:induction false} SplitNoSep(s: string, c: char)
    requires c !in s
    ensures Split(s, c) == [s]
  {
    if s != [] {
      SplitNoSep(s[1..], c);
      assert [s[0]] + s[1..] == s;
    }
  }

  lemma {:induction false} SplitAfter(a: string, b: string, c: char)
    requires c !in a
    ensures Split(a + [c] + b, c) == [a] + Split(b, c)
  {
    if a == [] {
      assert (a + [c] + b)[1..] == b;
    } else {
      SplitAfter(a[1..], b, c);
      assert (a + [c] + b)[1..] == a[1..] + [c] + b;
      assert [a[0]] + a[1..] == a;
    }
  }

  /** Split seen from the end: a separator opens a new last piece, any
      other character extends the last piece. */
  lemma {:induction false} SplitSnoc(s: string, x: char, c: char)
    ensures Split(s + [x], c) == SnocPiece(Split(s, c), x, c)
  {
    if s == [] {
      assert s + [x] == [x] && [x][1..] == [];
      assert Split([x][1..], c) == [""];
      assert Split([x], c) == if x == c then ["", ""] else [[x] + ""];
      assert [""][..0] == [] && "" + [x] == [x] && [x] + "" == [x];
      assert SnocPiece(Split(s, c), x, c) == if x == c then ["", ""] else [[x]];
    } else {
      var t := s[1..];
      SplitSnoc(t, x, c);
      assert (s + [x])[1..] == t + [x];
      assert (s + [x])[0] == s[0];
      var p' := Split(t, c);
      if s[0] == c {
        assert Split(s + [x], c) == [""] + SnocPiece(p', x, c);
        assert Split(s, c) == [""] + p';
        SnocPieceCons("", p', x, c);
      } else {
        assert Split(s + [x], c) == ConsPiece(s[0], SnocPiece(p', x, c));
        assert Split(s, c) == ConsPiece(s[0], p');
        SnocPieceConsPiece(s[0], p', x, c);
      }
    }
  }

  /** The pieces after one more character `x` at the end. */
  function SnocPiece(p: seq<string>, x: char, c: char): seq<string>
    requires |p| >= 1
  {
    if x == c then p + [""] else p[..|p| - 1] + [p[|p| - 1] + [x]]
  }

  /** The pieces after one more character `y` in front, not a separator. */
  function ConsPiece(y: char, p: seq<string>): seq<string>
    requires |p| >= 1
  {
    [[y] + p[0]] + p[1..]
  }

  lemma SnocPieceCons(h: string, p: seq<string>, x: char, c: char)
    requires |p| >= 1
    ensures SnocPiece([h] + p, x, c) == [h] + SnocPiece(p, x, c)
  {
    var hp := [h] + p;
    assert hp[..|hp| - 1] == [h] + p[..|p| - 1];
  }

  lemma SnocPieceConsPiece(y: char, p: seq<string>, x: char, c: char)
    requires |p| >= 1
    ensures SnocPiece(ConsPiece(y, p), x, c) == ConsPiece(y, SnocPiece(p, x, c))
  {
    var q := ConsPiece(y, p);
    if x == c {
      assert (p + [""])[0] == p[0] && (p + [""])[1..] == p[1..] + [""];
    } else if |p| == 1 {
      assert q == [[y] + p[0]];
      assert [y] + p[0] + [x] == [y] + (p[0] + [x]);
    } else {
      assert q[..|q| - 1] == [[y] + p[0]] + p[1..|p| - 1];
      assert SnocPiece(p, x, c)[1..] == p[1..|p| - 1] + [p[|p| - 1] + [x]];
    }
  }

  /** A character that is in no part and not in the separator is not in
      the joined text. */
  lemma {:induction false} JoinAvoids(parts: seq<string>, sep: string, c: char)
    requires c !in sep
    requires forall k :: 0 <= k < |parts| ==> c !in parts[k]
    ensures c !in Join(parts, sep)
  {
    if |parts| > 1 {
      JoinAvoids(parts[1..], sep, c);
    }
  }

  /** Join and Split are inverse when no part holds the separator. */
  lemma {:induction false} SplitJoin(parts: seq<string>, c: char)
    requires parts != []
    requires forall k :: 0 <= k < |parts| ==> c !in parts[k]
    ensures Split(Join(parts, [c]), c) == parts
  {
    if |parts| == 1 {
      SplitNoSep(parts[0], c);
    } else {
      SplitJoin(parts[1..], c);
      SplitAfter(parts[0], Join(parts[1..], [c]), c);
      assert [parts[0]] + parts[1..] == parts;
    }
  }

  /** A header line followed by data lines, none with a line break, splits
      back into exactly those lines. */
  lemma LinesSplit(header: string, rows: seq<string>)
    requires '\n' !in header
    requires forall j :: 0 <= j < |rows| ==> '\n' !in rows[j]
    ensures Split(Join([header] + rows, "\n"), '\n') == [header] + rows
  {
    var lines := [header] + rows;
    forall j | 0 <= j < |lines|
      ensures '\n' !in lines[j]
    {
      if j > 0 {
        assert lines[j] == rows[j - 1];
      }
    }
    SplitJoin(lines, '\n');
  }

  /** A CSV text field: the value between double quotes. */
  function Quote(s: string): string {
    "\"" + s + "\""
  }

  // ---------------------------------------------------------------------
  // Number.prototype.toString and the lenient parsers

  function NatToString(n: nat): (r: string)
    ensures |r| >= 1
    decreases n
  {
    if n < 10 then [DigitChar(n)] else NatToString(n / 10) + [DigitChar(n % 10)]
  }

  /** Decimal text of an integer, '-' before a negative one. */
  function IntToString(n: int): (r: string)
    ensures |r| >= 1
  {
    if n < 0 then "-" + NatToString(-n) else NatToString(n)
  }

  predicate AllDigits(s: string) {
    forall i :: 0 <= i < |s| ==> IsDigit(s[i])
  }

  /** The longest prefix of `s` made of decimal digits. */
  function LeadingDigits(s: string): (r: string)
    ensures r <= s && AllDigits(r)
    ensures |r| == |s| || !IsDigit(s[|r|])
  {
    if s != [] && IsDigit(s[0]) then [s[0]] + LeadingDigits(s[1..]) else ""
  }

  function DigitsValue(ds: string): nat
    requires AllDigits(ds)
  {
    if ds == [] then 0 else DigitsValue(ds[..|ds| - 1]) * 10 + DigitValue(ds[|ds| - 1])
  }

  /** An optional sign, then the longest run of digits; None when there is
      no digit. */
  function SignedDigits(t: string): (r: Option<int>)
    ensures r.Some? ==> exists k :: 0 <= k < |t| && IsDigit(t[k])
  {
    var neg := t != [] && t[0] == '-';
    var body := if t != [] && (t[0] == '-' || t[0] == '+') then t[1..] else t;
    var ds := LeadingDigits(body);
    if ds == [] then None
    else
      assert IsDigit(t[|t| - |body|]);
      Some(if neg then -(DigitsValue(ds) as int) else DigitsValue(ds))
  }

  /** parseInt(s, 10): leading white space, an optional sign, then the
      longest run of digits; None (NaN) when there is no digit. */
  function ParseInt(s: string): (r: Option<int>)
    ensures r.Some? ==> exists k :: 0 <= k < |s| && IsDigit(s[k])
  {
    var t := TrimStart(s);
    var r := SignedDigits(t);
    assert r.Some? ==> exists k :: 0 <= k < |t| && IsDigit(t[k]) && s[|s| - |t| + k] == t[k];
    r
  }

  /** Text without a digit reads as NaN. */
  lemma NoDigitIsNaN(s: string)
    requires forall k :: 0 <= k < |s| ==> !IsDigit(s[k])
    ensures ParseInt(s) == None
  {
  }

  /** `parseInt(s) || 0`: NaN becomes 0. */
  function IntOrZero(s: string): int {
    match ParseInt(s)
    case Some(n) => n
    case None => 0
  }

  lemma {:induction false} NatToStringDigits(n: nat)
    ensures AllDigits(NatToString(n))
    ensures DigitsValue(NatToString(n)) == n
    decreases n
  {
    if n >= 10 {
      NatToStringDigits(n / 10);
      var s := NatToString(n);
      assert s[..|s| - 1] == NatToString(n / 10);
    }
  }

  lemma {:induction false} LeadingDigitsAll(s: string)
    requires AllDigits(s)
    ensures LeadingDigits(s) == s
  {
    if s != [] {
      LeadingDigitsAll(s[1..]);
    }
  }

  /** Text that starts with no white space is read as it stands. */
  lemma ParseIntUntrimmed(t: string)
    requires t != [] && !IsSpace(t[0])
    ensures ParseInt(t) == SignedDigits(t)
  {
    assert TrimStart(t) == t;
  }

  lemma SignedDigitsPlain(s: string)
    requires s != [] && AllDigits(s)
    ensures SignedDigits(s) == Some(DigitsValue(s) as int)
  {
    LeadingDigitsAll(s);
  }

  lemma SignedDigitsMinus(s: string, t: string, v: int)
    requires s != [] && AllDigits(s) && t == ['-'] + s && DigitsValue(s) == -v
    ensures SignedDigits(t) == Some(v)
  {
    assert t[1..] == s;
    LeadingDigitsAll(s);
  }

  lemma ParseIntDigits(s: string)
    requires s != [] && AllDigits(s)
    ensures ParseInt(s) == Some(DigitsValue(s) as int)
  {
    ParseIntUntrimmed(s);
    SignedDigitsPlain(s);
  }

  lemma ParseIntNegDigits(s: string, v: int)
    requires s != [] && AllDigits(s) && DigitsValue(s) == -v
    ensures ParseInt("-" + s) == Some(v)
  {
    var t := "-" + s;
    assert t[0] == '-';
    ParseIntUntrimmed(t);
    SignedDigitsMinus(s, t, v);
  }

  /** toString writes only digits and a leading minus sign. */
  lemma IntToStringChars(n: int, c: char)
    requires !IsDigit(c) && c != '-'
    ensures c !in IntToString(n)
  {
    if n < 0 {
      NatToStringDigits(-n);
      assert IntToString(n)[1..] == NatToString(-n);
    } else {
      NatToStringDigits(n);
    }
  }

  /** parseInt reads back what toString wrote. */
  lemma ParseIntToString(n: int)
    ensures ParseInt(IntToString(n)) == Some(n)
  {
    if n < 0 {
      NegToString(n);
    } else {
      NatToStringRead(n);
    }
  }

  lemma NatToStringRead(n: nat)
    ensures ParseInt(IntToString(n)) == Some(n)
  {
    var d := NatToString(n);
    NatToStringDigits(n);
    ParseIntDigits(d);
  }

  lemma NegToString(n: int)
    requires n < 0
    ensures ParseInt(IntToString(n)) == Some(n)
  {
    MinusNatRead(n);
  }

  lemma MinusNatRead(n: int)
    requires n < 0
    ensures ParseInt("-" + NatToString(-n)) == Some(n)
  {
    var d := NatToString(-n);
    NatToStringDigits(-n);
    ParseIntNegDigits(d, n);
  }

  /** The magnitude parseFloat reads after the sign: digits with an
      optional fraction; None when neither part has a digit. */
  function DecimalPrefix(body: string): (r: Option<real>)
    ensures r.Some? ==> |body| > 0 && (IsDigit(body[0]) || (|body| > 1 && IsDigit(body[1])))
  {
    var ip := LeadingDigits(body);
    var rest := body[|ip|..];
    var fp := if rest != [] && rest[0] == '.' then LeadingDigits(rest[1..]) else "";
    if ip == [] && fp == [] then None
    else
      assert ip == [] ==> body[1] == fp[0];
      Some(DigitsValue(ip) as real + FractionValue(fp))
  }

  /** parseFloat(s): leading white space, an optional sign, digits with an
      optional fraction; None (NaN) when no digit is read. */
  function ParseFloat(s: string): (r: Option<real>)
    ensures r.Some? ==> exists k :: 0 <= k < |s| && IsDigit(s[k])
  {
    var t := TrimStart(s);
    var neg := t != [] && t[0] == '-';
    var body := if t != [] && (t[0] == '-' || t[0] == '+') then t[1..] else t;
    match DecimalPrefix(body)
    case None => None
    case Some(mag) =>
      var j := if IsDigit(body[0]) then 0 else 1;
      assert body == s[|s| - |body|..];
      assert s[|s| - |body| + j] == body[j];
      Some(if neg then -mag else mag)
  }

  /** parseFloat reads back the integers toString writes. */
  lemma ParseFloatToString(n: int)
    ensures ParseFloat(IntToString(n)) == Some(n as real)
  {
    if n < 0 {
      FloatNegToString(n);
    } else {
      FloatNatToString(n);
    }
  }

  lemma FloatNatToString(n: nat)
    ensures ParseFloat(IntToString(n)) == Some(n as real)
  {
    var d := NatToString(n);
    NatToStringDigits(n);
    FloatDigits(d);
  }

  lemma FloatNegToString(n: int)
    requires n < 0
    ensures ParseFloat(IntToString(n)) == Some(n as real)
  {
    FloatMinusNat(n);
  }

  lemma FloatMinusNat(n: int)
    requires n < 0
    ensures ParseFloat("-" + NatToString(-n)) == Some(n as real)
  {
    var d := NatToString(-n);
    NatToStringDigits(-n);
    FloatReadMinus(d, n);
  }

  lemma FloatDigits(s: string)
    requires s != [] && AllDigits(s)
    ensures ParseFloat(s) == Some(DigitsValue(s) as real)
  {
    DecimalPrefixDigits(s);
    FloatReadPlain(s);
  }

  /** Digits standing alone read as their value. */
  lemma FloatReadPlain(d: string)
    requires d != [] && IsDigit(d[0]) && DecimalPrefix(d).Some?
    ensures ParseFloat(d) == DecimalPrefix(d)
  {
    TrimStartNoSpace(d);
  }

  /** Digits after a minus sign read as the negated value. */
  lemma FloatReadMinus(s: string, v: int)
    requires s != [] && AllDigits(s) && DigitsValue(s) == -v
    ensures ParseFloat("-" + s) == Some(v as real)
  {
    DecimalPrefixDigits(s);
    var t := "-" + s;
    assert t[0] == '-' && t[1..] == s;
    TrimStartNoSpace(t);
  }

  lemma TrimStartNoSpace(t: string)
    requires t != [] && !IsSpace(t[0])
    ensures TrimStart(t) == t
  {
  }

  lemma DecimalPrefixDigits(d: string)
    requires d != [] && AllDigits(d)
    ensures DecimalPrefix(d) == Some(DigitsValue(d) as real)
  {
    LeadingDigitsAll(d);
  }

  /** The value of the digits after the decimal point: `0.d1d2...`. */
  function FractionValue(ds: string): real
    requires AllDigits(ds)
  {
    if ds == [] then 0.0 else (DigitValue(ds[0]) as real + FractionValue(ds[1..])) / 10.0
  }

  /** `parseFloat(s) || 0`: NaN becomes 0. */
  function NumOrZero(s: string): real {
    match ParseFloat(s)
    case Some(v) => v
    case None => 0.0
  }

  // ---------------------------------------------------------------------
  // Sequence helpers

  lemma AppendAssoc<T>(a: seq<T>, b: seq<T>, c: seq<T>)
    ensures a + (b + c) == (a + b) + c
  {
  }

  /** A sequence starts with each of its prefixes, followed by the rest. */
  lemma AppendPrefix<T>(a: seq<T>, b: seq<T>)
    ensures a <= a + b && (a + b)[|a|..] == b
  {
  }

  /** Array.prototype.map. */
  function MapSeq<A, B>(s: seq<A>, f: A -> B): (r: seq<B>)
    ensures |r| == |s| && forall k :: 0 <= k < |s| ==> r[k] == f(s[k])
  {
    seq(|s|, k requires 0 <= k < |s| => f(s[k]))
  }

  /** Mapping one more element appends its image. */
  lemma MapSeqNext<A, B>(s: seq<A>, f: A -> B, k: nat)
    requires k < |s|
    ensures MapSeq(s[..k + 1], f) == MapSeq(s[..k], f) + [f(s[k])]
  {
    var a, b := MapSeq(s[..k + 1], f), MapSeq(s[..k], f);
    assert forall i :: 0 <= i < k ==> a[i] == b[i];
  }

  /** The next prefix is the current one and the next element. */
  lemma TakeNext<T>(s: seq<T>, k: nat)
    requires k < |s|
    ensures s[..k + 1] == s[..k] + [s[k]]
  {
  }

  lemma PrefixSplit<T>(a: seq<T>, r: seq<T>)
    requires a <= r
    ensures r == a + r[|a|..]
  {
  }

  /** Array.prototype.filter. */
  function Filter<T>(s: seq<T>, p: T -> bool): (r: seq<T>)
    ensures |r| <= |s|
    ensures forall k :: 0 <= k < |r| ==> r[k] in s && p(r[k])
    ensures forall k :: 0 <= k < |s| && p(s[k]) ==> s[k] in r
    ensures |s| == 1 ==> r == (if p(s[0]) then s else [])
  {
    if s == [] then [] else (if p(s[0]) then [s[0]] else []) + Filter(s[1..], p)
  }

  /** Filtering works piecewise, so it keeps the input order. */
  lemma {:induction false} FilterAppend<T>(a: seq<T>, b: seq<T>, p: T -> bool)
    ensures Filter(a + b, p) == Filter(a, p) + Filter(b, p)
  {
    if a == [] {
      assert a + b == b;
    } else {
      var ab := a + b;
      assert ab[0] == a[0] && ab[1..] == a[1..] + b;
      FilterAppend(a[1..], b, p);
      var h := if p(a[0]) then [a[0]] else [];
      assert Filter(ab, p) == h + Filter(a[1..] + b, p);
      assert Filter(a, p) == h + Filter(a[1..], p);
      AppendAssoc(h, Filter(a[1..], p), Filter(b, p));
    }
  }

  /** Position k contributes its own element, in its own place. */
  lemma FilterAt<T>(s: seq<T>, p: T -> bool, k: nat)
    requires k < |s|
    ensures Filter(s, p) == Filter(s[..k], p) + (if p(s[k]) then [s[k]] else []) + Filter(s[k + 1..], p)
  {
    SplitAround(s, k);
    FilterAround(s[..k], s[k], s[k + 1..], p);
  }

  lemma SplitAround<T>(s: seq<T>, k: nat)
    requires k < |s|
    ensures s == s[..k] + [s[k]] + s[k + 1..]
  {
  }

  lemma FilterAround<T>(a: seq<T>, x: T, b: seq<T>, p: T -> bool)
    ensures Filter(a + [x] + b, p) == Filter(a, p) + (if p(x) then [x] else []) + Filter(b, p)
  {
    FilterAppend(a + [x], b, p);
    FilterAppend(a, [x], p);
  }

  lemma {:induction false} FilterAll<T>(s: seq<T>, p: T -> bool)
    requires forall k :: 0 <= k < |s| ==> p(s[k])
    ensures Filter(s, p) == s
  {
    if s != [] {
      FilterAll(s[1..], p);
      assert [s[0]] + s[1..] == s;
    }
  }

  /** A test that nothing passes keeps nothing. */
  lemma {:induction false} FilterNone<T>(s: seq<T>, p: T -> bool)
    requires forall x :: !p(x)
    ensures Filter(s, p) == []
  {
    if s != [] {
      FilterNone(s[1..], p);
    }
  }

  /** Array.prototype.find: the first element that satisfies `p`, if any. */
  function Find<T>(s: seq<T>, p: T -> bool): (r: Option<T>)
    ensures r.None? <==> forall k :: 0 <= k < |s| ==> !p(s[k])
    ensures r.Some? ==> exists k :: 0 <= k < |s| && s[k] == r.value && p(s[k]) && forall j :: 0 <= j < k ==> !p(s[j])
    ensures forall k :: 0 <= k < |s| && p(s[k]) && (forall j :: 0 <= j < k ==> !p(s[j])) ==> r == Some(s[k])
  {
    if s == [] then None
    else if p(s[0]) then Some(s[0])
    else
      var r := Find(s[1..], p);
      assert forall k :: 1 <= k < |s| ==> s[k] == s[1..][k - 1];
      r
  }

  /** A first-match lookup table: the value of the first entry whose key
      passes `matches`, or `default` when none does. */
  function FirstMatch<V>(table: seq<(string, V)>, matches: string -> bool, default: V): (r: V)
    ensures (forall k :: 0 <= k < |table| ==> !matches(table[k].0)) ==> r == default
    ensures forall k :: 0 <= k < |table| && matches(table[k].0) && (forall j :: 0 <= j < k ==> !matches(table[j].0)) ==>
              r == table[k].1
    ensures r == default || exists k :: 0 <= k < |table| && r == table[k].1
    ensures r != default ==> exists k :: 0 <= k < |table| && matches(table[k].0) && r == table[k].1
  {
    if table == [] then default
    else if matches(table[0].0) then table[0].1
    else
      var r := FirstMatch(table[1..], matches, default);
      assert forall k :: 1 <= k < |table| ==> table[k] == table[1..][k - 1];
      r
  }

  /** Array.prototype.indexOf: the first position of `x`, or -1. */
  function IndexOf<T(==)>(s: seq<T>, x: T): (r: int)
    ensures -1 <= r < |s|
    ensures r == -1 <==> x !in s
    ensures r >= 0 ==> s[r] == x && forall j :: 0 <= j < r ==> s[j] != x
  {
    if s == [] then -1
    else if s[0] == x then 0
    else
      var r := IndexOf(s[1..], x);
      assert forall j :: 1 <= j < |s| ==> s[j] == s[1..][j - 1];
      if r == -1 then -1 else r + 1
  }

  /** The first position in `s + [x]`: unchanged when `y` is already in
      `s`, otherwise the new last position when `x` is `y`. */
  lemma {:induction false} IndexOfSnoc<T>(s: seq<T>, x: T, y: T)
    ensures IndexOf(s + [x], y) == if y in s then IndexOf(s, y) else if x == y then |s| else -1
  {
    if s != [] {
      IndexOfSnoc(s[1..], x, y);
      assert (s + [x])[1..] == s[1..] + [x];
    }
  }

  /** Where `slice(start)` begins on a sequence of length `n`: a negative
      start counts back from the end, and both ends are clamped. */
  function SliceStart(n: nat, start: int): (r: nat)
    ensures r <= n
    ensures start < 0 && -start <= n ==> r == n + start
    ensures start < 0 && -start > n ==> r == 0
    ensures start >= 0 ==> r == Min(start, n)
  {
    if start < 0 then (if n + start < 0 then 0 else n + start)
    else if start > n then n else start
  }

  function Sum(xs: seq<real>): real {
    if xs == [] then 0.0 else Sum(xs[..|xs| - 1]) + xs[|xs| - 1]
  }

  function Min(a: int, b: int): int {
    if a <= b then a else b
  }

  function Max(a: int, b: int): int {
    if a >= b then a else b
  }
}
