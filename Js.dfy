/** JavaScript scalar values and the string built-ins that the admin screens and
    the mock server call: truthiness and `||`, `String(x)`, `parseInt`,
    `toLowerCase`/`toUpperCase` (ASCII letters only), `includes`, `trim`,
    `split` on one character, `padStart`, and `replace(/\s+/g, '-')`. */
module Js {

  datatype Option<+T> = None | Some(value: T)

  /** A JSON scalar as a field of a request or response. Numbers are integers. */
  datatype Value = Undefined | Null | Bool(b: bool) | Num(n: int) | Str(s: string)

  /** `false`, `0`, `""`, `null` and `undefined` are falsy; everything else is truthy. */
  predicate Truthy(v: Value) {
    match v
    case Undefined => false
    case Null => false
    case Bool(b) => b
    case Num(n) => n != 0
    case Str(s) => s != ""
  }

  /** An optional text field is truthy when present and non-empty. */
  predicate Present(o: Option<string>) {
    o.Some? && o.value != ""
  }

  /** `a || b` on two optional text fields. */
  function OrText(a: Option<string>, b: Option<string>): Option<string> {
    if Present(a) then a else b
  }

  /** `a || fallback` on an optional text field. */
  function TextOr(a: Option<string>, fallback: string): string {
    if Present(a) then a.value else fallback
  }

  /** `a || b` on two scalar values. */
  function ValueOr(a: Value, b: Value): Value {
    if Truthy(a) then a else b
  }

  function DigitChar(d: nat): char
    requires d < 10
  {
    (48 + d) as char
  }

  predicate IsDecimalDigit(c: char) {
    '0' <= c <= '9'
  }

  /** The decimal rendering of a natural number, most significant digit first. */
  function NatToString(n: nat): (s: string)
    ensures |s| >= 1
    ensures forall i :: 0 <= i < |s| ==> IsDecimalDigit(s[i])
    ensures |s| >= 2 ==> s[0] != '0'
  {
    if n < 10 then [DigitChar(n)] else NatToString(n / 10) + [DigitChar(n % 10)]
  }

  /** `String(n)` for an integer number. */
  function IntToString(i: int): string {
    if i < 0 then "-" + NatToString(-i) else NatToString(i)
  }

  /** `String(v)`. */
  function ToString(v: Value): string {
    match v
    case Undefined => "undefined"
    case Null => "null"
    case Bool(b) => if b then "true" else "false"
    case Num(n) => IntToString(n)
    case Str(s) => s
  }

  /** The white space that `trim`, `parseInt` and the regular expression `\s`
      recognise: the ECMAScript WhiteSpace and LineTerminator code points. */
  predicate IsSpace(c: char) {
    var k := c as int;
    k == 0x09 || k == 0x0A || k == 0x0B || k == 0x0C || k == 0x0D || k == 0x20 ||
    k == 0xA0 || k == 0x1680 || (0x2000 <= k <= 0x200A) || k == 0x2028 || k == 0x2029 ||
    k == 0x202F || k == 0x205F || k == 0x3000 || k == 0xFEFF
  }

  function TrimStart(s: string): (r: string)
    ensures |r| <= |s|
    ensures r == [] || !IsSpace(r[0])
    ensures |s| > 0 && IsSpace(s[0]) ==> |r| < |s|
  {
    if |s| > 0 && IsSpace(s[0]) then TrimStart(s[1..]) else s
  }

  function TrimEnd(s: string): (r: string)
    ensures |r| <= |s|
    ensures r == [] || !IsSpace(r[|r| - 1])
  {
    if |s| > 0 && IsSpace(s[|s| - 1]) then TrimEnd(s[..|s| - 1]) else s
  }

  /** `s.trim()`. */
  function Trim(s: string): string {
    TrimEnd(TrimStart(s))
  }

  /** A trimmed string is empty exactly when the input is all white space. */
  lemma {:induction false} TrimEmptyIffBlank(s: string)
    ensures Trim(s) == [] <==> forall i :: 0 <= i < |s| ==> IsSpace(s[i])
  {
    TrimStartEmptyIffBlank(s);
    var t := TrimStart(s);
    if t != [] {
      assert !IsSpace(t[0]);
      assert TrimEnd(t) != [] by { TrimEndKeepsFirst(t); }
    }
  }

  lemma {:induction false} TrimStartEmptyIffBlank(s: string)
    ensures TrimStart(s) == [] <==> forall i :: 0 <= i < |s| ==> IsSpace(s[i])
  {
    if |s| > 0 && IsSpace(s[0]) {
      TrimStartEmptyIffBlank(s[1..]);
      assert forall i :: 1 <= i < |s| ==> s[i] == s[1..][i - 1];
    }
  }

  lemma {:induction false} TrimEndKeepsFirst(t: string)
    requires t != [] && !IsSpace(t[0])
    ensures TrimEnd(t) != [] && TrimEnd(t)[0] == t[0]
  {
    if |t| > 0 && IsSpace(t[|t| - 1]) {
      TrimEndKeepsFirst(t[..|t| - 1]);
    }
  }

  /** Trimming twice changes nothing more. */
  lemma {:induction false} TrimIdempotent(s: string)
    ensures Trim(Trim(s)) == Trim(s)
  {
    var t := Trim(s);
    if t != [] {
      var u := TrimStart(s);
      TrimEndKeepsFirst(u);
      assert TrimStart(t) == t;
    }
  }

  /** ASCII `toLowerCase` of one character. */
  function LowerChar(c: char): char {
    if 'A' <= c <= 'Z' then (c as int + 32) as char else c
  }

  /** ASCII `toUpperCase` of one character. */
  function UpperChar(c: char): char {
    if 'a' <= c <= 'z' then (c as int - 32) as char else c
  }

  function Lower(s: string): (r: string)
    ensures |r| == |s|
    ensures forall i :: 0 <= i < |s| ==> r[i] == LowerChar(s[i])
  {
    seq(|s|, i requires 0 <= i < |s| => LowerChar(s[i]))
  }

  function Upper(s: string): (r: string)
    ensures |r| == |s|
    ensures forall i :: 0 <= i < |s| ==> r[i] == UpperChar(s[i])
  {
    seq(|s|, i requires 0 <= i < |s| => UpperChar(s[i]))
  }

  /** Lower-casing is idempotent, so comparing lower-cased text is stable. */
  lemma LowerIdempotent(s: string)
    ensures Lower(Lower(s)) == Lower(s)
  {
  }

  predicate StartsWith(s: string, p: string) {
    |p| <= |s| && s[..|p|] == p
  }

  /** `s.includes(p)`, searched from the left. */
  predicate Contains(s: string, p: string)
    decreases |s|
  {
    StartsWith(s, p) || (|s| > 0 && Contains(s[1..], p))
  }

  /** `p` occurs in `s` starting at index `i`. */
  predicate OccursAt(s: string, p: string, i: int) {
    0 <= i <= |s| - |p| && s[i..i + |p|] == p
  }

  /** `includes` holds exactly when `p` occurs at some position of `s`. */
  lemma {:induction false} ContainsIffOccurs(s: string, p: string)
    ensures Contains(s, p) <==> exists i :: OccursAt(s, p, i)
  {
    if StartsWith(s, p) {
      assert OccursAt(s, p, 0);
    } else if |s| > 0 {
      ContainsIffOccurs(s[1..], p);
      if Contains(s[1..], p) {
        var i :| OccursAt(s[1..], p, i);
        assert s[1..][i..i + |p|] == s[i + 1..i + 1 + |p|];
        assert OccursAt(s, p, i + 1);
      } else {
        forall i | OccursAt(s, p, i) ensures false {
          assert i != 0;
          assert s[1..][i - 1..i - 1 + |p|] == s[i..i + |p|];
          assert OccursAt(s[1..], p, i - 1);
        }
      }
    }
  }

  /** `s.split(sep)` for a one-character separator. */
  function Split(s: string, sep: char): (parts: seq<string>)
    ensures |parts| >= 1
    ensures forall k :: 0 <= k < |parts| ==> sep !in parts[k]
    decreases |s|
  {
    if |s| == 0 then [""]
    else
      var rest := Split(s[1..], sep);
      if s[0] == sep then [""] + rest else [[s[0]] + rest[0]] + rest[1..]
  }

  /** `parts.join(sep)`. */
  function Join(parts: seq<string>, sep: char): string
    requires |parts| >= 1
  {
    if |parts| == 1 then parts[0] else parts[0] + [sep] + Join(parts[1..], sep)
  }

  /** Splitting and joining on the same separator gives the text back. */
  lemma {:induction false} JoinSplit(s: string, sep: char)
    ensures Join(Split(s, sep), sep) == s
  {
    if |s| > 0 {
      var rest := Split(s[1..], sep);
      JoinSplit(s[1..], sep);
      if s[0] == sep {
        assert Split(s, sep)[1..] == rest;
      } else {
        var parts := Split(s, sep);
        if |rest| == 1 {
          assert parts == [[s[0]] + rest[0]];
        } else {
          assert parts[1..] == rest[1..];
          assert Join(rest, sep) == rest[0] + [sep] + Join(rest[1..], sep);
        }
      }
    }
  }

  /** `s.split(sep)` has two or more parts exactly when `sep` occurs in `s`. */
  lemma {:induction false} SplitCountsSeparator(s: string, sep: char)
    ensures |Split(s, sep)| >= 2 <==> sep in s
  {
    if |s| > 0 {
      SplitCountsSeparator(s[1..], sep);
      assert s == [s[0]] + s[1..];
    }
  }

  function Repeat(c: char, n: nat): (r: string)
    ensures |r| == n && forall i :: 0 <= i < n ==> r[i] == c
  {
    if n == 0 then [] else [c] + Repeat(c, n - 1)
  }

  /** `s.padStart(width, c)` with a one-character pad. */
  function PadStart(s: string, width: nat, c: char): (r: string)
    ensures |r| == if |s| < width then width else |s|
    ensures r[|r| - |s|..] == s
    ensures forall i :: 0 <= i < |r| - |s| ==> r[i] == c
  {
    if |s| < width then Repeat(c, width - |s|) + s else s
  }

  /** `s.replace(/\s+/g, '-')`: every maximal run of white space becomes one '-'. */
  function Slug(s: string): (r: string)
    decreases |s|
  {
    if |s| == 0 then []
    else if IsSpace(s[0]) then "-" + Slug(TrimStart(s))
    else [s[0]] + Slug(s[1..])
  }

  /** The slug contains no white space. */
  lemma {:induction false} SlugHasNoSpace(s: string)
    ensures forall i :: 0 <= i < |Slug(s)| ==> !IsSpace(Slug(s)[i])
    decreases |s|
  {
    if |s| > 0 {
      if IsSpace(s[0]) {
        SlugHasNoSpace(TrimStart(s));
        assert !IsSpace('-');
      } else {
        SlugHasNoSpace(s[1..]);
      }
    }
  }

  /** The slug is never longer than its input. */
  lemma {:induction false} SlugNoLonger(s: string)
    ensures |Slug(s)| <= |s|
    decreases |s|
  {
    if |s| > 0 {
      if IsSpace(s[0]) {
        SlugNoLonger(TrimStart(s));
      } else {
        SlugNoLonger(s[1..]);
      }
    }
  }

  /** Text without white space is its own slug. */
  lemma {:induction false} SlugOfSpaceless(s: string)
    requires forall i :: 0 <= i < |s| ==> !IsSpace(s[i])
    ensures Slug(s) == s
  {
    if |s| > 0 {
      assert forall i :: 0 <= i < |s[1..]| ==> s[1..][i] == s[i + 1];
      SlugOfSpaceless(s[1..]);
    }
  }

  /** The value of a hexadecimal or decimal digit, or -1. */
  function DigitValue(c: char, radix: nat): int {
    if '0' <= c <= '9' && (c as int) - 48 < radix then (c as int) - 48
    else if radix == 16 && 'a' <= c <= 'f' then (c as int) - 87
    else if radix == 16 && 'A' <= c <= 'F' then (c as int) - 55
    else -1
  }

  /** The number of leading characters of `s` that are digits in `radix`. */
  function DigitRun(s: string, radix: nat): (n: nat)
    ensures n <= |s|
    ensures forall i :: 0 <= i < n ==> DigitValue(s[i], radix) >= 0
    ensures n < |s| ==> DigitValue(s[n], radix) < 0
  {
    if |s| > 0 && DigitValue(s[0], radix) >= 0 then 1 + DigitRun(s[1..], radix) else 0
  }

  /** The number written by a run of digits, most significant first. */
  function DigitsValue(s: string, radix: nat): nat
    requires radix == 10 || radix == 16
    requires forall i :: 0 <= i < |s| ==> DigitValue(s[i], radix) >= 0
  {
    if |s| == 0 then 0
    else
      var high := DigitsValue(s[..|s| - 1], radix);
      (if radix == 16 then high * 16 else high * 10) + DigitValue(s[|s| - 1], radix)
  }

  /** The unsigned part of `parseInt`: a `0x`/`0X` prefix selects base 16;
      the longest run of digits is read and the rest ignored; no digits is NaN. */
  function ParseMagnitude(u: string): Option<nat> {
    var hex := |u| >= 2 && u[0] == '0' && (u[1] == 'x' || u[1] == 'X');
    var radix := if hex then 16 else 10;
    var body := if hex then u[2..] else u;
    var n := DigitRun(body, radix);
    if n == 0 then None else Some(DigitsValue(body[..n], radix))
  }

  /** `parseInt(s)` without a radix: leading white space is skipped, then an
      optional sign, then the magnitude. NaN is `None`. */
  function ParseInt(s: string): Option<int> {
    var t := TrimStart(s);
    var signed := |t| > 0 && (t[0] == '-' || t[0] == '+');
    match ParseMagnitude(if signed then t[1..] else t)
    case None => None
    case Some(m) => Some(if signed && t[0] == '-' then 0 - m else m)
  }

  /** `parseInt(x) || d` on an optional query-string value: NaN and 0 give `d`. */
  function ParseIntOr(o: Option<string>, d: int): int {
    if o.None? then d
    else match ParseInt(o.value)
      case Some(n) => if n != 0 then n else d
      case None => d
  }

  lemma {:induction false} DigitsValueOfNat(n: nat)
    ensures forall i :: 0 <= i < |NatToString(n)| ==> DigitValue(NatToString(n)[i], 10) >= 0
    ensures DigitRun(NatToString(n), 10) == |NatToString(n)|
    ensures DigitsValue(NatToString(n), 10) == n
  {
    var s := NatToString(n);
    assert forall i :: 0 <= i < |s| ==> DigitValue(s[i], 10) == (s[i] as int) - 48;
    DigitRunAll(s);
    if n >= 10 {
      DigitsValueOfNat(n / 10);
      assert s[..|s| - 1] == NatToString(n / 10);
    }
  }

  lemma {:induction false} DigitRunAll(s: string)
    requires forall i :: 0 <= i < |s| ==> IsDecimalDigit(s[i])
    ensures DigitRun(s, 10) == |s|
  {
    if |s| > 0 {
      assert DigitValue(s[0], 10) >= 0;
      DigitRunAll(s[1..]);
    }
  }

  lemma {:induction false} MagnitudeOfNatString(k: nat)
    ensures ParseMagnitude(NatToString(k)) == Some(k)
  {
    var d := NatToString(k);
    DigitsValueOfNat(k);
    assert !(|d| >= 2 && d[0] == '0');
    assert d[..|d|] == d;
  }

  /** A text that starts with a digit is read by `parseInt` as its magnitude. */
  lemma ParseIntOfDigits(d: string, m: nat)
    requires |d| > 0 && IsDecimalDigit(d[0]) && ParseMagnitude(d) == Some(m)
    ensures ParseInt(d) == Some(m)
  {
    assert !IsSpace(d[0]);
    TrimStartKeepsNonSpace(d);
  }

  /** A minus sign in front of a magnitude negates it. */
  lemma ParseIntOfNegated(d: string, m: nat)
    requires ParseMagnitude(d) == Some(m)
    ensures ParseInt("-" + d) == Some(0 - m)
  {
    var s := "-" + d;
    assert s[1..] == d;
    assert ParseMagnitude(s[1..]) == Some(m);
    TrimStartKeepsNonSpace(s);
  }

  /** Text that does not start with white space is left as it is by `trimStart`. */
  lemma TrimStartKeepsNonSpace(s: string)
    requires |s| > 0 && !IsSpace(s[0])
    ensures TrimStart(s) == s
  {
  }

  /** `parseInt(String(n)) == n`: the server reads back every id the client
      stringifies. */
  lemma ParseIntToString(n: int)
    ensures ParseInt(IntToString(n)) == Some(n)
  {
    if n >= 0 {
      var d := NatToString(n);
      assert IntToString(n) == d;
      MagnitudeOfNatString(n);
      ParseIntOfDigits(d, n);
    } else {
      var d := NatToString(-n);
      assert IntToString(n) == "-" + d;
      MagnitudeOfNatString(-n);
      ParseIntOfNegated(d, -n);
    }
  }

  /** `a.localeCompare(b)` stood in for by character (scalar value) order:
      negative, zero or positive as `a` sorts before, equal to or after `b`. */
  function CompareText(a: string, b: string): (c: int)
    ensures -1 <= c <= 1
    ensures c == 0 <==> a == b
  {
    if |a| == 0 && |b| == 0 then 0
    else if |a| == 0 then -1
    else if |b| == 0 then 1
    else if a[0] < b[0] then -1
    else if a[0] > b[0] then 1
    else
      var c := CompareText(a[1..], b[1..]);
      assert a == [a[0]] + a[1..] && b == [b[0]] + b[1..];
      c
  }

  /** Swapping the operands flips the sign. */
  lemma {:induction false} CompareTextAntisymmetric(a: string, b: string)
    ensures CompareText(a, b) == -CompareText(b, a)
  {
    if |a| > 0 && |b| > 0 && a[0] == b[0] {
      CompareTextAntisymmetric(a[1..], b[1..]);
    }
  }

  /** "Not after" is transitive. */
  lemma {:induction false} CompareTextTransitive(a: string, b: string, c: string)
    requires CompareText(a, b) <= 0 && CompareText(b, c) <= 0
    ensures CompareText(a, c) <= 0
  {
    if |a| > 0 && |b| > 0 && |c| > 0 && a[0] == b[0] && b[0] == c[0] {
      CompareTextTransitive(a[1..], b[1..], c[1..]);
    }
  }
}
