/** Values of the JavaScript runtime that the dashboard's rules depend on:
    possibly-absent strings and their truthiness, the string tests `startsWith`,
    `endsWith` and `includes`, `trim`, and the number conversions `parseInt`,
    `parseFloat` and `String(n)` for integers. */
module JsText {

  /** A value that may be `null`/`undefined` (None) or present (Some). */
  datatype Option<+T> = None | Some(value: T) {
    function GetOr(default: T): T {
      match this
      case Some(v) => v
      case None => default
    }
  }

  /** A possibly-absent string is truthy in JavaScript iff it is present and non-empty. */
  predicate Truthy(s: Option<string>) {
    s.Some? && s.value != ""
  }

  /** `a || b` on possibly-absent strings. */
  function Or(a: Option<string>, b: Option<string>): Option<string> {
    if Truthy(a) then a else b
  }

  /** `a || d` where the default `d` is a string literal. */
  function OrDefault(a: Option<string>, d: string): string {
    if Truthy(a) then a.value else d
  }

  predicate StartsWith(s: string, p: string) {
    |p| <= |s| && s[..|p|] == p
  }

  predicate EndsWith(s: string, p: string) {
    |p| <= |s| && s[|s| - |p|..] == p
  }

  /** Whether `p` occurs in `s` at index `i`. */
  predicate OccursAt(s: string, p: string, i: int) {
    0 <= i && i + |p| <= |s| && s[i..i + |p|] == p
  }

  /** `s.includes(p)`: scans `s` from the left for an occurrence of `p`. */
  function Includes(s: string, p: string): (r: bool)
    ensures r <==> exists i :: OccursAt(s, p, i)
    decreases |s|
  {
    if |s| < |p| then
      assert forall i :: !OccursAt(s, p, i);
      false
    else if s[..|p|] == p then
      assert OccursAt(s, p, 0);
      true
    else
      var rest := Includes(s[1..], p);
      assert forall i :: 1 <= i ==> (OccursAt(s, p, i) <==> OccursAt(s[1..], p, i - 1)) by {
        forall i | 1 <= i ensures OccursAt(s, p, i) <==> OccursAt(s[1..], p, i - 1) {
          if 1 <= i && i + |p| <= |s| {
            assert s[1..][i - 1..] == s[i..];
            assert s[1..][i - 1..i - 1 + |p|] == s[i..][..|p|] == s[i..i + |p|];
          }
        }
      }
      assert rest ==> exists i :: OccursAt(s, p, i) by {
        if rest {
          var j :| OccursAt(s[1..], p, j);
          assert OccursAt(s, p, j + 1);
        }
      }
      rest
  }

  /** `s.replace(/c+$/, "")`: `s` without the run of `c` at its end. */
  function StripTrailing(s: string, c: char): (r: string)
    ensures StartsWith(s, r)
    ensures forall i :: |r| <= i < |s| ==> s[i] == c
    ensures r != "" ==> r[|r| - 1] != c
  {
    if s != "" && s[|s| - 1] == c then StripTrailing(s[..|s| - 1], c) else s
  }

  /** The white-space characters that `trim` and the number parsers skip
      (ECMAScript's WhiteSpace and LineTerminator: the ASCII ones, no-break
      space, the Unicode space separators, the line and paragraph separators and
      the byte-order mark). */
  predicate IsSpace(c: char) {
    c == ' ' || c == '\t' || c == '\n' || c == '\r' || c == '\U{000B}' || c == '\U{000C}'
    || c == '\U{00A0}' || c == '\U{1680}' || ('\U{2000}' <= c <= '\U{200A}')
    || c == '\U{2028}' || c == '\U{2029}' || c == '\U{202F}' || c == '\U{205F}'
    || c == '\U{3000}' || c == '\U{FEFF}'
  }

  /** `s` without its leading white space. */
  function TrimStart(s: string): string {
    if s != "" && IsSpace(s[0]) then TrimStart(s[1..]) else s
  }

  lemma {:induction false} TrimStartSpec(s: string)
    ensures |TrimStart(s)| <= |s| && TrimStart(s) == s[|s| - |TrimStart(s)|..]
    ensures forall i :: 0 <= i < |s| - |TrimStart(s)| ==> IsSpace(s[i])
    ensures TrimStart(s) != "" ==> !IsSpace(TrimStart(s)[0])
  {
    if s != "" && IsSpace(s[0]) {
      var t := s[1..];
      TrimStartSpec(t);
      assert TrimStart(s) == TrimStart(t);
      assert t[|t| - |TrimStart(t)|..] == s[|s| - |TrimStart(s)|..];
      forall i | 1 <= i < |s| - |TrimStart(s)|
        ensures IsSpace(s[i])
      {
        assert s[i] == t[i - 1];
      }
    }
  }

  /** `s` without its trailing white space. */
  function TrimEnd(s: string): string {
    if s != "" && IsSpace(s[|s| - 1]) then TrimEnd(s[..|s| - 1]) else s
  }

  lemma {:induction false} TrimEndSpec(s: string)
    ensures |TrimEnd(s)| <= |s| && TrimEnd(s) == s[..|TrimEnd(s)|]
    ensures forall i :: |TrimEnd(s)| <= i < |s| ==> IsSpace(s[i])
    ensures TrimEnd(s) != "" ==> !IsSpace(TrimEnd(s)[|TrimEnd(s)| - 1])
  {
    if s != "" && IsSpace(s[|s| - 1]) {
      TrimEndSpec(s[..|s| - 1]);
    }
  }

  /** `r` is `s` with `i` characters of white space cut from the front and
      only white space cut from the back. */
  predicate TrimmedAt(s: string, r: string, i: int) {
    0 <= i <= |s| - |r| && r == s[i..i + |r|]
    && (forall k :: 0 <= k < i ==> IsSpace(s[k]))
    && (forall k :: i + |r| <= k < |s| ==> IsSpace(s[k]))
  }

  /** `s.trim()`. */
  function Trim(s: string): string {
    TrimEnd(TrimStart(s))
  }

  /** `s.trim()` is `s` without its leading and trailing white space. */
  lemma TrimSpec(s: string)
    ensures exists i :: TrimmedAt(s, Trim(s), i)
    ensures Trim(s) != "" ==> !IsSpace(Trim(s)[0]) && !IsSpace(Trim(s)[|Trim(s)| - 1])
  {
    var t := TrimStart(s);
    var r := TrimEnd(t);
    TrimStartSpec(s);
    TrimEndSpec(t);
    var i := |s| - |t|;
    assert Trim(s) == r;
    assert r == s[i..i + |r|];
    assert TrimmedAt(s, r, i);
  }

  predicate IsDigit(c: char) {
    '0' <= c <= '9'
  }

  predicate AllDigits(s: string) {
    forall i :: 0 <= i < |s| ==> IsDigit(s[i])
  }

  function DigitValue(c: char): (d: nat)
    requires IsDigit(c)
    ensures d < 10
  {
    (c as int) - ('0' as int)
  }

  function DigitChar(d: nat): (c: char)
    requires d < 10
    ensures IsDigit(c) && DigitValue(c) == d
  {
    (('0' as int) + d) as char
  }

  /** The longest prefix of `s` made of decimal digits. */
  function LeadingDigits(s: string): (r: string)
    ensures |r| <= |s|
  {
    if s != "" && IsDigit(s[0]) then [s[0]] + LeadingDigits(s[1..]) else ""
  }

  lemma {:induction false} LeadingDigitsSpec(s: string)
    ensures StartsWith(s, LeadingDigits(s)) && AllDigits(LeadingDigits(s))
    ensures |LeadingDigits(s)| < |s| ==> !IsDigit(s[|LeadingDigits(s)|])
  {
    if s != "" && IsDigit(s[0]) {
      var t := LeadingDigits(s[1..]);
      LeadingDigitsSpec(s[1..]);
      assert s[..|t| + 1] == [s[0]] + t;
    }
  }

  /** The value of a run of decimal digits, most significant first. */
  function DigitsValue(ds: string): nat {
    if ds == [] then 0
    else
      var c := ds[|ds| - 1];
      10 * DigitsValue(ds[..|ds| - 1]) + (if IsDigit(c) then DigitValue(c) else 0)
  }

  /** `parseInt(s, 10)`: leading white space, an optional sign, then the longest
      run of decimal digits; None stands for NaN (no digit at all). */
  function ParseInt(s: string): Option<int> {
    var t := TrimStart(s);
    var negative := t != "" && t[0] == '-';
    var body := if t != "" && (t[0] == '-' || t[0] == '+') then t[1..] else t;
    var ds := LeadingDigits(body);
    if ds == "" then None
    else
      var v: int := DigitsValue(ds);
      Some(if negative then -v else v)
  }

  /** `String(n)` for a natural number: its decimal digits without leading zeros. */
  function NatToString(n: nat): string {
    if n < 10 then [DigitChar(n)] else NatToString(n / 10) + [DigitChar(n % 10)]
  }

  lemma {:induction false} NatToStringDigits(n: nat)
    ensures NatToString(n) != "" && AllDigits(NatToString(n))
  {
    if n >= 10 {
      NatToStringDigits(n / 10);
    }
  }

  /** `String(n)` for an integer. */
  function IntToString(n: int): string {
    if n < 0 then "-" + NatToString(-n) else NatToString(n)
  }

  lemma {:induction false} NatToStringValue(n: nat)
    ensures DigitsValue(NatToString(n)) == n
  {
    var r := NatToString(n);
    if n >= 10 {
      NatToStringValue(n / 10);
      assert r[..|r| - 1] == NatToString(n / 10);
    }
  }

  lemma {:induction false} LeadingDigitsOfDigits(s: string)
    requires AllDigits(s)
    ensures LeadingDigits(s) == s
  {
    if s != "" {
      LeadingDigitsOfDigits(s[1..]);
    }
  }

  /** The sign and digit run that `ParseInt` and `ParseFloat` read from `String(n)`. */
  lemma {:induction false} IntToStringParts(n: int)
    ensures var t := TrimStart(IntToString(n));
            var body := if t != "" && (t[0] == '-' || t[0] == '+') then t[1..] else t;
            && (t != "" && t[0] == '-') == (n < 0)
            && body == NatToString(if n < 0 then -n else n)
  {
    var m: nat := if n < 0 then -n else n;
    var digits := NatToString(m);
    NatToStringDigits(m);
    assert !IsSpace(digits[0]) && digits[0] != '-' && digits[0] != '+';
    if n < 0 {
      var s := "-" + digits;
      assert s[0] == '-';
      assert TrimStart(s) == s;
      assert s[1..] == digits;
    } else {
      assert TrimStart(digits) == digits;
    }
  }

  /** Reading back what `String(n)` wrote gives `n`: the round trip that the
      barcode merge relies on when it stores `(q + 1).toString()`. */
  lemma ParseIntOfIntToString(n: int)
    ensures ParseInt(IntToString(n)) == Some(n)
  {
    var m: nat := if n < 0 then -n else n;
    IntToStringParts(n);
    NatToStringValue(m);
    NatToStringDigits(m);
    LeadingDigitsOfDigits(NatToString(m));
  }

  /** `"+" + String(n)` also reads back as `n`: `parseInt` accepts a plus sign. */
  lemma ParseIntOfPlus(n: nat)
    ensures ParseInt("+" + NatToString(n)) == Some(n)
  {
    var digits := NatToString(n);
    var s := "+" + digits;
    assert s[0] == '+' && !IsSpace(s[0]);
    assert TrimStart(s) == s;
    assert s[1..] == digits;
    NatToStringValue(n);
    NatToStringDigits(n);
    LeadingDigitsOfDigits(digits);
  }

  /** `parts.join(sep)`. */
  function Join(parts: seq<string>, sep: string): (r: string)
    ensures parts == [] ==> r == ""
    ensures parts != [] ==> StartsWith(r, parts[0])
    ensures |parts| == 1 ==> r == parts[0]
  {
    if parts == [] then ""
    else if |parts| == 1 then parts[0]
    else
      var r := parts[0] + sep + Join(parts[1..], sep);
      assert r[..|parts[0]|] == parts[0];
      r
  }

  /** Where part `k` starts in `Join(parts, sep)`: after each earlier part and its separator. */
  function Offset(parts: seq<string>, sep: string, k: nat): nat
    requires k <= |parts|
  {
    if k == 0 then 0 else |parts[0]| + |sep| + Offset(parts[1..], sep, k - 1)
  }

  /** `part` stands at `o` in `x`, followed by `sep` when `more`, and ends `x` otherwise. */
  predicate PlacedAt(x: string, o: nat, part: string, sep: string, more: bool) {
    && o + |part| <= |x| && x[o..o + |part|] == part
    && (more ==> o + |part| + |sep| <= |x| && x[o + |part|..o + |part| + |sep|] == sep)
    && (!more ==> |x| == o + |part|)
  }

  /** `join` lays the parts out in order: part `k` sits at `Offset(parts, sep, k)`,
      a separator follows every part but the last, and nothing follows the last. */
  lemma {:induction false} JoinParts(parts: seq<string>, sep: string, k: nat)
    requires k < |parts|
    ensures PlacedAt(Join(parts, sep), Offset(parts, sep, k), parts[k], sep, k < |parts| - 1)
  {
    if k == 0 {
      JoinFirstPart(parts, sep);
    } else {
      JoinParts(parts[1..], sep, k - 1);
      JoinLaterPart(parts, sep, k);
    }
  }

  lemma JoinFirstPart(parts: seq<string>, sep: string)
    requires parts != []
    ensures PlacedAt(Join(parts, sep), 0, parts[0], sep, 1 < |parts|)
  {
    var a := parts[0];
    if |parts| == 1 {
      assert a[0..|a|] == a;
    } else {
      var x := Join(parts, sep);
      assert x == a + sep + Join(parts[1..], sep);
      assert x[0..|a|] == a;
      assert x[|a|..|a| + |sep|] == sep;
    }
  }

  lemma JoinLaterPart(parts: seq<string>, sep: string, k: nat)
    requires 0 < k < |parts|
    requires PlacedAt(Join(parts[1..], sep), Offset(parts[1..], sep, k - 1), parts[1..][k - 1], sep, k - 1 < |parts[1..]| - 1)
    ensures PlacedAt(Join(parts, sep), Offset(parts, sep, k), parts[k], sep, k < |parts| - 1)
  {
    var head, tail := parts[0] + sep, Join(parts[1..], sep);
    var o' := Offset(parts[1..], sep, k - 1);
    assert parts[1..][k - 1] == parts[k];
    PlacedAfter(head, tail, o', parts[k], sep, k < |parts| - 1);
    assert Join(parts, sep) == head + tail;
    assert Offset(parts, sep, k) == |head| + o';
  }

  /** A part placed at `o` in `tail` is placed the same way at `|head| + o` in `head + tail`. */
  lemma PlacedAfter(head: string, tail: string, o: nat, part: string, sep: string, more: bool)
    requires PlacedAt(tail, o, part, sep, more)
    ensures PlacedAt(head + tail, |head| + o, part, sep, more)
  {
    var x, q := head + tail, |head| + o;
    assert x[q..q + |part|] == tail[o..o + |part|];
    if more {
      assert x[q + |part|..q + |part| + |sep|] == tail[o + |part|..o + |part| + |sep|];
    }
  }

  /** The sum of a list of integers, added from the left as `reduce` does. */
  function SumInts(xs: seq<int>): int {
    if xs == [] then 0 else SumInts(xs[..|xs| - 1]) + xs[|xs| - 1]
  }

  function Pow10(k: nat): (p: nat)
    ensures p >= 1
  {
    if k == 0 then 1 else 10 * Pow10(k - 1)
  }

  /** `parseFloat(s)` for decimal notation: leading white space, an optional sign,
      digits with an optional fractional part; None stands for NaN. */
  function ParseFloat(s: string): Option<real> {
    var t := TrimStart(s);
    var negative := t != "" && t[0] == '-';
    var body := if t != "" && (t[0] == '-' || t[0] == '+') then t[1..] else t;
    match UnsignedFloat(body)
    case None => None
    case Some(magnitude) => Some(if negative then -magnitude else magnitude)
  }

  /** The number that `parseFloat` reads after the sign: a run of digits, then
      optionally `.` and a run of digits; None when neither run has a digit. */
  function UnsignedFloat(body: string): Option<real> {
    var whole := LeadingDigits(body);
    var afterWhole := body[|whole|..];
    var fraction := if afterWhole != "" && afterWhole[0] == '.' then LeadingDigits(afterWhole[1..]) else "";
    if whole == "" && fraction == "" then None
    else Some(DigitsValue(whole) as real + DigitsValue(fraction) as real / Pow10(|fraction|) as real)
  }

  /** Integers written by `String(n)` read back through `parseFloat` unchanged. */
  lemma ParseFloatOfIntToString(n: int)
    ensures ParseFloat(IntToString(n)) == Some(n as real)
  {
    var m: nat := if n < 0 then -n else n;
    IntToStringParts(n);
    NatToStringValue(m);
    NatToStringDigits(m);
    ParseFloatOfDigits(IntToString(n), n < 0, NatToString(m));
  }

  /** A text that is, after leading white space and an optional sign, only
      decimal digits reads through `parseFloat` as their value with that sign. */
  lemma ParseFloatOfDigits(s: string, negative: bool, digits: string)
    requires digits != "" && AllDigits(digits)
    requires var t := TrimStart(s);
      && (t != "" && t[0] == '-') == negative
      && (if t != "" && (t[0] == '-' || t[0] == '+') then t[1..] else t) == digits
    ensures ParseFloat(s) == Some(if negative then -(DigitsValue(digits) as real) else DigitsValue(digits) as real)
  {
    UnsignedFloatOfDigits(digits);
  }

  lemma UnsignedFloatOfDigits(digits: string)
    requires digits != "" && AllDigits(digits)
    ensures UnsignedFloat(digits) == Some(DigitsValue(digits) as real)
  {
    LeadingDigitsOfDigits(digits);
    assert digits[|digits|..] == "";
  }
}
