/** The JavaScript built-ins the backend services lean on, with the semantics
    they have in JavaScript: substring search (`includes`, `indexOf`),
    `toLowerCase` (on ASCII letters), `trim`, `split`/`join`, `parseInt`, `Math.round` of a
    ratio and `Math.ceil` of a quotient, and number-to-string conversion. */
module Js {

  datatype Option<+T> = None | Some(value: T)

  /** A thrown JavaScript error, reduced to its message. */
  datatype Result<+T> = Ok(value: T) | Err(message: string)

  // ---------------------------------------------------------------------
  // Characters and case

  /** `toLowerCase` on one character (ASCII letters only). */
  function LowerChar(c: char): char {
    if 'A' <= c <= 'Z' then (c as int - 'A' as int + 'a' as int) as char else c
  }

  function ToLower(s: string): (r: string)
    ensures |r| == |s|
  {
    seq(|s|, i requires 0 <= i < |s| => LowerChar(s[i]))
  }

  /** The characters `String.prototype.trim` removes: white space and line terminators. */
  predicate IsSpace(c: char) {
    c in {' ', '\t', '\n', '\r', '\U{B}', '\U{C}', '\U{A0}', '\U{1680}', '\U{2028}',
          '\U{2029}', '\U{202F}', '\U{205F}', '\U{3000}', '\U{FEFF}'}
    || '\U{2000}' <= c <= '\U{200A}'
  }

  function TrimStart(s: string): (r: string)
    ensures |r| <= |s| && r == s[|s| - |r|..]
    ensures r == [] || !IsSpace(r[0])
    ensures forall i :: 0 <= i < |s| - |r| ==> IsSpace(s[i])
  {
    if s != [] && IsSpace(s[0]) then TrimStart(s[1..]) else s
  }

  function TrimEnd(s: string): (r: string)
    ensures |r| <= |s| && r == s[..|r|]
    ensures r == [] || !IsSpace(r[|r| - 1])
    ensures forall i :: |r| <= i < |s| ==> IsSpace(s[i])
  {
    if s != [] && IsSpace(s[|s| - 1]) then TrimEnd(s[..|s| - 1]) else s
  }

  function Trim(s: string): (r: string)
  {
    TrimEnd(TrimStart(s))
  }

  /** `trim` leaves no white space at either end, and a trimmed string is its own trim. */
  lemma TrimIsClean(s: string)
    ensures Trim(s) == [] || (!IsSpace(Trim(s)[0]) && !IsSpace(Trim(s)[|Trim(s)| - 1]))
    ensures Trim(Trim(s)) == Trim(s)
  {
    var t := TrimStart(s);
    var r := TrimEnd(t);
    if r != [] {
      assert r[0] == t[0];
    }
  }

  /** Nothing but white space. */
  predicate IsBlank(s: string) {
    forall i :: 0 <= i < |s| ==> IsSpace(s[i])
  }

  /** `s.trim() === ""` exactly when `s` is nothing but white space. */
  lemma TrimEmptyIffBlank(s: string)
    ensures Trim(s) == "" <==> IsBlank(s)
  {
    var t := TrimStart(s);
    if t != [] {
      assert !IsSpace(s[|s| - |t|]);
    }
  }

  // ---------------------------------------------------------------------
  // Substrings

  predicate StartsWith(s: string, prefix: string) {
    |prefix| <= |s| && s[..|prefix|] == prefix
  }

  /** An occurrence of `sub` in `s` at position `i`. */
  predicate OccursAt(s: string, sub: string, i: int) {
    0 <= i && i + |sub| <= |s| && s[i..i + |sub|] == sub
  }

  /** `s.indexOf(sub)`: the first position at which `sub` occurs. */
  function IndexOf(s: string, sub: string): (r: Option<nat>)
    ensures r.Some? ==> OccursAt(s, sub, r.value)
    ensures r.Some? ==> forall j :: 0 <= j < r.value ==> !OccursAt(s, sub, j)
    ensures r.None? ==> forall j :: !OccursAt(s, sub, j)
    decreases |s|
  {
    if |s| < |sub| then None
    else if s[..|sub|] == sub then Some(0)
    else
      OccursShift(s, sub);
      match IndexOf(s[1..], sub)
      case None => None
      case Some(k) => Some(k + 1)
  }

  /** An occurrence past the first position is one in the tail, one place earlier. */
  lemma OccursShift(s: string, sub: string)
    requires |s| > 0
    ensures forall j :: 0 < j ==> (OccursAt(s, sub, j) <==> OccursAt(s[1..], sub, j - 1))
  {
    forall j | 0 < j
      ensures OccursAt(s, sub, j) <==> OccursAt(s[1..], sub, j - 1)
    {
      if j + |sub| <= |s| {
        var here := s[j..j + |sub|];
        var there := s[1..][j - 1..j - 1 + |sub|];
        assert forall t :: 0 <= t < |sub| ==> here[t] == there[t];
        assert here == there;
      }
    }
  }

  /** `s.includes(sub)`. */
  predicate Contains(s: string, sub: string) {
    IndexOf(s, sub).Some?
  }

  /** `includes` is exactly "occurs somewhere". */
  lemma ContainsIff(s: string, sub: string)
    ensures Contains(s, sub) <==> exists i :: OccursAt(s, sub, i)
  {
  }

  lemma ContainsAt(s: string, sub: string, i: int)
    requires OccursAt(s, sub, i)
    ensures Contains(s, sub)
  {
  }

  /** A word contains each of its prefixes, so a text containing the word contains them too. */
  lemma ContainsPrefix(s: string, word: string, n: nat)
    requires n <= |word|
    ensures Contains(s, word) ==> Contains(s, word[..n])
  {
    if Contains(s, word) {
      ContainsIff(s, word);
      var i :| OccursAt(s, word, i);
      assert s[i..i + n] == s[i..i + |word|][..n];
      ContainsAt(s, word[..n], i);
    }
  }

  /** `a.toLowerCase().includes(b.toLowerCase())`. */
  predicate Mentions(text: string, wanted: string) {
    Contains(ToLower(text), ToLower(wanted))
  }

  /** Whether any of `words` occurs in `s` (`words.some(w => s.includes(w))`). */
  predicate ContainsAny(s: string, words: seq<string>) {
    exists i :: 0 <= i < |words| && Contains(s, words[i])
  }

  // ---------------------------------------------------------------------
  // split / join

  /** `s.split(sep)` for a non-empty separator. */
  function Split(s: string, sep: string): (parts: seq<string>)
    requires |sep| > 0
    ensures |parts| >= 1
    ensures forall k :: 0 <= k < |parts| ==> !Contains(parts[k], sep)
    decreases |s|
  {
    match IndexOf(s, sep)
    case None => [s]
    case Some(i) =>
      var head := s[..i];
      assert forall j :: OccursAt(head, sep, j) ==> OccursAt(s, sep, j);
      [head] + Split(s[i + |sep|..], sep)
  }

  /** `parts.join(sep)`. */
  function Join(parts: seq<string>, sep: string): string {
    if |parts| == 0 then ""
    else if |parts| == 1 then parts[0]
    else parts[0] + sep + Join(parts[1..], sep)
  }

  /** Splitting and joining again gives back the original string: the
      comma-separated selector list and its candidate list carry the same
      information. */
  lemma {:induction false} JoinSplit(s: string, sep: string)
    requires |sep| > 0
    ensures Join(Split(s, sep), sep) == s
    decreases |s|
  {
    match IndexOf(s, sep)
    case None =>
    case Some(i) =>
      var rest := s[i + |sep|..];
      var tail := Split(rest, sep);
      assert Split(s, sep) == [s[..i]] + tail;
      JoinSplit(rest, sep);
      assert Join([s[..i]] + tail, sep) == s[..i] + sep + Join(tail, sep) by {
        assert ([s[..i]] + tail)[1..] == tail;
      }
      assert s == s[..i] + sep + rest;
  }

  // ---------------------------------------------------------------------
  // parseInt

  /** The value of a digit character in any radix up to 36 (36 for a non-digit). */
  function DigitValue(c: char): nat {
    if '0' <= c <= '9' then c as int - '0' as int
    else if 'a' <= c <= 'z' then c as int - 'a' as int + 10
    else if 'A' <= c <= 'Z' then c as int - 'A' as int + 10
    else 36
  }

  /** The longest prefix of `s` made of digits of the radix. */
  function DigitPrefix(s: string, radix: nat): (ds: string)
    ensures |ds| <= |s| && ds == s[..|ds|]
    ensures forall i :: 0 <= i < |ds| ==> DigitValue(ds[i]) < radix
    ensures |ds| == |s| || DigitValue(s[|ds|]) >= radix
  {
    if s != [] && DigitValue(s[0]) < radix then [s[0]] + DigitPrefix(s[1..], radix) else []
  }

  /** The number a digit string denotes, most significant digit first. */
  function DigitsValue(ds: string, radix: nat): nat {
    if ds == [] then 0
    else DigitsValue(ds[..|ds| - 1], radix) * radix + DigitValue(ds[|ds| - 1])
  }

  /** `parseInt(s)` with no radix: leading white space, an optional sign, a
      `0x`/`0X` prefix selecting radix 16, then the longest run of digits;
      `None` is `NaN` (no digits at all). */
  function ParseInt(s: string): Option<int>
  {
    var t := TrimStart(s);
    var negative := |t| > 0 && t[0] == '-';
    var unsigned := if |t| > 0 && (t[0] == '-' || t[0] == '+') then t[1..] else t;
    var hex := |unsigned| >= 2 && unsigned[0] == '0' && (unsigned[1] == 'x' || unsigned[1] == 'X');
    var radix := if hex then 16 else 10;
    var body := if hex then unsigned[2..] else unsigned;
    var ds := DigitPrefix(body, radix);
    var v: int := DigitsValue(ds, radix);
    if |ds| == 0 then None else Some(if negative then -v else v)
  }

  /** `parseInt(s) || fallback`: `NaN` and `0` are both falsy. */
  function ParseIntOr(s: string, fallback: int): (r: int)
    ensures r == fallback || ParseInt(s) == Some(r)
    ensures ParseInt(s).Some? && ParseInt(s).value != 0 ==> r == ParseInt(s).value
    ensures ParseInt(s).None? || ParseInt(s) == Some(0) ==> r == fallback
    ensures r != 0 || fallback == 0
  {
    match ParseInt(s)
    case Some(n) => if n != 0 then n else fallback
    case None => fallback
  }

  /** A plain decimal numeral parses to its value. */
  lemma {:induction false} ParseDecimal(ds: string)
    requires |ds| > 0
    requires forall i :: 0 <= i < |ds| ==> '0' <= ds[i] <= '9'
    ensures ParseInt(ds) == Some(DigitsValue(ds, 10))
  {
    DigitNotSpace(ds[0]);
    assert TrimStart(ds) == ds;
    assert ds[0] != '-' && ds[0] != '+';
    var hex := |ds| >= 2 && ds[0] == '0' && (ds[1] == 'x' || ds[1] == 'X');
    assert !hex by {
      if |ds| >= 2 {
        assert '0' <= ds[1] <= '9';
      }
    }
    DigitPrefixAll(ds, 10);
  }

  lemma DigitNotSpace(c: char)
    requires '0' <= c <= '9'
    ensures !IsSpace(c)
  {
    assert c !in {' ', '\t', '\n', '\r', '\U{B}', '\U{C}', '\U{A0}', '\U{1680}', '\U{2028}',
                  '\U{2029}', '\U{202F}', '\U{205F}', '\U{3000}', '\U{FEFF}'};
  }

  lemma {:induction false} DigitPrefixAll(s: string, radix: nat)
    requires forall i :: 0 <= i < |s| ==> DigitValue(s[i]) < radix
    ensures DigitPrefix(s, radix) == s
    decreases |s|
  {
    if s != [] {
      DigitPrefixAll(s[1..], radix);
    }
  }

  // ---------------------------------------------------------------------
  // Numbers to strings

  function DigitChar(d: nat): char
    requires d < 10
  {
    ('0' as int + d) as char
  }

  /** `String(n)` for a natural number. */
  function NatToString(n: nat): (s: string)
    ensures |s| > 0
    ensures forall i :: 0 <= i < |s| ==> '0' <= s[i] <= '9'
    ensures DigitsValue(s, 10) == n
  {
    if n < 10 then
      assert DigitsValue([DigitChar(n)], 10) == DigitsValue([], 10) * 10 + n;
      [DigitChar(n)]
    else
      var s := NatToString(n / 10) + [DigitChar(n % 10)];
      assert s[..|s| - 1] == NatToString(n / 10);
      s
  }

  /** `parseInt(String(n)) == n`: printing a natural number and parsing it back gives it again. */
  lemma ParseIntNatToString(n: nat)
    ensures ParseInt(NatToString(n)) == Some(n)
  {
    ParseDecimal(NatToString(n));
  }

  /** `String(i)` for an integer. */
  function IntToString(i: int): string {
    if i < 0 then "-" + NatToString(-i) else NatToString(i)
  }

  // ---------------------------------------------------------------------
  // Rounding and ceiling

  /** `Math.round(a / b)` for a positive divisor: the nearest integer, halves rounded up. */
  function RoundDiv(a: int, b: int): (r: int)
    requires b > 0
    ensures 2 * b * r <= 2 * a + b < 2 * b * r + 2 * b
  {
    (2 * a + b) / (2 * b)
  }

  /** `Math.round((part / whole) * 100)` with the quotient taken exactly, not
      as a double: `None` is the `NaN` that `0 / 0` produces when there is
      nothing to count. */
  function PercentAsWritten(part: nat, whole: nat): (r: Option<int>)
    ensures r.None? <==> whole == 0
  {
    if whole == 0 then None else Some(RoundDiv(100 * part, whole))
  }

  /** The success rate as intended: the rounded percentage, and 0 when the whole is empty. */
  function Percent(part: nat, whole: nat): (r: nat)
    requires part <= whole
    ensures r <= 100
    ensures whole == 0 ==> r == 0
    ensures whole > 0 ==> PercentAsWritten(part, whole) == Some(r)
    ensures part == whole && whole > 0 ==> r == 100
    ensures part == 0 ==> r == 0
  {
    if whole == 0 then 0
    else
      var r := RoundDiv(100 * part, whole);
      PercentBounds(part, whole, r);
      r
  }

  lemma PercentBounds(part: nat, whole: nat, r: int)
    requires 0 < whole && part <= whole
    requires 2 * whole * r <= 200 * part + whole < 2 * whole * r + 2 * whole
    ensures 0 <= r <= 100
    ensures part == whole ==> r == 100
    ensures part == 0 ==> r == 0
  {
    if r < 0 {
      MulMono(2 * whole, r, -1);
      assert false;
    }
    if r > 100 {
      MulMono(2 * whole, 101, r);
      assert false;
    }
    if part == whole && r < 100 {
      MulMono(2 * whole, r, 99);
      assert false;
    }
    if part == 0 && r > 0 {
      MulMono(2 * whole, 1, r);
      assert false;
    }
  }

  lemma MulMono(k: int, x: int, y: int)
    requires k >= 0 && x <= y
    ensures k * x <= k * y
  {
  }

  /** `Math.ceil(a / b)` for a non-zero divisor. */
  function CeilDiv(a: nat, b: int): (r: int)
    requires b != 0
    ensures b > 0 ==> (r - 1) * b < a <= r * b
    ensures b > 0 ==> (r == 0 <==> a == 0)
  {
    if b > 0 then (a + b - 1) / b else -(a / -b)
  }
}
