/** String operations of the JavaScript runtime that the dashboard relies on: case mapping,
    `includes`, `trim`, character replacement, `String(n)` of an integer, and the
    application/x-www-form-urlencoded serializer behind `URLSearchParams.toString()`. */
module Text {

  predicate IsUpperAscii(c: char) { 'A' <= c <= 'Z' }
  predicate IsLowerAscii(c: char) { 'a' <= c <= 'z' }
  predicate IsDigit(c: char) { '0' <= c <= '9' }

  function LowerChar(c: char): char {
    if IsUpperAscii(c) then (c as int - 'A' as int + 'a' as int) as char else c
  }

  function UpperChar(c: char): char {
    if IsLowerAscii(c) then (c as int - 'a' as int + 'A' as int) as char else c
  }

  /** `s.toLowerCase()` on ASCII letters. */
  function Lower(s: string): (r: string)
    ensures |r| == |s|
    ensures forall i :: 0 <= i < |s| ==> r[i] == LowerChar(s[i])
    ensures forall i :: 0 <= i < |r| ==> !IsUpperAscii(r[i])
  {
    seq(|s|, i requires 0 <= i < |s| => LowerChar(s[i]))
  }

  lemma LowerIdempotent(s: string)
    ensures Lower(Lower(s)) == Lower(s)
  {
    assert forall i :: 0 <= i < |s| ==> LowerChar(LowerChar(s[i])) == LowerChar(s[i]);
  }

  lemma LowerConcat(a: string, b: string)
    ensures Lower(a + b) == Lower(a) + Lower(b)
  {
  }

  /** `s.includes(q)`: `q` occurs in `s` as a contiguous substring. */
  predicate Includes(s: string, q: string)
    decreases |s|
  {
    q <= s || (s != [] && Includes(s[1..], q))
  }

  /** Every string includes the empty string; so an empty search matches everything. */
  lemma EmptyIncluded(s: string)
    ensures Includes(s, "")
  {
  }

  /** A string occurring at position k of `s` is included in `s`. */
  lemma {:induction false} IncludesAt(s: string, q: string, k: nat)
    requires k + |q| <= |s| && s[k..k + |q|] == q
    ensures Includes(s, q)
  {
    if k == 0 {
      assert q <= s;
    } else {
      assert s[1..][k - 1..k - 1 + |q|] == q;
      IncludesAt(s[1..], q, k - 1);
    }
  }

  /** An included string occurs at some position. */
  lemma {:induction false} IncludesWitness(s: string, q: string) returns (k: nat)
    requires Includes(s, q)
    ensures k + |q| <= |s| && s[k..k + |q|] == q
    decreases |s|
  {
    if q <= s {
      k := 0;
    } else {
      var k' := IncludesWitness(s[1..], q);
      k := k' + 1;
      assert s[k..k + |q|] == s[1..][k'..k' + |q|];
    }
  }

  /** A character that `String.prototype.trim` removes: WhiteSpace or LineTerminator in the
      ECMAScript grammar (tab, vertical tab, form feed, space, no-break space, the byte order
      mark, the space separators of Unicode category Zs, line feed, carriage return, and the
      line and paragraph separators). */
  predicate IsWhitespace(c: char) {
    c == '\t' || c == '\n' || c == '\r' || c == ' ' ||
    c == '\U{000B}' || c == '\U{000C}' || c == '\U{00A0}' || c == '\U{1680}' ||
    ('\U{2000}' <= c <= '\U{200A}') || c == '\U{2028}' || c == '\U{2029}' ||
    c == '\U{202F}' || c == '\U{205F}' || c == '\U{3000}' || c == '\U{FEFF}'
  }

  function TrimStart(s: string): (r: string)
    ensures |r| <= |s| && r == s[|s| - |r|..]
    ensures r == [] || !IsWhitespace(r[0])
    ensures forall i :: 0 <= i < |s| - |r| ==> IsWhitespace(s[i])
  {
    if s != [] && IsWhitespace(s[0]) then TrimStart(s[1..]) else s
  }

  function TrimEnd(s: string): (r: string)
    ensures |r| <= |s| && r == s[..|r|]
    ensures r == [] || !IsWhitespace(r[|r| - 1])
    ensures forall i :: |r| <= i < |s| ==> IsWhitespace(s[i])
  {
    if s != [] && IsWhitespace(s[|s| - 1]) then TrimEnd(s[..|s| - 1]) else s
  }

  /** `s.trim()`: `s` without its leading and trailing whitespace. */
  function Trim(s: string): (r: string)
    ensures |r| <= |s|
    ensures r == [] || (!IsWhitespace(r[0]) && !IsWhitespace(r[|r| - 1]))
    ensures r == [] <==> forall i :: 0 <= i < |s| ==> IsWhitespace(s[i])
  {
    var t := TrimStart(s);
    var r := TrimEnd(t);
    assert r != [] ==> r[0] == t[0];
    r
  }

  /** Trimming a second time changes nothing. */
  lemma TrimIdempotent(s: string)
    ensures Trim(Trim(s)) == Trim(s)
  {
    var t := Trim(s);
    assert TrimStart(t) == t;
    assert TrimEnd(t) == t;
  }

  /** `s.replace(/x/g, y)` for single characters: every `x` becomes `y`. */
  function ReplaceAll(s: string, x: char, y: char): (r: string)
    ensures |r| == |s|
    ensures forall i :: 0 <= i < |s| ==> r[i] == (if s[i] == x then y else s[i])
    ensures x != y ==> x !in r
  {
    seq(|s|, i requires 0 <= i < |s| => if s[i] == x then y else s[i])
  }

  /** The index of the first `x` in `s`, or |s| when there is none. */
  function IndexOf(s: string, x: char): (k: nat)
    ensures k <= |s|
    ensures x !in s[..k]
    ensures k < |s| ==> s[k] == x
    ensures k == |s| <==> x !in s
  {
    if s == [] then 0 else if s[0] == x then 0 else 1 + IndexOf(s[1..], x)
  }

  /** `s.replace("x", "y")` for single characters: only the first `x` becomes `y`. */
  function ReplaceFirst(s: string, x: char, y: char): (r: string)
    ensures |r| == |s|
    ensures x !in s ==> r == s
    ensures x in s ==> r == s[..IndexOf(s, x)] + [y] + s[IndexOf(s, x) + 1..]
  {
    var k := IndexOf(s, x);
    if k < |s| then s[..k] + [y] + s[k + 1..] else s
  }

  // ---------------------------------------------------------------------------------------------
  // Decimal strings

  function DigitChar(d: nat): char
    requires d < 10
  {
    ('0' as int + d) as char
  }

  /** `String(n)` for a non-negative integer: its decimal digits, without leading zeros. */
  function NatToString(n: nat): (r: string)
    ensures |r| > 0
    ensures forall i :: 0 <= i < |r| ==> IsDigit(r[i])
    ensures r[0] == '0' ==> n == 0 && r == "0"
  {
    if n < 10 then [DigitChar(n)] else NatToString(n / 10) + [DigitChar(n % 10)]
  }

  /** The value of a string of decimal digits. */
  function DigitsValue(s: string): nat
    requires forall i :: 0 <= i < |s| ==> IsDigit(s[i])
  {
    if s == [] then 0
    else
      assert IsDigit(s[|s| - 1]);
      DigitsValue(s[..|s| - 1]) * 10 + (s[|s| - 1] as int - '0' as int)
  }

  /** Reading back the digits written by `String(n)` gives `n`. */
  lemma {:induction false} NatToStringRoundTrip(n: nat)
    ensures DigitsValue(NatToString(n)) == n
  {
    if n >= 10 {
      NatToStringRoundTrip(n / 10);
      var s := NatToString(n);
      assert s[..|s| - 1] == NatToString(n / 10);
    }
  }

  /** Distinct numbers have distinct decimal strings. */
  lemma NatToStringInjective(m: nat, n: nat)
    requires NatToString(m) == NatToString(n)
    ensures m == n
  {
    NatToStringRoundTrip(m);
    NatToStringRoundTrip(n);
  }

  /** `String(i)` for any integer. */
  function IntToString(i: int): (r: string)
    ensures |r| > 0
    ensures i >= 0 ==> r == NatToString(i)
    ensures i < 0 ==> r[0] == '-' && r[1..] == NatToString(-i)
  {
    if i >= 0 then NatToString(i) else "-" + NatToString(-i)
  }

  // ---------------------------------------------------------------------------------------------
  // application/x-www-form-urlencoded serialization (URLSearchParams.prototype.toString)

  /** The bytes of the UTF-8 encoding of one Unicode scalar value. */
  function Utf8(c: char): (bytes: seq<nat>)
    ensures 1 <= |bytes| <= 4
    ensures forall i :: 0 <= i < |bytes| ==> bytes[i] < 256
    ensures (c as int) < 0x80 <==> |bytes| == 1
    ensures (c as int) < 0x80 ==> bytes == [c as int]
    ensures |bytes| > 1 ==> forall i :: 0 <= i < |bytes| ==> bytes[i] >= 0x80
  {
    var cp := c as int;
    if cp < 0x80 then [cp]
    else if cp < 0x800 then [0xC0 + cp / 64, 0x80 + cp % 64]
    else if cp < 0x10000 then [0xE0 + cp / 4096, 0x80 + (cp / 64) % 64, 0x80 + cp % 64]
    else [0xF0 + cp / 262144, 0x80 + (cp / 4096) % 64, 0x80 + (cp / 64) % 64, 0x80 + cp % 64]
  }

  /** The bytes the urlencoded serializer copies unchanged. */
  predicate UnreservedByte(b: nat) {
    b == 0x2A || b == 0x2D || b == 0x2E || b == 0x5F ||
    (0x30 <= b <= 0x39) || (0x41 <= b <= 0x5A) || (0x61 <= b <= 0x7A)
  }

  function HexDigit(d: nat): char
    requires d < 16
  {
    if d < 10 then DigitChar(d) else ('A' as int + d - 10) as char
  }

  function EncodeByte(b: nat): (r: string)
    requires b < 256
  {
    if b == 0x20 then "+"
    else if UnreservedByte(b) then [b as char]
    else ['%', HexDigit(b / 16), HexDigit(b % 16)]
  }

  function EncodeBytes(bytes: seq<nat>): string
    requires forall i :: 0 <= i < |bytes| ==> bytes[i] < 256
  {
    if bytes == [] then "" else EncodeByte(bytes[0]) + EncodeBytes(bytes[1..])
  }

  /** A character that can appear in urlencoded output. */
  predicate EncodedChar(c: char) {
    c == '+' || c == '%' || c == '*' || c == '-' || c == '.' || c == '_' ||
    IsDigit(c) || IsUpperAscii(c) || IsLowerAscii(c)
  }

  /** Encodes one name or value the way URLSearchParams does: UTF-8, then space to '+',
      the unreserved bytes as they are, every other byte as %XX with upper-case hex. */
  function FormEncode(s: string): (r: string)
    ensures forall i :: 0 <= i < |r| ==> EncodedChar(r[i])
  {
    if s == [] then ""
    else
      var head := EncodeBytes(Utf8(s[0]));
      EncodeBytesSafe(Utf8(s[0]));
      head + FormEncode(s[1..])
  }

  lemma {:induction false} EncodeBytesSafe(bytes: seq<nat>)
    requires forall i :: 0 <= i < |bytes| ==> bytes[i] < 256
    ensures forall i :: 0 <= i < |EncodeBytes(bytes)| ==> EncodedChar(EncodeBytes(bytes)[i])
  {
    if bytes != [] {
      EncodeBytesSafe(bytes[1..]);
      var b := bytes[0];
      var e := EncodeByte(b);
      assert forall i :: 0 <= i < |e| ==> EncodedChar(e[i]) by {
        if b != 0x20 && !UnreservedByte(b) {
          assert e == ['%', HexDigit(b / 16), HexDigit(b % 16)];
        }
      }
      assert EncodeBytes(bytes) == e + EncodeBytes(bytes[1..]);
    }
  }

  /** Characters that are letters or digits are copied unchanged by the encoder. */
  lemma {:induction false} FormEncodeAlphanumeric(s: string)
    requires forall i :: 0 <= i < |s| ==> IsDigit(s[i]) || IsUpperAscii(s[i]) || IsLowerAscii(s[i])
    ensures FormEncode(s) == s
  {
    if s != [] {
      FormEncodeAlphanumeric(s[1..]);
      assert Utf8(s[0]) == [s[0] as int];
      assert EncodeBytes(Utf8(s[0])) == [s[0]];
    }
  }
}
