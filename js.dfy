/**
 * The small part of JavaScript's runtime that the dialer's code leans on:
 * dynamic values and their truthiness, and the string built-ins it calls
 * (`replace(/\D/g, "")`, `trim`, `toLowerCase`, `split`, `includes`,
 * `startsWith`, `parseInt`, `Number`, `String(n)`, `padStart`).
 * Case mapping is ASCII only; numbers are integers.
 */
module Js {

  datatype Option<+T> = None | Some(value: T)

  /** A JSON-like dynamic value as it arrives in a request body or a record. */
  datatype Value =
    | Undefined | Null | Bool(b: bool) | Num(n: int) | NaN | Str(s: string)
    | Arr(items: seq<Value>) | Obj(fields: map<string, Value>)

  /** JavaScript's ToBoolean: the values that make `x || d` pick `d`. */
  predicate Truthy(v: Value)
  {
    match v
    case Undefined => false
    case Null => false
    case Bool(b) => b
    case Num(n) => n != 0
    case NaN => false
    case Str(s) => s != ""
    case Arr(_) => true
    case Obj(_) => true
  }

  /** `obj.key`: a missing key reads as undefined. */
  function Get(fields: map<string, Value>, key: string): Value
  {
    if key in fields then fields[key] else Undefined
  }

  /**
   * `v.key` on any value: None where JavaScript throws a TypeError (reading a
   * property of null or undefined); primitives and arrays have none of the
   * named properties read here.
   */
  function Prop(v: Value, key: string): (r: Option<Value>)
    ensures r.None? <==> v == Null || v == Undefined
  {
    match v
    case Undefined => None
    case Null => None
    case Obj(fields) => Some(Get(fields, key))
    case _ => Some(Undefined)
  }

  /** `String(v)`; an array is its elements joined with commas, null and undefined elements as "". */
  function ToStr(v: Value): string
  {
    match v
    case Undefined => "undefined"
    case Null => "null"
    case Bool(b) => if b then "true" else "false"
    case Num(n) => IntToString(n)
    case NaN => "NaN"
    case Str(s) => s
    case Obj(_) => "[object Object]"
    case Arr(items) =>
      if items == [] then ""
      else Join(seq(|items|, i requires 0 <= i < |items| => if items[i] in {Null, Undefined} then "" else ToStr(items[i])), ',')
  }

  /** `Number(v)` on integers; None stands for NaN. */
  function NumberOf(v: Value): Option<int>
  {
    match v
    case Undefined => None
    case Null => Some(0)
    case Bool(b) => Some(if b then 1 else 0)
    case Num(n) => Some(n)
    case NaN => None
    case Str(s) => ToNumber(s)
    case Arr(_) => ToNumber(ToStr(v))
    case Obj(_) => ToNumber(ToStr(v))
  }

  /** All the values, or None when one of them is missing. */
  function AllSome<T>(os: seq<Option<T>>): Option<seq<T>>
  {
    if os == [] then Some([])
    else if os[0].None? then None
    else match AllSome(os[1..])
      case None => None
      case Some(rest) => Some([os[0].value] + rest)
  }

  lemma {:induction false} AllSomeFacts<T>(os: seq<Option<T>>)
    ensures AllSome(os).Some? <==> forall i | 0 <= i < |os| :: os[i].Some?
    ensures AllSome(os).Some? ==>
      |AllSome(os).value| == |os| && forall i | 0 <= i < |os| :: AllSome(os).value[i] == os[i].value
  {
    if os != [] {
      AllSomeFacts(os[1..]);
      assert forall i | 1 <= i < |os| :: os[1..][i - 1] == os[i];
    }
  }

  /** `x.slice(0, n)`, for strings and arrays alike. */
  function Take<T>(s: seq<T>, n: nat): (r: seq<T>)
    ensures |r| <= n && |r| <= |s|
    ensures r == s[..|r|]
    ensures |s| <= n ==> r == s
  {
    if |s| <= n then s else s[..n]
  }

  // ---------------------------------------------------------------- characters

  predicate IsDigit(c: char) { '0' <= c <= '9' }

  /** The characters `String.prototype.trim` removes (WhiteSpace and LineTerminator). */
  predicate IsSpace(c: char)
  {
    c == ' ' || c == '\t' || c == '\n' || c == '\r' || c == '\U{000B}' || c == '\U{000C}'
    || c == '\U{00A0}' || c == '\U{1680}' || ('\U{2000}' <= c <= '\U{200A}')
    || c == '\U{2028}' || c == '\U{2029}' || c == '\U{202F}' || c == '\U{205F}'
    || c == '\U{3000}' || c == '\U{FEFF}'
  }

  function LowerChar(c: char): char
  {
    if 'A' <= c <= 'Z' then (c as int + 32) as char else c
  }

  function UpperChar(c: char): char
  {
    if 'a' <= c <= 'z' then (c as int - 32) as char else c
  }

  function DigitValue(c: char): nat
    requires IsDigit(c)
  {
    c as int - '0' as int
  }

  // ------------------------------------------------------------- whole strings

  predicate AllDigits(s: string) { forall i | 0 <= i < |s| :: IsDigit(s[i]) }

  /** `s.replace(/\D/g, "")`: the digits of `s`, in order. */
  function Digits(s: string): (r: string)
    ensures AllDigits(r) && |r| <= |s|
    ensures AllDigits(s) ==> r == s
  {
    if s == [] then []
    else if IsDigit(s[0]) then [s[0]] + Digits(s[1..])
    else Digits(s[1..])
  }

  lemma {:induction false} DigitsConcat(a: string, b: string)
    ensures Digits(a + b) == Digits(a) + Digits(b)
  {
    if a != [] {
      assert (a + b)[1..] == a[1..] + b;
      DigitsConcat(a[1..], b);
    } else {
      assert a + b == b;
    }
  }

  /** `s.toLowerCase()` on ASCII letters. */
  function ToLower(s: string): string
  {
    seq(|s|, i requires 0 <= i < |s| => LowerChar(s[i]))
  }

  /** `s.toUpperCase()` on ASCII letters. */
  function ToUpper(s: string): string
  {
    seq(|s|, i requires 0 <= i < |s| => UpperChar(s[i]))
  }

  function TrimStart(s: string): (r: string)
    ensures |r| <= |s|
    ensures r == [] || !IsSpace(r[0])
    ensures forall i | 0 <= i < |s| - |r| :: IsSpace(s[i])
  {
    if s != [] && IsSpace(s[0]) then TrimStart(s[1..]) else s
  }

  function TrimEnd(s: string): (r: string)
    ensures |r| <= |s|
    ensures r == [] || !IsSpace(r[|r| - 1])
    ensures forall i | |r| <= i < |s| :: IsSpace(s[i])
  {
    if s != [] && IsSpace(s[|s| - 1]) then TrimEnd(s[..|s| - 1]) else s
  }

  /** What is left after trimming the front is a suffix of the text. */
  lemma {:induction false} TrimStartSuffix(s: string)
    ensures TrimStart(s) == s[|s| - |TrimStart(s)|..]
  {
    if s != [] && IsSpace(s[0]) {
      TrimStartSuffix(s[1..]);
    }
  }

  /** What is left after trimming the back is a prefix of the text. */
  lemma {:induction false} TrimEndPrefix(s: string)
    ensures TrimEnd(s) == s[..|TrimEnd(s)|]
  {
    if s != [] && IsSpace(s[|s| - 1]) {
      TrimEndPrefix(s[..|s| - 1]);
    }
  }

  /** `s.trim()`. */
  function Trim(s: string): string
  {
    TrimEnd(TrimStart(s))
  }

  predicate Blank(s: string) { forall i | 0 <= i < |s| :: IsSpace(s[i]) }

  /** `s.trim()` is empty exactly when every character of `s` is white space. */
  lemma TrimEmptyIffBlank(s: string)
    ensures Trim(s) == [] <==> Blank(s)
  {
    var t := TrimStart(s);
    TrimStartSuffix(s);
    assert t != [] ==> t[0] == s[|s| - |t|];
    forall i | |s| - |t| <= i < |s|
      ensures s[i] == t[i - (|s| - |t|)]
    {
    }
  }

  /** `s.startsWith(p)`. */
  predicate StartsWith(s: string, p: string)
  {
    |p| <= |s| && s[..|p|] == p
  }

  /** `s.includes(q)`: `q` occurs in `s` at some position. */
  predicate Contains(s: string, q: string)
    decreases |s|
  {
    StartsWith(s, q) || (s != [] && Contains(s[1..], q))
  }

  lemma {:induction false} ContainsAt(s: string, q: string, k: nat)
    requires k + |q| <= |s| && s[k..k + |q|] == q
    ensures Contains(s, q)
  {
    if k > 0 {
      assert s[1..][k - 1..k - 1 + |q|] == s[k..k + |q|];
      ContainsAt(s[1..], q, k - 1);
    } else {
      assert s[..|q|] == q;
    }
  }

  lemma {:induction false} ContainsWitness(s: string, q: string) returns (k: nat)
    requires Contains(s, q)
    ensures k + |q| <= |s| && s[k..k + |q|] == q
    decreases |s|
  {
    if StartsWith(s, q) {
      k := 0;
    } else {
      var k' := ContainsWitness(s[1..], q);
      k := k' + 1;
      assert s[1..][k'..k' + |q|] == s[k..k + |q|];
    }
  }

  lemma EmptyContained(s: string)
    ensures Contains(s, "")
  {
    ContainsAt(s, "", 0);
  }

  /** `s.split(d)` for a one-character separator: at least one piece. */
  function Split(s: string, d: char): (r: seq<string>)
    ensures |r| >= 1
  {
    if s == [] then [""]
    else
      var rest := Split(s[1..], d);
      if s[0] == d then [""] + rest else [[s[0]] + rest[0]] + rest[1..]
  }

  /** The first piece is the text up to the first separator (or all of it). */
  lemma {:induction false} SplitFirst(s: string, d: char)
    ensures StartsWith(s, Split(s, d)[0])
    ensures |Split(s, d)[0]| < |s| ==> s[|Split(s, d)[0]|] == d
  {
    if s != [] && s[0] != d {
      SplitFirst(s[1..], d);
    }
  }

  /** No piece holds the separator. */
  lemma {:induction false} SplitPiecesFree(s: string, d: char)
    ensures forall i | 0 <= i < |Split(s, d)| :: d !in Split(s, d)[i]
  {
    if s != [] {
      SplitPiecesFree(s[1..], d);
      var rest := Split(s[1..], d);
      if s[0] != d {
        assert d !in rest[0];
        assert forall i | 1 <= i < |Split(s, d)| :: Split(s, d)[i] == rest[i];
      } else {
        assert forall i | 1 <= i < |Split(s, d)| :: Split(s, d)[i] == rest[i - 1];
      }
    }
  }

  /** `parts.join(d)`. */
  function Join(parts: seq<string>, d: char): string
    requires |parts| >= 1
  {
    if |parts| == 1 then parts[0] else parts[0] + [d] + Join(parts[1..], d)
  }

  /** Splitting and re-joining gives the original text back. */
  lemma {:induction false} JoinSplit(s: string, d: char)
    ensures Join(Split(s, d), d) == s
  {
    if s != [] {
      var rest := Split(s[1..], d);
      JoinSplit(s[1..], d);
      if s[0] != d {
        var r := [[s[0]] + rest[0]] + rest[1..];
        if |rest| > 1 {
          assert r[1..] == rest[1..];
          assert Join(r, d) == [s[0]] + (rest[0] + [d] + Join(rest[1..], d));
        }
      } else {
        assert ([""] + rest)[1..] == rest;
      }
    }
  }

  /** Joining separator-free pieces and splitting again gives the pieces back. */
  lemma {:induction false} SplitJoin(parts: seq<string>, d: char)
    requires |parts| >= 1
    requires forall k | 0 <= k < |parts| :: d !in parts[k]
    ensures Split(Join(parts, d), d) == parts
  {
    if |parts| == 1 {
      SplitNoDelim(parts[0], d);
    } else {
      SplitJoin(parts[1..], d);
      SplitAtFirst(parts[0], d, Join(parts[1..], d));
      assert [parts[0]] + parts[1..] == parts;
    }
  }

  /** Text without the separator splits into itself alone. */
  lemma {:induction false} SplitNoDelim(s: string, d: char)
    requires d !in s
    ensures Split(s, d) == [s]
  {
    if s != [] {
      SplitNoDelim(s[1..], d);
      assert [s[0]] + s[1..] == s;
    }
  }

  /** The first separator ends the first piece. */
  lemma {:induction false} SplitAtFirst(a: string, d: char, b: string)
    requires d !in a
    ensures Split(a + [d] + b, d) == [a] + Split(b, d)
  {
    if a == [] {
      assert a + [d] + b == [d] + b;
      assert ([d] + b)[1..] == b;
    } else {
      assert (a + [d] + b)[1..] == a[1..] + [d] + b;
      SplitAtFirst(a[1..], d, b);
      assert [a[0]] + a[1..] == a;
    }
  }

  /** The decimal digits of `n`, without leading zeros (`String(n)`). */
  function NatToString(n: nat): (r: string)
    ensures |r| >= 1 && AllDigits(r)
    ensures r[0] == '0' ==> n == 0
    decreases n
  {
    if n < 10 then [('0' as int + n) as char]
    else NatToString(n / 10) + [('0' as int + n % 10) as char]
  }

  /** `String(n)` for any integer: a minus sign before the digits of a negative number. */
  function IntToString(n: int): string
  {
    if n >= 0 then NatToString(n) else "-" + NatToString(-n)
  }

  /** The value of a string of decimal digits. */
  function DigitsValue(s: string): nat
    requires AllDigits(s)
  {
    if s == [] then 0 else DigitsValue(s[..|s| - 1]) * 10 + DigitValue(s[|s| - 1])
  }

  /** Formatting a number in decimal and reading it back is the identity. */
  lemma {:induction false} NatToStringRoundTrip(n: nat)
    ensures DigitsValue(NatToString(n)) == n
    decreases n
  {
    if n >= 10 {
      var r := NatToString(n);
      assert r[..|r| - 1] == NatToString(n / 10);
      NatToStringRoundTrip(n / 10);
    }
  }

  /** `String(n).padStart(2, "0")`. */
  function Pad2(n: nat): (r: string)
    ensures |r| >= 2 && AllDigits(r)
  {
    if n < 10 then "0" + NatToString(n) else NatToString(n)
  }

  lemma Pad2Value(n: nat)
    ensures DigitsValue(Pad2(n)) == n
  {
    NatToStringRoundTrip(n);
    if n < 10 {
      assert Pad2(n) == ['0', NatToString(n)[0]];
      assert Pad2(n)[..1] == "0";
    }
  }

  lemma Pad2Short(n: nat)
    requires n < 100
    ensures |Pad2(n)| == 2
  {
    if n >= 10 {
      assert NatToString(n) == NatToString(n / 10) + [('0' as int + n % 10) as char];
    }
  }

  /** The longest prefix of `s` made of decimal digits. */
  function DigitPrefix(s: string): (r: string)
    ensures AllDigits(r) && StartsWith(s, r)
    ensures |r| < |s| ==> !IsDigit(s[|r|])
  {
    if s != [] && IsDigit(s[0]) then [s[0]] + DigitPrefix(s[1..]) else []
  }

  /**
   * `parseInt(s)` with radix 10: skip leading white space, an optional sign,
   * then as many digits as there are; None stands for NaN (no digit at all).
   */
  function ParseInt(s: string): Option<int>
  {
    var t := TrimStart(s);
    var neg := t != [] && t[0] == '-';
    var u := if t != [] && (t[0] == '-' || t[0] == '+') then t[1..] else t;
    var p := DigitPrefix(u);
    var v: int := if p == [] then 0 else DigitsValue(p);
    if p == [] then None
    else if neg then Some(-v)
    else Some(v)
  }

  lemma DigitPrefixAll(s: string)
    requires AllDigits(s)
    ensures DigitPrefix(s) == s
  {
  }

  /** A plain run of digits parses to its value. */
  lemma ParseIntDigits(s: string)
    requires AllDigits(s) && s != []
    ensures ParseInt(s) == Some(DigitsValue(s))
  {
    assert !IsSpace(s[0]);
    assert TrimStart(s) == s;
    DigitPrefixAll(s);
  }

  predicate IsHexDigit(c: char) { IsDigit(c) || 'a' <= c <= 'f' || 'A' <= c <= 'F' }

  predicate AllHex(s: string) { forall i | 0 <= i < |s| :: IsHexDigit(s[i]) }

  function HexDigitValue(c: char): (v: nat)
    requires IsHexDigit(c)
    ensures v < 16
  {
    if IsDigit(c) then DigitValue(c)
    else if 'a' <= c <= 'f' then c as int - 'a' as int + 10
    else c as int - 'A' as int + 10
  }

  /** The number a run of hexadecimal digits denotes, most significant first. */
  function HexValue(s: string): nat
    requires AllHex(s)
  {
    if s == [] then 0 else HexValue(s[..|s| - 1]) * 16 + HexDigitValue(s[|s| - 1])
  }

  /** The longest prefix of `s` made of hexadecimal digits. */
  function HexPrefix(s: string): (r: string)
    ensures AllHex(r) && StartsWith(s, r)
    ensures |r| < |s| ==> !IsHexDigit(s[|r|])
  {
    if s != [] && IsHexDigit(s[0]) then [s[0]] + HexPrefix(s[1..]) else []
  }

  /** The digits after a `0x` prefix, in radix 16, negated after a minus sign; None for NaN. */
  function ReadHex(rest: string, neg: bool): (r: Option<int>)
    ensures r.None? <==> rest == [] || !IsHexDigit(rest[0])
  {
    var p := HexPrefix(rest);
    if p == [] then None
    else if neg then Some(-(HexValue(p) as int))
    else Some(HexValue(p))
  }

  /**
   * `parseInt(s)` without a radix: as with radix 10, except that after the white
   * space and the sign a `0x` or `0X` prefix switches to radix 16.
   */
  function ParseIntAuto(s: string): Option<int>
  {
    var t := TrimStart(s);
    var u := if t != [] && (t[0] == '-' || t[0] == '+') then t[1..] else t;
    if |u| >= 2 && u[0] == '0' && (u[1] == 'x' || u[1] == 'X') then ReadHex(u[2..], t[0] == '-')
    else ParseInt(s)
  }

  lemma {:induction false} HexPrefixAll(s: string)
    requires AllHex(s)
    ensures HexPrefix(s) == s
  {
    if s != [] {
      HexPrefixAll(s[1..]);
    }
  }

  /** Text that starts with a non-space character is its own `trimStart`. */
  lemma TrimStartNonSpace(s: string)
    requires s != [] && !IsSpace(s[0])
    ensures TrimStart(s) == s
  {
  }

  /** Hexadecimal digits, after a `0x` prefix, read as their value in radix 16. */
  lemma ReadHexAll(h: string, neg: bool)
    requires AllHex(h) && h != []
    ensures ReadHex(h, neg) == Some(if neg then -(HexValue(h) as int) else HexValue(h))
  {
    HexPrefixAll(h);
  }

  /** A sign, a `0x` or `0X` prefix and hexadecimal digits read the digits in radix 16. */
  lemma ParseIntAutoHex(sign: string, x: char, h: string)
    requires sign == "" || sign == "-" || sign == "+"
    requires x == 'x' || x == 'X'
    requires AllHex(h) && h != []
    ensures ParseIntAuto(sign + ['0', x] + h) == Some(if sign == "-" then -(HexValue(h) as int) else HexValue(h))
  {
    var s := sign + ['0', x] + h;
    var u := ['0', x] + h;
    TrimStartNonSpace(s);
    assert sign == [] ==> s == u;
    assert sign != [] ==> s[0] == sign[0] && s[1..] == u;
    assert u[2..] == h;
    ReadHexAll(h, sign == "-");
  }

  /** A `0x` prefix with no hexadecimal digit after it is NaN, not 0. */
  lemma ParseIntAutoBareHexPrefix(rest: string)
    requires rest == [] || !IsHexDigit(rest[0])
    ensures ParseIntAuto("0x" + rest) == None
  {
    TrimStartNonSpace("0x" + rest);
    assert ("0x" + rest)[2..] == rest;
  }

  /** A plain run of decimal digits reads the same without a radix as with radix 10. */
  lemma ParseIntAutoDigits(s: string)
    requires AllDigits(s) && s != []
    ensures ParseIntAuto(s) == ParseInt(s) == Some(DigitsValue(s))
  {
    TrimStartNonSpace(s);
    assert |s| >= 2 ==> IsDigit(s[1]);
    ParseIntDigits(s);
  }

  /**
   * `Number(s)` for the strings this system feeds it: blank is 0, a run of
   * digits (with white space around it) is its value, anything else is NaN.
   */
  function ToNumber(s: string): Option<int>
  {
    var t := Trim(s);
    if t == [] then Some(0)
    else if AllDigits(t) then Some(DigitsValue(t))
    else None
  }

  /** A plain run of digits converts to its value. */
  lemma ToNumberDigits(s: string)
    requires AllDigits(s) && s != []
    ensures ToNumber(s) == Some(DigitsValue(s))
  {
    assert !IsSpace(s[0]) && !IsSpace(s[|s| - 1]);
    assert TrimStart(s) == s;
    assert TrimEnd(s) == s;
  }
}
