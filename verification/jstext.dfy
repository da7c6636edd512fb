/** The pieces of JavaScript's built-in string and array behaviour that the
    gateway and the shell rely on: `trim`, `split(" ")`, `parseInt`, the `||`
    fallback on strings, decimal rendering of a counter, and the end index of
    `Array.prototype.slice(0, end)`. */
module JsText {
  import opened Wrappers

  /** WhiteSpace and LineTerminator code points of ECMA-262 (sections 12.2 and
      12.3 of the 2022 edition): what `trim` strips and `parseInt` skips. */
  predicate IsSpace(c: char) {
    || c == '\t' || c == '\n' || c == '\U{B}' || c == '\U{C}' || c == '\r'
    || c == ' ' || c == '\U{A0}' || c == '\U{1680}'
    || ('\U{2000}' <= c <= '\U{200A}')
    || c == '\U{2028}' || c == '\U{2029}' || c == '\U{202F}' || c == '\U{205F}'
    || c == '\U{3000}' || c == '\U{FEFF}'
  }

  predicate AllSpace(s: string) {
    forall i :: 0 <= i < |s| ==> IsSpace(s[i])
  }

  /** `s.trimStart()`: the suffix left after dropping leading white space. */
  function TrimStart(s: string): (r: string)
    ensures |r| <= |s| && r == s[|s| - |r|..]
    ensures forall i :: 0 <= i < |s| - |r| ==> IsSpace(s[i])
    ensures r == [] || !IsSpace(r[0])
  {
    if |s| > 0 && IsSpace(s[0]) then
      var r := TrimStart(s[1..]);
      assert forall i :: 1 <= i < |s| - |r| ==> s[i] == s[1..][i - 1];
      r
    else s
  }

  /** `s.trimEnd()`: the prefix left after dropping trailing white space. */
  function TrimEnd(s: string): (r: string)
    ensures |r| <= |s| && r == s[..|r|]
    ensures forall i :: |r| <= i < |s| ==> IsSpace(s[i])
    ensures r == [] || !IsSpace(r[|r| - 1])
  {
    if |s| > 0 && IsSpace(s[|s| - 1]) then
      var r := TrimEnd(s[..|s| - 1]);
      assert forall i :: |r| <= i < |s| - 1 ==> s[i] == s[..|s| - 1][i];
      r
    else s
  }

  /** `s.trim()`. */
  function Trim(s: string): (r: string)
    ensures |r| <= |s|
    ensures r == [] || (!IsSpace(r[0]) && !IsSpace(r[|r| - 1]))
  {
    TrimEnd(TrimStart(s))
  }

  /** The untrimmed tail of `trimStart` is cut at the end by `trimEnd`: the
      result `r` of `trim` is the slice of the input that starts where the
      result `t` of `trimStart` starts. */
  lemma TrimIsSlice(s: string, t: string, r: string)
    requires t == TrimStart(s) && r == Trim(s)
    ensures var k := |s| - |t|; k + |r| <= |s| && r == s[k..k + |r|]
  {
    PrefixOfSuffix(s, t, r);
  }

  /** A prefix of a suffix of `s` is a slice of `s`. */
  lemma PrefixOfSuffix<T>(s: seq<T>, t: seq<T>, r: seq<T>)
    requires |t| <= |s| && t == s[|s| - |t|..]
    requires |r| <= |t| && r == t[..|r|]
    ensures var k := |s| - |t|; k + |r| <= |s| && r == s[k..k + |r|]
  {
  }

  /** What `trim` cuts off after that slice is white space. */
  lemma TrimCutsSpaceSuffix(s: string, t: string, r: string)
    requires t == TrimStart(s) && r == Trim(s)
    ensures var k := |s| - |t|;
            k + |r| <= |s| && forall i :: k + |r| <= i < |s| ==> IsSpace(s[i])
  {
    assert r == TrimEnd(t);
    SpaceAfterPrefixOfSuffix(s, t, r);
  }

  /** White space after a prefix of a suffix of `s` is white space in `s`. */
  lemma SpaceAfterPrefixOfSuffix(s: string, t: string, r: string)
    requires |t| <= |s| && t == s[|s| - |t|..]
    requires |r| <= |t| && forall i :: |r| <= i < |t| ==> IsSpace(t[i])
    ensures var k := |s| - |t|;
            k + |r| <= |s| && forall i :: k + |r| <= i < |s| ==> IsSpace(s[i])
  {
    var k := |s| - |t|;
    forall i | k + |r| <= i < |s|
      ensures IsSpace(s[i])
    {
      assert s[i] == t[i - k];
    }
  }

  /** `trim` removes exactly a white-space prefix and a white-space suffix:
      its result is the contiguous middle of the input. */
  lemma TrimIsMiddle(s: string, t: string, r: string)
    requires t == TrimStart(s) && r == Trim(s)
    ensures var k := |s| - |t|;
            && k + |r| <= |s|
            && r == s[k..k + |r|]
            && (forall i :: 0 <= i < k ==> IsSpace(s[i]))
            && (forall i :: k + |r| <= i < |s| ==> IsSpace(s[i]))
  {
    TrimIsSlice(s, t, r);
    TrimCutsSpaceSuffix(s, t, r);
  }

  lemma {:induction false} TrimStartAllSpace(s: string)
    requires AllSpace(s)
    ensures TrimStart(s) == []
  {
    if |s| > 0 {
      assert AllSpace(s[1..]) by {
        forall i | 0 <= i < |s| - 1 ensures IsSpace(s[1..][i]) {
          assert s[1..][i] == s[i + 1];
        }
      }
      TrimStartAllSpace(s[1..]);
    }
  }

  /** A line trims to nothing exactly when it is all white space. */
  lemma TrimEmptyIff(s: string)
    ensures Trim(s) == [] <==> AllSpace(s)
  {
    var t := TrimStart(s);
    if Trim(s) == [] {
      assert AllSpace(t);
      TrimStartAllSpace(t);
      assert TrimStart(t) == t;
    }
    if AllSpace(s) {
      TrimStartAllSpace(s);
    }
  }

  /** Trimming twice is trimming once. */
  lemma TrimIdempotent(s: string)
    ensures Trim(Trim(s)) == Trim(s)
  {
    var r := Trim(s);
    assert TrimStart(r) == r;
    assert TrimEnd(r) == r;
  }

  /** `parts.join(sep)`. */
  function Join(parts: seq<string>, sep: char): string
  {
    if |parts| == 0 then ""
    else if |parts| == 1 then parts[0]
    else parts[0] + [sep] + Join(parts[1..], sep)
  }

  /** `s.split(sep)` for a one-character separator: the pieces between the
      occurrences of `sep`, empty pieces included. */
  function Split(s: string, sep: char): (r: seq<string>)
    ensures |r| >= 1
    ensures forall k :: 0 <= k < |r| ==> sep !in r[k]
    ensures Join(r, sep) == s
  {
    if |s| == 0 then [""]
    else
      var rest := Split(s[1..], sep);
      if s[0] == sep then
        assert Join([""] + rest, sep) == "" + [sep] + Join(rest, sep) by {
          assert ([""] + rest)[1..] == rest;
        }
        [""] + rest
      else
        var head := [s[0]] + rest[0];
        assert Join([head] + rest[1..], sep) == [s[0]] + Join(rest, sep) by {
          if |rest| > 1 {
            assert ([head] + rest[1..])[1..] == rest[1..];
          }
        }
        [head] + rest[1..]
  }

  /** Splitting a join of separator-free pieces gives back those pieces. */
  lemma {:induction false} SplitJoin(parts: seq<string>, sep: char)
    requires |parts| >= 1
    requires forall k :: 0 <= k < |parts| ==> sep !in parts[k]
    ensures Split(Join(parts, sep), sep) == parts
    decreases |Join(parts, sep)|
  {
    var s := Join(parts, sep);
    if |parts[0]| == 0 {
      if |parts| == 1 {
      } else {
        assert s == [sep] + Join(parts[1..], sep);
        assert s[1..] == Join(parts[1..], sep);
        SplitJoin(parts[1..], sep);
        assert [""] + parts[1..] == parts;
      }
    } else {
      var tail := [parts[0][1..]] + parts[1..];
      assert Join(tail, sep) == parts[0][1..] + (if |parts| == 1 then "" else [sep] + Join(parts[1..], sep)) by {
        if |parts| > 1 { assert tail[1..] == parts[1..]; }
      }
      assert s == parts[0] + (if |parts| == 1 then "" else [sep] + Join(parts[1..], sep));
      assert s[0] == parts[0][0];
      assert s[1..] == Join(tail, sep);
      forall k | 0 <= k < |tail| ensures sep !in tail[k] {
        if k == 0 {
          assert sep !in parts[0];
          assert forall c :: c in parts[0][1..] ==> c in parts[0];
        } else {
          assert tail[k] == parts[k];
        }
      }
      SplitJoin(tail, sep);
      assert parts[0][0] != sep by { assert parts[0][0] in parts[0]; }
      assert [[s[0]] + tail[0]] + tail[1..] == parts by {
        assert [s[0]] + tail[0] == parts[0];
      }
    }
  }

  /** `value || fallback` for a string that may be `undefined`/`null`: the
      empty string is falsy too. */
  function OrElse(value: Option<string>, fallback: string): (r: string)
    ensures r == fallback <==> (value == None || value.value == "" || value.value == fallback)
    ensures r != fallback ==> value == Some(r)
  {
    match value
    case Some(v) => if v != "" then v else fallback
    case None => fallback
  }

  /** True when a string-valued field counts as present under `||`. */
  predicate Truthy(value: Option<string>) {
    value.Some? && value.value != ""
  }

  // ---------------------------------------------------------------------------
  // Decimal rendering and `parseInt`

  predicate IsDecimalDigit(c: char) {
    '0' <= c <= '9'
  }

  function DigitChar(d: nat): (c: char)
    requires d < 10
    ensures IsDecimalDigit(c)
  {
    ('0' as int + d) as char
  }

  /** `String(n)` for a non-negative integer (as in the template literal
      `${index + 1}`): most significant digit first, no leading zero. */
  function NatToString(n: nat): (r: string)
    ensures |r| >= 1
    ensures forall i :: 0 <= i < |r| ==> IsDecimalDigit(r[i])
    ensures |r| > 1 ==> r[0] != '0'
    ensures n > 0 ==> r[0] != '0'
  {
    if n < 10 then [DigitChar(n)] else NatToString(n / 10) + [DigitChar(n % 10)]
  }

  /** The value of `c` as a digit in base `radix` (10 or 16), if it is one. */
  function DigitValue(c: char, radix: nat): (d: Option<nat>)
    ensures (radix == 10 || radix == 16) && d.Some? ==> d.value < radix
    ensures radix == 10 ==> (d.Some? <==> IsDecimalDigit(c))
  {
    if '0' <= c <= '9' then Some((c as int - '0' as int) as nat)
    else if radix == 16 && 'a' <= c <= 'f' then Some((c as int - 'a' as int + 10) as nat)
    else if radix == 16 && 'A' <= c <= 'F' then Some((c as int - 'A' as int + 10) as nat)
    else None
  }

  /** Values of the longest prefix of `s` made of digits in base `radix`. */
  function LeadingDigits(s: string, radix: nat): (ds: seq<nat>)
    ensures |ds| <= |s|
  {
    if |s| == 0 then []
    else match DigitValue(s[0], radix)
      case None => []
      case Some(d) => [d] + LeadingDigits(s[1..], radix)
  }

  /** The number a digit sequence denotes, most significant digit first. */
  function Horner(ds: seq<nat>, radix: nat): nat
  {
    if |ds| == 0 then 0 else Horner(ds[..|ds| - 1], radix) * radix + ds[|ds| - 1]
  }

  /** The text after one optional leading sign. */
  function Unsigned(t: string): (u: string)
    ensures u == t || (|t| > 0 && t[0] in "+-" && u == t[1..])
  {
    if |t| > 0 && (t[0] == '-' || t[0] == '+') then t[1..] else t
  }

  /** True when `u` starts with the `0x`/`0X` prefix that selects base 16. */
  predicate HexPrefixed(u: string) {
    |u| >= 2 && u[0] == '0' && (u[1] == 'x' || u[1] == 'X')
  }

  /** The magnitude `parseInt` reads from unsigned text: base 16 after a
      `0x`/`0X` prefix, base 10 otherwise, over the longest run of digits;
      `None` when there is no digit at all. */
  function ParseMagnitude(u: string): (m: Option<nat>)
  {
    var radix := if HexPrefixed(u) then 16 else 10;
    var ds := LeadingDigits(if HexPrefixed(u) then u[2..] else u, radix);
    if ds == [] then None else Some(Horner(ds, radix))
  }

  /** `parseInt(s)` with no radix argument: skip leading white space, take one
      optional sign, then read the magnitude. `None` is `NaN`. */
  function ParseInt(s: string): Option<int>
  {
    ParseSigned(TrimStart(s))
  }

  /** `parseInt` once the leading white space is skipped. */
  function ParseSigned(t: string): Option<int>
  {
    match ParseMagnitude(Unsigned(t))
    case None => None
    case Some(m) => if |t| > 0 && t[0] == '-' then Some(0 - m) else Some(m)
  }

  /** On a string of decimal digits, `LeadingDigits` reads every character. */
  lemma {:induction false} LeadingDigitsOfDecimal(s: string)
    requires forall i :: 0 <= i < |s| ==> IsDecimalDigit(s[i])
    ensures |LeadingDigits(s, 10)| == |s|
    ensures forall i :: 0 <= i < |s| ==> LeadingDigits(s, 10)[i] == (s[i] as int - '0' as int)
  {
    if |s| > 0 {
      LeadingDigitsOfDecimal(s[1..]);
      assert DigitValue(s[0], 10) == Some((s[0] as int - '0' as int) as nat);
      var ds := LeadingDigits(s, 10);
      assert ds == [(s[0] as int - '0' as int) as nat] + LeadingDigits(s[1..], 10);
      forall i | 0 <= i < |s| ensures ds[i] == (s[i] as int - '0' as int) {
        if i > 0 { assert ds[i] == LeadingDigits(s[1..], 10)[i - 1]; }
      }
    }
  }

  /** Appending one decimal digit appends its value to the digits read. */
  lemma {:induction false} LeadingDigitsSnoc(p: string, c: char)
    requires forall i :: 0 <= i < |p| ==> IsDecimalDigit(p[i])
    requires IsDecimalDigit(c)
    ensures LeadingDigits(p + [c], 10) == LeadingDigits(p, 10) + [(c as int - '0' as int) as nat]
  {
    var d := (c as int - '0' as int) as nat;
    assert DigitValue(c, 10) == Some(d);
    if p == [] {
      assert p + [c] == [c];
      assert LeadingDigits([c], 10) == [d] + LeadingDigits([], 10);
    } else {
      var s := p + [c];
      assert s[0] == p[0];
      assert s[1..] == p[1..] + [c];
      assert DigitValue(p[0], 10) == Some((p[0] as int - '0' as int) as nat);
      LeadingDigitsSnoc(p[1..], c);
    }
  }

  lemma HornerSnoc(ds: seq<nat>, d: nat, radix: nat)
    ensures Horner(ds + [d], radix) == Horner(ds, radix) * radix + d
  {
    assert (ds + [d])[..|ds|] == ds;
  }

  /** Reading back a rendered counter gives the counter. */
  lemma {:induction false} HornerNatToString(n: nat)
    ensures Horner(LeadingDigits(NatToString(n), 10), 10) == n
  {
    if n < 10 {
      assert NatToString(n) == [DigitChar(n)];
      assert LeadingDigits([DigitChar(n)], 10) == [n];
    } else {
      var q, r := n / 10, n % 10;
      var p := NatToString(q);
      var c := DigitChar(r);
      assert NatToString(n) == p + [c];
      LeadingDigitsSnoc(p, c);
      HornerSnoc(LeadingDigits(p, 10), r, 10);
      HornerNatToString(q);
      assert n == q * 10 + r;
    }
  }

  /** `parseInt(String(n)) === n` for every non-negative integer. */
  lemma ParseIntNatToString(n: nat)
    ensures ParseInt(NatToString(n)) == Some(n)
  {
    var s := NatToString(n);
    HornerNatToString(n);
    assert s + [] == s;
    ParseIntDecimalPrefix(s, []);
  }

  /** `trimStart` drops a white-space prefix and whatever white space follows
      it, exactly as it would without the prefix. */
  lemma {:induction false} TrimStartSkipsSpace(pad: string, s: string)
    requires AllSpace(pad)
    ensures TrimStart(pad + s) == TrimStart(s)
    decreases |pad|
  {
    if pad == [] {
      assert pad + s == s;
    } else {
      assert (pad + s)[0] == pad[0];
      assert (pad + s)[1..] == pad[1..] + s;
      assert AllSpace(pad[1..]) by {
        forall i | 0 <= i < |pad| - 1 ensures IsSpace(pad[1..][i]) {
          assert pad[1..][i] == pad[i + 1];
        }
      }
      TrimStartSkipsSpace(pad[1..], s);
    }
  }

  /** `parseInt` skips leading white space: padding changes nothing. */
  lemma ParseIntSkipsSpace(pad: string, s: string)
    requires AllSpace(pad)
    ensures ParseInt(pad + s) == ParseInt(s)
  {
    TrimStartSkipsSpace(pad, s);
  }

  /** A leading `-` negates what the rest reads, and a `-` with no digit
      after it is `NaN`. */
  lemma ParseIntMinus(u: string)
    requires u == [] || (!IsSpace(u[0]) && u[0] != '-' && u[0] != '+')
    ensures ParseInt("-" + u).Some? <==> ParseInt(u).Some?
    ensures ParseInt(u).Some? ==> ParseInt(u).value >= 0 && ParseInt("-" + u).value == 0 - ParseInt(u).value
  {
    assert "-" + u == ['-'] + u;
    UnsignedIsMagnitude(u);
    SignedMagnitude('-', u);
  }

  /** A leading `+` changes nothing. */
  lemma ParseIntPlus(u: string)
    requires u == [] || (!IsSpace(u[0]) && u[0] != '-' && u[0] != '+')
    ensures ParseInt("+" + u) == ParseInt(u)
  {
    assert "+" + u == ['+'] + u;
    UnsignedIsMagnitude(u);
    SignedMagnitude('+', u);
  }

  /** Text without leading white space or sign reads as its magnitude. */
  lemma UnsignedIsMagnitude(u: string)
    requires u == [] || (!IsSpace(u[0]) && u[0] != '-' && u[0] != '+')
    ensures ParseInt(u) == if ParseMagnitude(u).Some? then Some(ParseMagnitude(u).value as int) else None
  {
    if u != [] {
      TrimStartUntouched(u);
    }
    assert Unsigned(u) == u;
  }

  /** A sign followed by unsigned text reads as the signed magnitude. */
  lemma SignedMagnitude(sign: char, u: string)
    requires sign == '-' || sign == '+'
    ensures ParseInt([sign] + u) == match ParseMagnitude(u)
                                   case None => None
                                   case Some(m) => if sign == '-' then Some(0 - m) else Some(m)
  {
    var t := [sign] + u;
    TrimStartUntouched(t);
    assert t[1..] == u;
    assert Unsigned(t) == u;
  }

  /** After a `0x` or `0X` prefix, `parseInt` reads hexadecimal digits, in
      either case, up to the first character that is not one. */
  lemma ParseIntHex(x: char, h: string)
    requires x == 'x' || x == 'X'
    requires LeadingDigits(h, 16) != []
    ensures ParseInt(['0', x] + h) == Some(Horner(LeadingDigits(h, 16), 16))
  {
    var s := ['0', x] + h;
    TrimStartUntouched(s);
    assert Unsigned(s) == s;
    assert HexPrefixed(s) && s[2..] == h;
  }

  /** A line without white space at either end trims to itself. */
  lemma TrimUntouched(s: string)
    requires s != [] && !IsSpace(s[0]) && !IsSpace(s[|s| - 1])
    ensures Trim(s) == s
  {
    TrimStartUntouched(s);
  }

  lemma DigitIsNotSpace(c: char)
    requires IsDecimalDigit(c)
    ensures !IsSpace(c)
  {
  }

  /** Text that does not start with white space is left alone by `trimStart`. */
  lemma TrimStartUntouched(s: string)
    requires s != [] && !IsSpace(s[0])
    ensures TrimStart(s) == s
  {
  }

  /** `parseInt` reads any run of decimal digits, leading zeros included
      (only a lone `0` followed by `x` or `X` is read as a hexadecimal
      prefix), and stops at the first character after it that is not a
      digit. */
  lemma ParseIntDecimalPrefix(digits: string, rest: string)
    requires |digits| >= 1
    requires !(digits == "0" && rest != [] && (rest[0] == 'x' || rest[0] == 'X'))
    requires forall i :: 0 <= i < |digits| ==> IsDecimalDigit(digits[i])
    requires rest == [] || DigitValue(rest[0], 10).None?
    ensures ParseInt(digits + rest) == Some(Horner(LeadingDigits(digits, 10), 10))
  {
    var s := digits + rest;
    assert s[0] == digits[0];
    DigitIsNotSpace(s[0]);
    TrimStartUntouched(s);
    assert Unsigned(s) == s;
    assert !HexPrefixed(s) by {
      if |digits| > 1 {
        assert s[1] == digits[1];
      } else if rest != [] {
        assert s[1] == rest[0];
      }
    }
    LeadingDigitsAppend(digits, rest);
    LeadingDigitsOfDecimal(digits);
    assert ParseMagnitude(s) == Some(Horner(LeadingDigits(digits, 10), 10));
  }

  lemma {:induction false} LeadingDigitsAppend(digits: string, rest: string)
    requires forall i :: 0 <= i < |digits| ==> IsDecimalDigit(digits[i])
    requires rest == [] || DigitValue(rest[0], 10).None?
    ensures LeadingDigits(digits + rest, 10) == LeadingDigits(digits, 10)
  {
    if |digits| == 0 {
      assert digits + rest == rest;
    } else {
      assert (digits + rest)[1..] == digits[1..] + rest;
      assert DigitValue(digits[0], 10).Some?;
      LeadingDigitsAppend(digits[1..], rest);
    }
  }

  /** `Array.prototype.slice(0, end)` on an array of length `len` keeps this
      many leading elements: a negative `end` counts back from the end. */
  function SliceEnd(len: nat, end: int): (r: nat)
    ensures r <= len
    ensures 0 <= end ==> r == (if end < len then end else len)
    ensures end < 0 ==> r == (if len + end < 0 then 0 else len + end)
  {
    if end < 0 then (if len + end < 0 then 0 else len + end)
    else if end < len then end
    else len
  }
}
