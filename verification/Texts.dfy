/** Splitting and joining text, and numbers written in decimal. */
module Texts {
  import opened Wrappers

  // ---------------------------------------------------------------- splitting

  predicate Free(s: string, d: char) {
    forall i | 0 <= i < |s| :: s[i] != d
  }

  /** Where d first occurs, or the length of the text. */
  function Find(s: string, d: char): (i: nat)
    ensures i <= |s| && Free(s[..i], d) && (i < |s| ==> s[i] == d)
  {
    if s == [] || s[0] == d then 0
    else
      var i := 1 + Find(s[1..], d);
      assert s[..i] == [s[0]] + s[1..][..i - 1];
      i
  }

  /** The stretches between the occurrences of d. */
  function SplitBy(s: string, d: char): (parts: seq<string>)
    ensures parts != []
    decreases |s|
  {
    var i := Find(s, d);
    if i == |s| then [s] else [s[..i]] + SplitBy(s[i + 1..], d)
  }

  function Join(parts: seq<string>, d: char): string {
    if parts == [] then []
    else if |parts| == 1 then parts[0]
    else parts[0] + [d] + Join(parts[1..], d)
  }

  lemma {:induction false} FindIs(s: string, d: char, i: nat)
    requires i < |s| && s[i] == d && Free(s[..i], d)
    ensures Find(s, d) == i
    decreases i
  {
    if i > 0 {
      assert s[..i][0] == s[0] && s[..i][1..] == s[1..][..i - 1];
      FindIs(s[1..], d, i - 1);
    }
  }

  lemma {:induction false} FindNone(s: string, d: char)
    requires Free(s, d)
    ensures Find(s, d) == |s|
  {
    if s != [] {
      FindNone(s[1..], d);
    }
  }

  lemma SplitFirst(a: string, d: char, rest: string)
    requires Free(a, d)
    ensures SplitBy(a + [d] + rest, d) == [a] + SplitBy(rest, d)
  {
    var s := a + [d] + rest;
    assert s[..|a|] == a && s[|a| + 1..] == rest;
    FindIs(s, d, |a|);
    hide Find;
  }

  lemma SplitNone(a: string, d: char)
    requires Free(a, d)
    ensures SplitBy(a, d) == [a]
  {
    FindNone(a, d);
    hide Find;
  }

  lemma {:induction false} SplitJoin(parts: seq<string>, d: char)
    requires parts != [] && forall p | p in parts :: Free(p, d)
    ensures SplitBy(Join(parts, d), d) == parts
  {
    assert parts[0] in parts && forall p | p in parts[1..] :: p in parts;
    if |parts| == 1 {
      SplitNone(parts[0], d);
    } else {
      SplitJoin(parts[1..], d);
      assert parts == [parts[0]] + parts[1..];
      hide SplitBy, Free;
      SplitFirst(parts[0], d, Join(parts[1..], d));
    }
  }

  lemma {:induction false} JoinFree(parts: seq<string>, d: char, e: char)
    requires d != e && forall p | p in parts :: Free(p, e)
    ensures Free(Join(parts, d), e)
  {
    if |parts| == 1 {
      assert parts[0] in parts;
    } else if parts != [] {
      assert parts[0] in parts && forall p | p in parts[1..] :: p in parts;
      JoinFree(parts[1..], d, e);
    }
  }

  /** The text in front of the first occurrence and what is behind it. */
  lemma SplitTwo(a: string, b: string, d: char)
    requires Free(a, d) && Free(b, d)
    ensures SplitBy(a + [d] + b, d) == [a, b]
  {
    assert Join([a, b], d) == a + [d] + b;
    SplitJoin([a, b], d);
  }

  /** Spliter: hands out one stretch after the other. */
  class Spliter {
    const data: string
    const delim: char
    var posStart: nat
    var end: bool

    ghost predicate Valid()
      reads this
    {
      posStart <= |data|
    }

    /** What is still to be handed out. */
    ghost function Rest(): seq<string>
      reads this
      requires Valid()
    {
      if end then [] else SplitBy(data[posStart..], delim)
    }

    constructor (data: string, delim: char)
      ensures Valid() && !end && Rest() == SplitBy(data, delim)
    {
      this.data, this.delim, posStart, end := data, delim, 0, false;
      new;
      assert data[0..] == data;
    }

    method GetNext() returns (token: string)
      requires Valid()
      modifies this
      ensures Valid() && (end <==> Rest() == [])
      ensures token == if old(Rest()) == [] then "" else old(Rest())[0]
      ensures Rest() == if old(Rest()) == [] then [] else old(Rest())[1..]
    {
      if end {
        return "";
      }
      var rest := data[posStart..];
      var found := Find(rest, delim);
      if found < |rest| {
        token := rest[..found];
        assert rest[found + 1..] == data[posStart + found + 1..];
        posStart := posStart + found + 1;
        return token;
      }
      end := true;
      return rest;
    }
  }

  // ---------------------------------------------------------------- numbers

  predicate IsDigit(c: char) {
    '0' <= c <= '9'
  }

  predicate IsSpace(c: char) {
    c == ' ' || 9 <= c as int <= 13
  }

  function DigitOf(n: nat): (c: char)
    requires n < 10
    ensures IsDigit(c) && c == "0123456789"[n]
  {
    ('0' as int + n) as char
  }

  function ValueOf(c: char): (n: nat)
    requires IsDigit(c)
    ensures n < 10 && c == "0123456789"[n]
  {
    c as int - '0' as int
  }

  predicate AllDigits(s: string) {
    forall i | 0 <= i < |s| :: IsDigit(s[i])
  }

  function NatToString(n: nat): (s: string)
    ensures s != [] && AllDigits(s)
  {
    if n < 10 then [DigitOf(n)] else NatToString(n / 10) + [DigitOf(n % 10)]
  }

  function IntToString(n: int): (s: string)
    ensures s != []
  {
    if n < 0 then ['-'] + NatToString(-n) else NatToString(n)
  }

  function Magnitude(s: string): nat
    requires AllDigits(s)
  {
    if s == [] then 0 else 10 * Magnitude(s[..|s| - 1]) + ValueOf(s[|s| - 1])
  }

  lemma {:induction false} MagnitudeOfNat(n: nat)
    ensures Magnitude(NatToString(n)) == n
  {
    if n >= 10 {
      MagnitudeOfNat(n / 10);
      assert NatToString(n)[..|NatToString(n)| - 1] == NatToString(n / 10);
    } else {
      assert [DigitOf(n)][..0] == [];
    }
  }

  /** Digits at the front of a text. */
  function DigitsAt(s: string): (k: nat)
    ensures k <= |s| && AllDigits(s[..k]) && (k < |s| ==> !IsDigit(s[k]))
  {
    if s == [] || !IsDigit(s[0]) then 0
    else
      var k := 1 + DigitsAt(s[1..]);
      assert s[..k] == [s[0]] + s[1..][..k - 1];
      k
  }

  datatype NumberError = NotANumber | OutOfRange

  const MIN_INT32 := -0x8000_0000
  const MAX_INT32 := 0x7fff_ffff
  const MIN_INT64 := -0x8000_0000_0000_0000
  const MAX_INT64 := 0x7fff_ffff_ffff_ffff

  function SkipSpace(s: string): string {
    if s != [] && IsSpace(s[0]) then SkipSpace(s[1..]) else s
  }

  function Signed(negative: bool, m: nat): int {
    if negative then 0 - m else m
  }

  predicate IsNegative(s: string) {
    s != [] && s[0] == '-'
  }

  function WithoutSign(s: string): string {
    if s != [] && (s[0] == '-' || s[0] == '+') then s[1..] else s
  }

  /** std::stoi: leading white space, a sign and digits; what follows them is ignored. */
  function Stoi(text: string): Result<int, NumberError> {
    var s := SkipSpace(text);
    var body := WithoutSign(s);
    var k := DigitsAt(body);
    if k == 0 then Err(NotANumber)
    else
      var n := Signed(IsNegative(s), Magnitude(body[..k]));
      if MIN_INT32 <= n <= MAX_INT32 then Ok(n) else Err(OutOfRange)
  }

  /** strconv.Atoi: a sign and digits, nothing else. */
  function Atoi(s: string): Result<int, NumberError> {
    var body := WithoutSign(s);
    if body == [] || DigitsAt(body) < |body| then Err(NotANumber)
    else
      assert body[..|body|] == body;
      var n := Signed(IsNegative(s), Magnitude(body));
      if MIN_INT64 <= n <= MAX_INT64 then Ok(n) else Err(OutOfRange)
  }

  lemma {:induction false} DigitsOfAll(s: string)
    requires AllDigits(s)
    ensures DigitsAt(s) == |s| && s[..|s|] == s
  {
    if s != [] {
      DigitsOfAll(s[1..]);
    }
  }

  lemma PrintedNumber(n: int)
    ensures var s := IntToString(n);
      && SkipSpace(s) == s
      && (n < 0 ==> s[0] == '-' && s[1..] == NatToString(-n))
      && (n >= 0 ==> s == NatToString(n) && s[0] != '-' && s[0] != '+')
  {
    if n >= 0 {
      assert IsDigit(NatToString(n)[0]);
    }
  }

  ghost predicate AllSpace(s: string) {
    forall i | 0 <= i < |s| :: s[i] in " \t\n\r" || s[i] as int == 11 || s[i] as int == 12
  }

  lemma {:induction false} SpaceSkipped(space: string, s: string)
    requires AllSpace(space) && (s != [] ==> !IsSpace(s[0]))
    ensures SkipSpace(space + s) == s
  {
    if space == [] {
      assert space + s == s;
    } else {
      assert (space + s)[1..] == space[1..] + s;
      SpaceSkipped(space[1..], s);
    }
  }

  lemma {:induction false} DigitsInFront(digits: string, rest: string)
    requires AllDigits(digits) && (rest != [] ==> !IsDigit(rest[0]))
    ensures DigitsAt(digits + rest) == |digits| && (digits + rest)[..|digits|] == digits
  {
    if digits == [] {
      assert digits + rest == rest;
    } else {
      assert (digits + rest)[1..] == digits[1..] + rest;
      DigitsInFront(digits[1..], rest);
    }
  }

  /** Nothing, a plus or a minus. */
  ghost predicate IsSign(sign: string) {
    sign == "" || sign == "+" || sign == "-"
  }

  /** Without a sign the text must not begin with one. */
  ghost predicate NoSign(body: string) {
    body != [] ==> body[0] != '+' && body[0] != '-'
  }

  lemma SignTaken(sign: string, body: string)
    requires IsSign(sign) && (sign == "" ==> NoSign(body))
    ensures WithoutSign(sign + body) == body && (IsNegative(sign + body) <==> sign == "-")
    ensures sign + body != [] ==> (sign + body)[0] == if sign == "" then body[0] else sign[0]
  {
    if sign == "" {
      assert sign + body == body;
    }
  }

  lemma StartOf(digits: string, rest: string)
    requires AllDigits(digits) && (digits == [] ==> NoSign(rest) && (rest != [] ==> !IsSpace(rest[0])))
    ensures NoSign(digits + rest) && (digits + rest != [] ==> !IsSpace((digits + rest)[0]))
  {
  }

  /** std::stoi on a text of white space, a sign, digits and more: the number, whatever comes behind it. */
  lemma StoiReads(space: string, sign: string, digits: string, rest: string)
    requires AllSpace(space) && IsSign(sign) && AllDigits(digits) && (rest != [] ==> !IsDigit(rest[0]))
    requires digits == [] && sign == "" ==> NoSign(rest) && (rest != [] ==> !IsSpace(rest[0]))
    ensures var n := Signed(sign == "-", Magnitude(digits));
      Stoi(space + (sign + (digits + rest))) ==
      if digits == [] then Err(NotANumber) else if -0x8000_0000 <= n <= 0x7fff_ffff then Ok(n) else Err(OutOfRange)
  {
    if sign == "" {
      StartOf(digits, rest);
    }
    SignTaken(sign, digits + rest);
    SpaceSkipped(space, sign + (digits + rest));
    DigitsInFront(digits, rest);
    hide Magnitude, DigitsAt, SkipSpace, WithoutSign, IsNegative, AllDigits, AllSpace, NoSign;
  }

  /** strconv.Atoi on a sign, digits and more: the number if there is nothing else. */
  lemma AtoiReads(sign: string, digits: string, rest: string)
    requires IsSign(sign) && AllDigits(digits) && (rest != [] ==> !IsDigit(rest[0]))
    requires digits == [] && sign == "" ==> NoSign(rest)
    ensures var n := Signed(sign == "-", Magnitude(digits));
      Atoi(sign + (digits + rest)) ==
      if digits == [] || rest != [] then Err(NotANumber)
      else if -0x8000_0000_0000_0000 <= n <= 0x7fff_ffff_ffff_ffff then Ok(n) else Err(OutOfRange)
  {
    assert NoSign(digits + rest) || sign != "";
    SignTaken(sign, digits + rest);
    DigitsInFront(digits, rest);
    assert rest == [] ==> digits + rest == digits;
    hide Magnitude, DigitsAt, WithoutSign, IsNegative, AllDigits, NoSign;
  }

  /** Both readers read back what is printed in their range, and refuse what is not in it. */
  lemma NumbersReadBack(n: int)
    ensures Stoi(IntToString(n)) == if -0x8000_0000 <= n <= 0x7fff_ffff then Ok(n) else Err(OutOfRange)
    ensures Atoi(IntToString(n)) ==
            if -0x8000_0000_0000_0000 <= n <= 0x7fff_ffff_ffff_ffff then Ok(n) else Err(OutOfRange)
  {
    PrintedNumber(n);
    var digits := NatToString(if n < 0 then -n else n);
    DigitsOfAll(digits);
    MagnitudeOfNat(if n < 0 then -n else n);
    hide NatToString, IntToString, Magnitude, DigitsAt, SkipSpace;
  }

  /** Numbers contain none of the separators. */
  lemma NumbersAreFree(n: int, d: char)
    requires d == ',' || d == ':' || d == '+'
    ensures Free(IntToString(n), d)
  {
    PrintedNumber(n);
    var digits := NatToString(if n < 0 then -n else n);
    forall i | 0 <= i < |digits| ensures digits[i] != d {
      assert IsDigit(digits[i]);
    }
  }
}
