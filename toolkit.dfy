/**
 * String utilities of the game's toolkit: `split`, `repeatString`, case conversion, `stringToInt`,
 * and the bounded random draw `generateRandomNumber`, modelled as a nondeterministic choice.
 */
module Toolkit {
  import opened Wrappers

  const Int32Min: int := -0x8000_0000
  const Int32Max: int := 0x7FFF_FFFF

  predicate InInt32(n: int) { Int32Min <= n <= Int32Max }

  /** `std::uniform_int_distribution<int>(low, high)`: any value of the closed range may come out. */
  method GenerateRandomNumber(low: int, high: int) returns (r: int)
    requires low <= high
    ensures low <= r <= high
  {
    r :| low <= r <= high;
  }

  // ---------------------------------------------------------------- split

  /** Position of the first `d` in `s`, or `|s|` when there is none. */
  function IndexOf(s: string, d: char): (i: nat)
    ensures i <= |s|
    ensures forall k :: 0 <= k < i ==> s[k] != d
    ensures i < |s| ==> s[i] == d
  {
    if s == [] then 0 else if s[0] == d then 0 else 1 + IndexOf(s[1..], d)
  }

  /**
   * `split(str, delimiter)`: the tokens `std::getline` reads from the string, one per delimiter-terminated
   * piece; a final piece without a delimiter is a token too, an empty final piece is not.
   */
  function Split(s: string, delimiter: char): (tokens: seq<string>)
    ensures |tokens| == 0 <==> |s| == 0
    ensures forall k :: 0 <= k < |tokens| ==> delimiter !in tokens[k]
    decreases |s|
  {
    if s == [] then []
    else
      var i := IndexOf(s, delimiter);
      if i == |s| then [s] else [s[..i]] + Split(s[i + 1..], delimiter)
  }

  /** The tokens glued back together with `sep` between neighbours. */
  function Join(tokens: seq<string>, sep: string): string
  {
    if |tokens| == 0 then []
    else if |tokens| == 1 then tokens[0]
    else tokens[0] + sep + Join(tokens[1..], sep)
  }

  predicate EndsWith(s: string, c: char) { |s| > 0 && s[|s| - 1] == c }

  /** Joining the tokens with the delimiter gives back the string, less one trailing delimiter. */
  lemma {:induction false} JoinSplit(s: string, d: char)
    ensures Join(Split(s, d), [d]) + (if EndsWith(s, d) then [d] else []) == s
    decreases |s|
  {
    if s != [] {
      var i := IndexOf(s, d);
      if i < |s| {
        JoinSplit(s[i + 1..], d);
        JoinSplitAt(s, d, i, s[i + 1..]);
      } else {
        assert Split(s, d) == [s];
        assert s[|s| - 1] != d;
      }
    }
  }

  /** The step of `JoinSplit` past the first delimiter, at `i`. */
  lemma JoinSplitAt(s: string, d: char, i: nat, rest: string)
    requires i == IndexOf(s, d) && i < |s| && rest == s[i + 1..]
    requires Join(Split(rest, d), [d]) + (if EndsWith(rest, d) then [d] else []) == rest
    ensures Join(Split(s, d), [d]) + (if EndsWith(s, d) then [d] else []) == s
  {
    var head := s[..i];
    SplitAt(s, d, i);
    if rest == [] {
      assert Split(s, d) == [head];
    } else {
      var tail := Split(rest, d);
      var x := if EndsWith(rest, d) then [d] else [];
      assert EndsWith(s, d) == EndsWith(rest, d);
      JoinCons(head, tail, [d]);
      Assoc(head + [d], Join(tail, [d]), x);
    }
  }

  /** Splitting at the first delimiter, at `i`: the piece before it, then the split of what follows. */
  lemma SplitAt(s: string, d: char, i: nat)
    requires i == IndexOf(s, d) && i < |s|
    ensures s == s[..i] + [d] + s[i + 1..]
    ensures Split(s, d) == [s[..i]] + Split(s[i + 1..], d)
  {
    assert s[..i + 1] == s[..i] + [d];
    assert s == s[..i + 1] + s[i + 1..];
  }

  lemma JoinCons(head: string, tail: seq<string>, sep: string)
    requires |tail| > 0
    ensures Join([head] + tail, sep) == head + sep + Join(tail, sep)
  {
    assert ([head] + tail)[1..] == tail;
  }

  lemma Assoc(a: string, b: string, c: string)
    ensures a + b + c == a + (b + c)
  {
  }

  lemma {:induction false} JoinNonEmpty(tokens: seq<string>, sep: string)
    requires |tokens| > 0 && tokens[|tokens| - 1] != []
    ensures Join(tokens, sep) != []
    decreases |tokens|
  {
    if |tokens| > 1 {
      JoinNonEmpty(tokens[1..], sep);
    }
  }

  lemma IndexOfPrefix(t: string, d: char, rest: string)
    requires d !in t
    ensures IndexOf(t + [d] + rest, d) == |t|
  {
    var s := t + [d] + rest;
    assert s[|t|] == d;
    assert forall k :: 0 <= k < |t| ==> s[k] == t[k];
  }

  /**
   * Splitting delimiter-free tokens joined by the delimiter gives the tokens back, empty tokens
   * between consecutive delimiters included, provided the last token is not empty.
   */
  lemma {:induction false} SplitJoin(tokens: seq<string>, d: char)
    requires forall k :: 0 <= k < |tokens| ==> d !in tokens[k]
    requires |tokens| == 0 || tokens[|tokens| - 1] != []
    ensures Split(Join(tokens, [d]), d) == tokens
    decreases |tokens|
  {
    if |tokens| == 1 {
      var s := tokens[0];
      var i := IndexOf(s, d);
      assert i == |s|;
    } else if |tokens| > 1 {
      var t0, tail := tokens[0], tokens[1..];
      var rest := Join(tail, [d]);
      var s := Join(tokens, [d]);
      assert s == t0 + [d] + rest;
      assert d !in t0;
      IndexOfPrefix(t0, d, rest);
      assert tail[|tail| - 1] == tokens[|tokens| - 1];
      JoinNonEmpty(tail, [d]);
      assert forall k :: 0 <= k < |tail| ==> tail[k] == tokens[k + 1];
      SplitJoin(tail, d);
      assert s[..|t0|] == t0;
      assert s[|t0| + 1..] == rest;
      assert Split(s, d) == [t0] + Split(rest, d);
      assert tokens == [t0] + tail;
    }
  }

  // ---------------------------------------------------------------- repeatString

  /** `s` written `count` times in a row; nothing for a count that is not positive. */
  function Repeat(s: string, count: int): string
    decreases count
  {
    if count <= 0 then [] else Repeat(s, count - 1) + s
  }

  /** `repeatString`: the loop appends `str` once per round. */
  method RepeatString(str: string, count: int) returns (result: string)
    ensures result == Repeat(str, count)
  {
    if count <= 0 {
      return "";
    }
    result := "";
    var i := 0;
    while i < count
      invariant 0 <= i <= count
      invariant result == Repeat(str, i)
    {
      result := result + str;
      i := i + 1;
    }
  }

  /** The repetition has `|s|·count` characters and character `k` is `s[k mod |s|]`. */
  lemma {:induction false} RepeatContents(s: string, count: int)
    ensures count <= 0 ==> Repeat(s, count) == []
    ensures count > 0 ==> |Repeat(s, count)| == |s| * count
    ensures count > 0 ==> forall k :: 0 <= k < |Repeat(s, count)| ==> Repeat(s, count)[k] == s[k % |s|]
    decreases count
  {
    if count > 0 {
      RepeatContents(s, count - 1);
      var prev := Repeat(s, count - 1);
      var r := Repeat(s, count);
      assert |prev| == |s| * (count - 1);
      assert |r| == |s| * count;
      forall k | 0 <= k < |r|
        ensures r[k] == s[k % |s|]
      {
        if k < |prev| {
          assert r[k] == prev[k];
        } else {
          var j := k - |prev|;
          assert r[k] == s[j];
          ModAfterMultiple(|s|, count - 1, j);
        }
      }
    }
  }

  lemma {:induction false} ModAfterMultiple(n: nat, m: nat, j: nat)
    requires j < n
    ensures (n * m + j) % n == j
  {
    if m > 0 {
      ModAfterMultiple(n, m - 1, j);
      var x := n * (m - 1) + j;
      assert n * m + j == x + n by {
        assert n * m == n * (m - 1) + n;
      }
      ModShift(x, n);
    }
  }

  lemma ModShift(x: nat, n: nat)
    requires n > 0
    ensures (x + n) % n == x % n
  {
    var q, r := x / n, x % n;
    var q2, r2 := (x + n) / n, (x + n) % n;
    assert x == n * q + r;
    assert x + n == n * q2 + r2;
    assert n * (q + 1) == n * q + n;
    var k := q + 1 - q2;
    assert n * k == r2 - r;
    if k > 0 {
      MulAtLeast(n, k);
    } else if k < 0 {
      MulAtLeast(n, -k);
    }
  }

  lemma MulAtLeast(n: nat, k: int)
    requires k >= 1
    ensures n * k >= n
  {
    assert n * k == n * (k - 1) + n;
    assert n * (k - 1) >= 0;
  }

  // ---------------------------------------------------------------- case conversion

  predicate IsUpper(c: char) { 'A' <= c <= 'Z' }
  predicate IsLower(c: char) { 'a' <= c <= 'z' }

  /** `std::tolower` in the "C" locale. */
  function LowerChar(c: char): char
  {
    if IsUpper(c) then (c as int - 'A' as int + 'a' as int) as char else c
  }

  /** `std::toupper` in the "C" locale. */
  function UpperChar(c: char): char
  {
    if IsLower(c) then (c as int - 'a' as int + 'A' as int) as char else c
  }

  /** `toLowerCase`: same length, upper-case ASCII letters lowered, every other character kept. */
  function ToLowerCase(str: string): (r: string)
    ensures |r| == |str|
    ensures forall k :: 0 <= k < |str| ==> !IsUpper(r[k])
    ensures forall k :: 0 <= k < |str| && !IsUpper(str[k]) ==> r[k] == str[k]
    ensures forall k :: 0 <= k < |str| && IsUpper(str[k]) ==> IsLower(r[k]) && r[k] as int - str[k] as int == 32
  {
    seq(|str|, k requires 0 <= k < |str| => LowerChar(str[k]))
  }

  /** `toUpperCase`: same length, lower-case ASCII letters raised, every other character kept. */
  function ToUpperCase(input: string): (r: string)
    ensures |r| == |input|
    ensures forall k :: 0 <= k < |input| ==> !IsLower(r[k])
    ensures forall k :: 0 <= k < |input| && !IsLower(input[k]) ==> r[k] == input[k]
    ensures forall k :: 0 <= k < |input| && IsLower(input[k]) ==> IsUpper(r[k]) && input[k] as int - r[k] as int == 32
  {
    seq(|input|, k requires 0 <= k < |input| => UpperChar(input[k]))
  }

  lemma CaseIdempotent(s: string)
    ensures ToLowerCase(ToLowerCase(s)) == ToLowerCase(s)
    ensures ToUpperCase(ToUpperCase(s)) == ToUpperCase(s)
  {
  }

  /** Lowering first does not change what raising gives, and the other way round. */
  lemma CaseAbsorbs(s: string)
    ensures ToUpperCase(ToLowerCase(s)) == ToUpperCase(s)
    ensures ToLowerCase(ToUpperCase(s)) == ToLowerCase(s)
  {
  }

  // ---------------------------------------------------------------- stringToInt

  /** The characters `std::isspace` accepts in the "C" locale. */
  predicate IsSpace(c: char)
  {
    c == ' ' || c == '\t' || c == '\n' || c == '\U{0B}' || c == '\U{0C}' || c == '\r'
  }

  predicate IsDigit(c: char) { '0' <= c <= '9' }

  function DigitValue(c: char): nat
    requires IsDigit(c)
  {
    c as int - '0' as int
  }

  function SkipSpaces(s: string): string
  {
    if s != [] && IsSpace(s[0]) then SkipSpaces(s[1..]) else s
  }

  /** Length of the run of decimal digits that starts `s`. */
  function DigitRun(s: string): (n: nat)
    ensures n <= |s|
    ensures forall k :: 0 <= k < n ==> IsDigit(s[k])
    ensures n < |s| ==> !IsDigit(s[n])
  {
    if s != [] && IsDigit(s[0]) then 1 + DigitRun(s[1..]) else 0
  }

  /** Value of a string of decimal digits, most significant first. */
  function DigitsValue(ds: string): nat
    requires forall k :: 0 <= k < |ds| ==> IsDigit(ds[k])
  {
    if ds == [] then 0 else DigitsValue(ds[..|ds| - 1]) * 10 + DigitValue(ds[|ds| - 1])
  }

  /** The value of the digit run that starts `b`; `None` when `b` does not start with a digit. */
  function ParseDigits(b: string): Option<nat>
  {
    var n := DigitRun(b);
    if n == 0 then None else Some(DigitsValue(b[..n]))
  }

  /** An optional sign followed by a digit run. */
  function ParseSigned(t: string): Option<int>
  {
    if t != [] && t[0] == '-' then
      match ParseDigits(t[1..])
      case None => None
      case Some(v) => Some(0 - v as int)
    else if t != [] && t[0] == '+' then
      match ParseDigits(t[1..])
      case None => None
      case Some(v) => Some(v)
    else
      match ParseDigits(t)
      case None => None
      case Some(v) => Some(v)
  }

  /**
   * The number `std::stoi` reads, before its range check: leading white space, an optional sign and
   * the longest run of digits after it; `None` when that run is empty (`std::invalid_argument`).
   */
  function ParseLeadingInt(str: string): Option<int>
  {
    ParseSigned(SkipSpaces(str))
  }

  /**
   * `stringToInt`: the `std::stoi` value, and 0 where `std::stoi` throws, that is when no number
   * leads the string or when the number does not fit an `int`.
   */
  function StringToInt(str: string): (r: int)
    ensures InInt32(r)
    ensures ParseLeadingInt(str).None? ==> r == 0
    ensures ParseLeadingInt(str).Some? && !InInt32(ParseLeadingInt(str).value) ==> r == 0
    ensures ParseLeadingInt(str).Some? && InInt32(ParseLeadingInt(str).value) ==> r == ParseLeadingInt(str).value
  {
    match ParseLeadingInt(str)
    case None => 0
    case Some(v) => if InInt32(v) then v else 0
  }

  /** `std::to_string` of a natural number: its decimal digits without leading zeros. */
  function NatToString(n: nat): (s: string)
    ensures |s| > 0
    ensures forall k :: 0 <= k < |s| ==> IsDigit(s[k])
  {
    if n < 10 then ["0123456789"[n]] else NatToString(n / 10) + ["0123456789"[n % 10]]
  }

  /** `std::to_string` of an `int`. */
  function IntToString(n: int): string
  {
    if n < 0 then "-" + NatToString(-n) else NatToString(n)
  }

  lemma {:induction false} DigitsOfNatToString(n: nat)
    ensures DigitsValue(NatToString(n)) == n
    decreases n
  {
    var s := NatToString(n);
    if n >= 10 {
      DigitsOfNatToString(n / 10);
      assert s[..|s| - 1] == NatToString(n / 10);
    }
  }

  lemma DigitRunOfDigits(ds: string, rest: string)
    requires forall k :: 0 <= k < |ds| ==> IsDigit(ds[k])
    requires rest == [] || !IsDigit(rest[0])
    ensures DigitRun(ds + rest) == |ds|
    decreases |ds|
  {
    if ds != [] {
      assert (ds + rest)[1..] == ds[1..] + rest;
      DigitRunOfDigits(ds[1..], rest);
    }
  }

  lemma SkipSpacesPrefix(ws: string, t: string)
    requires forall k :: 0 <= k < |ws| ==> IsSpace(ws[k])
    requires t == [] || !IsSpace(t[0])
    ensures SkipSpaces(ws + t) == t
    decreases |ws|
  {
    if ws != [] {
      assert (ws + t)[1..] == ws[1..] + t;
      SkipSpacesPrefix(ws[1..], t);
    }
  }

  /**
   * Round trip: after leading white space, the decimal form of any `int`, followed by anything that
   * does not start with a digit, reads back as that `int`.
   */
  lemma StringToIntOfIntToString(ws: string, n: int, rest: string)
    requires InInt32(n)
    requires forall k :: 0 <= k < |ws| ==> IsSpace(ws[k])
    requires rest == [] || !IsDigit(rest[0])
    ensures StringToInt(ws + IntToString(n) + rest) == n
  {
    ParseOfIntToString(ws, n, rest);
  }

  lemma ParseOfIntToString(ws: string, n: int, rest: string)
    requires forall k :: 0 <= k < |ws| ==> IsSpace(ws[k])
    requires rest == [] || !IsDigit(rest[0])
    ensures ParseLeadingInt(ws + IntToString(n) + rest) == Some(n)
  {
    var t := IntToString(n) + rest;
    assert ws + IntToString(n) + rest == ws + t;
    ParseSignedOfIntToString(n, rest);
    assert t == [] || !IsSpace(t[0]) by {
      if n >= 0 {
        assert t[0] == NatToString(n)[0];
      }
    }
    SkipSpacesPrefix(ws, t);
  }

  lemma ParseSignedOfIntToString(n: int, rest: string)
    requires rest == [] || !IsDigit(rest[0])
    ensures ParseSigned(IntToString(n) + rest) == Some(n)
  {
    var m: nat := if n < 0 then -n else n;
    var digits := NatToString(m);
    DigitsOfNatToString(m);
    if n < 0 {
      ParseSignedNegative(digits, rest, m);
      SignThenDigits(digits, rest);
    } else {
      ParseSignedNatural(digits, rest, m);
    }
  }

  /** A digit string followed by anything that is not a digit reads as its value. */
  lemma ParseDigitsOf(digits: string, rest: string, v: nat)
    requires |digits| > 0 && (forall k :: 0 <= k < |digits| ==> IsDigit(digits[k])) && DigitsValue(digits) == v
    requires rest == [] || !IsDigit(rest[0])
    ensures ParseDigits(digits + rest) == Some(v)
  {
    DigitRunOfDigits(digits, rest);
    assert (digits + rest)[..|digits|] == digits;
  }

  lemma ParseSignedNatural(digits: string, rest: string, v: nat)
    requires |digits| > 0 && (forall k :: 0 <= k < |digits| ==> IsDigit(digits[k])) && DigitsValue(digits) == v
    requires rest == [] || !IsDigit(rest[0])
    ensures ParseSigned(digits + rest) == Some(v)
  {
    ParseDigitsOf(digits, rest, v);
    assert (digits + rest)[0] == digits[0];
  }

  lemma ParseSignedNegative(digits: string, rest: string, v: nat)
    requires |digits| > 0 && (forall k :: 0 <= k < |digits| ==> IsDigit(digits[k])) && DigitsValue(digits) == v
    requires rest == [] || !IsDigit(rest[0])
    ensures ParseSigned(['-'] + (digits + rest)) == Some(0 - v)
  {
    ParseDigitsOf(digits, rest, v);
    var body := digits + rest;
    assert (['-'] + body)[1..] == body;
  }

  lemma SignThenDigits(digits: string, rest: string)
    ensures "-" + digits + rest == ['-'] + (digits + rest)
  {
    assert |"-" + digits + rest| == 1 + |digits + rest|;
  }
}
