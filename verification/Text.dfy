/** The string operations of Go's strings and strconv packages that the program calls. */
module Text {
  import opened Quantities

  predicate IsDigit(c: char) {
    '0' <= c <= '9'
  }

  predicate AllDigits(s: string) {
    forall i :: 0 <= i < |s| ==> IsDigit(s[i])
  }

  function DigitsValue(s: string): nat
    requires AllDigits(s)
  {
    if s == "" then 0 else 10 * DigitsValue(s[..|s| - 1]) + (s[|s| - 1] as int - '0' as int)
  }

  /** strconv.ParseInt(s, 10, 64), and strconv.Atoi: the value it returns and whether it succeeded.
      Malformed text gives zero, an out-of-range number the nearest int64. */
  function ParseInt(s: string): (int, bool) {
    var signed := |s| > 0 && (s[0] == '+' || s[0] == '-');
    var digits := if signed then s[1..] else s;
    if digits == "" || !AllDigits(digits) then (0, false)
    else
      var magnitude: int := DigitsValue(digits);
      var value := if signed && s[0] == '-' then -magnitude else magnitude;
      if value > MAX_INT64 then (MAX_INT64, false)
      else if value < -TWO_63 then (-TWO_63, false)
      else (value, true)
  }

  /** fmt's %d for a natural number. */
  function Decimal(n: nat): (s: string)
    ensures s != "" && AllDigits(s)
  {
    var last := [(n % 10 + '0' as int) as char];
    if n < 10 then last else Decimal(n / 10) + last
  }

  /** Printing and parsing a number are inverse. */
  lemma {:induction false} DecimalValue(n: nat)
    ensures DigitsValue(Decimal(n)) == n
  {
    var s := Decimal(n);
    assert s[|s| - 1] as int - '0' as int == n % 10;
    if n < 10 {
      assert s[..|s| - 1] == "";
    } else {
      DecimalValue(n / 10);
      assert s[..|s| - 1] == Decimal(n / 10);
    }
  }

  lemma ParseDecimal(n: nat)
    requires n <= MAX_INT64
    ensures ParseInt(Decimal(n)) == (n, true)
  {
    DecimalValue(n);
    assert IsDigit(Decimal(n)[0]);
  }

  /** A number as strconv reads it: an optional sign and at least one digit. */
  predicate IsNumber(s: string, sign: string, digits: string) {
    s == sign + digits && sign in ["", "+", "-"] && digits != "" && AllDigits(digits)
  }

  function Nearest(value: int): int {
    if value > MAX_INT64 then MAX_INT64 else if value < -TWO_63 then -TWO_63 else value
  }

  /** Signed numbers are read with their sign, clamped to int64 and refused when they had to be; anything that is not
      a number is refused and read as zero. */
  lemma ParseMeaning(s: string, sign: string, digits: string)
    requires IsNumber(s, sign, digits)
    ensures var value := if sign == "-" then -(DigitsValue(digits) as int) else DigitsValue(digits) as int;
      ParseInt(s) == (Nearest(value), Nearest(value) == value)
  {
    if sign == "" {
      assert s == digits && IsDigit(s[0]);
    } else {
      assert s[0] == sign[0] && s[1..] == digits;
    }
  }

  lemma ParseRejects(s: string)
    requires forall sign, digits :: !IsNumber(s, sign, digits)
    ensures ParseInt(s) == (0, false)
  {
    assert s == "" + s && !IsNumber(s, "", s);
    if |s| > 0 {
      assert s == [s[0]] + s[1..] && !IsNumber(s, [s[0]], s[1..]);
    }
  }

  /** unicode.IsSpace. */
  predicate IsSpace(c: char) {
    || c == ' ' || '\U{09}' <= c <= '\U{0D}' || c == '\U{85}' || c == '\U{A0}'
    || c == '\U{1680}' || '\U{2000}' <= c <= '\U{200A}' || c == '\U{2028}' || c == '\U{2029}'
    || c == '\U{202F}' || c == '\U{205F}' || c == '\U{3000}'
  }

  function TrimLeft(s: string): string {
    if s != "" && IsSpace(s[0]) then TrimLeft(s[1..]) else s
  }

  function TrimRight(s: string): string {
    if s != "" && IsSpace(s[|s| - 1]) then TrimRight(s[..|s| - 1]) else s
  }

  function TrimSpace(s: string): string {
    TrimRight(TrimLeft(s))
  }

  lemma {:induction false} TrimLeftMeaning(s: string) returns (pad: string)
    ensures s == pad + TrimLeft(s) && forall c :: c in pad ==> IsSpace(c)
    ensures TrimLeft(s) != "" ==> !IsSpace(TrimLeft(s)[0])
  {
    pad := "";
    if s != "" && IsSpace(s[0]) {
      var rest := TrimLeftMeaning(s[1..]);
      pad := [s[0]] + rest;
      assert s == [s[0]] + s[1..];
    }
  }

  lemma {:induction false} TrimRightMeaning(s: string) returns (pad: string)
    ensures s == TrimRight(s) + pad && forall c :: c in pad ==> IsSpace(c)
    ensures TrimRight(s) != "" ==> !IsSpace(TrimRight(s)[|TrimRight(s)| - 1])
    decreases |s|
  {
    pad := "";
    if s != "" && IsSpace(s[|s| - 1]) {
      var rest := TrimRightMeaning(s[..|s| - 1]);
      pad := rest + [s[|s| - 1]];
      assert s == s[..|s| - 1] + [s[|s| - 1]];
    }
  }

  /** Trimming takes spaces off both ends, and all of them. */
  lemma TrimMeaning(s: string) returns (left: string, right: string)
    ensures s == left + TrimSpace(s) + right
    ensures forall c :: c in left + right ==> IsSpace(c)
    ensures TrimSpace(s) != "" ==> !IsSpace(TrimSpace(s)[0]) && !IsSpace(TrimSpace(s)[|TrimSpace(s)| - 1])
  {
    left := TrimLeftMeaning(s);
    right := TrimRightMeaning(TrimLeft(s));
    var t := TrimLeft(s);
    assert t == TrimSpace(s) + right;
    assert TrimSpace(s) != "" ==> t[0] == TrimSpace(s)[0];
  }

  /** strings.Split on a one-character separator. */
  function Split(s: string, sep: char): seq<string> {
    if s == "" then [""]
    else if s[0] == sep then [""] + Split(s[1..], sep)
    else
      var rest := Split(s[1..], sep);
      if rest == [] then [s] else [[s[0]] + rest[0]] + rest[1..]
  }

  function Join(parts: seq<string>, sep: char): string {
    if parts == [] then "" else if |parts| == 1 then parts[0] else parts[0] + [sep] + Join(parts[1..], sep)
  }

  /** Splitting cuts at every separator and nowhere else: the parts hold none, and joined they are the text. */
  lemma {:induction false} SplitMeaning(s: string, sep: char)
    ensures Split(s, sep) != [] && Join(Split(s, sep), sep) == s
    ensures forall p :: p in Split(s, sep) ==> sep !in p
  {
    if s != "" {
      var rest := Split(s[1..], sep);
      SplitMeaning(s[1..], sep);
      if s[0] == sep {
        assert ([""] + rest)[1..] == rest;
        assert Join([""] + rest, sep) == "" + [sep] + Join(rest, sep);
      } else {
        var first := [s[0]] + rest[0];
        var all := [first] + rest[1..];
        assert all[1..] == rest[1..];
        assert rest[0] in rest;
        if |rest| > 1 {
          assert Join(all, sep) == first + [sep] + Join(rest[1..], sep);
          assert first + [sep] + Join(rest[1..], sep) == [s[0]] + (rest[0] + [sep] + Join(rest[1..], sep));
        }
      }
      assert s == [s[0]] + s[1..];
    }
  }

  /** strings.Index: the first position where `sub` occurs, or -1. */
  function Index(s: string, sub: string): (i: int)
    ensures i == -1 || (0 <= i <= |s| && sub <= s[i..])
  {
    if sub <= s then 0
    else if s == "" then -1
    else
      var i := Index(s[1..], sub);
      if i < 0 then -1 else i + 1
  }

  predicate Contains(s: string, sub: string) {
    Index(s, sub) >= 0
  }

  /** No earlier occurrence is missed. */
  lemma {:induction false} IndexIsFirst(s: string, sub: string, j: nat)
    requires j <= |s| && sub <= s[j..]
    ensures 0 <= Index(s, sub) <= j
  {
    assert s[0..] == s;
    if !(sub <= s) {
      assert s[1..][j - 1..] == s[j..];
      IndexIsFirst(s[1..], sub, j - 1);
    }
  }
}
