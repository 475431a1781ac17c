/** Helpers shared by every stage of the SL toolchain: outcome types, the
    character classes the two lexers test, the lexers' position update, and
    the decimal text form of integers (Rust's `Display` and `str::parse`). */
module Common {

  datatype Option<+T> = None | Some(value: T)

  /** The outcome of a stage that may abort. The source panics; here a panic
      is an `Err` carrying what went wrong. */
  datatype Result<+T, +E> = Ok(value: T) | Err(error: E) {
    predicate IsFailure() { Err? }
    function PropagateFailure<U>(): Result<U, E> requires Err? { Err(error) }
    function Extract(): T requires Ok? { value }
  }

  /** `num.contains(c)` with `num` = "0123456789". */
  predicate IsDigit(c: char) { '0' <= c <= '9' }

  /** `allowed_for_id.contains(c)`: ASCII letters, `_` and digits. */
  predicate IsIdChar(c: char) { 'a' <= c <= 'z' || 'A' <= c <= 'Z' || c == '_' || IsDigit(c) }

  predicate AllDigits(s: string) { forall i :: 0 <= i < |s| ==> IsDigit(s[i]) }

  /** Column and line after reading `c` at column `x` of line `y`: a newline
      starts the next line at column 0, anything else moves one column on. */
  function Advance(x: nat, y: nat, c: char): (p: (nat, nat))
    ensures c == '\n' ==> p == (0, y + 1)
    ensures c != '\n' ==> p == (x + 1, y)
  {
    if c == '\n' then (0, y + 1) else (x + 1, y)
  }

  /** The character after position `i`, if there is one. */
  function Lookahead(text: string, i: int): Option<char> {
    if 0 <= i + 1 < |text| then Some(text[i + 1]) else None
  }

  /** The first character at or after `i` that is not a space; `None` when
      only spaces are left (where the source indexes past the end). */
  function NextNonSpace(text: string, i: nat): (r: Option<char>)
    decreases |text| - i
    ensures r.Some? ==> r.value != ' ' && exists j :: i <= j < |text| && text[j] == r.value
    ensures r.None? ==> forall k :: i <= k < |text| ==> text[k] == ' '
  {
    if i >= |text| then None
    else if text[i] != ' ' then Some(text[i])
    else NextNonSpace(text, i + 1)
  }

  function DigitValue(c: char): (d: nat)
    requires IsDigit(c)
    ensures d < 10
  {
    c as int - '0' as int
  }

  function DigitChar(d: nat): (c: char)
    requires d < 10
    ensures IsDigit(c) && DigitValue(c) == d
  {
    ('0' as int + d) as char
  }

  /** Decimal digits of a natural number, most significant first, no leading zero. */
  function NatToString(n: nat): (s: string)
    ensures |s| >= 1 && AllDigits(s)
    ensures |s| > 1 ==> s[0] != '0'
  {
    if n < 10 then [DigitChar(n)] else NatToString(n / 10) + [DigitChar(n % 10)]
  }

  /** `to_string()` of an integer: a leading `-` for negatives. */
  function IntToString(n: int): (s: string)
    ensures |s| >= 1
    ensures n < 0 <==> s[0] == '-'
  {
    if n < 0 then "-" + NatToString(-n) else NatToString(n)
  }

  /** Value of a non-empty run of decimal digits. */
  function DigitsValue(s: string): nat
    requires |s| >= 1 && AllDigits(s)
  {
    if |s| == 1 then DigitValue(s[0]) else DigitsValue(s[..|s| - 1]) * 10 + DigitValue(s[|s| - 1])
  }

  /** `str::parse::<i128>()` without the width limit: an optional sign, then
      at least one digit and nothing else. */
  function ParseInt(s: string): (r: Option<int>)
    ensures r.Some? ==> |s| >= 1
    ensures |s| >= 1 && AllDigits(s) ==> r == Some(DigitsValue(s))
  {
    if |s| >= 2 && s[0] == '-' && AllDigits(s[1..]) then Some(0 - DigitsValue(s[1..]) as int)
    else if |s| >= 2 && s[0] == '+' && AllDigits(s[1..]) then Some(DigitsValue(s[1..]))
    else if |s| >= 1 && AllDigits(s) then Some(DigitsValue(s))
    else None
  }

  lemma {:induction false} DigitsOfNat(n: nat)
    ensures DigitsValue(NatToString(n)) == n
  {
    if n >= 10 {
      var s := NatToString(n);
      assert s[..|s| - 1] == NatToString(n / 10);
      DigitsOfNat(n / 10);
    }
  }

  /** Reading back the text an integer prints as gives the integer again. */
  lemma ParseIntToString(n: int)
    ensures ParseInt(IntToString(n)) == Some(n)
  {
    var s := IntToString(n);
    if n < 0 {
      var t := NatToString(-n);
      assert s == "-" + t;
      assert s[1..] == t;
      DigitsOfNat(-n);
      assert ParseInt(s) == Some(0 - DigitsValue(t) as int);
    } else {
      assert s == NatToString(n);
      assert s[0] != '-' && s[0] != '+';
      DigitsOfNat(n);
    }
  }
}
