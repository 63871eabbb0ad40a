/**
 * `_priority_of(obj)`: `int(getattr(obj, "priority", 0))`, with every
 * exception turned into priority 0. `int()` on a string is modelled for a
 * plain signed decimal numeral.
 */
module Priority {
  import opened Wrappers
  import opened Objects

  /** What `getattr(obj, "priority", 0)` finds: no attribute, a value, or an accessor that raises. */
  datatype Lookup = Missing | Found(v: Value) | Raises

  predicate IsDigit(ch: char)
  {
    '0' <= ch <= '9'
  }

  function DigitValue(ch: char): nat
    requires IsDigit(ch)
  {
    ch as int - '0' as int
  }

  function DigitChar(d: nat): (ch: char)
    requires d < 10
    ensures IsDigit(ch) && DigitValue(ch) == d
  {
    ('0' as int + d) as char
  }

  /** The value of a string of ASCII digits, read most significant first; `None` unless it is one. */
  function ParseNat(s: string): (r: Option<nat>)
    ensures r.Some? <==> s != [] && forall i :: 0 <= i < |s| ==> IsDigit(s[i])
  {
    if s == [] then None
    else
      var init, last := s[..|s| - 1], s[|s| - 1];
      if !IsDigit(last) then None
      else if init == [] then Some(DigitValue(last))
      else match ParseNat(init)
        case None => None
        case Some(n) => Some(10 * n + DigitValue(last))
  }

  /** `int(s)` for a decimal numeral with an optional `+` or `-` sign; `None` where `int()` raises `ValueError`. */
  function ParseInt(s: string): (r: Option<int>)
    // accepted exactly when, after an optional sign, one or more digits and nothing else remain
    ensures var digits := if s != [] && (s[0] == '-' || s[0] == '+') then s[1..] else s;
            r.Some? <==> digits != [] && forall i :: 0 <= i < |digits| ==> IsDigit(digits[i])
    // the sign decides the sign of the result
    ensures r.Some? && s[0] == '-' ==> r.value <= 0
    ensures r.Some? && s[0] != '-' ==> r.value >= 0
  {
    if s != [] && (s[0] == '-' || s[0] == '+') then
      match ParseNat(s[1..])
      case None => None
      case Some(n) => Some(if s[0] == '-' then -(n as int) else n as int)
    else
      match ParseNat(s)
      case None => None
      case Some(n) => Some(n)
  }

  /** `str(n)` for a non-negative integer. */
  function ShowNat(n: nat): (s: string)
    ensures s != [] && forall i :: 0 <= i < |s| ==> IsDigit(s[i])
  {
    if n < 10 then [DigitChar(n)] else ShowNat(n / 10) + [DigitChar(n % 10)]
  }

  /** `str(n)`. */
  function Show(n: int): string
  {
    if n < 0 then "-" + ShowNat(-n) else ShowNat(n)
  }

  lemma {:induction false} ParseShowNat(n: nat)
    ensures ParseNat(ShowNat(n)) == Some(n)
  {
    var s := ShowNat(n);
    if n >= 10 {
      ParseShowNat(n / 10);
      assert s[..|s| - 1] == ShowNat(n / 10);
      assert s[|s| - 1] == DigitChar(n % 10);
    }
  }

  /** `int(str(n)) == n`: the decimal numeral of any integer parses back to it. */
  lemma ParseShow(n: int)
    ensures ParseInt(Show(n)) == Some(n)
  {
    if n < 0 {
      ParseShowNat(-n);
      assert Show(n)[1..] == ShowNat(-n);
    } else {
      ParseShowNat(n);
    }
  }

  /** `_priority_of(obj)`. */
  function PriorityOf(lookup: Lookup): (r: int)
    // a non-zero priority can only come from an int, a bool or a numeric string
    ensures r != 0 ==> lookup.Found? && (lookup.v.IntVal? || lookup.v == BoolVal(true) || lookup.v.StrVal?)
    // an int priority is taken as it is
    ensures lookup.Found? && lookup.v.IntVal? ==> r == lookup.v.i
    // `int()` failing on a string, and a missing attribute, fall back to the default 0
    ensures lookup.Found? && lookup.v.StrVal? && ParseInt(lookup.v.s).None? ==> r == 0
    ensures lookup.Missing? || lookup.Raises? ==> r == 0
  {
    match lookup
    case Missing => 0          // int(0)
    case Raises => 0           // except Exception: return 0
    case Found(v) =>
      match v
      case IntVal(i) => i
      case BoolVal(b) => if b then 1 else 0
      case StrVal(s) => (match ParseInt(s) case Some(n) => n case None => 0)
      case _ => 0              // int() raises TypeError
  }

  /** A priority written as a string counts the same as the integer it spells. */
  lemma PriorityOfNumeral(n: int)
    ensures PriorityOf(Found(StrVal(Show(n)))) == PriorityOf(Found(IntVal(n))) == n
  {
    ParseShow(n);
  }
}
