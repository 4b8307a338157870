/** The pieces of JavaScript's runtime that the two servers and the form rely on:
    request-body values and their truthiness, String.prototype.trim,
    toLowerCase and includes, parseInt / parseFloat / Number() on integer
    text, and the end index of Array.prototype.slice. Numbers are integers
    or NaN; fractions, exponents and infinities are outside the model. */
module Js {

  datatype Option<+T> = None | Some(value: T) {
    function GetOr(default: T): T {
      if Some? then value else default
    }
  }

  /** A JavaScript number: an integer, or NaN. */
  datatype Number = Int(i: int) | NaN

  /** A value as it arrives in a parsed JSON request body. */
  datatype Value = Undefined | Null | Bool(b: bool) | Num(n: Number) | Str(s: string)

  /** JavaScript truthiness: `!v` holds exactly when `!Truthy(v)`. */
  predicate Truthy(v: Value) {
    match v
    case Undefined => false
    case Null => false
    case Bool(b) => b
    case Num(n) => n.Int? && n.i != 0
    case Str(s) => s != ""
  }

  /** `a <= b` on numbers; every comparison with NaN is false. */
  predicate NumLe(a: Number, b: Number) {
    a.Int? && b.Int? && a.i <= b.i
  }

  /** `a >= b` on numbers; every comparison with NaN is false. */
  predicate NumGe(a: Number, b: Number) {
    a.Int? && b.Int? && a.i >= b.i
  }

  // ---------------------------------------------------------------------------
  // Strings

  /** The white space and line terminators that String.prototype.trim strips. */
  predicate IsSpace(c: char) {
    || c == ' ' || c == '\t' || c == '\n' || c == '\r' || c == '\U{000B}' || c == '\U{000C}'
    || c == '\U{00A0}' || c == '\U{1680}' || ('\U{2000}' <= c <= '\U{200A}')
    || c == '\U{2028}' || c == '\U{2029}' || c == '\U{202F}' || c == '\U{205F}'
    || c == '\U{3000}' || c == '\U{FEFF}'
  }

  /** Drops the leading white space: what is dropped is all space, what stays
      is a suffix that starts with a non-space character. */
  function TrimStart(s: string): (r: string)
    ensures |r| <= |s| && r == s[|s| - |r|..]
    ensures forall k :: 0 <= k < |s| - |r| ==> IsSpace(s[k])
    ensures r != [] ==> !IsSpace(r[0])
  {
    if s != [] && IsSpace(s[0]) then
      var r := TrimStart(s[1..]);
      assert s[1..][|s| - 1 - |r|..] == s[|s| - |r|..];
      assert forall k :: 0 < k < |s| ==> s[k] == s[1..][k - 1];
      r
    else s
  }

  /** A string that already has no white space at either end. */
  predicate IsTrimmed(s: string) {
    s == [] || (!IsSpace(s[0]) && !IsSpace(s[|s| - 1]))
  }

  /** String.prototype.trim: drops white space from both ends, one
      character at a time, and what is left has none at either end. */
  function Trim(s: string): (r: string)
    ensures |r| <= |s|
    ensures IsTrimmed(r)
    decreases |s|
  {
    if s != [] && IsSpace(s[0]) then Trim(s[1..])
    else if s != [] && IsSpace(s[|s| - 1]) then Trim(s[..|s| - 1])
    else s
  }

  /** `r` sits at offset `i` of `s`, and everything around it is white space. */
  predicate TrimsTo(s: string, r: string, i: int) {
    && 0 <= i <= |s| - |r| && r == s[i..i + |r|]
    && (forall k :: 0 <= k < i ==> IsSpace(s[k]))
    && (forall k :: i + |r| <= k < |s| ==> IsSpace(s[k]))
  }

  /** How many leading characters Trim drops. */
  function TrimOffset(s: string): nat
    decreases |s|
  {
    if s != [] && IsSpace(s[0]) then 1 + TrimOffset(s[1..])
    else if s != [] && IsSpace(s[|s| - 1]) then TrimOffset(s[..|s| - 1])
    else 0
  }

  /** A leading space in front of a trimmed run is dropped space. */
  lemma TrimsToFront(s: string, r: string, i: int)
    requires s != [] && IsSpace(s[0]) && TrimsTo(s[1..], r, i)
    ensures TrimsTo(s, r, i + 1)
  {
    var t := s[1..];
    assert s[i + 1..i + 1 + |r|] == t[i..i + |r|];
    forall k | 0 < k < i + 1
      ensures IsSpace(s[k])
    {
      assert s[k] == t[k - 1];
    }
    forall k | i + 1 + |r| <= k < |s|
      ensures IsSpace(s[k])
    {
      assert s[k] == t[k - 1];
    }
  }

  /** A trailing space behind a trimmed run is dropped space. */
  lemma TrimsToBack(s: string, r: string, i: int)
    requires s != [] && IsSpace(s[|s| - 1]) && TrimsTo(s[..|s| - 1], r, i)
    ensures TrimsTo(s, r, i)
  {
    var t := s[..|s| - 1];
    assert s[i..i + |r|] == t[i..i + |r|];
  }

  /** Trim drops only white space, and only at the two ends. */
  lemma {:induction false} TrimDropsSpace(s: string)
    ensures TrimsTo(s, Trim(s), TrimOffset(s))
    decreases |s|
  {
    if s != [] && IsSpace(s[0]) {
      TrimDropsSpace(s[1..]);
      TrimsToFront(s, Trim(s[1..]), TrimOffset(s[1..]));
    } else if s != [] && IsSpace(s[|s| - 1]) {
      TrimDropsSpace(s[..|s| - 1]);
      TrimsToBack(s, Trim(s[..|s| - 1]), TrimOffset(s[..|s| - 1]));
    } else {
      assert s[0..|s|] == s;
    }
  }

  /** Trim leaves nothing exactly when the input is all white space. */
  lemma {:induction false} TrimBlank(s: string)
    ensures Trim(s) == [] <==> forall k :: 0 <= k < |s| ==> IsSpace(s[k])
    decreases |s|
  {
    if s != [] && IsSpace(s[0]) {
      TrimBlank(s[1..]);
      assert forall k :: 1 <= k < |s| ==> s[k] == s[1..][k - 1];
    } else if s != [] && IsSpace(s[|s| - 1]) {
      var t := s[..|s| - 1];
      TrimBlank(t);
      assert forall k :: 0 <= k < |t| ==> s[k] == t[k];
    }
  }

  /** Trimming an already trimmed string changes nothing; in particular
      trimming twice is trimming once. */
  lemma TrimTrimmed(s: string)
    requires IsTrimmed(s)
    ensures Trim(s) == s
  {
  }

  /** String.prototype.toLowerCase on one character, for the Latin, Latin-1
      and Cyrillic capitals; every other character is its own lower case. */
  function LowerChar(c: char): char {
    if 'A' <= c <= 'Z' || ('\U{00C0}' <= c <= '\U{00DE}' && c != '\U{00D7}') || ('\U{0410}' <= c <= '\U{042F}') then
      (c as int + 32) as char
    else if '\U{0400}' <= c <= '\U{040F}' then
      (c as int + 80) as char
    else
      c
  }

  /** String.prototype.toLowerCase, character by character. */
  function ToLower(s: string): (r: string)
    ensures |r| == |s|
  {
    seq(|s|, k requires 0 <= k < |s| => LowerChar(s[k]))
  }

  /** Lower-casing is idempotent: a lower-cased term is already in the form
      it is compared in. */
  lemma ToLowerIdempotent(s: string)
    ensures ToLower(ToLower(s)) == ToLower(s)
  {
    forall k | 0 <= k < |s|
      ensures LowerChar(LowerChar(s[k])) == LowerChar(s[k])
    {
    }
  }

  /** String.prototype.includes: `t` occurs in `s` as a contiguous run. */
  predicate Includes(s: string, t: string)
    decreases |s|
  {
    t <= s || (s != [] && Includes(s[1..], t))
  }

  /** `t` occurs in `s` starting at index `i`. */
  predicate OccursAt(s: string, t: string, i: int) {
    0 <= i <= |s| - |t| && t == s[i..i + |t|]
  }

  /** `Includes` agrees with the positional reading of "occurs in". */
  lemma {:induction false} IncludesAt(s: string, t: string)
    ensures Includes(s, t) <==> exists i :: OccursAt(s, t, i)
  {
    if Includes(s, t) {
      var i := IncludesIndex(s, t);
    }
    if exists i :: OccursAt(s, t, i) {
      var i :| OccursAt(s, t, i);
      OccursIncludes(s, t, i);
    }
  }

  /** Where `Includes` finds `t`. */
  lemma {:induction false} IncludesIndex(s: string, t: string) returns (i: nat)
    requires Includes(s, t)
    ensures OccursAt(s, t, i)
    decreases |s|
  {
    if t <= s {
      i := 0;
    } else {
      i := IncludesIndex(s[1..], t);
      i := i + 1;
    }
  }

  /** An occurrence at `i` is found by `Includes`. */
  lemma {:induction false} OccursIncludes(s: string, t: string, i: int)
    requires OccursAt(s, t, i)
    ensures Includes(s, t)
    decreases i
  {
    if i > 0 {
      assert OccursAt(s[1..], t, i - 1);
      OccursIncludes(s[1..], t, i - 1);
    }
  }

  // ---------------------------------------------------------------------------
  // Numbers

  predicate IsDigit(c: char) {
    '0' <= c <= '9'
  }

  predicate AllDigits(s: string) {
    forall k :: 0 <= k < |s| ==> IsDigit(s[k])
  }

  /** The value of a run of decimal digits, most significant first. */
  function DigitsValue(d: string): nat
    requires AllDigits(d)
  {
    if d == [] then 0 else DigitsValue(d[..|d| - 1]) * 10 + (d[|d| - 1] as int - '0' as int)
  }

  /** The length of the run of digits that starts `s`. */
  function LeadingDigits(s: string): (n: nat)
    ensures n <= |s|
    ensures forall k :: 0 <= k < n ==> IsDigit(s[k])
    ensures n < |s| ==> !IsDigit(s[n])
  {
    if s != [] && IsDigit(s[0]) then 1 + LeadingDigits(s[1..]) else 0
  }

  /** A sign character, if `t` starts with one. */
  predicate HasSign(t: string) {
    t != [] && (t[0] == '-' || t[0] == '+')
  }

  function Signed(negative: bool, magnitude: nat): int {
    if negative then -(magnitude as int) else magnitude
  }

  /** parseInt(s) (and parseFloat(s) on integer text): skip leading white
      space, read an optional sign and the longest run of digits after it,
      ignore the rest; NaN when there is no digit. */
  function ParseInt(s: string): Number {
    var t := TrimStart(s);
    var rest := if HasSign(t) then t[1..] else t;
    var n := LeadingDigits(rest);
    if n == 0 then NaN else Int(Signed(HasSign(t) && t[0] == '-', DigitsValue(rest[..n])))
  }

  /** Text that starts with something other than white space, a sign or a
      digit parses to NaN. */
  lemma ParseIntNoDigit(s: string)
    requires s != [] && !IsSpace(s[0]) && !IsDigit(s[0]) && s[0] != '-' && s[0] != '+'
    ensures ParseInt(s) == NaN
  {
    assert TrimStart(s) == s;
  }

  /** Number(s) on a string: the whole trimmed text must be an optionally
      signed run of digits; the blank string is 0; anything else is NaN. */
  function StringToNumber(s: string): Number {
    var t := Trim(s);
    var rest := if HasSign(t) then t[1..] else t;
    if t == [] then Int(0)
    else if rest != [] && AllDigits(rest) then Int(Signed(t[0] == '-', DigitsValue(rest)))
    else NaN
  }

  /** Number(v) on a request-body value. */
  function ToNumber(v: Value): Number {
    match v
    case Undefined => NaN
    case Null => Int(0)
    case Bool(b) => Int(if b then 1 else 0)
    case Num(n) => n
    case Str(s) => StringToNumber(s)
  }

  /** Decimal digits of a natural number, most significant first. */
  function NatDigits(n: nat): (d: string)
    ensures d != [] && AllDigits(d)
    decreases n
  {
    (if n < 10 then [] else NatDigits(n / 10)) + [(('0' as int) + n % 10) as char]
  }

  /** How JavaScript renders an integer as text (String(n)). */
  function Decimal(n: int): string {
    if n < 0 then "-" + NatDigits(-n) else NatDigits(n)
  }

  lemma {:induction false} DigitsValueOfNatDigits(n: nat)
    ensures DigitsValue(NatDigits(n)) == n
    decreases n
  {
    var d := NatDigits(n);
    var front := if n < 10 then [] else NatDigits(n / 10);
    assert d[..|d| - 1] == front;
    if n >= 10 {
      DigitsValueOfNatDigits(n / 10);
    }
  }

  /** parseInt reads back the text of every integer: an id rendered into a
      URL path reaches the record with that id. */
  lemma ParseIntDecimal(n: int)
    ensures ParseInt(Decimal(n)) == Int(n)
  {
    var d := NatDigits(if n < 0 then -n else n);
    var s := Decimal(n);
    DecimalShape(n);
    assert TrimStart(s) == s;
    assert LeadingDigits(d) == |d|;
    assert d[..|d|] == d;
    DigitsValueOfNatDigits(if n < 0 then -n else n);
  }

  /** Number() reads back the text of every integer: a price or stock typed
      as digits becomes that number. */
  lemma NumberDecimal(n: int)
    ensures StringToNumber(Decimal(n)) == Int(n)
  {
    var m: nat := if n < 0 then -n else n;
    DecimalShape(n);
    TrimTrimmed(Decimal(n));
    DigitsValueOfNatDigits(m);
  }

  /** The text of an integer: no surrounding space, a '-' exactly when it is
      negative, and the digits of its magnitude after it. */
  lemma DecimalShape(n: int)
    ensures var s := Decimal(n);
      && s != [] && IsTrimmed(s)
      && (HasSign(s) <==> n < 0)
      && (HasSign(s) ==> s[0] == '-')
      && (if HasSign(s) then s[1..] else s) == NatDigits(if n < 0 then -n else n)
  {
    var d := NatDigits(if n < 0 then -n else n);
    var s := Decimal(n);
    assert s[|s| - 1] == d[|d| - 1];
    assert IsDigit(d[0]) && IsDigit(d[|d| - 1]);
    if n < 0 {
      assert s[1..] == d;
    }
  }

  /** The end index that `slice(0, end)` uses on an array of length `len`:
      NaN counts as 0, a negative end counts back from the length, and an
      end past the array is clamped to its length. */
  function SliceEnd(len: nat, end: Number): (k: nat)
    ensures k <= len
    ensures end.Int? && 0 <= end.i <= len ==> k == end.i
  {
    match end
    case NaN => 0
    case Int(e) =>
      if e < 0 then (if len + e < 0 then 0 else len + e)
      else if e < len then e
      else len
  }
}
