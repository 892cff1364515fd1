/** The few pieces of Java's semantics the barcode demo leans on: 32-bit `int`
    arithmetic (wrap-around, division truncating toward zero, `Math.abs`),
    `String.indexOf`, `String.trim`, splitting on a comma pattern and
    `Integer.parseInt`, plus `null` and thrown exceptions as values. */
module JavaLang {

  datatype Option<+T> = None | Some(value: T)

  /** The unchecked exceptions and `IOException` the demo's code can raise. */
  datatype JavaException =
    | NullPointerException
    | ArithmeticException
    | IllegalArgumentException(message: string)
    | IOException
    | RuntimeException
    | ClassCastException

  /** A Java call either returns a value or throws. */
  datatype Outcome<+T> = Ok(value: T) | Thrown(exception: JavaException)

  // ---------------------------------------------------------------------------
  // 32-bit integers

  const MIN_INT: int := -0x8000_0000
  const MAX_INT: int := 0x7fff_ffff

  predicate IsInt32(x: int) { MIN_INT <= x <= MAX_INT }

  /** Java's `int`. */
  type Int32 = x: int | -0x8000_0000 <= x <= 0x7fff_ffff

  function Abs(x: int): nat { if x < 0 then -x else x }

  /** The two's-complement wrap-around Java applies to every `int` result. */
  function Wrap32(x: int): (r: Int32)
    ensures (x - r) % 0x1_0000_0000 == 0
    ensures IsInt32(x) ==> r == x
  {
    var m := x % 0x1_0000_0000;
    if m <= MAX_INT then m else m - 0x1_0000_0000
  }

  /** The wrap-around of a sum or difference of two `int`s, which leaves the
      32-bit range by at most one turn. */
  function WrapOnce(x: int): (r: Int32)
    requires MIN_INT + MIN_INT <= x <= MAX_INT + MAX_INT + 1
    ensures IsInt32(x) ==> r == x
    ensures r == x || r == x - 0x1_0000_0000 || r == x + 0x1_0000_0000
  {
    if x > MAX_INT then x - 0x1_0000_0000 else if x < MIN_INT then x + 0x1_0000_0000 else x
  }

  /** Java's integer division, which truncates toward zero (Dafny's `/` is
      Euclidean): the quotient of the magnitudes, with the sign of the
      operands' product. */
  function JavaDiv(a: int, b: int): (q: int)
    requires b != 0
    ensures a >= 0 && b > 0 ==> q == a / b
    ensures Abs(q) <= Abs(a)
    ensures (a < 0) == (b < 0) ==> q >= 0
    ensures (a < 0) != (b < 0) ==> q <= 0
  {
    var m := Abs(a) / Abs(b);
    QuotientBound(Abs(a), Abs(b));
    if (a < 0) == (b < 0) then m else -m
  }

  lemma QuotientBound(a: nat, b: nat)
    requires b >= 1
    ensures 0 <= a / b <= a
  {
    var m, r := a / b, a % b;
    assert a == m * b + r && 0 <= r < b;
    assert m * b == m + m * (b - 1);
    MulSign(m, b - 1);
    MulSign(m, b);
  }

  lemma MulSign(x: int, y: nat)
    ensures x >= 0 ==> x * y >= 0
    ensures x < 0 ==> x * y <= 0
  {
  }

  /** The remainder of Java's division takes the sign of the dividend and is
      smaller in magnitude than the divisor. */
  lemma JavaDivTruncates(a: int, b: int)
    requires b != 0
    ensures a >= 0 ==> 0 <= a - JavaDiv(a, b) * b < Abs(b)
    ensures a < 0 ==> 0 <= JavaDiv(a, b) * b - a < Abs(b)
  {
    var A: int, B: int := Abs(a), Abs(b);
    var m, q := A / B, JavaDiv(a, b);
    var r := A % B;
    assert A == m * B + r && 0 <= r < B;
    if a >= 0 && b > 0 {
      assert q * b == m * B;
    } else if a >= 0 {
      assert q * b == (-m) * (-B) == m * B;
    } else if b > 0 {
      assert q * b == -(m * B);
    } else {
      assert q * b == m * (-B) == -(m * B);
    }
  }

  /** Java's `int` division: truncating, and wrapping on the one quotient
      that does not fit, `Integer.MIN_VALUE / -1`. */
  function Div32(a: Int32, b: Int32): (q: Int32)
    requires b != 0
    ensures !(a == MIN_INT && b == -1) ==> q == JavaDiv(a, b)
    ensures a == MIN_INT && b == -1 ==> q == MIN_INT
  {
    WrapOnce(JavaDiv(a, b))
  }

  /** `Math.abs(int)`: the negation overflows on the most negative value. */
  function Abs32(v: Int32): (r: Int32)
    ensures v != MIN_INT ==> r == Abs(v)
    ensures v == MIN_INT ==> r == MIN_INT
  {
    if v < 0 then WrapOnce(-(v as int)) else v as int
  }

  // ---------------------------------------------------------------------------
  // Strings

  /** The first position at or after `from` holding `c`, or -1. */
  function IndexFrom(s: string, c: char, from: nat): (r: int)
    requires from <= |s|
    ensures r == -1 || from <= r < |s|
    ensures r == -1 <==> forall k :: from <= k < |s| ==> s[k] != c
    ensures r >= 0 ==> s[r] == c && forall k :: from <= k < r ==> s[k] != c
    decreases |s| - from
  {
    if from == |s| then -1
    else if s[from] == c then from
    else IndexFrom(s, c, from + 1)
  }

  /** `s.indexOf(c)`: the first position of `c`, or -1. */
  function IndexOf(s: string, c: char): (r: int)
    ensures -1 <= r < |s|
    ensures r == -1 <==> forall k :: 0 <= k < |s| ==> s[k] != c
    ensures r >= 0 ==> s[r] == c && forall k :: 0 <= k < r ==> s[k] != c
  {
    IndexFrom(s, c, 0)
  }

  /** The characters `String.trim` strips: every code point up to the space. */
  predicate IsTrimmable(c: char) { c <= ' ' }

  /** `trim`'s first loop: the start index moves past trimmable characters. */
  function TrimStart(s: string, st: nat): (r: nat)
    requires st <= |s|
    ensures st <= r <= |s|
    ensures forall k :: st <= k < r ==> IsTrimmable(s[k])
    ensures r < |s| ==> !IsTrimmable(s[r])
    decreases |s| - st
  {
    if st < |s| && IsTrimmable(s[st]) then TrimStart(s, st + 1) else st
  }

  /** `trim`'s second loop: the end index moves back over trimmable
      characters, never below the start index. */
  function TrimEnd(s: string, st: nat, len: nat): (r: nat)
    requires st <= len <= |s|
    ensures st <= r <= len
    ensures forall k :: r <= k < len ==> IsTrimmable(s[k])
    ensures st < r ==> !IsTrimmable(s[r - 1])
    decreases len
  {
    if st < len && IsTrimmable(s[len - 1]) then TrimEnd(s, st, len - 1) else len
  }

  /** The number of trimmable characters `trim` removes from the front. */
  function LeadingTrimmable(s: string): (n: nat)
    ensures n <= |s|
  {
    TrimStart(s, 0)
  }

  /** `s.trim()`: the longest infix that neither starts nor ends with a
      trimmable character, with only trimmable characters around it. */
  function Trim(s: string): (r: string)
    ensures LeadingTrimmable(s) + |r| <= |s|
    ensures r == s[LeadingTrimmable(s)..LeadingTrimmable(s) + |r|]
    ensures r == [] || (!IsTrimmable(r[0]) && !IsTrimmable(r[|r| - 1]))
    ensures forall k :: 0 <= k < LeadingTrimmable(s) ==> IsTrimmable(s[k])
    ensures forall k :: LeadingTrimmable(s) + |r| <= k < |s| ==> IsTrimmable(s[k])
  {
    var st := TrimStart(s, 0);
    var len := TrimEnd(s, st, |s|);
    s[st..len]
  }

  /** Joins the pieces with a separator between consecutive ones. */
  function Join(pieces: seq<string>, sep: char): string
  {
    if |pieces| == 0 then ""
    else if |pieces| == 1 then pieces[0]
    else pieces[0] + [sep] + Join(pieces[1..], sep)
  }

  /** The text between consecutive commas: one more piece than there are
      commas, none of them holding a comma, and joining them gives `s` back. */
  function CommaPieces(s: string): (r: seq<string>)
    ensures |r| >= 1
    ensures forall i :: 0 <= i < |r| ==> ',' !in r[i]
    ensures Join(r, ',') == s
    decreases |s|
  {
    var k := IndexOf(s, ',');
    if k < 0 then [s]
    else
      var head, rest := s[..k], CommaPieces(s[k + 1..]);
      var r := [head] + rest;
      assert forall j :: 0 <= j < k ==> head[j] == s[j];
      assert r[0] == head && r[1..] == rest;
      assert s == head + [','] + s[k + 1..];
      r
  }

  /** `IndexOf` finds a character at the first place it occurs. */
  lemma IndexOfFirst(s: string, c: char, n: nat)
    requires n < |s| && s[n] == c
    requires forall j :: 0 <= j < n ==> s[j] != c
    ensures IndexOf(s, c) == n
  {
  }

  /** Splitting at the commas undoes joining with commas, for pieces that
      hold none. */
  lemma {:induction false} CommaPiecesJoin(pieces: seq<string>)
    requires |pieces| >= 1
    requires forall i :: 0 <= i < |pieces| ==> ',' !in pieces[i]
    ensures CommaPieces(Join(pieces, ',')) == pieces
    decreases |pieces|
  {
    var s := Join(pieces, ',');
    if |pieces| == 1 {
      assert s == pieces[0];
    } else {
      var head, tail := pieces[0], pieces[1..];
      var j := Join(tail, ',');
      assert s == head + [','] + j;
      assert forall k :: 0 <= k < |head| ==> s[k] == head[k];
      IndexOfFirst(s, ',', |head|);
      assert s[..|head|] == head && s[|head| + 1..] == j;
      assert forall i :: 0 <= i < |tail| ==> tail[i] == pieces[i + 1];
      CommaPiecesJoin(tail);
      assert [head] + tail == pieces;
    }
  }

  function DropTrailingEmpty(ps: seq<string>): (r: seq<string>)
    ensures |r| <= |ps| && r == ps[..|r|]
    ensures forall i :: |r| <= i < |ps| ==> ps[i] == ""
    ensures r == [] || r[|r| - 1] != ""
  {
    if |ps| > 0 && ps[|ps| - 1] == "" then DropTrailingEmpty(ps[..|ps| - 1]) else ps
  }

  /** `Pattern.compile(",").split(s)`: the input itself when it holds no
      comma, otherwise the comma-separated pieces with the trailing empty
      ones removed. */
  function SplitComma(s: string): (r: seq<string>)
    ensures forall i :: 0 <= i < |r| ==> ',' !in r[i]
    ensures |r| <= |CommaPieces(s)| && r == CommaPieces(s)[..|r|]
    ensures forall i :: |r| <= i < |CommaPieces(s)| ==> CommaPieces(s)[i] == ""
    ensures ',' !in s ==> r == [s]
    ensures ',' in s ==> r == [] || r[|r| - 1] != ""
  {
    if ',' !in s then [s] else DropTrailingEmpty(CommaPieces(s))
  }

  /** `split` undoes joining with commas, for pieces that hold none and end
      with a non-empty one. */
  lemma SplitCommaJoin(pieces: seq<string>)
    requires |pieces| >= 1 && pieces[|pieces| - 1] != ""
    requires forall i :: 0 <= i < |pieces| ==> ',' !in pieces[i]
    ensures SplitComma(Join(pieces, ',')) == pieces
  {
    var s := Join(pieces, ',');
    CommaPiecesJoin(pieces);
    if |pieces| == 1 {
      assert s == pieces[0];
    } else {
      assert s == pieces[0] + [','] + Join(pieces[1..], ',');
      assert s[|pieces[0]|] == ',';
    }
  }

  // ---------------------------------------------------------------------------
  // Integer.parseInt and Integer.toString

  predicate IsDigit(c: char) { '0' <= c <= '9' }

  /** Every character a decimal digit, checked from the end as `DigitsValue`
      reads them. */
  predicate AllDigits(s: string)
  {
    |s| == 0 || (AllDigits(s[..|s| - 1]) && IsDigit(s[|s| - 1]))
  }

  lemma {:induction false} AllDigitsAt(s: string)
    requires AllDigits(s)
    ensures forall k :: 0 <= k < |s| ==> IsDigit(s[k])
  {
    if |s| > 0 {
      AllDigitsAt(s[..|s| - 1]);
      assert forall k :: 0 <= k < |s| - 1 ==> s[..|s| - 1][k] == s[k];
    }
  }

  function DigitValue(c: char): nat requires IsDigit(c) { c as int - '0' as int }

  function DigitChar(d: nat): (c: char)
    requires d < 10
    ensures IsDigit(c) && DigitValue(c) == d
  {
    ('0' as int + d) as char
  }

  /** The value of a string of decimal digits, most significant first. */
  function DigitsValue(s: string): nat
    requires AllDigits(s)
  {
    if |s| == 0 then 0 else DigitsValue(s[..|s| - 1]) * 10 + DigitValue(s[|s| - 1])
  }

  /** `Integer.parseInt(s)`: an optional `-` or `+` followed by at least one
      decimal digit, whose value fits in 32 bits; anything else (spaces
      included) is a `NumberFormatException`, here `None`. */
  function ParseInt(s: string): (r: Option<Int32>)
    ensures r.Some? ==> |s| > 0
    ensures r.Some? ==> forall k :: 0 <= k < |s| ==> IsDigit(s[k]) || (k == 0 && (s[0] == '-' || s[0] == '+'))
    ensures r.Some? && r.value < 0 ==> s[0] == '-'
  {
    if |s| == 0 then None
    else
      var signed := s[0] == '-' || s[0] == '+';
      var digits := if signed then s[1..] else s;
      if |digits| == 0 || !AllDigits(digits) then None
      else
        AllDigitsAt(digits);
        var v: int := if s[0] == '-' then -(DigitsValue(digits) as int) else DigitsValue(digits);
        if IsInt32(v) then Some(v) else None
  }

  /** Decimal digits of a natural number without leading zeros. */
  function NatToDigits(n: nat): string
  {
    if n < 10 then [DigitChar(n)] else NatToDigits(n / 10) + [DigitChar(n % 10)]
  }

  /** `Integer.toString(n)`. */
  function IntToString(n: int): string
  {
    if n < 0 then "-" + NatToDigits(-n) else NatToDigits(n)
  }

  lemma {:induction false} NatToDigitsValue(n: nat)
    ensures |NatToDigits(n)| > 0 && AllDigits(NatToDigits(n))
    ensures NatToDigits(n)[0] != '-' && NatToDigits(n)[0] != '+'
    ensures DigitsValue(NatToDigits(n)) == n
  {
    if n >= 10 {
      NatToDigitsValue(n / 10);
      var s := NatToDigits(n);
      assert s[..|s| - 1] == NatToDigits(n / 10);
    }
  }

  /** `Integer.parseInt` accepts exactly what `Integer.toString` prints. */
  lemma ParseIntToString(n: Int32)
    ensures ParseInt(IntToString(n)) == Some(n)
  {
    NatToDigitsValue(Abs(n));
    if n < 0 {
      assert ("-" + NatToDigits(Abs(n)))[1..] == NatToDigits(Abs(n));
    }
  }
}
