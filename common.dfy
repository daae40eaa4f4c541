/**
 * Shared vocabulary of the model: the failures both tool chains can raise,
 * a Result type for them, and the small text helpers the printers use
 * (decimal and hexadecimal numerals, joining, indentation).
 */
module Common {

  /** Every way an operation of either pipeline can stop with an error. */
  datatype Error =
    | DisassembleError(msg: string)  // DisassembleException (C#) / DISASSEMBLER_ERROR (C++)
    | DecompileError(msg: string)    // DecompileException (C#) / DECOMPILER_ERROR (C++)
    | UnhandledOpcode(op: nat)       // DISASSEMBLER_ERROR "Unhandled opcode" and the opcode's name (C++)
    | OutOfRange                     // IndexOutOfRange / ArgumentOutOfRange (C#), std::out_of_range (C++)
    | NullReference                  // dereference of a null or of a failed `as` cast
    | EmptyStack                     // Stack<T>.Pop on an empty stack
    | DivideByZero                   // integer `%` by zero
    | BareException                  // `throw new Exception()`
    | InvalidCast                    // a C# unboxing cast of a payload of another type
    | Diverges                       // the source loops forever here; the model stops instead
    | FuelExhausted                  // the model's bound on repeated visits ran out (no counterpart in the source)

  datatype Option<T> = None | Some(value: T)

  datatype Result<T> = Ok(value: T) | Err(error: Error)
  {
    predicate IsFailure() { Err? }

    function PropagateFailure<U>(): Result<U>
      requires Err?
    {
      Err(error)
    }

    function Extract(): T
      requires Ok?
    {
      value
    }
  }

  /** A result that carries no value: success or the error that stopped the run. */
  datatype Outcome = Pass | Fail(error: Error)
  {
    predicate IsFailure() { Fail? }

    function PropagateFailure(): Outcome
      requires Fail?
    {
      this
    }
  }

  // ---------------------------------------------------------------------------
  // Numerals

  predicate IsDigit(c: char) { '0' <= c <= '9' }

  function DigitChar(d: nat): (c: char)
    requires d < 10
    ensures IsDigit(c) && (c as int) - ('0' as int) == d
  {
    ('0' as int + d) as char
  }

  /** Decimal numeral of `n`, most significant digit first, no leading zeros. */
  function Decimal(n: nat): (s: string)
    ensures |s| >= 1
    ensures forall i :: 0 <= i < |s| ==> IsDigit(s[i])
    ensures n > 0 ==> s[0] != '0'
  {
    if n < 10 then [DigitChar(n)] else Decimal(n / 10) + [DigitChar(n % 10)]
  }

  /** Decimal numeral of an integer as C#'s Int32.ToString / C's "%d" writes it. */
  function SignedDecimal(i: int): (s: string)
    ensures |s| >= 1
    ensures (s[0] == '-') <==> i < 0
  {
    if i < 0 then "-" + Decimal(-i) else Decimal(i)
  }

  /** A signed numeral is digits, with a leading minus sign for a negative number. */
  lemma SignedDecimalChars(i: int)
    ensures forall k :: 0 <= k < |SignedDecimal(i)| ==> IsDigit(SignedDecimal(i)[k]) || SignedDecimal(i)[k] == '-'
  {
    if i < 0 {
      assert SignedDecimal(i) == "-" + Decimal(-i);
    }
  }

  function HexDigitChar(d: nat): (c: char)
    requires d < 16
  {
    "0123456789ABCDEF"[d]
  }

  /** Upper-case hexadecimal numeral without leading zeros ("%X"). */
  function Hex(n: nat): (s: string)
    ensures |s| >= 1
  {
    if n < 16 then [HexDigitChar(n)] else Hex(n / 16) + [HexDigitChar(n % 16)]
  }

  /** Exactly `width` upper-case hexadecimal digits of `n mod 16^width`. */
  function HexFixed(n: nat, width: nat): (s: string)
    ensures |s| == width
  {
    if width == 0 then "" else HexFixed(n / 16, width - 1) + [HexDigitChar(n % 16)]
  }

  /** Value of a digit character. */
  function DigitValue(c: char): nat
  {
    if IsDigit(c) then (c as int) - ('0' as int) else 0
  }

  /** Value of a string of decimal digits, most significant first: the reading a listing's reader applies. */
  function DigitsValue(s: string): nat
  {
    if |s| == 0 then 0 else 10 * DigitsValue(s[..|s| - 1]) + DigitValue(s[|s| - 1])
  }

  /** A leading zero does not change the value of a numeral. */
  lemma {:induction false} LeadingZeroValue(s: string)
    ensures DigitsValue("0" + s) == DigitsValue(s)
  {
    if |s| > 0 {
      LeadingZeroValue(s[..|s| - 1]);
      assert ("0" + s)[..|s|] == "0" + s[..|s| - 1];
    }
  }

  /** A decimal numeral reads back as the number it was written from. */
  lemma {:induction false} DecimalValue(n: nat)
    ensures DigitsValue(Decimal(n)) == n
  {
    if n >= 10 {
      DecimalValue(n / 10);
      var s := Decimal(n);
      assert s[..|s| - 1] == Decimal(n / 10);
    }
  }

  /** Value of an optionally signed decimal numeral. */
  function SignedValue(s: string): int
  {
    if |s| > 0 && s[0] == '-' then -(DigitsValue(s[1..]) as int) else DigitsValue(s)
  }

  /** A signed numeral reads back as the integer it was written from. */
  lemma SignedDecimalValue(i: int)
    ensures SignedValue(SignedDecimal(i)) == i
  {
    if i < 0 {
      DecimalValue(-i);
      assert SignedDecimal(i)[1..] == Decimal(-i);
    } else {
      DecimalValue(i);
    }
  }

  function Pow16(k: nat): (p: nat)
    ensures p >= 1
  {
    if k == 0 then 1 else 16 * Pow16(k - 1)
  }

  /** Value of a hexadecimal digit character, upper case. */
  function HexDigitValue(c: char): nat
  {
    if IsDigit(c) then (c as int) - ('0' as int)
    else if 'A' <= c <= 'F' then (c as int) - ('A' as int) + 10
    else 0
  }

  /** Value of a string of hexadecimal digits, most significant first. */
  function HexDigitsValue(s: string): nat
  {
    if |s| == 0 then 0 else 16 * HexDigitsValue(s[..|s| - 1]) + HexDigitValue(s[|s| - 1])
  }

  lemma HexDigitRoundTrip(d: nat)
    requires d < 16
    ensures HexDigitValue(HexDigitChar(d)) == d
  {
    var digits := "0123456789ABCDEF";
    if d < 8 {
      assert d in {0, 1, 2, 3, 4, 5, 6, 7};
    } else {
      assert d in {8, 9, 10, 11, 12, 13, 14, 15};
    }
  }

  /** `width` fixed hexadecimal digits read back as `n` modulo 16^width. */
  lemma {:induction false} HexFixedValue(n: nat, width: nat)
    ensures HexDigitsValue(HexFixed(n, width)) == n % Pow16(width)
  {
    if width == 0 {
    } else {
      var s := HexFixed(n, width);
      assert s[..|s| - 1] == HexFixed(n / 16, width - 1);
      HexFixedValue(n / 16, width - 1);
      HexDigitRoundTrip(n % 16);
      LowDigitSplit(n, Pow16(width - 1));
    }
  }

  /** A hexadecimal numeral reads back as the number it was written from. */
  lemma {:induction false} HexValue(n: nat)
    ensures HexDigitsValue(Hex(n)) == n
    ensures forall i :: 0 <= i < |Hex(n)| ==> IsDigit(Hex(n)[i]) || 'A' <= Hex(n)[i] <= 'F'
  {
    var s := Hex(n);
    HexDigitRoundTrip(n % 16);
    if n < 16 {
      assert s[..0] == "";
    } else {
      assert s[..|s| - 1] == Hex(n / 16);
      HexValue(n / 16);
    }
  }

  /** The low digit and the next digits of `n` together: n mod 16m in base-16 terms. */
  lemma LowDigitSplit(n: nat, m: nat)
    requires m >= 1
    ensures 16 * ((n / 16) % m) + n % 16 == n % (16 * m)
  {
    var q, r := (n / 16) / m, (n / 16) % m;
    assert n == 16 * (n / 16) + n % 16;
    assert n / 16 == q * m + r;
    assert 16 * r + n % 16 < 16 * m;
    calc {
      n;
      16 * (q * m + r) + n % 16;
      { assert 16 * (q * m + r) == q * (16 * m) + 16 * r; }
      q * (16 * m) + (16 * r + n % 16);
    }
    DivMod(n, 16 * m, q, 16 * r + n % 16);
  }

  // ---------------------------------------------------------------------------
  // Sequences of text

  function Spaces(n: nat): (s: string)
    ensures |s| == n && forall i :: 0 <= i < n ==> s[i] == ' '
  {
    seq(n, _ => ' ')
  }

  /** The elements of `xs` with `sep` between neighbours. */
  function Join(xs: seq<string>, sep: string): string
  {
    if |xs| == 0 then "" else if |xs| == 1 then xs[0] else Join(xs[..|xs| - 1], sep) + sep + xs[|xs| - 1]
  }

  /** Appending to a text in two steps is appending the two parts at once. */
  lemma AppendAssoc(a: string, b: string, c: string)
    ensures a + b + c == a + (b + c)
  {
  }

  /** Joining one more item adds the separator and the item, or is the first item alone. */
  lemma JoinStep(xs: seq<string>, j: nat, sep: string)
    requires j < |xs|
    ensures Join(xs[..j + 1], sep) == if j == 0 then xs[0] else Join(xs[..j], sep) + sep + xs[j]
  {
    assert xs[..j + 1][..j] == xs[..j];
  }

  function Concat(xs: seq<string>): string
  {
    if |xs| == 0 then "" else Concat(xs[..|xs| - 1]) + xs[|xs| - 1]
  }

  /** Each item with `t` after it. */
  function Suffixed(xs: seq<string>, t: string): (r: seq<string>)
    ensures |r| == |xs|
  {
    seq(|xs|, i requires 0 <= i < |xs| => xs[i] + t)
  }

  /** Each item with `p` before it. */
  function Prefixed(xs: seq<string>, p: string): (r: seq<string>)
    ensures |r| == |xs|
  {
    seq(|xs|, i requires 0 <= i < |xs| => p + xs[i])
  }

  lemma ConcatSnoc(xs: seq<string>, x: string)
    ensures Concat(xs + [x]) == Concat(xs) + x
  {
    assert (xs + [x])[..|xs|] == xs;
  }

  /** Number of occurrences of `c` in `s`. */
  function Count(s: string, c: char): nat
  {
    if |s| == 0 then 0 else Count(s[..|s| - 1], c) + (if s[|s| - 1] == c then 1 else 0)
  }

  lemma {:induction false} CountAppend(a: string, b: string, c: char)
    ensures Count(a + b, c) == Count(a, c) + Count(b, c)
    decreases |b|
  {
    if |b| == 0 {
      assert a + b == a;
    } else {
      assert (a + b)[..|a + b| - 1] == a + b[..|b| - 1];
      CountAppend(a, b[..|b| - 1], c);
    }
  }

  lemma {:induction false} CountAbsent(s: string, c: char)
    requires forall i :: 0 <= i < |s| ==> s[i] != c
    ensures Count(s, c) == 0
    decreases |s|
  {
    if |s| > 0 {
      CountAbsent(s[..|s| - 1], c);
    }
  }

  /** Joining strings without `c` by a separator holds exactly the separators' copies of `c`. */
  lemma {:induction false} JoinCount(xs: seq<string>, sep: string, c: char)
    requires |xs| >= 1
    requires forall i :: 0 <= i < |xs| ==> Count(xs[i], c) == 0
    ensures Count(Join(xs, sep), c) == (|xs| - 1) * Count(sep, c)
    decreases |xs|
  {
    if |xs| > 1 {
      JoinCount(xs[..|xs| - 1], sep, c);
      CountAppend(Join(xs[..|xs| - 1], sep), sep, c);
      CountAppend(Join(xs[..|xs| - 1], sep) + sep, xs[|xs| - 1], c);
    }
  }

  /** Concatenating lines that each hold one `c` holds as many `c` as there are lines. */
  lemma {:induction false} ConcatCount(xs: seq<string>, c: char)
    requires forall i :: 0 <= i < |xs| ==> Count(xs[i], c) == 1
    ensures Count(Concat(xs), c) == |xs|
    decreases |xs|
  {
    if |xs| > 0 {
      ConcatCount(xs[..|xs| - 1], c);
      CountAppend(Concat(xs[..|xs| - 1]), xs[|xs| - 1], c);
    }
  }

  lemma DecimalHasNo(n: nat, c: char)
    requires !IsDigit(c)
    ensures Count(Decimal(n), c) == 0
  {
    CountAbsent(Decimal(n), c);
  }

  // ---------------------------------------------------------------------------
  // Arithmetic

  /** Uniqueness of quotient and remainder, used to read fields back. */
  lemma DivMod(x: int, d: nat, q: int, r: nat)
    requires d > 0 && r < d && x == q * d + r
    ensures x / d == q && x % d == r
  {
    var q0, r0 := x / d, x % d;
    assert q0 * d + r0 == q * d + r;
    if q0 > q {
      MulAtLeast(q0 - q, d);
      assert false;
    } else if q0 < q {
      MulAtLeast(q - q0, d);
      assert false;
    }
  }

  lemma {:induction false} MulAtLeast(k: nat, d: nat)
    requires k >= 1
    ensures k * d >= d
  {
    if k > 1 {
      MulAtLeast(k - 1, d);
      assert k * d == (k - 1) * d + d;
    }
  }
}
