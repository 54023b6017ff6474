/** The few string and number conversions of Go's `strings`, `strconv` and
    `fmt` packages that the tools rely on, on a 64-bit platform. */
module Text {

  const MaxInt64: int := 0x7fff_ffff_ffff_ffff
  const MinInt64: int := -0x8000_0000_0000_0000
  const MaxUint64: int := 0xffff_ffff_ffff_ffff

  predicate IsDigit(c: char) { '0' <= c <= '9' }

  function DigitValue(c: char): (d: nat)
    requires IsDigit(c)
    ensures d < 10
  {
    c as int - '0' as int
  }

  function DigitChar(d: nat): (c: char)
    requires d < 10
    ensures IsDigit(c) && DigitValue(c) == d
  {
    ('0' as int + d) as char
  }

  // ---------------------------------------------------------------------
  // strings.Split, strings.Join, strings.Contains

  /** `strings.Split(s, string(sep))`: the pieces between separators, so one
      more piece than there are separators, and never an empty list. */
  function Split(s: string, sep: char): (parts: seq<string>)
    ensures |parts| >= 1
    ensures forall i :: 0 <= i < |parts| ==> sep !in parts[i]
    decreases |s|
  {
    if s == [] then [""]
    else
      var rest := Split(s[1..], sep);
      if s[0] == sep then [""] + rest
      else [[s[0]] + rest[0]] + rest[1..]
  }

  /** `strings.Join(parts, string(sep))`. */
  function Join(parts: seq<string>, sep: char): string
    decreases |parts|
  {
    if parts == [] then ""
    else if |parts| == 1 then parts[0]
    else parts[0] + [sep] + Join(parts[1..], sep)
  }

  /** `sub` occurs in `s` starting at index `i`. */
  predicate OccursAt(s: string, sub: string, i: int) {
    0 <= i <= |s| - |sub| && s[i..i + |sub|] == sub
  }

  /** `strings.Contains(s, sub)`: `sub` occurs somewhere in `s`. */
  predicate Contains(s: string, sub: string)
    ensures Contains(s, sub) ==> |sub| <= |s|
    ensures sub == [] ==> Contains(s, sub)
  {
    assert sub == [] ==> OccursAt(s, sub, 0);
    exists i :: 0 <= i <= |s| - |sub| && OccursAt(s, sub, i)
  }

  /** Joining the pieces of a split gives the string back. */
  lemma {:induction false} JoinSplit(s: string, sep: char)
    ensures Join(Split(s, sep), sep) == s
  {
    if s != [] {
      JoinSplit(s[1..], sep);
      var rest := Split(s[1..], sep);
      if s[0] == sep {
        assert ([""] + rest)[1..] == rest;
        assert s == [sep] + s[1..];
      } else if |rest| == 1 {
        assert s == [s[0]] + s[1..];
      } else {
        assert ([[s[0]] + rest[0]] + rest[1..])[1..] == rest[1..];
        assert Join(rest, sep) == rest[0] + [sep] + Join(rest[1..], sep);
        assert s == [s[0]] + s[1..];
      }
    }
  }

  lemma {:induction false} SplitWithoutSeparator(a: string, sep: char)
    requires sep !in a
    ensures Split(a, sep) == [a]
  {
    if a != [] {
      SplitWithoutSeparator(a[1..], sep);
      assert [a[0]] + a[1..] == a;
    }
  }

  /** A separator after a separator-free prefix ends exactly one piece. */
  lemma {:induction false} SplitAfterPiece(a: string, b: string, sep: char)
    requires sep !in a
    ensures Split(a + [sep] + b, sep) == [a] + Split(b, sep)
  {
    if a == [] {
      assert a + [sep] + b == [sep] + b;
      assert ([sep] + b)[1..] == b;
    } else {
      SplitAfterPiece(a[1..], b, sep);
      var s := a + [sep] + b;
      assert s[0] == a[0];
      assert s[1..] == a[1..] + [sep] + b;
      assert [a[0]] + a[1..] == a;
    }
  }

  /** Splitting a join of separator-free pieces gives the pieces back. */
  lemma {:induction false} SplitJoin(parts: seq<string>, sep: char)
    requires |parts| >= 1
    requires forall i :: 0 <= i < |parts| ==> sep !in parts[i]
    ensures Split(Join(parts, sep), sep) == parts
  {
    if |parts| == 1 {
      SplitWithoutSeparator(parts[0], sep);
    } else {
      SplitJoin(parts[1..], sep);
      SplitAfterPiece(parts[0], Join(parts[1..], sep), sep);
      assert [parts[0]] + parts[1..] == parts;
    }
  }

  /** Splitting a string that starts with `c`. */
  lemma SplitCons(c: char, s: string, sep: char)
    ensures Split([c] + s, sep) ==
            if c == sep then [""] + Split(s, sep)
            else [[c] + Split(s, sep)[0]] + Split(s, sep)[1..]
  {
    assert ([c] + s)[0] == c;
    assert ([c] + s)[1..] == s;
  }

  /** Splitting a concatenation: the last piece of the left part and the
      first piece of the right part fuse into one. */
  lemma {:induction false} SplitConcat(a: string, b: string, sep: char)
    ensures var pa, pb := Split(a, sep), Split(b, sep);
            Split(a + b, sep) == pa[..|pa| - 1] + [pa[|pa| - 1] + pb[0]] + pb[1..]
  {
    var pa, pb := Split(a, sep), Split(b, sep);
    if a == [] {
      assert a + b == b;
      assert pa == [""];
      assert "" + pb[0] == pb[0];
      assert [pb[0]] + pb[1..] == pb;
    } else {
      var c, a' := a[0], a[1..];
      assert a == [c] + a';
      assert a + b == [c] + (a' + b);
      SplitConcat(a', b, sep);
      SplitCons(c, a', sep);
      SplitCons(c, a' + b, sep);
      SplitConcatStep(c, Split(a', sep), Split(a' + b, sep), pb, sep);
    }
  }

  /** The list manipulation behind one step of `SplitConcat`. */
  lemma SplitConcatStep(c: char, pa: seq<string>, rest: seq<string>, pb: seq<string>, sep: char)
    requires |pa| >= 1 && |pb| >= 1
    requires rest == pa[..|pa| - 1] + [pa[|pa| - 1] + pb[0]] + pb[1..]
    ensures var pa2 := if c == sep then [""] + pa else [[c] + pa[0]] + pa[1..];
            var rest2 := if c == sep then [""] + rest else [[c] + rest[0]] + rest[1..];
            rest2 == pa2[..|pa2| - 1] + [pa2[|pa2| - 1] + pb[0]] + pb[1..]
  {
    if c == sep {
      assert ([""] + pa)[..|pa|] == [""] + pa[..|pa| - 1];
    } else if |pa| == 1 {
      var pa2 := [[c] + pa[0]];
      assert rest == [pa[0] + pb[0]] + pb[1..];
      assert [c] + (pa[0] + pb[0]) == ([c] + pa[0]) + pb[0];
      assert pa2[..|pa2| - 1] == [];
    } else {
      var pa2 := [[c] + pa[0]] + pa[1..];
      assert rest[0] == pa[0];
      assert pa2[..|pa2| - 1] == [[c] + pa[0]] + pa[1..|pa| - 1];
      assert rest[1..] == pa[1..|pa| - 1] + [pa[|pa| - 1] + pb[0]] + pb[1..];
    }
  }

  /** There is one more piece than there are separators; so a trailing
      separator yields a final empty piece. */
  lemma {:induction false} SplitCount(s: string, sep: char)
    ensures |Split(s, sep)| == multiset(s)[sep] + 1
  {
    if s != [] {
      SplitCount(s[1..], sep);
      assert s == [s[0]] + s[1..];
      assert multiset(s) == multiset([s[0]]) + multiset(s[1..]);
    }
  }

  /** Every character an occurrence covers is a character of the pattern. */
  lemma Covered(s: string, sub: string, i: int, p: int)
    requires OccursAt(s, sub, i)
    requires 0 <= p < |s|
    ensures i <= p < i + |sub| ==> s[p] in sub
  {
    if i <= p < i + |sub| {
      assert s[p] == s[i..i + |sub|][p - i] == sub[p - i];
    }
  }

  /** An occurrence of a separator-free pattern lies entirely on one side of
      a separator. */
  lemma ContainsAcross(x: string, c: char, y: string, sub: string)
    requires c !in sub
    requires Contains(x + [c] + y, sub)
    ensures Contains(x, sub) || Contains(y, sub)
  {
    var s := x + [c] + y;
    var i :| 0 <= i <= |s| - |sub| && OccursAt(s, sub, i);
    assert s[i..i + |sub|] == sub;
    assert s[|x|] == c;
    Covered(s, sub, i, |x|);
    if i + |sub| <= |x| {
      assert x[i..i + |sub|] == s[i..i + |sub|];
      assert OccursAt(x, sub, i);
    } else if i > |x| {
      var j := i - |x| - 1;
      assert y[j..j + |sub|] == s[i..i + |sub|];
      assert OccursAt(y, sub, j);
    } else {
      // the occurrence would cover the separator, which `sub` lacks
      assert false;
    }
  }

  /** An occurrence of a separator-free pattern in a joined string lies in
      one of the pieces. */
  lemma {:induction false} ContainsInPiece(parts: seq<string>, sep: char, sub: string)
    requires |parts| >= 1
    requires sep !in sub
    requires Contains(Join(parts, sep), sub)
    ensures exists i :: 0 <= i < |parts| && Contains(parts[i], sub)
  {
    if |parts| == 1 {
      assert Contains(parts[0], sub);
    } else {
      ContainsAcross(parts[0], sep, Join(parts[1..], sep), sub);
      if Contains(parts[0], sub) {
      } else {
        ContainsInPiece(parts[1..], sep, sub);
        var i :| 0 <= i < |parts[1..]| && Contains(parts[1..][i], sub);
        assert parts[i + 1] == parts[1..][i];
      }
    }
  }

  // ---------------------------------------------------------------------
  // Decimal formatting: the %d and %5d verbs of fmt

  /** The decimal digits of `n`, most significant first, as `%d` prints it. */
  function Decimal(n: nat): (s: string)
    ensures |s| >= 1
    ensures forall i :: 0 <= i < |s| ==> IsDigit(s[i])
    decreases n
  {
    if n < 10 then [DigitChar(n)] else Decimal(n / 10) + [DigitChar(n % 10)]
  }

  /** `s` right-aligned in a field of `width` characters, padded with spaces
      and never truncated: `%5d` is `PadLeft(Decimal(n), 5)`. */
  function PadLeft(s: string, width: nat): (r: string)
    ensures |r| == if |s| < width then width else |s|
    ensures r[|r| - |s|..] == s
    ensures forall i :: 0 <= i < |r| - |s| ==> r[i] == ' '
  {
    if |s| < width then seq(width - |s|, _ => ' ') + s else s
  }

  // ---------------------------------------------------------------------
  // strconv.Atoi

  /** What the digit loop of `strconv.ParseUint(s, 10, 64)` ends with. */
  datatype UintParse = SyntaxError | RangeError | Parsed(value: nat)

  /** The digit loop of `strconv.ParseUint` with base 10: a non-digit is a
      syntax error, a value past 2^64-1 a range error, checked digit by digit
      from the left, so the first of the two to happen decides. */
  function ParseDigits(acc: nat, s: string): (r: UintParse)
    requires acc <= MaxUint64
    ensures r.Parsed? ==> r.value <= MaxUint64
    decreases |s|
  {
    if s == [] then Parsed(acc)
    else if !IsDigit(s[0]) then SyntaxError
    else if acc >= MaxUint64 / 10 + 1 then RangeError
    else
      var n := acc * 10 + DigitValue(s[0]);
      if n > MaxUint64 then RangeError else ParseDigits(n, s[1..])
  }

  /** The part of a numeral after its optional sign. */
  function Unsigned(s: string): string {
    if |s| > 0 && (s[0] == '-' || s[0] == '+') then s[1..] else s
  }

  /** `strconv.Atoi(s)` on a 64-bit platform with its error discarded: an
      optional sign and decimal digits give their value, clamped to the int64
      range when too large; anything else gives 0. */
  function Atoi(s: string): (n: int)
    ensures MinInt64 <= n <= MaxInt64
  {
    var negative := |s| > 0 && s[0] == '-';
    var digits := Unsigned(s);
    if digits == [] then 0
    else
      match ParseDigits(0, digits)
      case SyntaxError => 0
      case RangeError => if negative then MinInt64 else MaxInt64
      case Parsed(u) =>
        if !negative then (if u > MaxInt64 then MaxInt64 else u)
        else (if u > -MinInt64 then MinInt64 else -(u as int))
  }

  /** A sign, if any, followed by at least one digit and nothing else. */
  predicate IsNumeral(s: string) {
    var digits := Unsigned(s);
    |digits| > 0 && forall i :: 0 <= i < |digits| ==> IsDigit(digits[i])
  }

  lemma {:induction false} ParseDigitsSnoc(acc: nat, s: string, c: char)
    requires acc <= MaxUint64 && IsDigit(c)
    requires ParseDigits(acc, s).Parsed?
    ensures var v := ParseDigits(acc, s).value;
            ParseDigits(acc, s + [c]) ==
              if v >= MaxUint64 / 10 + 1 || v * 10 + DigitValue(c) > MaxUint64 then RangeError
              else Parsed(v * 10 + DigitValue(c))
    decreases |s|
  {
    if s == [] {
      assert [] + [c] == [c];
      assert [c][1..] == [];
    } else {
      var n := acc * 10 + DigitValue(s[0]);
      assert (s + [c])[0] == s[0];
      assert (s + [c])[1..] == s[1..] + [c];
      ParseDigitsSnoc(n, s[1..], c);
    }
  }

  lemma {:induction false} ParseDecimal(n: nat)
    requires n <= MaxInt64
    ensures ParseDigits(0, Decimal(n)) == Parsed(n)
    decreases n
  {
    if n < 10 {
      assert Decimal(n)[1..] == [];
    } else {
      ParseDecimal(n / 10);
      ParseDigitsSnoc(0, Decimal(n / 10), DigitChar(n % 10));
    }
  }

  /** Formatting with %d and parsing with Atoi are inverse on the
      non-negative int64 values. */
  lemma AtoiDecimal(n: nat)
    requires n <= MaxInt64
    ensures Atoi(Decimal(n)) == n
  {
    ParseDecimal(n);
    assert Unsigned(Decimal(n)) == Decimal(n);
  }

  function Pow10(k: nat): (p: nat)
    ensures p >= 1
  {
    if k == 0 then 1 else 10 * Pow10(k - 1)
  }

  /** While at most 18 digits have been read no range error is possible, so
      the loop ends with a syntax error exactly when a non-digit occurs. */
  lemma {:induction false} ParseShort(acc: nat, s: string, read: nat)
    requires acc <= MaxUint64 && acc < Pow10(read) && read + |s| <= 18
    ensures ParseDigits(acc, s) != RangeError
    ensures ParseDigits(acc, s) == SyntaxError <==> exists i :: 0 <= i < |s| && !IsDigit(s[i])
    decreases |s|
  {
    if s != [] && IsDigit(s[0]) {
      Pow10Monotone(read + 1, 18);
      Pow10Eighteen();
      var n := acc * 10 + DigitValue(s[0]);
      assert n < Pow10(read + 1) by {
        assert acc + 1 <= Pow10(read);
        assert (acc + 1) * 10 <= Pow10(read) * 10;
      }
      ParseShort(n, s[1..], read + 1);
      if exists i :: 0 <= i < |s[1..]| && !IsDigit(s[1..][i]) {
        var i :| 0 <= i < |s[1..]| && !IsDigit(s[1..][i]);
        assert !IsDigit(s[i + 1]);
      }
      if exists i :: 0 <= i < |s| && !IsDigit(s[i]) {
        var i :| 0 <= i < |s| && !IsDigit(s[i]);
        assert !IsDigit(s[1..][i - 1]);
      }
    }
  }

  lemma Pow10Eighteen()
    ensures Pow10(18) == 1_000_000_000_000_000_000
  {
    assert Pow10(6) == 1_000_000;
    assert Pow10(12) == 1_000_000_000_000;
  }

  lemma {:induction false} Pow10Monotone(j: nat, k: nat)
    requires j <= k
    ensures Pow10(j) <= Pow10(k)
    decreases k
  {
    if j < k {
      Pow10Monotone(j, k - 1);
    }
  }

  /** A string of fewer than 19 characters that is not a numeral (empty,
      a bare sign, or holding any non-digit) reads as 0. */
  lemma NonNumeralIsZero(s: string)
    requires |s| < 19 && !IsNumeral(s)
    ensures Atoi(s) == 0
  {
    var digits := Unsigned(s);
    if digits != [] {
      ParseShort(0, digits, 0);
    }
  }

  /** The digit loop reports an overflow as soon as it happens, so
      nothing after the overflowing digit is looked at. */
  lemma {:induction false} RangeErrorFirst(acc: nat, s: string, t: string)
    requires acc <= MaxUint64
    requires ParseDigits(acc, s) == RangeError
    ensures ParseDigits(acc, s + t) == RangeError
    decreases |s|
  {
    assert (s + t)[0] == s[0];
    assert (s + t)[1..] == s[1..] + t;
    if IsDigit(s[0]) && acc < MaxUint64 / 10 + 1 {
      var n := acc * 10 + DigitValue(s[0]);
      if n <= MaxUint64 {
        RangeErrorFirst(n, s[1..], t);
      }
    }
  }

  /** A long unsigned numeral that overflows reads as the largest int64
      whatever follows it, non-digits included: a long unparsable string
      need not read as 0. */
  lemma OverflowBeforeSyntax(s: string, t: string)
    requires |s| > 0 && s[0] != '-' && s[0] != '+'
    requires ParseDigits(0, s) == RangeError
    ensures Atoi(s + t) == MaxInt64
  {
    RangeErrorFirst(0, s, t);
    assert (s + t)[0] == s[0];
  }

  /** Eighteen nines print as themselves. */
  lemma DecimalEighteenNines()
    ensures Decimal(999999999999999999) == "999999999999999999"
  {
    assert Decimal(9) == "9";
    assert Decimal(99) == "99";
    assert Decimal(999) == "999";
    assert Decimal(9999) == "9999";
    assert Decimal(99999) == "99999";
    assert Decimal(999999) == "999999";
    assert Decimal(9999999) == "9999999";
    assert Decimal(99999999) == "99999999";
    assert Decimal(999999999) == "999999999";
    assert Decimal(9999999999) == "9999999999";
    assert Decimal(99999999999) == "99999999999";
    assert Decimal(999999999999) == "999999999999";
    assert Decimal(9999999999999) == "9999999999999";
    assert Decimal(99999999999999) == "99999999999999";
    assert Decimal(999999999999999) == "999999999999999";
    assert Decimal(9999999999999999) == "9999999999999999";
    assert Decimal(99999999999999999) == "99999999999999999";
    assert Decimal(999999999999999999) == "999999999999999999";
  }

  /** Nineteen nines still fit the digit loop's 64-bit accumulator; a
      twentieth overflows it. */
  lemma NinesOverflowAtTwenty()
    ensures ParseDigits(0, "9999999999999999999") == Parsed(9999999999999999999)
    ensures ParseDigits(0, "99999999999999999999") == RangeError
  {
    DecimalEighteenNines();
    ParseDecimal(999999999999999999);
    ParseDigitsSnoc(0, "999999999999999999", '9');
    assert "999999999999999999" + ['9'] == "9999999999999999999";
    ParseDigitsSnoc(0, "9999999999999999999", '9');
    assert "9999999999999999999" + ['9'] == "99999999999999999999";
  }

  /** "99999999999999999999x" is not a numeral, yet it reads as the largest
      int64, not as 0. */
  lemma TwentyNinesThenLetter()
    ensures !IsNumeral("99999999999999999999x")
    ensures Atoi("99999999999999999999x") == MaxInt64
  {
    NinesOverflowAtTwenty();
    OverflowBeforeSyntax("99999999999999999999", "x");
    assert "99999999999999999999" + "x" == "99999999999999999999x";
    assert Unsigned("99999999999999999999x")[20] == 'x';
  }
}
