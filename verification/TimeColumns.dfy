/** Where everything stands in the elapsed-time texts. */
module TimeColumns {
  import opened TimeFormat

  function Ten(w: nat): nat {
    if w == 0 then 1 else 10 * Ten(w - 1)
  }

  /** w digits are enough below the w-th power of ten, and no fewer are used from the one before on. */
  lemma {:induction false} DigitsFit(n: nat, w: nat)
    requires w > 0 && n < Ten(w)
    ensures |Digits(n)| <= w && (n >= Ten(w - 1) ==> |Digits(n)| == w)
  {
    if n >= 10 {
      DigitsFit(n / 10, w - 1);
    }
  }

  /** A number that fills its width or less is as wide as that; 1000 is one wider than 3. */
  lemma PaddedFits(n: nat)
    ensures n < 100 ==> |Padded(2, n)| == 2
    ensures n < 1_000 ==> |Padded(3, n)| == 3
    ensures n < 1_000_000 ==> |Padded(6, n)| == 6
    ensures n == 1_000 ==> |Padded(3, n)| == 4
  {
    assert Ten(2) == 100 && Ten(3) == 1_000 && Ten(4) == 10_000;
    assert Ten(6) == 100 * Ten(4);
    if n < 100 { DigitsFit(n, 2); }
    if n < 1_000 { DigitsFit(n, 3); }
    if n < 1_000_000 { DigitsFit(n, 6); }
    if n == 1_000 { DigitsFit(n, 4); }
  }

  /** What stands at the end of a field: the unit, or spaces. */
  lemma FieldMark(n: nat, units: Units)
    requires units.Unit? && units.size > 0
    ensures var t, k := Field(n, units), |units.suffix|;
      && |t| >= k
      && t[|t| - k..] == (if n > units.size then units.suffix else Spaces(k))
      && |t| == k + if n > units.size then |Padded(units.width, n / units.size)| else units.width
  {
  }

  /** What stands in a text stays where it is when something is appended, which ends where the text ends then. */
  lemma Appended(t: string, x: string, i: nat, j: nat, k: nat)
    requires i <= j <= |t| && k <= |x|
    ensures (t + x)[i..j] == t[i..j] && (t + x)[|t| + |x| - k..|t| + |x|] == x[|x| - k..]
  {
  }

  /** Only a count of exactly one unit is left as it is. */
  lemma Remains(n: nat, units: Units)
    requires units.Unit? && units.size > 0
    ensures Left(n, units) == if n == units.size then n else n % units.size
  {
    assert n == n / units.size * units.size + n % units.size;
  }

  /** m is n modulo size, but for full it is size itself. */
  predicate Residue(n: nat, m: int, size: nat, full: bool)
    requires size > 0
  {
    0 <= m <= size && (m == size <==> full) && (if full then n % size == 0 else m == n % size)
  }

  /** What is left for the unit below, and when a number is written for it. */
  lemma ResidueBelow(n: nat, m: nat, size: nat, full: bool, units: Units)
    requires units.Unit? && 0 < units.size < size && size % units.size == 0 && Residue(n, m, size, full)
    requires n % size % units.size == n % units.size
    ensures Residue(n, Left(m, units), units.size, n % size == units.size)
    ensures m > units.size <==> n % size > units.size || full
  {
    Remains(m, units);
    assert m % units.size == n % units.size;
  }

  /** The field's number, if it has at most as many digits as there is room for, or is 1000 in a field of three. */
  lemma FieldLength(n: nat, units: Units)
    requires units.Unit? && units.size > 0
    requires
      || (units.width == 2 && n / units.size < 100)
      || (units.width == 6 && n / units.size < 1_000_000)
      || (units.width == 3 && n / units.size <= 1_000)
    ensures var t, k := Field(n, units), |units.suffix|;
      && |t| == units.width + k + (if units.width == 3 && n / units.size == 1_000 then 1 else 0)
      && t[|t| - k..] == (if n > units.size then units.suffix else Spaces(k))
  {
    FieldMark(n, units);
    PaddedFits(n / units.size);
    if n <= units.size {
      assert n / units.size <= 1 by {
        Quotient(n, units.size, units.size);
      }
    }
  }

  /** The field of a unit below another one, given what is left for it. */
  lemma UnitStands(n: nat, m: nat, size: nat, full: bool, units: Units)
    requires units.Unit? && 0 < units.size < size && size % units.size == 0 && Residue(n, m, size, full)
    requires n % size % units.size == n % units.size
    requires (units.width == 2 && size / units.size < 100) || (units.width == 3 && size / units.size == 1_000)
    ensures Residue(n, Left(m, units), units.size, n % size == units.size)
    ensures var t, k := Field(m, units), |units.suffix|;
      && |t| == units.width + k + (if units.width == 3 && full then 1 else 0)
      && t[|t| - k..] == (if n % size > units.size || full then units.suffix else Spaces(k))
  {
    ResidueBelow(n, m, size, full, units);
    Quotient(m, size, units.size);
    FieldLength(m, units);
  }

  /** The text of a count, part by part. */
  lemma NanosParts(n: nat)
    ensures var seconds := NANOS.smaller; var millis := seconds.smaller; var micros := millis.smaller;
      var n1 := Left(n, NANOS); var n2 := Left(n1, seconds); var n3 := Left(n2, millis);
      Text(n, NANOS) == Field(n, NANOS) + Field(n1, seconds) + Field(n2, millis) + Field(n3, micros)
                        + (Padded(3, Left(n3, micros)) + "ns")
  {
    var seconds := NANOS.smaller;
    var millis := seconds.smaller;
    var micros := millis.smaller;
    var n1 := Left(n, NANOS);
    var n2 := Left(n1, seconds);
    var n3 := Left(n2, millis);
    var text, a := Text(n, NANOS), Field(n, NANOS);
    OneUnitMore(text, a, n1, seconds);
    OneUnitMore(text, a + Field(n1, seconds), n2, millis);
    OneUnitMore(text, a + Field(n1, seconds) + Field(n2, millis), n3, micros);
  }

  lemma MarksOfFour(a: string, b: string, c: string, e: string)
    requires |a| >= 2 && |b| >= 2 && |c| >= 3 && |e| >= 2
    ensures var t, u, v, w := a + b + c + e, |a|, |a| + |b|, |a| + |b| + |c|;
      && t[u - 2..u] == a[u - 2..] && t[v - 2..v] == b[|b| - 2..] && t[w - 3..w] == c[|c| - 3..]
      && |t| == w + |e| && t[|t| - 2..] == e[|e| - 2..]
  {
    var u, v, w := |a|, |a| + |b|, |a| + |b| + |c|;
    Appended(a, b, u - 2, u, 2);
    Appended(a + b, c, u - 2, u, 3);
    Appended(a + b, c, v - 2, v, 3);
    Appended(a + b + c, e, u - 2, u, 2);
    Appended(a + b + c, e, v - 2, v, 2);
    Appended(a + b + c, e, w - 3, w, 2);
  }

  lemma MarksOfFive(a: string, b: string, c: string, d: string, e: string)
    requires |a| >= 2 && |b| >= 2 && |c| >= 3 && |d| >= 3 && |e| >= 2
    ensures var t, u, v, w, x := a + b + c + d + e, |a|, |a| + |b|, |a| + |b| + |c|, |a| + |b| + |c| + |d|;
      && t[u - 2..u] == a[u - 2..] && t[v - 2..v] == b[|b| - 2..]
      && t[w - 3..w] == c[|c| - 3..] && t[x - 3..x] == d[|d| - 3..]
      && |t| == x + |e| && t[|t| - 2..] == e[|e| - 2..]
  {
    var u, v, w, x := |a|, |a| + |b|, |a| + |b| + |c|, |a| + |b| + |c| + |d|;
    MarksOfFour(a, b, c, d);
    Appended(a + b + c, d, 0, 0, 3);
    Appended(a + b + c + d, e, u - 2, u, 2);
    Appended(a + b + c + d, e, v - 2, v, 2);
    Appended(a + b + c + d, e, w - 3, w, 2);
    Appended(a + b + c + d, e, x - 3, x, 2);
  }

  lemma Blanks()
    ensures Spaces(2) == "  " && Spaces(3) == "   "
  {
  }

  lemma NestedRests(n: nat)
    ensures n % 60_000_000_000 % 1_000_000_000 == n % 1_000_000_000
    ensures n % 1_000_000_000 % 1_000_000 == n % 1_000_000
  {
  }

  lemma NestedThousands(n: nat)
    ensures n % 60_000_000 % 1_000_000 == n % 1_000_000
    ensures n % 1_000_000 % 1_000 == n % 1_000
  {
  }

  lemma NanosMinutes(n: nat)
    requires n < 1_000_000 * 60_000_000_000
    ensures Residue(n, Left(n, NANOS), 60_000_000_000, n == 60_000_000_000)
    ensures |Field(n, NANOS)| == 8 && Field(n, NANOS)[6..] == if n > 60_000_000_000 then "m " else "  "
  {
    Remains(n, NANOS);
    FieldLength(n, NANOS);
    Blanks();
  }

  lemma NanosSeconds(n: nat, n1: nat)
    requires Residue(n, n1, 60_000_000_000, n == 60_000_000_000)
    ensures Residue(n, Left(n1, NANOS.smaller), 1_000_000_000, n % 60_000_000_000 == 1_000_000_000)
    ensures var t := Field(n1, NANOS.smaller);
      |t| == 4 && t[2..] == if n % 60_000_000_000 > 1_000_000_000 || n == 60_000_000_000 then "s " else "  "
  {
    NestedRests(n);
    UnitStands(n, n1, 60_000_000_000, n == 60_000_000_000, NANOS.smaller);
    Blanks();
  }

  lemma NanosMillis(n: nat, n2: nat)
    requires Residue(n, n2, 1_000_000_000, n % 60_000_000_000 == 1_000_000_000)
    ensures Residue(n, Left(n2, NANOS.smaller.smaller), 1_000_000, n % 1_000_000_000 == 1_000_000)
    ensures var t, full := Field(n2, NANOS.smaller.smaller), n % 60_000_000_000 == 1_000_000_000;
      && |t| == 6 + (if full then 1 else 0)
      && t[|t| - 3..] == if n % 1_000_000_000 > 1_000_000 || full then "ms " else "   "
  {
    NestedRests(n);
    UnitStands(n, n2, 1_000_000_000, n % 60_000_000_000 == 1_000_000_000, NANOS.smaller.smaller);
    Blanks();
  }

  lemma NanosMicros(n: nat, n3: nat)
    requires Residue(n, n3, 1_000_000, n % 1_000_000_000 == 1_000_000)
    ensures Residue(n, Left(n3, NANOS.smaller.smaller.smaller), 1_000, n % 1_000_000 == 1_000)
    ensures var t, full := Field(n3, NANOS.smaller.smaller.smaller), n % 1_000_000_000 == 1_000_000;
      && |t| == 6 + (if full then 1 else 0)
      && t[|t| - 3..] == if n % 1_000_000 > 1_000 || full then "\U{03BC}s " else "   "
  {
    NestedThousands(n);
    UnitStands(n, n3, 1_000_000, n % 1_000_000_000 == 1_000_000, NANOS.smaller.smaller.smaller);
    Blanks();
  }

  /**
    Where everything stands in the text of a count below a million minutes. The columns are as
    wide as the formats say, and a unit is named where its number ends, exactly if the count
    exceeds it strictly; a unit that the count just reaches is left to the next smaller one,
    whose number is then 60, or 1000 and one character wider than its column, so that all that
    follows stands one further to the right.
   */
  lemma NanosColumns(n: nat)
    requires n < 1_000_000 * 60_000_000_000
    ensures var t := Text(n, NANOS);
      var second, milli, micro :=
        n % 60_000_000_000 == 1_000_000_000, n % 1_000_000_000 == 1_000_000, n % 1_000_000 == 1_000;
      var i := if second then 1 else 0;
      var j := if second || milli then 1 else 0;
      && |t| == 29 + (if second || milli || micro then 1 else 0)
      && t[6..8] == (if n > 60_000_000_000 then "m " else "  ")
      && t[10..12] == (if n % 60_000_000_000 > 1_000_000_000 || n == 60_000_000_000 then "s " else "  ")
      && t[15 + i..18 + i] == (if n % 1_000_000_000 > 1_000_000 || second then "ms " else "   ")
      && t[21 + j..24 + j] == (if n % 1_000_000 > 1_000 || milli then "\U{03BC}s " else "   ")
      && t[|t| - 2..] == "ns" && IsDigit(t[|t| - 3])
  {
    var n1 := Left(n, NANOS);
    NanosMinutes(n);
    var n2 := Left(n1, NANOS.smaller);
    NanosSeconds(n, n1);
    var n3 := Left(n2, NANOS.smaller.smaller);
    NanosMillis(n, n2);
    var n4 := Left(n3, NANOS.smaller.smaller.smaller);
    NanosMicros(n, n3);
    PaddedFits(n4);
    PaddedValue(3, n4);
    NanosParts(n);
    MarksOfFive(Field(n, NANOS), Field(n1, NANOS.smaller), Field(n2, NANOS.smaller.smaller),
          Field(n3, NANOS.smaller.smaller.smaller), Padded(3, n4) + "ns");
  }

  lemma MicrosParts(n: nat)
    ensures var seconds := MICROS.smaller; var millis := seconds.smaller;
      var n1 := Left(n, MICROS); var n2 := Left(n1, seconds);
      Text(n, MICROS) == Field(n, MICROS) + Field(n1, seconds) + Field(n2, millis)
                         + (Padded(3, Left(n2, millis)) + "\U{03BC}s")
  {
    var seconds := MICROS.smaller;
    var millis := seconds.smaller;
    var n1 := Left(n, MICROS);
    var n2 := Left(n1, seconds);
    var text, a := Text(n, MICROS), Field(n, MICROS);
    OneUnitMore(text, a, n1, seconds);
    OneUnitMore(text, a + Field(n1, seconds), n2, millis);
  }

  lemma MicrosMinutes(n: nat)
    requires n < 1_000_000 * 60_000_000
    ensures Residue(n, Left(n, MICROS), 60_000_000, n == 60_000_000)
    ensures |Field(n, MICROS)| == 8 && Field(n, MICROS)[6..] == if n > 60_000_000 then "m " else "  "
  {
    Remains(n, MICROS);
    FieldLength(n, MICROS);
    Blanks();
  }

  lemma MicrosSeconds(n: nat, n1: nat)
    requires Residue(n, n1, 60_000_000, n == 60_000_000)
    ensures Residue(n, Left(n1, MICROS.smaller), 1_000_000, n % 60_000_000 == 1_000_000)
    ensures var t := Field(n1, MICROS.smaller);
      |t| == 4 && t[2..] == if n % 60_000_000 > 1_000_000 || n == 60_000_000 then "s " else "  "
  {
    NestedThousands(n);
    UnitStands(n, n1, 60_000_000, n == 60_000_000, MICROS.smaller);
    Blanks();
  }

  lemma MicrosMillis(n: nat, n2: nat)
    requires Residue(n, n2, 1_000_000, n % 60_000_000 == 1_000_000)
    ensures Residue(n, Left(n2, MICROS.smaller.smaller), 1_000, n % 1_000_000 == 1_000)
    ensures var t, full := Field(n2, MICROS.smaller.smaller), n % 60_000_000 == 1_000_000;
      && |t| == 6 + (if full then 1 else 0)
      && t[|t| - 3..] == if n % 1_000_000 > 1_000 || full then "ms " else "   "
  {
    NestedThousands(n);
    UnitStands(n, n2, 1_000_000, n % 60_000_000 == 1_000_000, MICROS.smaller.smaller);
    Blanks();
  }

  /** The same of microseconds. */
  lemma MicrosColumns(n: nat)
    requires n < 1_000_000 * 60_000_000
    ensures var t := Text(n, MICROS);
      var second, milli := n % 60_000_000 == 1_000_000, n % 1_000_000 == 1_000;
      var i := if second then 1 else 0;
      && |t| == 23 + (if second || milli then 1 else 0)
      && t[6..8] == (if n > 60_000_000 then "m " else "  ")
      && t[10..12] == (if n % 60_000_000 > 1_000_000 || n == 60_000_000 then "s " else "  ")
      && t[15 + i..18 + i] == (if n % 1_000_000 > 1_000 || second then "ms " else "   ")
      && t[|t| - 2..] == "\U{03BC}s" && IsDigit(t[|t| - 3])
  {
    var n1 := Left(n, MICROS);
    MicrosMinutes(n);
    var n2 := Left(n1, MICROS.smaller);
    MicrosSeconds(n, n1);
    var n3 := Left(n2, MICROS.smaller.smaller);
    MicrosMillis(n, n2);
    PaddedFits(n3);
    PaddedValue(3, n3);
    MicrosParts(n);
    var a, b, c, e :=
      Field(n, MICROS), Field(n1, MICROS.smaller), Field(n2, MICROS.smaller.smaller), Padded(3, n3) + "\U{03BC}s";
    MarksOfFour(a, b, c, e);
  }
}
