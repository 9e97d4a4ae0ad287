/** The elapsed-time texts of the console output, and what can be read back from them. */
module TimeFormat {

  /** The units of a text from the largest down; the last one takes what is left. */
  datatype Units = Rest(width: nat, suffix: string) | Unit(size: nat, width: nat, suffix: string, smaller: Units)

  const MICROS := Unit(60_000_000, 6, "m ", Unit(1_000_000, 2, "s ", Unit(1_000, 3, "ms ", Rest(3, "\U{03BC}s"))))

  const NANOS :=
    Unit(60_000_000_000, 6, "m ",
         Unit(1_000_000_000, 2, "s ", Unit(1_000_000, 3, "ms ", Unit(1_000, 3, "\U{03BC}s ", Rest(3, "ns")))))

  // ---- Writing -------------------------------------------------------------------------------

  function Digit(d: nat): char
    requires d < 10
  {
    "0123456789"[d]
  }

  function Digits(n: nat): (t: string)
    ensures t != ""
  {
    if n < 10 then [Digit(n)] else Digits(n / 10) + [Digit(n % 10)]
  }

  function Number(n: int): (t: string)
    ensures t != ""
  {
    if n < 0 then "-" + Digits(-n) else Digits(n)
  }

  /** These are decimal numerals, without leading zeros and with the sign in front. */
  lemma Numerals(n: nat, d: nat)
    requires d < 10
    ensures Number(d) == [('0' as int + d) as char]
    ensures n > 0 ==> Number(10 * n + d) == Number(n) + Number(d) && Number(0 - n) == "-" + Number(n)
  {
    DigitIs(d);
  }

  lemma DigitIs(d: nat)
    requires d < 10
    ensures Digit(d) == ('0' as int + d) as char
  {
    assert d == 0 || d == 1 || d == 2 || d == 3 || d == 4 || d == 5 || d == 6 || d == 7 || d == 8 || d == 9;
  }

  function Spaces(n: nat): string {
    seq(n, _ => ' ')
  }

  /** std::setw(width) << n */
  function Padded(width: nat, n: int): string {
    var t := Number(n);
    Spaces(if |t| < width then width - |t| else 0) + t
  }

  /** A unit is written when the count exceeds it strictly, and left blank otherwise. */
  function Field(n: int, units: Units): string
    requires units.Unit?
  {
    if n > units.size > 0 then Padded(units.width, n / units.size) + units.suffix
    else Spaces(units.width + |units.suffix|)
  }

  /** What is left of the count for the smaller units. */
  function Left(n: int, units: Units): int
    requires units.Unit?
  {
    if n > units.size > 0 then n - n / units.size * units.size else n
  }

  function Text(n: int, units: Units): string {
    match units
    case Rest(width, suffix) => Padded(width, n) + suffix
    case Unit(_, _, _, smaller) => Field(n, units) + Text(Left(n, units), smaller)
  }

  // ---- Reading back --------------------------------------------------------------------------

  predicate IsDigit(c: char) {
    '0' <= c <= '9'
  }

  /** A character of a padded number. */
  predicate OfNumber(c: char) {
    IsDigit(c) || c == '-' || c == ' '
  }

  function DigitValue(c: char): nat {
    if IsDigit(c) then c as int - '0' as int else 0
  }

  function Decimal(t: string): nat {
    if t == "" then 0
    else
      var last := t[|t| - 1];
      10 * Decimal(t[..|t| - 1]) + DigitValue(last)
  }

  /** The value of a padded number. */
  function Value(t: string): int {
    if t != "" && t[0] == ' ' then Value(t[1..])
    else if t != "" && t[0] == '-' then -(Decimal(t[1..]) as int)
    else Decimal(t)
  }

  /** How many characters the text begins with that can be part of a number. */
  function NumberLength(t: string): (k: nat)
    ensures k <= |t|
  {
    if t != "" && OfNumber(t[0]) then 1 + NumberLength(t[1..]) else 0
  }

  /** The count that a text stands for: for each unit either a blank, or a number and the unit. */
  function Read(t: string, units: Units): int {
    var k := NumberLength(t);
    match units
    case Rest(_, _) => Value(t[..k])
    case Unit(size, width, suffix, smaller) =>
      if Spaces(width + |suffix|) <= t then Read(t[width + |suffix|..], smaller)
      else if k + |suffix| > |t| then 0
      else Value(t[..k]) * size + Read(t[k + |suffix|..], smaller)
  }

  /** Unit names do not look like numbers. */
  predicate Readable(units: Units) {
    units.suffix != "" && !OfNumber(units.suffix[0]) && (units.Unit? ==> Readable(units.smaller))
  }

  lemma {:induction false} DigitsValue(n: nat)
    ensures Decimal(Digits(n)) == n
    ensures forall i :: 0 <= i < |Digits(n)| ==> IsDigit(Digits(n)[i])
  {
    if n >= 10 {
      DigitsValue(n / 10);
      assert Digits(n)[..|Digits(n)| - 1] == Digits(n / 10);
    } else {
      assert Decimal("") == 0;
    }
  }

  lemma NumberValue(n: int)
    ensures Value(Number(n)) == n && Number(n)[0] != ' '
    ensures IsDigit(Number(n)[|Number(n)| - 1])
    ensures forall i :: 0 <= i < |Number(n)| ==> OfNumber(Number(n)[i])
  {
    DigitsValue(if n < 0 then -n else n);
    if n < 0 {
      assert Number(n)[1..] == Digits(-n);
    }
  }

  lemma {:induction false} ValueSkipsSpaces(k: nat, t: string)
    ensures Value(Spaces(k) + t) == Value(t)
  {
    if k > 0 {
      assert (Spaces(k) + t)[1..] == Spaces(k - 1) + t;
      ValueSkipsSpaces(k - 1, t);
    } else {
      assert Spaces(k) + t == t;
    }
  }

  lemma PaddedValue(width: nat, n: int)
    ensures var t := Padded(width, n); Value(t) == n && |t| >= width && t != "" && IsDigit(t[|t| - 1])
    ensures |Padded(width, n)| > width ==> Padded(width, n)[0] != ' '
    ensures forall i :: 0 <= i < |Padded(width, n)| ==> OfNumber(Padded(width, n)[i])
  {
    var t := Number(n);
    var k := if |t| < width then width - |t| else 0;
    NumberValue(n);
    ValueSkipsSpaces(k, t);
    assert Padded(width, n) == Spaces(k) + t;
    if k == 0 {
      assert Spaces(k) + t == t;
    }
  }

  /** A number followed by anything that does not look like one ends where it should. */
  lemma {:induction false} NumberEnds(t: string, rest: string)
    requires (forall i :: 0 <= i < |t| ==> OfNumber(t[i])) && rest != "" && !OfNumber(rest[0])
    ensures NumberLength(t + rest) == |t|
  {
    if t == "" {
      assert t + rest == rest;
    } else {
      assert (t + rest)[1..] == t[1..] + rest;
      NumberEnds(t[1..], rest);
    }
  }

  /** A written unit does not look blank. */
  lemma WrittenIsNotBlank(width: nat, n: int, suffix: string, rest: string)
    requires suffix != ""
    ensures !(Spaces(width + |suffix|) <= Padded(width, n) + suffix + rest)
  {
    PaddedValue(width, n);
    var t, k := Padded(width, n), width + |suffix|;
    var i := if |t| <= k then |t| - 1 else 0;
    assert |t| <= k ==> IsDigit(t[|t| - 1]);
    assert t[i] != ' ';
    assert (t + suffix + rest)[i] == t[i];
    assert Spaces(k)[i] == ' ';
  }

  lemma NumberBefore(width: nat, n: int, rest: string)
    requires rest != "" && !OfNumber(rest[0])
    ensures NumberLength(Padded(width, n) + rest) == |Padded(width, n)| && Value(Padded(width, n)) == n
  {
    PaddedValue(width, n);
    NumberEnds(Padded(width, n), rest);
  }

  lemma ReadsWritten(width: nat, n: int, suffix: string, rest: string)
    requires suffix != "" && !OfNumber(suffix[0])
    ensures var t, k := Padded(width, n) + suffix + rest, |Padded(width, n)|;
      && !(Spaces(width + |suffix|) <= t)
      && NumberLength(t) == k && t[..k] == Padded(width, n) && t[k + |suffix|..] == rest
      && Value(t[..k]) == n
  {
    var p := Padded(width, n);
    WrittenIsNotBlank(width, n, suffix, rest);
    NumberBefore(width, n, suffix + rest);
    assert p + suffix + rest == p + (suffix + rest);
  }

  lemma ReadsLast(width: nat, n: int, suffix: string)
    requires suffix != "" && !OfNumber(suffix[0])
    ensures var t := Padded(width, n) + suffix; Value(t[..NumberLength(t)]) == n
  {
    ReadsWritten(width, n, suffix, "");
    assert Padded(width, n) + suffix + "" == Padded(width, n) + suffix;
  }

  /** A field that is written reads as its share of the count, and what follows is read on its own. */
  lemma ReadsField(n: int, units: Units, rest: string)
    requires units.Unit? && Readable(units) && n > units.size > 0
    ensures Read(Field(n, units) + rest, units) == n / units.size * units.size + Read(rest, units.smaller)
  {
    ReadsWritten(units.width, n / units.size, units.suffix, rest);
  }

  lemma ReadsBlank(units: Units, rest: string)
    requires units.Unit?
    ensures Read(Spaces(units.width + |units.suffix|) + rest, units) == Read(rest, units.smaller)
  {
    assert (Spaces(units.width + |units.suffix|) + rest)[units.width + |units.suffix|..] == rest;
  }

  /** The text determines the count, negative ones included. */
  lemma {:induction false} ReadsBack(n: int, units: Units)
    requires Readable(units)
    ensures Read(Text(n, units), units) == n
  {
    match units
    case Rest(width, suffix) =>
      ReadsLast(width, n, suffix);
    case Unit(size, width, suffix, smaller) =>
      ReadsBack(Left(n, units), smaller);
      if n > size > 0 {
        ReadsField(n, units, Text(Left(n, units), smaller));
      } else {
        ReadsBlank(units, Text(n, smaller));
      }
  }

  /** Both formats round-trip, so different counts have different texts. */
  lemma RoundTrip(n: int, m: int)
    ensures Read(Text(n, MICROS), MICROS) == n
    ensures Read(Text(n, NANOS), NANOS) == n
    ensures Text(n, MICROS) == Text(m, MICROS) || Text(n, NANOS) == Text(m, NANOS) ==> n == m
  {
    assert Readable(MICROS) && Readable(NANOS);
    ReadsBack(n, MICROS);
    ReadsBack(m, MICROS);
    ReadsBack(n, NANOS);
    ReadsBack(m, NANOS);
  }

  // ---- A reader that knows the names of the units only ---------------------------------------

  /** What one of the unit is worth, in nanoseconds. */
  function Worth(symbol: string): nat {
    if symbol == "m" then 60_000_000_000
    else if symbol == "s" then 1_000_000_000
    else if symbol == "ms" then 1_000_000
    else if symbol == "\U{03BC}s" then 1_000
    else if symbol == "ns" then 1
    else 0
  }

  /** A character of a unit's symbol. */
  predicate OfSymbol(c: char) {
    !OfNumber(c)
  }

  function SymbolLength(t: string): (k: nat)
    ensures k <= |t|
  {
    if t != "" && OfSymbol(t[0]) then 1 + SymbolLength(t[1..]) else 0
  }

  /** The nanoseconds that a text amounts to: each number times the worth of the symbol behind it. */
  function Nanoseconds(t: string): int
    decreases |t|
  {
    var k := NumberLength(t);
    var m := SymbolLength(t[k..]);
    if k + m == 0 then 0
    else Value(t[..k]) * Worth(t[k..k + m]) + Nanoseconds(t[k + m..])
  }

  predicate IsSymbol(symbol: string) {
    symbol != "" && forall i :: 0 <= i < |symbol| ==> OfSymbol(symbol[i])
  }

  /** Each unit is written with the symbol that is worth it, times scale. */
  predicate Named(units: Units, scale: nat) {
    match units
    case Rest(_, suffix) => IsSymbol(suffix) && Worth(suffix) == scale
    case Unit(size, _, suffix, smaller) =>
      && |suffix| > 1 && suffix[|suffix| - 1] == ' '
      && IsSymbol(suffix[..|suffix| - 1]) && Worth(suffix[..|suffix| - 1]) == size * scale
      && Named(smaller, scale)
  }

  lemma {:induction false} NumberGoesOn(t: string, rest: string)
    requires forall i :: 0 <= i < |t| ==> OfNumber(t[i])
    ensures NumberLength(t + rest) == |t| + NumberLength(rest)
  {
    if t == "" {
      assert t + rest == rest;
    } else {
      assert (t + rest)[1..] == t[1..] + rest;
      NumberGoesOn(t[1..], rest);
    }
  }

  lemma {:induction false} SymbolEnds(symbol: string, rest: string)
    requires (forall i :: 0 <= i < |symbol| ==> OfSymbol(symbol[i])) && (rest == "" || !OfSymbol(rest[0]))
    ensures SymbolLength(symbol + rest) == |symbol|
  {
    if symbol == "" {
      assert symbol + rest == rest;
    } else {
      assert (symbol + rest)[1..] == symbol[1..] + rest;
      SymbolEnds(symbol[1..], rest);
    }
  }

  lemma Slices(a: string, b: string, c: string)
    ensures var t := a + b + c;
      t[..|a|] == a && t[|a|..] == b + c && t[|a|..|a| + |b|] == b && t[|a| + |b|..] == c
  {
  }

  /** A text that begins with a number and a symbol, one of which may be missing. */
  lemma NanosecondsOf(number: string, symbol: string, rest: string)
    requires number + symbol != ""
    requires NumberLength(number + symbol + rest) == |number| && SymbolLength(symbol + rest) == |symbol|
    ensures Nanoseconds(number + symbol + rest) == Value(number) * Worth(symbol) + Nanoseconds(rest)
  {
    Slices(number, symbol, rest);
  }

  lemma BlankIsWorthNothing(k: nat)
    ensures Nanoseconds(Spaces(k)) == 0
  {
    NumberGoesOn(Spaces(k), "");
    assert Spaces(k) + "" == Spaces(k) && Spaces(k)[k..] == "";
  }

  lemma PartsOf(t: string) returns (number: string, symbol: string, rest: string)
    ensures t == number + symbol + rest && t[|number|..] == symbol + rest
    ensures NumberLength(t) == |number| && SymbolLength(symbol + rest) == |symbol|
    ensures t != "" ==> number + symbol != ""
  {
    number, rest := t[..NumberLength(t)], t[NumberLength(t)..];
    symbol, rest := rest[..SymbolLength(rest)], rest[SymbolLength(rest)..];
    assert t[|number|..] == symbol + rest;
  }

  /** Spaces add nothing. */
  lemma SpacesAreWorthNothing(k: nat, t: string)
    ensures Nanoseconds(Spaces(k) + t) == Nanoseconds(t)
  {
    if t == "" {
      assert Spaces(k) + t == Spaces(k);
      BlankIsWorthNothing(k);
    } else {
      var number, symbol, rest := PartsOf(t);
      NumberGoesOn(Spaces(k), t);
      assert Spaces(k) + t == Spaces(k) + number + symbol + rest;
      NanosecondsOf(Spaces(k) + number, symbol, rest);
      ValueSkipsSpaces(k, number);
      NanosecondsOf(number, symbol, rest);
    }
  }

  /** A number and a symbol add what they say. */
  lemma NumberAndSymbol(width: nat, n: int, symbol: string, rest: string)
    requires IsSymbol(symbol) && (rest == "" || rest[0] == ' ')
    ensures Nanoseconds(Padded(width, n) + symbol + rest) == n * Worth(symbol) + Nanoseconds(rest)
  {
    var p := Padded(width, n);
    var t := p + symbol + rest;
    PaddedValue(width, n);
    assert t == p + (symbol + rest);
    NumberBefore(width, n, symbol + rest);
    SymbolEnds(symbol, rest);
    NanosecondsOf(p, symbol, rest);
  }

  lemma WrittenIsWorth(width: nat, n: int, suffix: string, rest: string)
    requires |suffix| > 1 && suffix[|suffix| - 1] == ' ' && IsSymbol(suffix[..|suffix| - 1])
    ensures Nanoseconds(Padded(width, n) + suffix + rest)
            == n * Worth(suffix[..|suffix| - 1]) + Nanoseconds(rest)
  {
    var p, symbol := Padded(width, n), suffix[..|suffix| - 1];
    assert Spaces(1) == " " && suffix == symbol + Spaces(1);
    assert p + suffix + rest == p + symbol + (Spaces(1) + rest);
    NumberAndSymbol(width, n, symbol, Spaces(1) + rest);
    SpacesAreWorthNothing(1, rest);
  }

  lemma FieldIsWorth(n: int, units: Units, scale: nat, rest: string)
    requires units.Unit? && units.size > 0 && Named(units, scale)
    ensures Nanoseconds(Field(n, units) + rest)
            == (if n > units.size then n / units.size * (units.size * scale) else 0) + Nanoseconds(rest)
  {
    if n > units.size {
      WrittenIsWorth(units.width, n / units.size, units.suffix, rest);
    } else {
      SpacesAreWorthNothing(units.width + |units.suffix|, rest);
    }
  }

  lemma Shares(n: int, q: int, size: int, scale: int)
    ensures q * (size * scale) + (n - q * size) * scale == n * scale
  {
    assert (n - q * size) * scale == n * scale - q * size * scale;
  }

  /** What a unit takes off the count and what it leaves are the count. */
  lemma LeftShares(n: int, units: Units, scale: int)
    requires units.Unit? && units.size > 0
    ensures (if n > units.size then n / units.size * (units.size * scale) else 0) + Left(n, units) * scale == n * scale
  {
    Shares(n, n / units.size, units.size, scale);
  }

  lemma UnitIsWorth(n: int, units: Units, scale: nat, rest: string)
    requires units.Unit? && units.size > 0 && Named(units, scale)
    requires Nanoseconds(rest) == Left(n, units) * scale
    ensures Nanoseconds(Field(n, units) + rest) == n * scale
  {
    FieldIsWorth(n, units, scale, rest);
    LeftShares(n, units, scale);
  }

  lemma RestIsWorth(n: int, width: nat, suffix: string)
    requires IsSymbol(suffix)
    ensures Nanoseconds(Padded(width, n) + suffix) == n * Worth(suffix)
  {
    NumberAndSymbol(width, n, suffix, "");
    assert Padded(width, n) + suffix + "" == Padded(width, n) + suffix;
  }

  lemma {:induction false} TextIsWorth(n: int, units: Units, scale: nat)
    requires Named(units, scale) && Sizes(units)
    ensures Nanoseconds(Text(n, units)) == n * scale
  {
    match units
    case Rest(width, suffix) =>
      RestIsWorth(n, width, suffix);
    case Unit(_, _, _, smaller) =>
      TextIsWorth(Left(n, units), smaller, scale);
      UnitIsWorth(n, units, scale, Text(Left(n, units), smaller));
  }

  predicate Sizes(units: Units) {
    units.Unit? ==> units.size > 0 && Sizes(units.smaller)
  }

  lemma SymbolsOfUnits()
    ensures "m "[..1] == "m" && "s "[..1] == "s" && "ms "[..2] == "ms" && "\U{03BC}s "[..2] == "\U{03BC}s"
    ensures Worth("m") == 60_000_000_000 && Worth("s") == 1_000_000_000 && Worth("ms") == 1_000_000
    ensures Worth("\U{03BC}s") == 1_000 && Worth("ns") == 1
  {
  }

  lemma UnitsAreNamed()
    ensures Named(NANOS, 1) && Named(MICROS, 1_000)
  {
    SymbolsOfUnits();
  }

  /** Read without any knowledge of the formats, the texts say how long it has taken. */
  lemma TextsSayHowLong(n: int)
    ensures Nanoseconds(Text(n, NANOS)) == n
    ensures Nanoseconds(Text(n, MICROS)) == 1_000 * n
  {
    UnitsAreNamed();
    TextIsWorth(n, NANOS, 1);
    TextIsWorth(n, MICROS, 1_000);
  }

  // ---- How large the fields get --------------------------------------------------------------

  /** The numbers of a text, 0 for a blank. */
  function Amounts(n: int, units: Units): seq<int> {
    match units
    case Rest(_, _) => [n]
    case Unit(size, _, _, smaller) =>
      [if n > size > 0 then n / size else 0] + Amounts(Left(n, units), smaller)
  }

  function SizeOfFirst(units: Units): nat {
    if units.Unit? then units.size else 1
  }

  /** Each size is a multiple of the next smaller one, down from whole. */
  predicate Divides(whole: nat, units: Units)
    decreases units
  {
    && SizeOfFirst(units) > 0 && whole % SizeOfFirst(units) == 0
    && (units.Unit? ==> Divides(units.size, units.smaller))
  }

  /** No field exceeds what its unit has room for, and it is full only when nothing follows. */
  ghost predicate Fits(amounts: seq<int>, whole: nat, units: Units)
    requires Divides(whole, units)
    decreases units
  {
    && amounts != [] && 0 <= amounts[0] <= whole / SizeOfFirst(units)
    && (amounts[0] == whole / SizeOfFirst(units) ==> forall i :: 0 < i < |amounts| ==> amounts[i] == 0)
    && (units.Unit? ==> Fits(amounts[1..], units.size, units.smaller))
  }

  lemma {:induction false} AllZero(units: Units)
    ensures forall i :: 0 <= i < |Amounts(0, units)| ==> Amounts(0, units)[i] == 0
  {
    if units.Unit? {
      AllZero(units.smaller);
    }
  }

  lemma {:induction false} Grows(a: nat, b: nat, d: nat)
    requires a < b && d > 0
    ensures a * d < b * d
  {
    assert b * d == (b - 1) * d + d;
    if a < b - 1 {
      Grows(a, b - 1, d);
    }
  }

  lemma Quotient(n: nat, whole: nat, size: nat)
    requires size > 0 && n <= whole && whole % size == 0
    ensures n / size <= whole / size && (n / size == whole / size ==> n == whole)
    ensures 0 <= n - n / size * size < size && n / size * size <= n
    ensures n == whole ==> n - n / size * size == 0
    ensures whole > 0 ==> whole / size > 0
  {
    assert n == n / size * size + n % size;
    assert whole == whole / size * size;
    if whole / size < n / size {
      Grows(whole / size, n / size, size);
    }
  }

  lemma OnlyFirst(n: nat, units: Units)
    requires units.Unit? && Left(n, units) == 0
    ensures forall i :: 0 < i < |Amounts(n, units)| ==> Amounts(n, units)[i] == 0
  {
    var rest := Amounts(0, units.smaller);
    AllZero(units.smaller);
    assert Amounts(n, units)[1..] == rest;
    forall i | 0 < i < |Amounts(n, units)| ensures Amounts(n, units)[i] == 0 {
      assert Amounts(n, units)[i] == rest[i - 1];
    }
  }

  lemma FirstFits(n: nat, whole: nat, units: Units)
    requires Divides(whole, units) && n <= whole && whole > 0
    ensures var a, most := Amounts(n, units)[0], whole / SizeOfFirst(units);
      0 <= a <= most && (a == most ==> n == whole && (units.Unit? ==> n > units.size))
    ensures units.Unit? ==>
              && 0 <= Left(n, units) <= units.size && Amounts(n, units)[1..] == Amounts(Left(n, units), units.smaller)
              && (n == whole && n > units.size ==> Left(n, units) == 0)
  {
    Quotient(n, whole, SizeOfFirst(units));
  }

  lemma {:induction false} FieldsFit(n: nat, whole: nat, units: Units)
    requires Divides(whole, units) && n <= whole && whole > 0
    ensures Fits(Amounts(n, units), whole, units)
  {
    FirstFits(n, whole, units);
    match units
    case Rest(_, _) =>
    case Unit(size, _, _, smaller) =>
      FieldsFit(Left(n, units), size, smaller);
      if Left(n, units) == 0 {
        OnlyFirst(n, units);
      }
  }

  /**
    For a count that is not negative: after the minutes, at most 60 seconds, and at most 1000
    milli-, micro- and nanoseconds. A field shows 60 or 1000 only when nothing but zeros follow.
   */
  lemma NanosFit(n: nat)
    ensures var a := Amounts(n, NANOS);
      && |a| == 5 && 0 <= a[0] && 0 <= a[1] <= 60 && 0 <= a[2] <= 1000 && 0 <= a[3] <= 1000 && 0 <= a[4] <= 1000
      && (a[1] == 60 ==> a[2] == a[3] == a[4] == 0)
      && (a[2] == 1000 ==> a[3] == a[4] == 0)
      && (a[3] == 1000 ==> a[4] == 0)
      && n == a[0] * 60_000_000_000 + a[1] * 1_000_000_000 + a[2] * 1_000_000 + a[3] * 1_000 + a[4]
  {
    var seconds := NANOS.smaller;
    var millis := seconds.smaller;
    var micros := millis.smaller;
    var n1 := Left(n, NANOS);
    var n2 := Left(n1, seconds);
    var n3 := Left(n2, millis);
    assert Amounts(n, NANOS)[1..] == Amounts(n1, seconds);
    assert Amounts(n1, seconds)[1..] == Amounts(n2, millis);
    assert Amounts(n2, millis)[1..] == Amounts(n3, micros);
    assert Divides(NANOS.size, seconds);
    FieldsFit(n1, NANOS.size, seconds);
  }

  /** The same of microseconds: at most 60 seconds and at most 1000 milli- and microseconds. */
  lemma MicrosFit(n: nat)
    ensures var a := Amounts(n, MICROS);
      && |a| == 4 && 0 <= a[0] && 0 <= a[1] <= 60 && 0 <= a[2] <= 1000 && 0 <= a[3] <= 1000
      && (a[1] == 60 ==> a[2] == a[3] == 0)
      && (a[2] == 1000 ==> a[3] == 0)
      && n == a[0] * 60_000_000 + a[1] * 1_000_000 + a[2] * 1_000 + a[3]
  {
    var seconds := MICROS.smaller;
    var millis := seconds.smaller;
    var n1 := Left(n, MICROS);
    var n2 := Left(n1, seconds);
    assert Amounts(n, MICROS)[1..] == Amounts(n1, seconds);
    assert Amounts(n1, seconds)[1..] == Amounts(n2, millis);
    assert Divides(MICROS.size, seconds);
    FieldsFit(n1, MICROS.size, seconds);
  }

  // ---- The formatters --------------------------------------------------------------------------

  /**
    The step that the formatters repeat for each unit: write it, or leave it blank, and take it
    off the count.
   */
  method WriteUnit(count: int, ghost units: Units, size: int, width: nat, suffix: string, blank: string)
      returns (part: string, left: int)
    requires units.Unit? && units.size == size > 0 && units.width == width && units.suffix == suffix
    requires blank == Spaces(width + |suffix|)
    ensures part == Field(count, units) && left == Left(count, units)
  {
    if count > size {
      var tmp := count / size;
      part := Padded(width, tmp) + suffix;
      left := count - tmp * size;
    } else {
      part := blank;
      left := count;
    }
  }

  /** text is complete once what done lacks has been written. */
  predicate Lacks(text: string, done: string, n: int, units: Units) {
    text == done + Text(n, units)
  }

  lemma OneUnitMore(text: string, done: string, n: int, units: Units)
    requires units.Unit? && Lacks(text, done, n, units)
    ensures Lacks(text, done + Field(n, units), Left(n, units), units.smaller)
  {
    var rest := Text(Left(n, units), units.smaller);
    assert done + (Field(n, units) + rest) == done + Field(n, units) + rest;
  }

  method FormatTime(count: int) returns (ss: string)
    ensures ss == Text(count, MICROS) && Nanoseconds(ss) == 1_000 * count
  {
    ghost var text, units := Text(count, MICROS), MICROS;
    var microseconds := count;
    var part: string;
    ss := "";
    OneUnitMore(text, ss, microseconds, units);
    part, microseconds := WriteUnit(microseconds, units, 60000000, 6, "m ", "        ");
    ss, units := ss + part, units.smaller;
    OneUnitMore(text, ss, microseconds, units);
    part, microseconds := WriteUnit(microseconds, units, 1000000, 2, "s ", "    ");
    ss, units := ss + part, units.smaller;
    OneUnitMore(text, ss, microseconds, units);
    part, microseconds := WriteUnit(microseconds, units, 1000, 3, "ms ", "      ");
    ss, units := ss + part, units.smaller;
    ss := ss + (Padded(3, microseconds) + "\U{03BC}s");
    TextsSayHowLong(count);
  }

  method FormatTimeNS(count: int) returns (ss: string)
    ensures ss == Text(count, NANOS) && Nanoseconds(ss) == count
  {
    ghost var text, units := Text(count, NANOS), NANOS;
    var nanoseconds := count;
    var part: string;
    ss := "";
    OneUnitMore(text, ss, nanoseconds, units);
    part, nanoseconds := WriteUnit(nanoseconds, units, 60000000000, 6, "m ", "        ");
    ss, units := ss + part, units.smaller;
    OneUnitMore(text, ss, nanoseconds, units);
    part, nanoseconds := WriteUnit(nanoseconds, units, 1000000000, 2, "s ", "    ");
    ss, units := ss + part, units.smaller;
    OneUnitMore(text, ss, nanoseconds, units);
    part, nanoseconds := WriteUnit(nanoseconds, units, 1000000, 3, "ms ", "      ");
    ss, units := ss + part, units.smaller;
    OneUnitMore(text, ss, nanoseconds, units);
    part, nanoseconds := WriteUnit(nanoseconds, units, 1000, 3, "\U{03BC}s ", "      ");
    ss, units := ss + part, units.smaller;
    ss := ss + (Padded(3, nanoseconds) + "ns");
    TextsSayHowLong(count);
  }
}
