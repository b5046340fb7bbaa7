/** Decimal numbers in a character stream, as `operator<<` prints and `operator>>` reads unsigned integers. */
module Text {
  import opened Common

  function Digit(d: nat): char
    requires d < 10
  {
    "0123456789"[d]
  }

  predicate IsDigit(c: char) {
    '0' <= c <= '9'
  }

  function DigitValue(c: char): nat
    requires IsDigit(c)
  {
    c as nat - '0' as nat
  }

  /** White space in the C locale. */
  predicate IsSpace(c: char) {
    c == ' ' || '\t' <= c <= '\r'
  }

  function Decimal(n: nat): (s: string)
    ensures s != [] && forall c | c in s :: IsDigit(c)
  {
    if n < 10 then [Digit(n)] else Decimal(n / 10) + [Digit(n % 10)]
  }

  function ReadDigits(text: string, acc: nat): (r: (nat, string))
    ensures |r.1| <= |text|
    ensures text != [] && IsDigit(text[0]) ==> |r.1| < |text|
  {
    if text != [] && IsDigit(text[0]) then ReadDigits(text[1..], acc * 10 + DigitValue(text[0])) else (acc, text)
  }

  function SkipSpace(text: string): (r: string)
    ensures |r| <= |text|
  {
    if text != [] && IsSpace(text[0]) then SkipSpace(text[1..]) else text
  }

  /** The next number of a stream and what follows it, if there is one after white space. */
  function ReadNumber(text: string): (r: Option<(nat, string)>)
    ensures r.Some? ==> |r.value.1| < |text|
  {
    var t := SkipSpace(text);
    if t != [] && IsDigit(t[0]) then Some(ReadDigits(t, 0)) else None
  }

  /** All numbers that can be read from a stream, one after the other. */
  function Tokens(text: string): seq<nat>
    decreases |text|
  {
    match ReadNumber(text)
    case None => []
    case Some((n, rest)) => [n] + Tokens(rest)
  }

  /** Reading over the digits of `n` is reading with `n` accumulated. */
  lemma {:induction false} ReadDecimal(n: nat, rest: string)
    ensures ReadDigits(Decimal(n) + rest, 0) == ReadDigits(rest, n)
  {
    if n >= 10 {
      var last := [Digit(n % 10)] + rest;
      assert Decimal(n) + rest == Decimal(n / 10) + last;
      ReadDecimal(n / 10, last);
      assert last[1..] == rest;
    } else {
      assert (Decimal(n) + rest)[1..] == rest;
    }
  }

  /** A printed number is read back, whatever follows it, unless that is another digit. */
  lemma NumberRoundTrip(n: nat, rest: string)
    requires rest == [] || !IsDigit(rest[0])
    ensures ReadNumber(Decimal(n) + rest) == Some((n, rest))
  {
    ReadDecimal(n, rest);
    var text := Decimal(n) + rest;
    assert text[0] == Decimal(n)[0] && Decimal(n)[0] in Decimal(n);
  }

  /** Different numbers are printed differently. */
  lemma DecimalInjective(a: nat, b: nat)
    requires Decimal(a) == Decimal(b)
    ensures a == b
  {
    NumberRoundTrip(a, []);
    NumberRoundTrip(b, []);
    assert Decimal(a) + [] == Decimal(b) + [];
  }

  // ----- What numerals are, in terms of character codes

  function Power10(j: nat): nat {
    if j == 0 then 1 else 10 * Power10(j - 1)
  }

  lemma DigitCode(d: nat)
    requires d < 10
    ensures Digit(d) as int == '0' as int + d
  {
    assert d == 0 || d == 1 || d == 2 || d == 3 || d == 4 || d == 5 || d == 6 || d == 7 || d == 8 || d == 9;
  }

  lemma DivideTwice(n: nat, m: nat)
    requires m > 0
    ensures n / 10 / m == n / (10 * m)
  {
    var q := n / 10 / m;
    assert q * m <= n / 10 < q * m + m;
    assert 10 * (q * m) == q * (10 * m) && 10 * (q * m + m) == q * (10 * m) + 10 * m;
    Quotient(n, 10 * m, q);
  }

  lemma {:induction false} PowerPositive(j: nat)
    ensures Power10(j) > 0
  {
    if j > 0 {
      PowerPositive(j - 1);
    }
  }

  /** The digit in place `j`, counted from the right. */
  lemma {:induction false} DecimalPlace(n: nat, j: nat)
    requires j < |Decimal(n)|
    ensures Power10(j) > 0
    ensures Decimal(n)[|Decimal(n)| - 1 - j] as int == '0' as int + n / Power10(j) % 10
  {
    PowerPositive(j);
    DecimalLast(n);
    if j > 0 {
      hide Decimal;
      DecimalPlace(n / 10, j - 1);
      DivideTwice(n, Power10(j - 1));
    }
  }

  lemma DecimalLast(n: nat)
    ensures Decimal(n)[|Decimal(n)| - 1] as int == '0' as int + n % 10
    ensures if n < 10 then |Decimal(n)| == 1 else Decimal(n) == Decimal(n / 10) + [Decimal(n)[|Decimal(n)| - 1]]
  {
    DigitCode(n % 10);
  }

  /** A printed number is as long as it has to be. */
  lemma {:induction false} DecimalLength(n: nat)
    ensures n < 10 ==> |Decimal(n)| == 1
    ensures n > 0 ==> Power10(|Decimal(n)| - 1) <= n < Power10(|Decimal(n)|)
    ensures n > 0 ==> Decimal(n)[0] != '0'
  {
    if n < 10 {
      DigitCode(n);
      assert Power10(0) == 1 && Power10(1) == 10;
    } else {
      DecimalLength(n / 10);
    }
  }

  /**
   The numeral that is printed for a number, without reference to how it is computed: the digit in place `j` is
   the character with the code of '0' plus `n / 10^j % 10`, and there are no leading zeros.
   */
  lemma DecimalSpelled(n: nat)
    ensures var s := Decimal(n);
            && (forall j: nat | j < |s| :: Power10(j) > 0 && s[|s| - 1 - j] as int == '0' as int + n / Power10(j) % 10)
            && (if n == 0 then s == "0" else Power10(|s| - 1) <= n < Power10(|s|) && s[0] != '0')
  {
    DecimalLength(n);
    forall j: nat | j < |Decimal(n)|
      ensures Power10(j) > 0 && Decimal(n)[|Decimal(n)| - 1 - j] as int == '0' as int + n / Power10(j) % 10
    {
      DecimalPlace(n, j);
    }
  }

  predicate Digits(s: string) {
    forall i | 0 <= i < |s| :: '0' <= s[i] <= '9'
  }

  /** The number that a string of digits stands for, the last digit counting least. */
  function NumberOf(s: string): nat
    requires Digits(s)
  {
    if s == "" then 0
    else
      var n := |s| - 1;
      10 * NumberOf(s[..n]) + (s[n] as int - '0' as int)
  }

  lemma NumberOfOne(s: string, c: char)
    requires Digits(s) && '0' <= c <= '9'
    ensures Digits(s + [c])
    ensures NumberOf(s + [c]) == 10 * NumberOf(s) + (c as int - '0' as int)
  {
    assert (s + [c])[..|s|] == s;
  }

  lemma {:induction false} DigitsFrom(front: string, s: string, rest: string)
    requires Digits(front) && Digits(s) && (rest == "" || !IsDigit(rest[0]))
    ensures Digits(front + s)
    ensures ReadDigits(s + rest, NumberOf(front)) == (NumberOf(front + s), rest)
    decreases |s|
  {
    hide ReadDigits, NumberOf;
    if s == "" {
      assert front + s == front && s + rest == rest;
      ReadDigitsEnd(rest, NumberOf(front));
    } else {
      assert front + [s[0]] + s[1..] == front + s;
      assert (s + rest)[0] == s[0] && (s + rest)[1..] == s[1..] + rest;
      NumberOfOne(front, s[0]);
      ReadDigitsNext(s + rest, NumberOf(front));
      DigitsFrom(front + [s[0]], s[1..], rest);
    }
  }

  lemma ReadDigitsNext(text: string, acc: nat)
    requires text != "" && IsDigit(text[0])
    ensures ReadDigits(text, acc) == ReadDigits(text[1..], 10 * acc + (text[0] as int - '0' as int))
  {
  }

  lemma ReadDigitsEnd(text: string, acc: nat)
    requires text == "" || !IsDigit(text[0])
    ensures ReadDigits(text, acc) == (acc, text)
  {
  }

  /** Any string of digits, leading zeros included, is read as the number that it stands for. */
  lemma DigitsRead(s: string, rest: string)
    requires s != "" && Digits(s) && (rest == "" || !IsDigit(rest[0]))
    ensures ReadDigits(s + rest, 0) == (NumberOf(s), rest)
    ensures ReadNumber(s + rest) == Some((NumberOf(s), rest))
  {
    hide ReadDigits, NumberOf;
    assert "" + s == s;
    NumberOfNothing();
    DigitsFrom("", s, rest);
    assert (s + rest)[0] == s[0];
    assert SkipSpace(s + rest) == s + rest;
  }

  lemma NumberOfNothing()
    ensures NumberOf("") == 0
  {
  }

  /** White space in front of a number does not matter; any other character that is not a digit ends the reading. */
  lemma OtherCharacters(c: char, rest: string)
    requires !('0' <= c <= '9')
    ensures Tokens([c] + rest) == if c as int in {9, 10, 11, 12, 13, 32} then Tokens(rest) else []
  {
    if IsSpace(c) {
      TokensAfterSpace(c, rest);
    }
  }

  // ----- Text as a list of numbers and separators

  datatype Piece = Num(n: nat) | Space | Newline

  function RenderOne(x: Piece): string {
    match x
    case Num(n) => Decimal(n)
    case Space => " "
    case Newline => "\n"
  }

  function Render(xs: seq<Piece>): string {
    if xs == [] then "" else RenderOne(xs[0]) + Render(xs[1..])
  }

  function NumsOne(x: Piece): seq<nat> {
    if x.Num? then [x.n] else []
  }

  function Nums(xs: seq<Piece>): seq<nat> {
    if xs == [] then [] else NumsOne(xs[0]) + Nums(xs[1..])
  }

  /** Every number is followed by a separator. */
  predicate Separated(xs: seq<Piece>) {
    forall i | 0 <= i < |xs| && xs[i].Num? :: i + 1 < |xs| && !xs[i + 1].Num?
  }

  lemma {:induction false} RenderAppend(xs: seq<Piece>, ys: seq<Piece>)
    ensures Render(xs + ys) == Render(xs) + Render(ys)
  {
    hide RenderOne;
    if xs == [] {
      assert xs + ys == ys;
    } else {
      RenderAppend(xs[1..], ys);
      HeadOfConcat(xs, ys);
      Assoc(RenderOne(xs[0]), Render(xs[1..]), Render(ys));
    }
  }

  lemma {:induction false} NumsAppend(xs: seq<Piece>, ys: seq<Piece>)
    ensures Nums(xs + ys) == Nums(xs) + Nums(ys)
  {
    hide NumsOne;
    if xs == [] {
      assert xs + ys == ys;
    } else {
      NumsAppend(xs[1..], ys);
      HeadOfConcat(xs, ys);
      Assoc(NumsOne(xs[0]), Nums(xs[1..]), Nums(ys));
    }
  }

  lemma {:induction false} TokensAfterNumber(n: nat, rest: string)
    requires rest == [] || !IsDigit(rest[0])
    ensures Tokens(Decimal(n) + rest) == [n] + Tokens(rest)
  {
    hide Decimal, ReadNumber;
    NumberRoundTrip(n, rest);
  }

  lemma TokensAfterSpace(c: char, rest: string)
    requires IsSpace(c)
    ensures Tokens([c] + rest) == Tokens(rest)
  {
    assert ([c] + rest)[1..] == rest;
    assert ReadNumber([c] + rest) == ReadNumber(rest);
  }

  lemma SeparatorFirst(xs: seq<Piece>)
    requires xs != [] && !xs[0].Num?
    ensures Render(xs) != "" && IsSpace(Render(xs)[0])
    ensures Render(xs) == [Render(xs)[0]] + Render(xs[1..])
  {
    hide Decimal;
  }

  lemma SeparatedTail(xs: seq<Piece>)
    requires xs != [] && Separated(xs)
    ensures Separated(xs[1..])
    ensures xs[0].Num? ==> xs[1..] != [] && !xs[1..][0].Num?
  {
    var ys := xs[1..];
    forall i | 0 <= i < |ys| && ys[i].Num? ensures i + 1 < |ys| && !ys[i + 1].Num? {
      assert xs[i + 1].Num?;
    }
  }

  /** Reading a text that keeps its numbers apart yields exactly the printed numbers. */
  lemma {:induction false} TokensOfRender(xs: seq<Piece>)
    requires Separated(xs)
    ensures Tokens(Render(xs)) == Nums(xs)
  {
    hide Tokens, Decimal, Separated;
    if xs == [] {
      NoTokens();
    } else {
      SeparatedTail(xs);
      TokensOfRender(xs[1..]);
      if xs[0].Num? {
        SeparatorFirst(xs[1..]);
        TokensAfterNumber(xs[0].n, Render(xs[1..]));
      } else {
        SeparatorFirst(xs);
        TokensAfterSpace(Render(xs)[0], Render(xs[1..]));
      }
    }
  }

  lemma NoTokens()
    ensures Tokens("") == []
  {
  }

  // ----- Flattening

  function Flat<T>(xs: seq<T>, f: T -> seq<Piece>): seq<Piece> {
    if xs == [] then [] else f(xs[0]) + Flat(xs[1..], f)
  }

  lemma {:induction false} FlatAppend<T>(xs: seq<T>, ys: seq<T>, f: T -> seq<Piece>)
    ensures Flat(xs + ys, f) == Flat(xs, f) + Flat(ys, f)
  {
    if xs == [] {
      assert xs + ys == ys;
    } else {
      FlatAppend(xs[1..], ys, f);
      HeadOfConcat(xs, ys);
      Assoc(f(xs[0]), Flat(xs[1..], f), Flat(ys, f));
    }
  }

  lemma FlatOne<T>(xs: seq<T>, i: nat, f: T -> seq<Piece>)
    requires i < |xs|
    ensures Render(Flat(xs[..i + 1], f)) == Render(Flat(xs[..i], f)) + Render(f(xs[i]))
  {
    assert xs[..i + 1] == xs[..i] + [xs[i]];
    FlatAppend(xs[..i], [xs[i]], f);
    assert [xs[i]][1..] == [];
    assert Flat([xs[i]], f) == f(xs[i]);
    RenderAppend(Flat(xs[..i], f), f(xs[i]));
  }

  lemma {:induction false} FlatSeparated<T>(xs: seq<T>, f: T -> seq<Piece>)
    requires forall x | x in xs :: Separated(f(x))
    ensures Separated(Flat(xs, f))
  {
    if xs != [] {
      FlatSeparated(xs[1..], f);
      SeparatedAppend(f(xs[0]), Flat(xs[1..], f));
    }
  }

  lemma SeparatedAppend(xs: seq<Piece>, ys: seq<Piece>)
    requires Separated(xs) && Separated(ys)
    ensures Separated(xs + ys)
  {
    var zs := xs + ys;
    forall i | 0 <= i < |zs| && zs[i].Num? ensures i + 1 < |zs| && !zs[i + 1].Num? {
      if i < |xs| {
        assert xs[i].Num?;
      } else {
        assert ys[i - |xs|].Num?;
      }
    }
  }
}
