/** Amounts in Brazilian notation, printed and read back: `_format_currency_brl`
    (app/ai/tools/_common.py), the amount parser of the order repository
    (app/infrastructure/repositories/postgres_order_repository.py) and `_to_float_brl`
    (app/services/precos.py). Amounts are whole cents. */
module Money {
  import opened Clock
  import opened Wrappers

  // ---------------------------------------------------------------- text operations

  /** `s.replace(c, d)` for single characters. */
  function Replace(s: string, c: char, d: char): string {
    if s == "" then "" else [if s[0] == c then d else s[0]] + Replace(s[1..], c, d)
  }

  /** `s.replace(c, "")` */
  function Remove(s: string, c: char): string {
    if s == "" then "" else (if s[0] == c then "" else [s[0]]) + Remove(s[1..], c)
  }

  /** `s.replace("R$", "")` */
  function RemoveSign(s: string): string {
    if s == "" then ""
    else if |s| >= 2 && s[0] == 'R' && s[1] == '$' then RemoveSign(s[2..])
    else [s[0]] + RemoveSign(s[1..])
  }

  /** The decimal digits of a number. */
  function Digits(n: nat): (s: string)
    ensures s != "" && AllDigits(s)
  {
    if n < 10 then [Digit(n)] else Digits(n / 10) + [Digit(n % 10)]
  }

  function ValueOf(s: string): nat
    requires AllDigits(s)
  {
    if s == "" then 0 else 10 * ValueOf(s[..|s| - 1]) + Val(s[|s| - 1])
  }

  /** Groups of three digits, counted from the right. */
  function Group(s: string, sep: char): string {
    if |s| <= 3 then s else Group(s[..|s| - 3], sep) + [sep] + s[|s| - 3..]
  }

  // ---------------------------------------------------------------- printing

  /** `f"{value:,.2f}"` */
  function FixedPoint(cents: nat): string {
    Group(Digits(cents / 100), ',') + "." + [Digit(cents % 100 / 10), Digit(cents % 10)]
  }

  /** The separators are swapped by way of a third character. */
  function FormatCurrencyBrl(cents: nat): string {
    Replace(Replace(Replace("R$" + FixedPoint(cents), ',', 'X'), '.', ','), 'X', '.')
  }

  // ---------------------------------------------------------------- reading

  /** `mantissa / 10^scale` */
  datatype Decimal = Decimal(mantissa: nat, scale: nat)

  /** `float(s)` on plain digits with at most one decimal point; None is a ValueError. */
  function ParseFloat(s: string): Option<Decimal> {
    var dot := Find(s, '.', 0);
    var whole := s[..dot];
    var fraction := if dot < |s| then s[dot + 1..] else "";
    if AllDigits(whole) && AllDigits(fraction) && whole + fraction != ""
    then Some(Decimal(ValueOf(whole + fraction), |fraction|))
    else None
  }

  /** The parser inside `create_order`: Brazilian when a comma is present, plain otherwise. */
  function ParseOrderValue(text: string): Option<Decimal> {
    if text == "" then Some(Decimal(0, 0))
    else
      var raw := Remove(RemoveSign(Strip(text)), ' ');
      ParseFloat(if ',' in raw then Replace(Remove(raw, '.'), ',', '.') else raw)
  }

  /** `_to_float_brl` up to the final rounding; unreadable text is zero. */
  function ToFloatBrl(text: string): Decimal {
    match ParseFloat(Replace(Remove(Strip(text), '.'), ',', '.'))
    case Some(d) => d
    case None => Decimal(0, 0)
  }

  // ---------------------------------------------------------------- lemmas

  lemma {:induction false} ReplaceConcat(a: string, b: string, c: char, d: char)
    ensures Replace(a + b, c, d) == Replace(a, c, d) + Replace(b, c, d)
  {
    if a == "" {
      assert a + b == b;
    } else {
      assert (a + b)[1..] == a[1..] + b;
      ReplaceConcat(a[1..], b, c, d);
    }
  }

  lemma {:induction false} RemoveConcat(a: string, b: string, c: char)
    ensures Remove(a + b, c) == Remove(a, c) + Remove(b, c)
  {
    if a == "" {
      assert a + b == b;
    } else {
      assert (a + b)[1..] == a[1..] + b;
      RemoveConcat(a[1..], b, c);
    }
  }

  lemma {:induction false} Absent(s: string, c: char, d: char)
    requires c !in s
    ensures Replace(s, c, d) == s && Remove(s, c) == s
  {
    if s != "" { Absent(s[1..], c, d); }
  }

  lemma {:induction false} NoSign(s: string)
    requires 'R' !in s
    ensures RemoveSign(s) == s
  {
    if s != "" { NoSign(s[1..]); }
  }

  /** Every fourth place from the right holds the separator, the others the digits in order. */
  lemma {:induction false} GroupAt(s: string, sep: char, k: nat)
    requires s != "" && k < |s| + (|s| - 1) / 3
    ensures var grouped := Group(s, sep);
      && |grouped| == |s| + (|s| - 1) / 3
      && grouped[|grouped| - 1 - k] == if k % 4 == 3 then sep else s[|s| - 1 - (k - k / 4)]
    decreases |s|
  {
    if |s| > 3 {
      GroupAt(s[..|s| - 3], sep, if k < 4 then 0 else k - 4);
    }
  }

  /** No leading zero, except that zero itself is "0". */
  lemma {:induction false} NoLeadingZero(n: nat)
    ensures Digits(n)[0] == '0' <==> n == 0
    ensures n == 0 ==> Digits(n) == "0"
  {
    if n >= 10 { NoLeadingZero(n / 10); }
  }

  lemma {:induction false} GroupChars(s: string, sep: char)
    ensures forall c :: c in Group(s, sep) ==> c in s || c == sep
    ensures s != "" ==> Group(s, sep) != "" && Group(s, sep)[0] == s[0]
    decreases |s|
  {
    if |s| > 3 { GroupChars(s[..|s| - 3], sep); }
  }

  /** Replacing the separator of a grouped number regroups it. */
  lemma {:induction false} Regroup(s: string, c: char, d: char)
    requires c !in s
    ensures Replace(Group(s, c), c, d) == Group(s, d)
    decreases |s|
  {
    if |s| <= 3 {
      Absent(s, c, d);
    } else {
      var front, back := s[..|s| - 3], s[|s| - 3..];
      Regroup(front, c, d);
      Absent(back, c, d);
      ReplaceConcat(Group(front, c) + [c], back, c, d);
      ReplaceConcat(Group(front, c), [c], c, d);
      assert Replace([c], c, d) == [d];
    }
  }

  /** Removing the separator ungroups the number. */
  lemma {:induction false} Flatten(s: string, c: char)
    requires c !in s
    ensures Remove(Group(s, c), c) == s
    decreases |s|
  {
    if |s| <= 3 {
      Absent(s, c, c);
    } else {
      var front, back := s[..|s| - 3], s[|s| - 3..];
      Flatten(front, c);
      Absent(back, c, c);
      RemoveConcat(Group(front, c) + [c], back, c);
      RemoveConcat(Group(front, c), [c], c);
      assert Remove([c], c) == "";
      assert front + "" + back == s;
    }
  }

  lemma {:induction false} NoNonDigit(s: string, c: char)
    requires AllDigits(s) && !IsDigit(c)
    ensures c !in s
  {
  }

  lemma {:induction false} CommasToX(whole: string, two: string)
    requires AllDigits(whole) && AllDigits(two)
    ensures Replace("R$" + Group(whole, ',') + "." + two, ',', 'X') == "R$" + Group(whole, 'X') + "." + two
  {
    Swap("R$", Group(whole, ','), ".", two, ',', 'X');
    NoNonDigit(whole, ','); NoNonDigit(two, ',');
    Regroup(whole, ',', 'X');
    Absent("R$", ',', 'X'); Absent(".", ',', 'X'); Absent(two, ',', 'X');
  }

  lemma {:induction false} PointToComma(whole: string, two: string)
    requires AllDigits(whole) && AllDigits(two)
    ensures Replace("R$" + Group(whole, 'X') + "." + two, '.', ',') == "R$" + Group(whole, 'X') + "," + two
  {
    Swap("R$", Group(whole, 'X'), ".", two, '.', ',');
    GroupChars(whole, 'X');
    NoNonDigit(whole, '.'); NoNonDigit(two, '.');
    Absent("R$", '.', ','); Absent(Group(whole, 'X'), '.', ','); Absent(two, '.', ',');
    assert Replace(".", '.', ',') == ",";
  }

  lemma {:induction false} XToPoints(whole: string, two: string)
    requires AllDigits(whole) && AllDigits(two)
    ensures Replace("R$" + Group(whole, 'X') + "," + two, 'X', '.') == "R$" + Group(whole, '.') + "," + two
  {
    Swap("R$", Group(whole, 'X'), ",", two, 'X', '.');
    NoNonDigit(whole, 'X'); NoNonDigit(two, 'X');
    Regroup(whole, 'X', '.');
    Absent("R$", 'X', '.'); Absent(",", 'X', '.'); Absent(two, 'X', '.');
  }

  /** What the printer really shows: points between thousands, a comma before the cents. */
  lemma {:induction false} FormatShape(cents: nat)
    ensures FormatCurrencyBrl(cents) ==
      "R$" + Group(Digits(cents / 100), '.') + "," + [Digit(cents % 100 / 10), Digit(cents % 10)]
  {
    var whole, two := Digits(cents / 100), [Digit(cents % 100 / 10), Digit(cents % 10)];
    assert "R$" + FixedPoint(cents) == "R$" + Group(whole, ',') + "." + two;
    CommasToX(whole, two);
    PointToComma(whole, two);
    XToPoints(whole, two);
  }

  lemma {:induction false} Swap(a: string, b: string, c: string, d: string, x: char, y: char)
    ensures Replace(a + b + c + d, x, y) == Replace(a, x, y) + Replace(b, x, y) + Replace(c, x, y) + Replace(d, x, y)
  {
    ReplaceConcat(a + b + c, d, x, y);
    ReplaceConcat(a + b, c, x, y);
    ReplaceConcat(a, b, x, y);
  }

  lemma {:induction false} DigitsValue(n: nat)
    ensures ValueOf(Digits(n)) == n
  {
    if n >= 10 {
      DigitsValue(n / 10);
      assert Digits(n)[..|Digits(n)| - 1] == Digits(n / 10);
    }
  }

  lemma {:induction false} CentsValue(cents: nat)
    ensures var two := [Digit(cents % 100 / 10), Digit(cents % 10)];
      ValueOf(Digits(cents / 100) + two) == cents
  {
    var whole, hi, lo := Digits(cents / 100), Digit(cents % 100 / 10), Digit(cents % 10);
    var all := whole + [hi, lo];
    assert all[..|all| - 1] == whole + [hi];
    assert (whole + [hi])[..|whole|] == whole;
    DigitsValue(cents / 100);
    assert cents % 10 == cents % 100 % 10;
  }

  lemma {:induction false} Ungroup(whole: string, two: string)
    requires AllDigits(whole) && AllDigits(two)
    ensures Remove(Group(whole, '.') + "," + two, '.') == whole + "," + two
  {
    NoNonDigit(whole, '.'); NoNonDigit(two, '.');
    RemoveConcat(Group(whole, '.') + ",", two, '.');
    RemoveConcat(Group(whole, '.'), ",", '.');
    Flatten(whole, '.');
    Absent(two, '.', '.'); Absent(",", '.', '.');
  }

  lemma {:induction false} CommaToPoint(whole: string, two: string)
    requires AllDigits(whole) && AllDigits(two)
    ensures Replace(whole + "," + two, ',', '.') == whole + "." + two
  {
    NoNonDigit(whole, ','); NoNonDigit(two, ',');
    ReplaceConcat(whole + ",", two, ',', '.');
    ReplaceConcat(whole, ",", ',', '.');
    Absent(whole, ',', '.'); Absent(two, ',', '.');
    assert Replace(",", ',', '.') == ".";
  }

  /** Both parsers end up with the plain digits, a point and the two cent digits. */
  lemma {:induction false} ReadBack(cents: nat)
    ensures var two := [Digit(cents % 100 / 10), Digit(cents % 10)];
      var shown := Group(Digits(cents / 100), '.') + "," + two;
      ParseFloat(Replace(Remove(shown, '.'), ',', '.')) == Some(Decimal(cents, 2))
  {
    var whole, two := Digits(cents / 100), [Digit(cents % 100 / 10), Digit(cents % 10)];
    Ungroup(whole, two);
    CommaToPoint(whole, two);
    var plain := whole + "." + two;
    NoNonDigit(whole, '.');
    FindAt(plain, '.', |whole|, 0);
    assert plain[..|whole|] == whole && plain[|whole| + 1..] == two;
    CentsValue(cents);
  }

  lemma {:induction false} FindAt(s: string, c: char, k: nat, i: nat)
    requires i <= k < |s| && s[k] == c && forall j :: i <= j < k ==> s[j] != c
    ensures Find(s, c, i) == k
    decreases k - i
  {
  }

  function Shown(cents: nat): string {
    Group(Digits(cents / 100), '.') + "," + [Digit(cents % 100 / 10), Digit(cents % 10)]
  }

  lemma {:induction false} ShownChars(cents: nat)
    ensures ',' in Shown(cents) && IsDigit(Shown(cents)[|Shown(cents)| - 1])
    ensures forall c :: c in Shown(cents) ==> IsDigit(c) || c in {'.', ','}
  {
    var whole := Group(Digits(cents / 100), '.');
    GroupChars(Digits(cents / 100), '.');
    assert Shown(cents)[|whole|] == ',';
  }

  lemma {:induction false} StripKeeps(t: string)
    requires t != "" && t[0] !in {' ', '\t', '\n', '\r'} && t[|t| - 1] !in {' ', '\t', '\n', '\r'}
    ensures Strip(t) == t
  {
  }

  /** A text of digits and separators survives stripping, and the removal of sign and blanks. */
  lemma {:induction false} PlainText(shown: string)
    requires shown != "" && IsDigit(shown[|shown| - 1]) && forall c :: c in shown ==> IsDigit(c) || c in {'.', ','}
    ensures Strip(shown) == shown && Strip("R$" + shown) == "R$" + shown
    ensures RemoveSign("R$" + shown) == shown && Remove(shown, ' ') == shown
  {
    assert shown[0] in shown;
    StripKeeps(shown);
    StripKeeps("R$" + shown);
    assert ("R$" + shown)[2..] == shown;
    NoSign(shown);
    Absent(shown, ' ', ' ');
  }

  /** Printing an amount and reading it with the order parser gives the amount, for every
      number of cents and so for any number of thousands groups. */
  lemma {:induction false} OrderValueRoundTrip(cents: nat)
    ensures ParseOrderValue(FormatCurrencyBrl(cents)) == Some(Decimal(cents, 2))
  {
    FormatShape(cents);
    assert FormatCurrencyBrl(cents) == "R$" + Shown(cents);
    ShownChars(cents);
    PlainText(Shown(cents));
    ReadBack(cents);
  }

  /** The catalogue parser reads the same text without the currency sign. */
  lemma {:induction false} CatalogRoundTrip(cents: nat)
    ensures "R$" <= FormatCurrencyBrl(cents)
    ensures ToFloatBrl(FormatCurrencyBrl(cents)[2..]) == Decimal(cents, 2)
  {
    FormatShape(cents);
    assert FormatCurrencyBrl(cents) == "R$" + Shown(cents);
    assert FormatCurrencyBrl(cents)[2..] == Shown(cents);
    ShownChars(cents);
    PlainText(Shown(cents));
    ReadBack(cents);
  }

  /** No two amounts are printed alike. */
  lemma {:induction false} FormatInjective(a: nat, b: nat)
    requires FormatCurrencyBrl(a) == FormatCurrencyBrl(b)
    ensures a == b
  {
    OrderValueRoundTrip(a);
    OrderValueRoundTrip(b);
  }
}
