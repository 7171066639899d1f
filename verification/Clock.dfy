/** Clock times as `HH:MM` strings (app/services/encomendas_utils.py, `_parse_hora`), and the
    string order that Python and SQL compare them by. */
module Clock {

  import opened Wrappers

  predicate IsDigit(c: char) {
    '0' <= c <= '9'
  }

  function Val(c: char): nat
    requires IsDigit(c)
  {
    c as int - '0' as int
  }

  function Digit(n: nat): (c: char)
    requires n < 10
    ensures IsDigit(c) && Val(c) == n
  {
    ('0' as int + n) as char
  }

  predicate AllDigits(s: string) {
    forall i :: 0 <= i < |s| ==> IsDigit(s[i])
  }

  function Strip(s: string): string {
    if s != "" && s[0] in {' ', '\t', '\n', '\r'} then Strip(s[1..])
    else if s != "" && s[|s| - 1] in {' ', '\t', '\n', '\r'} then Strip(s[..|s| - 1])
    else s
  }

  function Lower(s: string): string {
    seq(|s|, i requires 0 <= i < |s| => if 'A' <= s[i] <= 'Z' then (s[i] as int + 32) as char else s[i])
  }

  /** `f"{h:02d}:{m:02d}"` */
  function Format(h: nat, m: nat): (t: string)
    requires h < 24 && m < 60
    ensures IsClock(t) && Minutes(t) == 60 * h + m
  {
    [Digit(h / 10), Digit(h % 10), ':', Digit(m / 10), Digit(m % 10)]
  }

  predicate IsClock(t: string) {
    && |t| == 5 && t[2] == ':' && IsDigit(t[0]) && IsDigit(t[1]) && IsDigit(t[3]) && IsDigit(t[4])
    && 10 * Val(t[0]) + Val(t[1]) < 24 && Val(t[3]) < 6
  }

  /** A canonical time of day. */
  type Time = t: string | IsClock(t) witness "00:00"

  function Minutes(t: string): nat
    requires IsClock(t)
  {
    60 * (10 * Val(t[0]) + Val(t[1])) + 10 * Val(t[3]) + Val(t[4])
  }

  /** One or two digits as a number. */
  function Number(s: string): nat
    requires 1 <= |s| <= 2 && AllDigits(s)
  {
    if |s| == 1 then Val(s[0]) else 10 * Val(s[0]) + Val(s[1])
  }

  function HourMinute(hour: string, minute: string, minMinuteDigits: nat): Option<Time> {
    if 1 <= |hour| <= 2 && AllDigits(hour) && minMinuteDigits <= |minute| && 1 <= |minute| <= 2 && AllDigits(minute)
       && Number(hour) <= 23 && Number(minute) <= 59
    then Some(Format(Number(hour), Number(minute)))
    else None
  }

  function Find(s: string, c: char, i: nat): (k: nat)
    requires i <= |s|
    ensures i <= k <= |s| && (k < |s| ==> s[k] == c) && forall j :: i <= j < k ==> s[j] != c
    decreases |s| - i
  {
    if i == |s| || s[i] == c then i else Find(s, c, i + 1)
  }

  /** '11', '11h', '11h30', '1130' and '11:30'; a form whose numbers are out of range gives way
      to the next one. */
  function ParseHora(txt: string): Option<Time> {
    var t := Lower(Strip(txt));
    var h := Find(t, 'h', 0);
    var colon := Find(t, ':', 0);
    var wholeHour := HourMinute(if h == |t| - 1 then t[..h] else t, "00", 2);
    if txt == "" then None
    else if wholeHour.Some? then wholeHour
    else if h < |t| && HourMinute(t[..h], t[h + 1..], 2).Some? then HourMinute(t[..h], t[h + 1..], 2)
    else if |t| in {3, 4} && HourMinute(t[..|t| - 2], t[|t| - 2..], 2).Some? then
      HourMinute(t[..|t| - 2], t[|t| - 2..], 2)
    else if colon < |t| then HourMinute(t[..colon], t[colon + 1..], 1)
    else None
  }

  /** Lexicographic order from position `i` on. */
  predicate StrLe(a: string, b: string, i: nat)
    requires i <= |a| && i <= |b|
    decreases |a| - i
  {
    i == |a| || (i < |b| && (a[i] < b[i] || (a[i] == b[i] && StrLe(a, b, i + 1))))
  }

  predicate Leq(a: string, b: string) {
    StrLe(a, b, 0)
  }

  /** Comparing canonical times as strings is comparing them by the minute. */
  lemma {:induction false} ClockOrder(a: string, b: string)
    requires IsClock(a) && IsClock(b)
    ensures Leq(a, b) <==> Minutes(a) <= Minutes(b)
  {
    assert StrLe(a, b, 4) <==> Val(a[4]) <= Val(b[4]);
    assert StrLe(a, b, 3) <==> 10 * Val(a[3]) + Val(a[4]) <= 10 * Val(b[3]) + Val(b[4]);
    assert StrLe(a, b, 2) == StrLe(a, b, 3);
    assert StrLe(a, b, 0) <==> a[0] < b[0] || (a[0] == b[0] && (a[1] < b[1] || (a[1] == b[1] && StrLe(a, b, 2))));
  }

  /** A parsed time parses to itself, so normalising twice changes nothing. */
  lemma {:induction false} ParseStable(t: string)
    requires IsClock(t)
    ensures ParseHora(t) == Some(t)
  {
    assert Strip(t) == t;
    assert Lower(t) == t;
    assert Find(t, 'h', 0) == 5;
    assert Find(t, ':', 0) == 2;
    assert !IsDigit(t[2]);
    assert t[..2] == [t[0], t[1]] && t[3..] == [t[3], t[4]];
    FormatParts(t);
  }

  lemma {:induction false} DigitsStand(t: string)
    requires t != "" && IsDigit(t[0]) && (IsDigit(t[|t| - 1]) || t[|t| - 1] == 'h')
    requires forall i :: 0 <= i < |t| ==> IsDigit(t[i]) || t[i] == 'h' || t[i] == ':'
    ensures Strip(t) == t && Lower(t) == t
  {
  }

  lemma {:induction false} FoundAt(t: string, c: char, k: nat, i: nat)
    requires i <= k <= |t| && (forall j :: i <= j < k ==> t[j] != c) && (k < |t| ==> t[k] == c)
    ensures Find(t, c, i) == k
    decreases k - i
  {
  }

  /** The hour alone, with or without the letter. */
  lemma {:induction false} WholeHourRead(h: string)
    requires 1 <= |h| <= 2 && AllDigits(h) && Number(h) <= 23
    ensures ParseHora(h) == Some(Format(Number(h), 0)) && ParseHora(h + "h") == Some(Format(Number(h), 0))
  {
    DigitsStand(h);
    DigitsStand(h + "h");
    FoundAt(h, 'h', |h|, 0);
    FoundAt(h + "h", 'h', |h|, 0);
    assert (h + "h")[..|h|] == h;
    assert Number("00") == 0;
  }

  /** Hour and two minute digits, with the letter, a colon or nothing between them. */
  lemma {:induction false} HourMinuteRead(h: string, m: string)
    requires 1 <= |h| <= 2 && AllDigits(h) && Number(h) <= 23
    requires |m| == 2 && AllDigits(m) && Number(m) <= 59
    ensures ParseHora(h + "h" + m) == Some(Format(Number(h), Number(m)))
    ensures ParseHora(h + m) == Some(Format(Number(h), Number(m)))
    ensures ParseHora(h + ":" + m) == Some(Format(Number(h), Number(m)))
  {
    WithLetter(h, m);
    WithNothing(h, m);
    WithColon(h, m);
  }

  lemma {:induction false} Parts(h: string, c: char, m: string)
    requires h != "" && m != "" && AllDigits(h) && AllDigits(m) && c in {'h', ':'}
    ensures var t := h + [c] + m;
      && Strip(t) == t && Lower(t) == t && Find(t, c, 0) == |h| && (c == ':' ==> Find(t, 'h', 0) == |t|)
      && t[|h|] == c && t[..|h|] == h && t[|h| + 1..] == m
  {
    var t := h + [c] + m;
    assert t[0] == h[0] && t[|t| - 1] == m[|m| - 1];
    DigitsStand(t);
    FoundAt(t, c, |h|, 0);
    if c == ':' { FoundAt(t, 'h', |t|, 0); }
  }

  lemma {:induction false} WithLetter(h: string, m: string)
    requires 1 <= |h| <= 2 && AllDigits(h) && Number(h) <= 23
    requires |m| == 2 && AllDigits(m) && Number(m) <= 59
    ensures ParseHora(h + "h" + m) == Some(Format(Number(h), Number(m)))
  {
    Parts(h, 'h', m);
    assert !IsDigit('h');
  }

  lemma {:induction false} WithNothing(h: string, m: string)
    requires 1 <= |h| <= 2 && AllDigits(h) && Number(h) <= 23
    requires |m| == 2 && AllDigits(m) && Number(m) <= 59
    ensures ParseHora(h + m) == Some(Format(Number(h), Number(m)))
  {
    var t := h + m;
    DigitsStand(t);
    FoundAt(t, 'h', |t|, 0);
    assert t[..|t| - 2] == h && t[|t| - 2..] == m;
  }

  lemma {:induction false} WithColon(h: string, m: string)
    requires 1 <= |h| <= 2 && AllDigits(h) && Number(h) <= 23
    requires |m| == 2 && AllDigits(m) && Number(m) <= 59
    ensures ParseHora(h + ":" + m) == Some(Format(Number(h), Number(m)))
  {
    Parts(h, ':', m);
    var t := h + ":" + m;
    assert !IsDigit(t[|h|]);
    assert |t| == 4 ==> t[..2][1] == ':';
  }

  /** After a colon one minute digit is enough. */
  lemma {:induction false} WithColonAndDigit(h: string, m: string)
    requires 1 <= |h| <= 2 && AllDigits(h) && Number(h) <= 23
    requires |m| == 1 && AllDigits(m)
    ensures ParseHora(h + ":" + m) == Some(Format(Number(h), Number(m)))
  {
    Parts(h, ':', m);
    var t := h + ":" + m;
    assert !IsDigit(t[|h|]);
    assert t[|t| - 2..][0] == ':';
  }

  /** The text of a time with an hour and, when it is not left out, minutes: "11", "11h", "11h30",
      "1130", "11:30", and "11:5" for five past. */
  ghost predicate Writes(t: string, h: string, m: string) {
    && 1 <= |h| <= 2 && AllDigits(h) && Number(h) <= 23
    && (m == "" || (|m| <= 2 && AllDigits(m) && Number(m) <= 59))
    && (if m == "" then t == h || t == h + "h"
        else t == h + ":" + m || (|m| == 2 && (t == h + "h" + m || t == h + m)))
  }

  lemma {:induction false} LowerTwice(txt: string)
    ensures Strip(Lower(Strip(txt))) == Lower(Strip(txt)) && Lower(Lower(Strip(txt))) == Lower(Strip(txt))
  {
    StripEnds(txt);
    var t := Lower(Strip(txt));
    assert t != "" ==> t[0] !in {' ', '\t', '\n', '\r'} && t[|t| - 1] !in {' ', '\t', '\n', '\r'};
  }

  /** What is stripped begins and ends with something else than a blank. */
  lemma {:induction false} StripEnds(s: string)
    ensures var t := Strip(s);
      t != "" ==> t[0] !in {' ', '\t', '\n', '\r'} && t[|t| - 1] !in {' ', '\t', '\n', '\r'}
    decreases |s|
  {
    if s != "" && s[0] in {' ', '\t', '\n', '\r'} {
      StripEnds(s[1..]);
    } else if s != "" && s[|s| - 1] in {' ', '\t', '\n', '\r'} {
      StripEnds(s[..|s| - 1]);
    }
  }

  lemma {:induction false} WritesHour(t: string, h: string)
    requires HourMinute(h, "00", 2).Some? && (t == h || t == h + "h")
    ensures Writes(t, h, "") && HourMinute(h, "00", 2) == Some(Format(Number(h), 0))
  {
    assert Number("00") == 0;
  }

  lemma {:induction false} WritesMinutes(t: string, h: string, m: string, k: nat)
    requires HourMinute(h, m, k).Some? && k > 0
    requires t == h + ":" + m || (k == 2 && (t == h + "h" + m || t == h + m))
    ensures Writes(t, h, m) && m != "" && HourMinute(h, m, k) == Some(Format(Number(h), Number(m)))
  {
  }

  lemma {:induction false} Around(t: string, c: char, k: nat)
    requires k < |t| && t[k] == c
    ensures t == t[..k] + [c] + t[k + 1..]
  {
  }

  predicate LetterRead(t: string) {
    var letter := Find(t, 'h', 0);
    letter < |t| && HourMinute(t[..letter], t[letter + 1..], 2).Some?
  }

  predicate PlainRead(t: string) {
    |t| in {3, 4} && HourMinute(t[..|t| - 2], t[|t| - 2..], 2).Some?
  }

  lemma {:induction false} LetterWrites(t: string) returns (h: string, m: string)
    requires LetterRead(t)
    ensures var letter := Find(t, 'h', 0); h == t[..letter] && m == t[letter + 1..]
    ensures Writes(t, h, m) && m != "" && HourMinute(h, m, 2) == Some(Format(Number(h), Number(m)))
  {
    var letter := Find(t, 'h', 0);
    h, m := t[..letter], t[letter + 1..];
    Around(t, 'h', letter);
    WritesMinutes(t, h, m, 2);
  }

  lemma {:induction false} PlainWrites(t: string) returns (h: string, m: string)
    requires PlainRead(t)
    ensures h == t[..|t| - 2] && m == t[|t| - 2..]
    ensures Writes(t, h, m) && m != "" && HourMinute(h, m, 2) == Some(Format(Number(h), Number(m)))
  {
    h, m := t[..|t| - 2], t[|t| - 2..];
    WritesMinutes(t, h, m, 2);
  }

  lemma {:induction false} ColonWrites(t: string) returns (h: string, m: string)
    requires var colon := Find(t, ':', 0); colon < |t| && HourMinute(t[..colon], t[colon + 1..], 1).Some?
    ensures var colon := Find(t, ':', 0); h == t[..colon] && m == t[colon + 1..]
    ensures Writes(t, h, m) && m != "" && HourMinute(h, m, 1) == Some(Format(Number(h), Number(m)))
  {
    var colon := Find(t, ':', 0);
    h, m := t[..colon], t[colon + 1..];
    Around(t, ':', colon);
    WritesMinutes(t, h, m, 1);
  }

  /** The text before a closing letter, or all of it. */
  function HourText(t: string): string {
    var letter := Find(t, 'h', 0);
    if letter == |t| - 1 then t[..letter] else t
  }

  ghost predicate ReadsAs(t: string, r: Time) {
    var (letter, colon) := (Find(t, 'h', 0), Find(t, ':', 0));
    if HourMinute(HourText(t), "00", 2).Some? then Some(r) == HourMinute(HourText(t), "00", 2)
    else if LetterRead(t) then Some(r) == HourMinute(t[..letter], t[letter + 1..], 2)
    else if PlainRead(t) then Some(r) == HourMinute(t[..|t| - 2], t[|t| - 2..], 2)
    else colon < |t| && Some(r) == HourMinute(t[..colon], t[colon + 1..], 1)
  }

  lemma {:induction false} ParsedReads(txt: string)
    requires ParseHora(txt).Some?
    ensures ReadsAs(Lower(Strip(txt)), ParseHora(txt).value)
  {
  }

  lemma {:induction false} ReadWrites(t: string, r: Time) returns (h: string, m: string)
    requires ReadsAs(t, r)
    ensures Writes(t, h, m) && r == Format(Number(h), if m == "" then 0 else Number(m))
  {
    if HourMinute(HourText(t), "00", 2).Some? {
      h, m := HourText(t), "";
      WritesHour(t, h);
    } else if LetterRead(t) {
      h, m := LetterWrites(t);
    } else if PlainRead(t) {
      h, m := PlainWrites(t);
    } else {
      h, m := ColonWrites(t);
    }
  }

  /** Nothing but one of those forms is read. */
  lemma {:induction false} OnlyTimesRead(txt: string) returns (h: string, m: string)
    requires ParseHora(txt).Some?
    ensures Writes(Lower(Strip(txt)), h, m)
    ensures ParseHora(txt) == Some(Format(Number(h), if m == "" then 0 else Number(m)))
  {
    ParsedReads(txt);
    h, m := ReadWrites(Lower(Strip(txt)), ParseHora(txt).value);
  }

  /** Every one of those forms is read, whatever the case of its letters and the blanks around. */
  lemma {:induction false} EveryTimeRead(txt: string, h: string, m: string)
    requires Writes(Lower(Strip(txt)), h, m)
    ensures ParseHora(txt) == Some(Format(Number(h), if m == "" then 0 else Number(m)))
  {
    LowerTwice(txt);
    SameReading(txt, Lower(Strip(txt)));
    FormsRead(Lower(Strip(txt)), h, m);
  }

  lemma {:induction false} SameReading(a: string, b: string)
    requires a != "" && b != "" && Lower(Strip(a)) == Lower(Strip(b))
    ensures ParseHora(a) == ParseHora(b)
  {
  }

  lemma {:induction false} FormsRead(t: string, h: string, m: string)
    requires Writes(t, h, m)
    ensures ParseHora(t) == Some(Format(Number(h), if m == "" then 0 else Number(m)))
  {
    if m == "" {
      WholeHourRead(h);
    } else {
      if |m| == 1 { WithColonAndDigit(h, m); } else { HourMinuteRead(h, m); }
    }
  }

  lemma {:induction false} FormatParts(t: string)
    requires IsClock(t)
    ensures Format(10 * Val(t[0]) + Val(t[1]), 10 * Val(t[3]) + Val(t[4])) == t
  {
  }

  const DELIVERY_CUTOFF := "17:30"

  /** Deliveries are possible at a readable time up to the cutoff, inclusive. */
  function HorarioEntregaPermitido(txt: string): (ok: bool)
    ensures ok <==> ParseHora(txt).Some? && Minutes(ParseHora(txt).value) <= 17 * 60 + 30
  {
    assert IsClock(DELIVERY_CUTOFF) && Minutes(DELIVERY_CUTOFF) == 17 * 60 + 30;
    match ParseHora(txt)
    case None => false
    case Some(hora) => ClockOrder(hora, DELIVERY_CUTOFF); Leq(hora, DELIVERY_CUTOFF)
  }
}
