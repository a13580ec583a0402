/** Unix milliseconds as RFC 3339 text (records.rs `rfc3339`), and back. */
module Timestamps {
  import opened Kube
  import opened Calendar
  import opened Decimals

  type U64 = n: nat | n <= 0xFFFF_FFFF_FFFF_FFFF

  /** The first instant of year 10000. */
  const YEAR_10000: nat := 253_402_300_800_000

  // ---- numbers in a fixed number of digits ------------------------------------------------------------------

  function Power(width: nat): nat
    ensures Power(width) > 0
  {
    if width == 0 then 1 else 10 * Power(width - 1)
  }

  /** `{n:0width}`: at least `width` digits. */
  function Padded(n: nat, width: nat): string {
    var digits := Decimal(n);
    if |digits| >= width then digits else Zeros(width - |digits|) + digits
  }

  function Zeros(n: nat): (zeros: string)
    ensures |zeros| == n
  {
    if n == 0 then "" else "0" + Zeros(n - 1)
  }

  /** Exactly `width` digits. */
  function Fixed(n: nat, width: nat): (digits: string)
    ensures |digits| == width
  {
    if width == 0 then "" else Fixed(n / 10, width - 1) + [Digit(n % 10)]
  }

  lemma {:induction false} FixedZero(width: nat)
    ensures Fixed(0, width) == Zeros(width)
    decreases width
  {
    if width > 0 {
      FixedZero(width - 1);
      ZerosEnd(width);
    }
  }

  lemma {:induction false} ZerosEnd(n: nat)
    requires n > 0
    ensures Zeros(n) == Zeros(n - 1) + "0"
  {
    if n > 1 { ZerosEnd(n - 1); }
  }

  /** Padding gives exactly `width` digits when the number fits, and more when it does not. */
  lemma {:induction false} PaddedIs(n: nat, width: nat)
    requires width > 0
    ensures n < Power(width) ==> Padded(n, width) == Fixed(n, width)
    ensures n >= Power(width) ==> |Padded(n, width)| > width
    decreases width
  {
    if n < 10 {
      if width > 1 { FixedZero(width - 1); }
      assert Fixed(n, width) == Fixed(0, width - 1) + [Digit(n)];
    } else if width > 1 {
      PaddedIs(n / 10, width - 1);
      assert n < Power(width) <==> n / 10 < Power(width - 1);
    }
  }

  lemma {:induction false} NumberOfFixed(n: nat, width: nat)
    requires n < Power(width)
    ensures AllDigits(Fixed(n, width)) && Number(Fixed(n, width)) == n
    decreases width
  {
    if width > 0 {
      NumberOfFixed(n / 10, width - 1);
      var digits := Fixed(n, width);
      assert digits[..|digits| - 1] == Fixed(n / 10, width - 1);
    }
  }

  lemma {:induction false} FixedOfNumber(digits: string)
    requires AllDigits(digits)
    ensures Number(digits) < Power(|digits|) && Fixed(Number(digits), |digits|) == digits
    decreases |digits|
  {
    if digits != "" { FixedOfNumber(digits[..|digits| - 1]); }
  }

  // ---- fields and separators --------------------------------------------------------------------------------

  /** The digits of the `i`-th field. */
  function Width(i: nat): nat {
    if i == 0 then 4 else if i == 6 then 3 else 2
  }

  /** What follows the `i`-th field. */
  function Separator(i: nat): char {
    if i < 2 then '-' else if i == 2 then 'T' else if i < 5 then ':' else if i == 5 then '.' else 'Z'
  }

  /** The last fields of a date-time, each followed by its separator. */
  function Rendered(values: seq<nat>): string
    requires |values| <= 7
  {
    if values == [] then ""
    else
      var i := 7 - |values|;
      Fixed(values[0], Width(i)) + ([Separator(i)] + Rendered(values[1..]))
  }

  /** The fields of `text`, if it is the last `count` fields of a date-time. */
  function Fields(text: string, count: nat): (fields: Option<seq<nat>>)
    requires count <= 7
    ensures fields.Some? ==> |fields.value| == count
    decreases count
  {
    if count == 0 then if text == "" then Some([]) else None
    else
      var width, separator := Width(7 - count), Separator(7 - count);
      if |text| <= width || text[width] != separator || !AllDigits(text[..width]) then None
      else
        var rest := Fields(text[width + 1..], count - 1);
        if rest.None? then None else Some([Number(text[..width])] + rest.value)
  }

  /** Every field fits its width. */
  predicate Fits(values: seq<nat>) {
    && |values| <= 7
    && (values == [] || (values[0] < Power(Width(7 - |values|)) && Fits(values[1..])))
  }

  lemma {:induction false} FieldsOfRendered(values: seq<nat>)
    requires Fits(values)
    ensures Fields(Rendered(values), |values|) == Some(values)
    decreases |values|
  {
    hide Power, Number, AllDigits, Fixed, Width, Separator;
    if values != [] {
      var width, text := Width(7 - |values|), Rendered(values);
      NumberOfFixed(values[0], width);
      assert text[..width] == Fixed(values[0], width);
      assert text[width + 1..] == Rendered(values[1..]);
      FieldsOfRendered(values[1..]);
      assert [values[0]] + values[1..] == values;
    }
  }

  lemma RenderedCons(value: nat, more: seq<nat>)
    requires |more| < 7
    ensures Rendered([value] + more) ==
      Fixed(value, Width(6 - |more|)) + ([Separator(6 - |more|)] + Rendered(more))
    ensures Fits([value] + more) <==> value < Power(Width(6 - |more|)) && Fits(more)
  {
    hide Fixed, Width, Separator, Power;
    assert ([value] + more)[1..] == more;
  }

  lemma FieldsCons(text: string, count: nat)
    requires 0 < count <= 7 && Fields(text, count).Some?
    ensures var width := Width(7 - count);
      && |text| > width && text[width] == Separator(7 - count) && AllDigits(text[..width])
      && Fields(text[width + 1..], count - 1).Some?
      && Fields(text, count).value == [Number(text[..width])] + Fields(text[width + 1..], count - 1).value
  {
    hide Width, Separator, AllDigits, Number;
  }

  lemma {:induction false} RenderedOfFields(text: string, count: nat)
    requires count <= 7 && Fields(text, count).Some?
    ensures Fits(Fields(text, count).value) && Rendered(Fields(text, count).value) == text
    decreases count
  {
    hide Fields, Rendered, Fits, Power, Number, AllDigits, Fixed, Width, Separator;
    if count > 0 {
      FieldsCons(text, count);
      var width := Width(7 - count);
      var head, rest := text[..width], text[width + 1..];
      RenderedOfFields(rest, count - 1);
      RenderedCons(Number(head), Fields(rest, count - 1).value);
      FixedOfNumber(head);
      assert text == head + ([text[width]] + rest);
    } else {
      NoFields(text);
    }
  }

  lemma NoFields(text: string)
    requires Fields(text, 0).Some?
    ensures text == "" && Fields(text, 0).value == [] && Fits([]) && Rendered([]) == ""
  {
  }

  lemma {:induction false} RenderedLength(values: seq<nat>)
    requires |values| <= 7
    ensures |Rendered(values)| == Span(7 - |values|)
    decreases |values|
  {
    if values != [] { RenderedLength(values[1..]); }
  }

  /** How many characters the fields from the `i`-th on take, with their separators. */
  function Span(i: nat): nat
    requires i <= 7
    decreases 7 - i
  {
    if i == 7 then 0 else Width(i) + 1 + Span(i + 1)
  }

  // ---- instants ---------------------------------------------------------------------------------------------

  /** The fallback for seconds past `i64` is never taken. */
  function Seconds(unixMillis: U64): (seconds: int)
    ensures seconds == unixMillis / 1000
  {
    if unixMillis / 1000 <= I64_MAX then unixMillis / 1000 else I64_MAX
  }

  /** Year, month, day, hour, minute, second and millisecond of an instant. */
  function Parts(unixMillis: U64): (parts: seq<nat>)
    ensures |parts| == 7
  {
    var seconds := Seconds(unixMillis);
    var date := CivilFromDays(seconds / 86_400);
    var time := seconds % 86_400;
    Since1970(seconds / 86_400);
    [date.year, date.month, date.day, time / 3600, time % 3600 / 60, time % 60, unixMillis % 1000]
  }

  function Rfc3339(unixMillis: U64): string {
    var parts := Parts(unixMillis);
    Padded(parts[0], 4) + ("-" + (Padded(parts[1], 2) + ("-" + (Padded(parts[2], 2) + ("T"
    + (Padded(parts[3], 2) + (":" + (Padded(parts[4], 2) + (":" + (Padded(parts[5], 2) + ("."
    + (Padded(parts[6], 3) + "Z"))))))))))))
  }

  lemma Since1970(days: I64)
    requires 0 <= days <= I64_MAX - 719_468
    ensures IsDate(CivilFromDays(days)) && CivilFromDays(days).year >= 1970
    ensures CivilFromDays(days).year < 10_000 <==> days < 2_932_897
  {
    hide CivilFromDays, DayNumber, Leap;
    CivilIsExact(days);
    var date, epoch, late := CivilFromDays(days), Date(1970, 1, 1), Date(10_000, 1, 1);
    assert IsDate(epoch) && IsDate(late);
    assert DayNumber(epoch) == 0 && DayNumber(late) == 2_932_897 by { Anchors(); }
    if date.year < 1970 { NumbersGrow(date, epoch); }
    if date.year < 10_000 { NumbersGrow(date, late); } else if date != late { NumbersGrow(late, date); }
  }

  lemma Anchors()
    ensures DayNumber(Date(1970, 1, 1)) == 0 && DayNumber(Date(10_000, 1, 1)) == 2_932_897
  {
    YearForm(10_000);
  }

  /** The instant a list of fields names. */
  function Instant(values: seq<nat>): Option<nat> {
    if |values| != 7 then None
    else
      var date := Date(values[0], values[1], values[2]);
      if !IsDate(date) || DayNumber(date) < 0
         || values[3] >= 24 || values[4] >= 60 || values[5] >= 60 || values[6] >= 1000
      then None
      else Some((DayNumber(date) * 86_400 + values[3] * 3600 + values[4] * 60 + values[5]) * 1000 + values[6])
  }

  /** The instant a text names, read by the grammar of section 5.6 of RFC 3339 with three digits of
      fraction and `Z`, from 1970 on. */
  function Parse(text: string): Option<nat> {
    var fields := Fields(text, 7);
    if fields.None? then None else Instant(fields.value)
  }

  lemma TailFits(parts: seq<nat>)
    requires |parts| == 7 && parts[1] < 100 && parts[2] < 100 && parts[3] < 100 && parts[4] < 100
    requires parts[5] < 100 && parts[6] < 1000
    ensures Fits(parts[1..])
  {
    Powers();
    assert Fits(parts[7..]);
    assert parts[6..][1..] == parts[7..] && Fits(parts[6..]);
    assert parts[5..][1..] == parts[6..] && Fits(parts[5..]);
    assert parts[4..][1..] == parts[5..] && Fits(parts[4..]);
    assert parts[3..][1..] == parts[4..] && Fits(parts[3..]);
    assert parts[2..][1..] == parts[3..] && Fits(parts[2..]);
    assert parts[1..][1..] == parts[2..];
  }

  lemma InstantOfParts(unixMillis: U64)
    ensures Instant(Parts(unixMillis)) == Some(unixMillis)
    ensures Parts(unixMillis)[0] < 10_000 <==> unixMillis < YEAR_10000
    ensures Fits(Parts(unixMillis)[1..]) && (unixMillis < YEAR_10000 ==> Fits(Parts(unixMillis)))
  {
    hide CivilFromDays, DayNumber, Leap;
    var days := Seconds(unixMillis) / 86_400;
    CivilIsExact(days);
    Since1970(days);
    Powers();
    TailFits(Parts(unixMillis));
  }

  lemma Powers()
    ensures Power(2) == 100 && Power(3) == 1000 && Power(4) == 10_000
  {
  }

  lemma PartsOfInstant(values: seq<nat>)
    requires Fits(values) && Instant(values).Some?
    ensures Instant(values).value < YEAR_10000
    ensures Parts(Instant(values).value) == values
  {
    hide CivilFromDays, DayNumber, Leap;
    Powers();
    var date, millis := Date(values[0], values[1], values[2]), Instant(values).value;
    var late := Date(10_000, 1, 1);
    assert IsDate(late);
    assert values[0] < Power(Width(0));
    Anchors();
    NumbersGrow(date, late);
    Split(DayNumber(date), values[3], values[4], values[5], values[6]);
    CivilOfNumber(date);
  }

  lemma Split(days: nat, h: nat, m: nat, s: nat, ms: nat)
    requires h < 24 && m < 60 && s < 60 && ms < 1000
    ensures var millis := (days * 86_400 + h * 3600 + m * 60 + s) * 1000 + ms;
      && millis % 1000 == ms && millis / 1000 / 86_400 == days
      && millis / 1000 % 86_400 == h * 3600 + m * 60 + s
    ensures var time := h * 3600 + m * 60 + s; time / 3600 == h && time % 3600 / 60 == m && time % 60 == s
  {
    var seconds := days * 86_400 + h * 3600 + m * 60 + s;
    assert (seconds * 1000 + ms) / 1000 == seconds;
  }

  lemma RenderedNext(values: seq<nat>)
    requires Fits(values) && 0 < |values|
    ensures Fits(values[1..])
    ensures Rendered(values) ==
      Padded(values[0], Width(7 - |values|)) + ([Separator(7 - |values|)] + Rendered(values[1..]))
  {
    hide Padded, Power;
    PaddedIs(values[0], Width(7 - |values|));
  }

  /** Everything after the year has its exact width, whatever the instant. */
  lemma TailPrints(parts: seq<nat>)
    requires |parts| == 7 && Fits(parts[1..])
    ensures Rendered(parts[1..]) ==
      Padded(parts[1], 2) + ("-" + (Padded(parts[2], 2) + ("T"
      + (Padded(parts[3], 2) + (":" + (Padded(parts[4], 2) + (":" + (Padded(parts[5], 2) + ("."
      + (Padded(parts[6], 3) + "Z"))))))))))
  {
    hide Padded, Fits, Rendered;
    var rest := parts[1..];
    RenderedNext(rest);
    RenderedNext(rest[1..]);
    RenderedNext(rest[2..]);
    RenderedNext(rest[3..]);
    RenderedNext(rest[4..]);
    RenderedNext(rest[5..]);
    assert Rendered(rest[6..]) == "" by { RenderedLength(rest[6..]); }
    assert rest[1..][1..] == rest[2..] && rest[2..][1..] == rest[3..] && rest[3..][1..] == rest[4..]
        && rest[4..][1..] == rest[5..] && rest[5..][1..] == rest[6..];
    assert ['Z'] + "" == "Z";
  }

  /** Before year 10000 the text has exactly 24 characters, every field at its exact width; from then on
      it has more. */
  lemma Prints(unixMillis: U64)
    ensures unixMillis < YEAR_10000 ==> Rfc3339(unixMillis) == Rendered(Parts(unixMillis))
    ensures |Rfc3339(unixMillis)| == 24 <==> unixMillis < YEAR_10000
  {
    hide Parts, Padded, Instant;
    InstantOfParts(unixMillis);
    var parts := Parts(unixMillis);
    TailPrints(parts);
    Powers();
    PaddedIs(parts[0], 4);
    RenderedLength(parts[1..]);
    assert Rfc3339(unixMillis) == Padded(parts[0], 4) + ("-" + Rendered(parts[1..]));
  }

  // ---- main results -----------------------------------------------------------------------------------------

  /** Before year 10000, what is printed reads back as the same millisecond. */
  lemma ReadsBack(unixMillis: U64)
    requires unixMillis < YEAR_10000
    ensures Parse(Rfc3339(unixMillis)) == Some(unixMillis)
  {
    hide Parts, Rfc3339, Fields, Rendered, Instant, Fits;
    Prints(unixMillis);
    InstantOfParts(unixMillis);
    FieldsOfRendered(Parts(unixMillis));
  }

  /** And every text of the grammar is what is printed for the instant it names: the two are a bijection. */
  lemma PrintsBack(text: string)
    requires Parse(text).Some?
    ensures Parse(text).value < YEAR_10000 && Rfc3339(Parse(text).value) == text
  {
    hide Parts, Rfc3339, Fields, Rendered, Instant, Fits;
    RenderedOfFields(text, 7);
    PartsOfInstant(Fields(text, 7).value);
    Prints(Parse(text).value);
  }

  // ---- order ------------------------------------------------------------------------------------------------

  /** Text order, character by character. */
  predicate Less(a: string, b: string) {
    b != "" && (a == "" || a[0] < b[0] || (a[0] == b[0] && Less(a[1..], b[1..])))
  }

  lemma {:induction false} LessConcat(p: string, q: string, r: string, t: string)
    requires |p| == |q|
    ensures Less(p + r, q + t) <==> Less(p, q) || (p == q && Less(r, t))
    decreases |p|
  {
    if p == "" {
      assert p + r == r && q + t == t;
    } else {
      LessConcat(p[1..], q[1..], r, t);
      assert (p + r)[1..] == p[1..] + r && (q + t)[1..] == q[1..] + t;
      assert p == [p[0]] + p[1..] && q == [q[0]] + q[1..];
    }
  }

  lemma {:induction false} FixedOrder(a: nat, b: nat, width: nat)
    requires a < Power(width) && b < Power(width)
    ensures Less(Fixed(a, width), Fixed(b, width)) <==> a < b
    ensures Fixed(a, width) == Fixed(b, width) <==> a == b
    decreases width
  {
    if width > 0 {
      FixedOrder(a / 10, b / 10, width - 1);
      LessConcat(Fixed(a / 10, width - 1), Fixed(b / 10, width - 1), [Digit(a % 10)], [Digit(b % 10)]);
      NumberOfFixed(a, width);
      NumberOfFixed(b, width);
    }
  }

  /** Field order, field by field. */
  predicate Precedes(a: seq<nat>, b: seq<nat>)
    requires |a| == |b|
  {
    a != [] && (a[0] < b[0] || (a[0] == b[0] && Precedes(a[1..], b[1..])))
  }

  lemma {:induction false} RenderedOrder(a: seq<nat>, b: seq<nat>)
    requires |a| == |b| && Fits(a) && Fits(b)
    ensures Less(Rendered(a), Rendered(b)) <==> Precedes(a, b)
    decreases |a|
  {
    hide Less, Power;
    if a != [] {
      var i := 7 - |a|;
      RenderedOrder(a[1..], b[1..]);
      FixedOrder(a[0], b[0], Width(i));
      LessConcat(Fixed(a[0], Width(i)), Fixed(b[0], Width(i)),
                 [Separator(i)] + Rendered(a[1..]), [Separator(i)] + Rendered(b[1..]));
      LessConcat([Separator(i)], [Separator(i)], Rendered(a[1..]), Rendered(b[1..]));
      assert !Less([Separator(i)], [Separator(i)]) by { NotLess([Separator(i)]); }
    } else {
      assert !Less("", "") by { NotLess(""); }
    }
  }

  lemma {:induction false} NotLess(a: string)
    ensures !Less(a, a)
  {
    if a != "" { NotLess(a[1..]); }
  }

  lemma PartsGrow(a: U64, b: U64)
    requires a < b
    ensures Precedes(Parts(a), Parts(b))
  {
    hide CivilFromDays, DayNumber, Leap;
    var p, q := Parts(a), Parts(b);
    var x, y := Seconds(a) / 86_400, Seconds(b) / 86_400;
    Since1970(x);
    Since1970(y);
    CivilIsExact(x);
    CivilIsExact(y);
    var d, e := CivilFromDays(x), CivilFromDays(y);
    if x < y {
      if Before(e, d) { NumbersGrow(e, d); }
      Unfold(p, q, 0);
      Unfold(p, q, 1);
      Unfold(p, q, 2);
    } else {
      TimesGrow(Seconds(a) % 86_400, Seconds(b) % 86_400);
      Unfold(p, q, 0);
      Unfold(p, q, 1);
      Unfold(p, q, 2);
      Unfold(p, q, 3);
      Unfold(p, q, 4);
      Unfold(p, q, 5);
      Unfold(p, q, 6);
    }
  }

  lemma Unfold(p: seq<nat>, q: seq<nat>, i: nat)
    requires |p| == |q| && i < |p|
    ensures Precedes(p[i..], q[i..]) <==> p[i] < q[i] || (p[i] == q[i] && Precedes(p[i + 1..], q[i + 1..]))
    ensures p[0..] == p && q[0..] == q
  {
    assert p[i..][1..] == p[i + 1..] && q[i..][1..] == q[i + 1..];
  }

  lemma TimesGrow(s: nat, t: nat)
    requires s <= t < 86_400
    ensures s / 3600 <= t / 3600
    ensures s / 3600 == t / 3600 ==> s % 3600 / 60 <= t % 3600 / 60
    ensures s / 3600 == t / 3600 && s % 3600 / 60 == t % 3600 / 60 ==> s % 60 <= t % 60
    ensures s / 3600 == t / 3600 && s % 3600 / 60 == t % 3600 / 60 && s % 60 == t % 60 ==> s == t
  {
  }

  lemma {:induction false} NotBoth(p: seq<nat>, q: seq<nat>)
    requires |p| == |q| && Precedes(p, q)
    ensures !Precedes(q, p) && p != q
    decreases |p|
  {
    if p[0] == q[0] { NotBoth(p[1..], q[1..]); }
  }

  /** Before year 10000, text order is time order. */
  lemma TextOrderIsTimeOrder(a: U64, b: U64)
    requires a < YEAR_10000 && b < YEAR_10000
    ensures Less(Rfc3339(a), Rfc3339(b)) <==> a < b
  {
    hide Parts, Rfc3339, Rendered, Less, Instant, Fits;
    Prints(a);
    Prints(b);
    InstantOfParts(a);
    InstantOfParts(b);
    RenderedOrder(Parts(a), Parts(b));
    if a < b {
      PartsGrow(a, b);
    } else if b < a {
      PartsGrow(b, a);
      NotBoth(Parts(b), Parts(a));
    } else {
      if Precedes(Parts(a), Parts(b)) { NotBoth(Parts(a), Parts(b)); }
    }
  }
}
