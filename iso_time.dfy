/**
 * Naive date-times as Python's `datetime` holds them, ordered the way Python compares
 * them, written out by `isoformat()` and read back by (the part of) `fromisoformat()`
 * this model accepts.
 */
module IsoTime {
  import opened Wrappers
  import opened Text

  datatype NaiveDateTime = NaiveDateTime(
    year: int, month: int, day: int,
    hour: int, minute: int, second: int, microsecond: int)
  {
    /** The field ranges a Python `datetime` object always satisfies. */
    predicate Valid() {
      && 1 <= year <= 9999
      && 1 <= month <= 12
      && 1 <= day <= DaysInMonth(year, month)
      && 0 <= hour < 24
      && 0 <= minute < 60
      && 0 <= second < 60
      && 0 <= microsecond < 1000000
    }
  }

  /** A naive date-time value; every one that Python can hold. */
  type DateTime = d: NaiveDateTime | d.Valid() witness NaiveDateTime(1, 1, 1, 0, 0, 0, 0)

  predicate IsLeapYear(y: int) {
    y % 4 == 0 && (y % 100 != 0 || y % 400 == 0)
  }

  function DaysInMonth(y: int, m: int): int {
    if m == 2 then (if IsLeapYear(y) then 29 else 28)
    else if m == 4 || m == 6 || m == 9 || m == 11 then 30
    else 31
  }

  /** `datetime.min`. */
  const MinDateTime: DateTime := NaiveDateTime(1, 1, 1, 0, 0, 0, 0)

  /** `datetime.max`. */
  const MaxDateTime: DateTime := NaiveDateTime(9999, 12, 31, 23, 59, 59, 999999)

  /** `a < b`: Python compares naive date-times field by field, most significant first. */
  predicate Before(a: DateTime, b: DateTime) {
    if a.year != b.year then a.year < b.year
    else if a.month != b.month then a.month < b.month
    else if a.day != b.day then a.day < b.day
    else if a.hour != b.hour then a.hour < b.hour
    else if a.minute != b.minute then a.minute < b.minute
    else if a.second != b.second then a.second < b.second
    else a.microsecond < b.microsecond
  }

  /** The fields of a date-time, most significant first: the tuple Python compares. */
  function Fields(d: NaiveDateTime): seq<int> {
    [d.year, d.month, d.day, d.hour, d.minute, d.second, d.microsecond]
  }

  /** Lexicographic `<` on equally long sequences of numbers. */
  predicate LexLess(a: seq<int>, b: seq<int>)
    requires |a| == |b|
  {
    |a| > 0 && (a[0] < b[0] || (a[0] == b[0] && LexLess(a[1..], b[1..])))
  }

  /** One step of the lexicographic comparison from position `k` on. */
  lemma LexLessStep(x: seq<int>, y: seq<int>, k: nat)
    requires |x| == |y| && k < |x|
    ensures LexLess(x[k..], y[k..]) <==> x[k] < y[k] || (x[k] == y[k] && LexLess(x[k + 1..], y[k + 1..]))
  {
    assert x[k..][1..] == x[k + 1..];
    assert y[k..][1..] == y[k + 1..];
  }

  /** `Before` is the lexicographic order of the field tuples. */
  lemma BeforeIsLexicographic(a: DateTime, b: DateTime)
    ensures Before(a, b) <==> LexLess(Fields(a), Fields(b))
  {
    var x, y := Fields(a), Fields(b);
    assert !LexLess(x[7..], y[7..]);
    LexLessStep(x, y, 6);
    LexLessStep(x, y, 5);
    LexLessStep(x, y, 4);
    LexLessStep(x, y, 3);
    LexLessStep(x, y, 2);
    LexLessStep(x, y, 1);
    LexLessStep(x, y, 0);
    assert x[0..] == x && y[0..] == y;
  }

  /** `a <= b`. */
  predicate AtOrBefore(a: DateTime, b: DateTime) {
    !Before(b, a)
  }

  /** `<` on date-times is a strict total order. */
  lemma BeforeIsStrictTotalOrder()
    ensures forall a: DateTime :: !Before(a, a)
    ensures forall a: DateTime, b: DateTime, c: DateTime :: Before(a, b) && Before(b, c) ==> Before(a, c)
    ensures forall a: DateTime, b: DateTime :: a == b || Before(a, b) || Before(b, a)
  {
  }

  /** `datetime.min` is at or before every date-time and `datetime.max` at or after it. */
  lemma MinMaxBound(d: DateTime)
    ensures AtOrBefore(MinDateTime, d) && AtOrBefore(d, MaxDateTime)
    ensures Before(d, MaxDateTime) || d == MaxDateTime
  {
  }

  /** What stands before a number in an ISO 8601 layout. */
  datatype Lead =
    | Start            // nothing: the number opens the text
    | Mark(c: char)    // a fixed character such as `-`, `:` or `.`
    | DateTimeGap      // the date/time separator: written `T`, read as `T` or a space

  /** One slot of a layout: its lead, then a zero-padded number `width` digits wide. */
  datatype Slot = Slot(lead: Lead, width: nat)

  /** `YYYY-MM-DD`. */
  const DateShape: seq<Slot> := [Slot(Start, 4), Slot(Mark('-'), 2), Slot(Mark('-'), 2)]

  /** `YYYY-MM-DDTHH:MM:SS`. */
  const SecondsShape: seq<Slot> :=
    [Slot(Start, 4), Slot(Mark('-'), 2), Slot(Mark('-'), 2),
     Slot(DateTimeGap, 2), Slot(Mark(':'), 2), Slot(Mark(':'), 2)]

  /** `YYYY-MM-DDTHH:MM:SS.ffffff`. */
  const MicrosecondsShape: seq<Slot> :=
    [Slot(Start, 4), Slot(Mark('-'), 2), Slot(Mark('-'), 2),
     Slot(DateTimeGap, 2), Slot(Mark(':'), 2), Slot(Mark(':'), 2), Slot(Mark('.'), 6)]

  /** How many characters a layout spans. */
  function Width(layout: seq<Slot>): nat {
    if |layout| == 0 then 0
    else (if layout[0].lead.Start? then 0 else 1) + layout[0].width + Width(layout[1..])
  }

  /** `numbers` holds one number per slot of the layout, each fitting its slot's width. */
  predicate Fits(numbers: seq<nat>, layout: seq<Slot>) {
    |numbers| == |layout| && forall k :: 0 <= k < |layout| ==> numbers[k] < Pow10(layout[k].width)
  }

  /** The text of a lead as written. */
  function LeadText(lead: Lead): string {
    match lead
    case Start => ""
    case Mark(c) => [c]
    case DateTimeGap => "T"
  }

  /** Writes `numbers` out in the layout. */
  function Render(numbers: seq<nat>, layout: seq<Slot>): (s: string)
    requires Fits(numbers, layout)
    ensures |s| == Width(layout)
  {
    if |layout| == 0 then ""
    else LeadText(layout[0].lead) + PadDigits(numbers[0], layout[0].width) + Render(numbers[1..], layout[1..])
  }

  /** How many characters the lead takes at the head of `s`, when `s` opens with it. */
  function ReadLead(s: string, lead: Lead): Option<nat> {
    match lead
    case Start => Some(0)
    case Mark(c) => if |s| > 0 && s[0] == c then Some(1) else None
    case DateTimeGap => if |s| > 0 && (s[0] == 'T' || s[0] == ' ') then Some(1) else None
  }

  /** Reads `s` against the layout: the numbers it holds, or `None` when it does not match. */
  function Scan(s: string, layout: seq<Slot>): Option<seq<nat>> {
    if |layout| == 0 then (if |s| == 0 then Some([]) else None)
    else match ReadLead(s, layout[0].lead)
      case None => None
      case Some(skip) =>
        var w := layout[0].width;
        if |s| >= skip + w && AllDigits(s[skip..skip + w]) then
          match Scan(s[skip + w..], layout[1..])
          case None => None
          case Some(rest) => Some([DigitsValue(s[skip..skip + w])] + rest)
        else None
  }

  /** Reading back what a layout wrote gives the numbers written. */
  lemma {:induction false} ScanRender(numbers: seq<nat>, layout: seq<Slot>)
    requires Fits(numbers, layout)
    ensures Scan(Render(numbers, layout), layout) == Some(numbers)
  {
    if |layout| > 0 {
      var s := Render(numbers, layout);
      var lead, w := LeadText(layout[0].lead), layout[0].width;
      var skip := |lead|;
      assert ReadLead(s, layout[0].lead) == Some(skip);
      ScanRender(numbers[1..], layout[1..]);
      assert s[skip..skip + w] == PadDigits(numbers[0], w);
      assert s[skip + w..] == Render(numbers[1..], layout[1..]);
      PadDigitsValue(numbers[0], w);
      assert [numbers[0]] + numbers[1..] == numbers;
    }
  }

  /** The `k`-th number read, or zero when the text stopped before it. */
  function NumberAt(numbers: seq<nat>, k: nat): nat {
    if k < |numbers| then numbers[k] else 0
  }

  /**
   * The date-time whose fields, most significant first, are the numbers read (fields
   * the text left out are zero); `None` when they name no date-time (`ValueError`).
   */
  function FromNumbers(numbers: seq<nat>): Option<DateTime> {
    var d := NaiveDateTime(NumberAt(numbers, 0), NumberAt(numbers, 1), NumberAt(numbers, 2),
                           NumberAt(numbers, 3), NumberAt(numbers, 4), NumberAt(numbers, 5), NumberAt(numbers, 6));
    if d.Valid() then var t: DateTime := d; Some(t) else None
  }

  /** The layouts' widths, as the verifier computes them from the literals. */
  lemma ShapeWidths()
    ensures Width(DateShape) == 10 && Width(SecondsShape) == 19 && Width(MicrosecondsShape) == 26
    ensures Pow10(2) == 100 && Pow10(4) == 10000 && Pow10(6) == 1000000
  {
  }

  /** The layout `isoformat()` uses for `d`: with `.ffffff` only when the microseconds are not zero. */
  function IsoShape(d: DateTime): seq<Slot> {
    if d.microsecond == 0 then SecondsShape else MicrosecondsShape
  }

  /** The numbers `isoformat()` writes for `d`, with or without the microseconds. */
  function IsoNumbers(d: DateTime): (n: seq<nat>)
    ensures Fits(n, IsoShape(d))
  {
    ShapeWidths();
    var seconds := [d.year as nat, d.month as nat, d.day as nat, d.hour as nat, d.minute as nat, d.second as nat];
    if d.microsecond == 0 then seconds else seconds + [d.microsecond as nat]
  }

  /**
   * `d.isoformat()`: `YYYY-MM-DDTHH:MM:SS`, followed by `.ffffff` only when the
   * microseconds are not zero.
   */
  function FormatIso(d: DateTime): (s: string)
    ensures |s| == (if d.microsecond == 0 then 19 else 26)
  {
    ShapeWidths();
    Render(IsoNumbers(d), IsoShape(d))
  }

  /**
   * `datetime.fromisoformat(s)` restricted to naive values in the three shapes
   * `YYYY-MM-DD`, `YYYY-MM-DDTHH:MM:SS` and `YYYY-MM-DDTHH:MM:SS.ffffff`
   * (a space may stand for the `T`); `None` models the `ValueError`.
   */
  function ParseIso(s: string): (r: Option<DateTime>)
    ensures r.Some? ==> |s| == 10 || |s| == 19 || |s| == 26
  {
    if |s| != 10 && |s| != 19 && |s| != 26 then None
    else
      var shape := if |s| == 10 then DateShape else if |s| == 19 then SecondsShape else MicrosecondsShape;
      match Scan(s, shape)
      case None => None
      case Some(numbers) => FromNumbers(numbers)
  }

  /** What `isoformat()` writes, `fromisoformat()` reads back as the same date-time. */
  lemma ParseFormatRoundTrip(d: DateTime)
    ensures ParseIso(FormatIso(d)) == Some(d)
  {
    var numbers, shape := IsoNumbers(d), IsoShape(d);
    ShapeWidths();
    ScanRender(numbers, shape);
    assert |FormatIso(d)| == Width(shape);
    assert FromNumbers(numbers) == Some(d);
  }

  /** `isoformat()` never writes the empty string, so a stored mark is always truthy. */
  lemma FormatIsoNonEmpty(d: DateTime)
    ensures FormatIso(d) != ""
  {
  }
}
