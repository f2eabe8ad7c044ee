/** RFC 3339 timestamps with milliseconds: the hand-written formatter, its reader, and the per-thread cache. */
module Timestamp {
  import opened Wrappers
  import opened Digits
  import opened TextBuffers

  const I64_MIN: int := -0x8000_0000_0000_0000
  const TWO_64: int := 0x1_0000_0000_0000_0000

  /** The civil fields of an instant. A leap second shows as `millis` of 1000 or more. */
  datatype DateTime = DateTime(year: int, month: nat, day: nat, hour: nat, minute: nat, second: nat, millis: nat) {

    predicate Calendar() {
      && -262143 <= year <= 262142
      && 1 <= month <= 12 && 1 <= day <= 31 && hour < 24 && minute < 60 && second < 60 && millis < 2000
    }

    /** What the format of section 5.6 of RFC 3339 can express with three fraction digits. */
    predicate Expressible() {
      0 <= year <= 9999 && millis < 1000
    }
  }

  // ---------------------------------------------------------------- what the code writes

  function Signed(n: int): string {
    if n < 0 then "-" + Decimal(-n) else Decimal(n)
  }

  /** `as u64`. */
  function AsU64(n: int): nat
    requires -TWO_64 <= n < TWO_64
  {
    if n < 0 then n + TWO_64 else n
  }

  function DigitCount(n: nat): (k: nat)
    ensures 1 <= k <= 4
  {
    if n <= 9 then 1 else if n <= 99 then 2 else if n <= 999 then 3 else 4
  }

  function YearText(year: int): string
    requires -TWO_64 <= year < TWO_64
  {
    (if year < 1000 then Zeros(4 - DigitCount(AsU64(year))) else "") + Signed(year)
  }

  function TwoText(n: nat): string {
    (if n < 10 then "0" else "") + Decimal(n)
  }

  function MillisText(n: nat): string {
    (if n < 100 then "0" else "") + (if n < 10 then "0" else "") + Decimal(n)
  }

  function DateText(t: DateTime): string
    requires t.Calendar()
  {
    YearText(t.year) + "-" + TwoText(t.month) + "-" + TwoText(t.day)
  }

  function TimeText(t: DateTime): string {
    TwoText(t.hour) + ":" + TwoText(t.minute) + ":" + TwoText(t.second) + "." + MillisText(t.millis)
  }

  function Written(t: DateTime): string
    requires t.Calendar()
  {
    DateText(t) + "T" + TimeText(t) + "Z"
  }

  method WriteTwo(buf: TextBuffer, n: nat)
    modifies buf
    ensures buf.text == old(buf.text) + TwoText(n)
  {
    if n < 10 {
      buf.Push("0");
    }
    buf.Push(Decimal(n));
  }

  method WriteYear(buf: TextBuffer, year: int)
    requires -TWO_64 <= year < TWO_64
    modifies buf
    ensures buf.text == old(buf.text) + YearText(year)
  {
    if year < 1000 {
      var pad := 4 - DigitCount(AsU64(year));
      for i := 0 to pad
        invariant buf.text == old(buf.text) + Zeros(i)
      {
        buf.Push("0");
        assert Zeros(i + 1) == Zeros(i) + "0";
      }
    }
    buf.Push(Signed(year));
  }

  method WriteMillis(buf: TextBuffer, millis: nat)
    modifies buf
    ensures buf.text == old(buf.text) + MillisText(millis)
  {
    if millis < 100 {
      buf.Push("0");
    }
    if millis < 10 {
      buf.Push("0");
    }
    buf.Push(Decimal(millis));
  }

  method WriteDate(buf: TextBuffer, t: DateTime)
    requires t.Calendar()
    modifies buf
    ensures buf.text == old(buf.text) + DateText(t)
  {
    WriteYear(buf, t.year);
    buf.Push("-");
    WriteTwo(buf, t.month);
    buf.Push("-");
    WriteTwo(buf, t.day);
  }

  method WriteTime(buf: TextBuffer, t: DateTime)
    modifies buf
    ensures buf.text == old(buf.text) + TimeText(t)
  {
    WriteTwo(buf, t.hour);
    buf.Push(":");
    WriteTwo(buf, t.minute);
    buf.Push(":");
    WriteTwo(buf, t.second);
    buf.Push(".");
    WriteMillis(buf, t.millis);
  }

  /** The formatter, field by field with its own zero padding. */
  method WriteTimestamp(buf: TextBuffer, t: DateTime)
    requires t.Calendar()
    modifies buf
    ensures buf.text == old(buf.text) + Written(t)
  {
    WriteDate(buf, t);
    buf.Push("T");
    WriteTime(buf, t);
    buf.Push("Z");
    Onto(old(buf.text), DateText(t), TimeText(t));
  }

  lemma Onto(before: string, date: string, time: string)
    ensures before + date + "T" + time + "Z" == before + (date + "T" + time + "Z")
  {
  }

  // ---------------------------------------------------------------- the format

  /** A fixed-width field and the mark behind it. */
  datatype Field = Field(value: nat, width: nat, mark: char) {

    predicate Valid() {
      value < Power10(width)
    }
  }

  ghost predicate AllValid(fields: seq<Field>) {
    forall i :: 0 <= i < |fields| ==> fields[i].Valid()
  }

  function Text(fields: seq<Field>): string {
    if fields == [] then "" else Fixed(fields[0].value, fields[0].width) + [fields[0].mark] + Text(fields[1..])
  }

  function Values(fields: seq<Field>): seq<nat> {
    if fields == [] then [] else [fields[0].value] + Values(fields[1..])
  }

  /** Reads fields of the given widths and marks, and nothing behind them. */
  function Read(s: string, shape: seq<(nat, char)>): Option<seq<nat>>
    decreases |shape|
  {
    if shape == [] then if s == "" then Some([]) else None
    else
      var (width, mark) := shape[0];
      if |s| > width && AllDigits(s[..width]) && s[width] == mark then
        match Read(s[width + 1..], shape[1..])
        case None => None
        case Some(rest) => Some([Value(s[..width])] + rest)
      else None
  }

  function Shape(fields: seq<Field>): seq<(nat, char)> {
    if fields == [] then [] else [(fields[0].width, fields[0].mark)] + Shape(fields[1..])
  }

  lemma {:induction false} TextReadsBack(fields: seq<Field>)
    requires AllValid(fields)
    ensures Read(Text(fields), Shape(fields)) == Some(Values(fields))
  {
    if fields != [] {
      var f, s := fields[0], Text(fields);
      TextReadsBack(fields[1..]);
      FixedReadsBack(f.value, f.width);
      assert s[..f.width] == Fixed(f.value, f.width);
      assert s[f.width + 1..] == Text(fields[1..]);
      assert Shape(fields)[1..] == Shape(fields[1..]);
    }
  }

  function Width(shape: seq<(nat, char)>): nat {
    if shape == [] then 0 else shape[0].0 + 1 + Width(shape[1..])
  }

  /** What can be read has the width of the shape, and starts with a digit. */
  lemma {:induction false} ReadIsFixedWidth(s: string, shape: seq<(nat, char)>)
    requires Read(s, shape).Some?
    ensures |s| == Width(shape)
    ensures shape != [] && shape[0].0 > 0 ==> IsDigit(s[0])
    decreases |shape|
  {
    if shape != [] {
      var width := shape[0].0;
      ReadIsFixedWidth(s[width + 1..], shape[1..]);
      if width > 0 {
        assert s[..width][0] == s[0];
      }
    }
  }

  predicate SmallerValues(a: seq<nat>, b: seq<nat>) {
    a != [] && b != [] && (a[0] < b[0] || (a[0] == b[0] && SmallerValues(a[1..], b[1..])))
  }

  /** One field, its mark, and the rest. */
  lemma FieldSorts(m: nat, n: nat, width: nat, mark: char, r: string, s: string)
    requires m < Power10(width) && n < Power10(width)
    ensures Less(Fixed(m, width) + [mark] + r, Fixed(n, width) + [mark] + s) <==> m < n || (m == n && Less(r, s))
  {
    var x, y := Fixed(m, width), Fixed(n, width);
    assert x + [mark] + r == x + ([mark] + r) && y + [mark] + s == y + ([mark] + s);
    LessByField(x, y, [mark] + r, [mark] + s);
    LessByField([mark], [mark], r, s);
    Irreflexive([mark]);
    FixedSorts(m, n, width);
  }

  /** Texts of one shape sort as their values. */
  lemma {:induction false} TextSorts(a: seq<Field>, b: seq<Field>)
    requires Shape(a) == Shape(b) && AllValid(a) && AllValid(b)
    ensures Less(Text(a), Text(b)) <==> SmallerValues(Values(a), Values(b))
    decreases |a|
  {
    ShapeLength(a);
    ShapeLength(b);
    if a != [] {
      assert Shape(a)[0] == Shape(b)[0] && Shape(a)[1..] == Shape(a[1..]) && Shape(b)[1..] == Shape(b[1..]);
      TextSorts(a[1..], b[1..]);
      FieldSorts(a[0].value, b[0].value, a[0].width, a[0].mark, Text(a[1..]), Text(b[1..]));
      assert Values(a)[1..] == Values(a[1..]) && Values(b)[1..] == Values(b[1..]);
    }
  }

  lemma {:induction false} ShapeLength(fields: seq<Field>)
    ensures |Shape(fields)| == |fields|
  {
    if fields != [] {
      ShapeLength(fields[1..]);
    }
  }

  // ---------------------------------------------------------------- what is written is that format

  function FieldsOf(t: DateTime): seq<Field>
    requires t.year >= 0
  {
    [Field(t.year, 4, '-'), Field(t.month, 2, '-'), Field(t.day, 2, 'T'),
     Field(t.hour, 2, ':'), Field(t.minute, 2, ':'), Field(t.second, 2, '.'), Field(t.millis, 3, 'Z')]
  }

  const SHAPE: seq<(nat, char)> := [(4, '-'), (2, '-'), (2, 'T'), (2, ':'), (2, ':'), (2, '.'), (3, 'Z')]

  lemma Powers()
    ensures Power10(1) == 10 && Power10(2) == 100 && Power10(3) == 1000 && Power10(4) == 10000
  {
    assert Power10(1) == 10 * Power10(0);
    assert Power10(2) == 10 * Power10(1);
    assert Power10(3) == 10 * Power10(2);
    assert Power10(4) == 10 * Power10(3);
  }

  lemma TextCons(f: Field, rest: seq<Field>)
    ensures Text([f] + rest) == Fixed(f.value, f.width) + [f.mark] + Text(rest)
    ensures Shape([f] + rest) == [(f.width, f.mark)] + Shape(rest)
    ensures Values([f] + rest) == [f.value] + Values(rest)
  {
    assert ([f] + rest)[1..] == rest;
  }

  lemma DecimalWidth(n: nat, k: nat)
    requires k >= 1
    ensures n < Power10(k) <==> |Decimal(n)| <= k
  {
    DecimalReadsBack(n);
    var d := |Decimal(n)|;
    if n < Power10(k) && d > k {
      PowerMonotone(k, d - 1);
    }
    if d <= k {
      PowerMonotone(d, k);
    }
  }

  lemma {:induction false} PowerMonotone(j: nat, k: nat)
    requires j <= k
    ensures Power10(j) <= Power10(k)
  {
    if j < k {
      PowerMonotone(j, k - 1);
    }
  }

  lemma DigitCountIsWidth(n: nat)
    requires n < 10000
    ensures |Decimal(n)| == DigitCount(n)
  {
    Powers();
    DecimalWidth(n, 1);
    DecimalWidth(n, 2);
    DecimalWidth(n, 3);
    DecimalWidth(n, 4);
  }

  lemma TwoIsFixed(n: nat)
    requires n < 100
    ensures TwoText(n) == Fixed(n, 2)
  {
    Powers();
    DigitCountIsWidth(n);
    PaddedIsFixed(n, 2);
    assert Zeros(1) == "0";
    assert Zeros(0) == "";
  }

  lemma MillisIsFixed(n: nat)
    requires n < 1000
    ensures MillisText(n) == Fixed(n, 3)
  {
    Powers();
    DigitCountIsWidth(n);
    PaddedIsFixed(n, 3);
    assert Zeros(2) == "0" + "0" && Zeros(1) == "0" && Zeros(0) == "";
  }

  lemma YearIsFixed(n: nat)
    requires n < 10000
    ensures YearText(n) == Fixed(n, 4)
  {
    Powers();
    DigitCountIsWidth(n);
    PaddedIsFixed(n, 4);
    assert Zeros(0) == "";
  }

  lemma TextOfTime(t: DateTime)
    requires t.year >= 0
    ensures Text(FieldsOf(t)[3..])
         == Fixed(t.hour, 2) + ":" + (Fixed(t.minute, 2) + ":" + (Fixed(t.second, 2)
             + "." + (Fixed(t.millis, 3) + "Z")))
  {
    var fs := FieldsOf(t);
    TextCons(fs[6], []);
    assert [fs[6]] + [] == fs[6..];
    TextCons(fs[5], fs[6..]);
    assert [fs[5]] + fs[6..] == fs[5..];
    TextCons(fs[4], fs[5..]);
    assert [fs[4]] + fs[5..] == fs[4..];
    TextCons(fs[3], fs[4..]);
    assert [fs[3]] + fs[4..] == fs[3..];
  }

  lemma TextOfDate(t: DateTime, rest: string)
    requires t.year >= 0 && rest == Text(FieldsOf(t)[3..])
    ensures Text(FieldsOf(t)) == Fixed(t.year, 4) + "-" + (Fixed(t.month, 2) + "-" + (Fixed(t.day, 2) + "T" + rest))
  {
    var fs := FieldsOf(t);
    TextCons(fs[2], fs[3..]);
    assert [fs[2]] + fs[3..] == fs[2..];
    TextCons(fs[1], fs[2..]);
    assert [fs[1]] + fs[2..] == fs[1..];
    TextCons(fs[0], fs[1..]);
    assert [fs[0]] + fs[1..] == fs;
  }

  lemma TimeIsFixed(t: DateTime)
    requires t.Calendar() && t.millis < 1000
    ensures TimeText(t) + "Z"
         == Fixed(t.hour, 2) + ":" + (Fixed(t.minute, 2) + ":" + (Fixed(t.second, 2)
             + "." + (Fixed(t.millis, 3) + "Z")))
  {
    TwoIsFixed(t.hour);
    TwoIsFixed(t.minute);
    TwoIsFixed(t.second);
    MillisIsFixed(t.millis);
  }

  lemma DateIsFixed(t: DateTime, rest: string)
    requires t.Calendar() && 0 <= t.year <= 9999
    ensures DateText(t) + "T" + rest
        == Fixed(t.year, 4) + "-" + (Fixed(t.month, 2) + "-" + (Fixed(t.day, 2) + "T" + rest))
  {
    YearIsFixed(t.year);
    TwoIsFixed(t.month);
    TwoIsFixed(t.day);
  }

  /** The padding by hand amounts to the fixed-width format. */
  lemma WrittenIsText(t: DateTime)
    requires t.Calendar() && t.Expressible()
    ensures Written(t) == Text(FieldsOf(t))
  {
    var rest := Text(FieldsOf(t)[3..]);
    TextOfTime(t);
    TextOfDate(t, rest);
    TimeIsFixed(t);
    DateIsFixed(t, rest);
    assert DateText(t) + "T" + (TimeText(t) + "Z") == DateText(t) + "T" + TimeText(t) + "Z";
  }

  lemma FieldsAreValid(t: DateTime)
    requires t.Calendar() && t.Expressible()
    ensures AllValid(FieldsOf(t))
  {
    Powers();
  }

  lemma FieldsHaveShape(t: DateTime)
    requires t.year >= 0
    ensures Shape(FieldsOf(t)) == SHAPE
    ensures Values(FieldsOf(t)) == [t.year, t.month, t.day, t.hour, t.minute, t.second, t.millis]
  {
    var fs := FieldsOf(t);
    ShapeFrom(fs, 6);
    ShapeFrom(fs, 5);
    ShapeFrom(fs, 4);
    ShapeFrom(fs, 3);
    ShapeFrom(fs, 2);
    ShapeFrom(fs, 1);
    ShapeFrom(fs, 0);
    assert fs[7..] == [];
    assert fs[0..] == fs;
  }

  lemma ShapeFrom(fs: seq<Field>, i: nat)
    requires i < |fs|
    ensures Shape(fs[i..]) == [(fs[i].width, fs[i].mark)] + Shape(fs[i + 1..])
    ensures Values(fs[i..]) == [fs[i].value] + Values(fs[i + 1..])
  {
    TextCons(fs[i], fs[i + 1..]);
    assert [fs[i]] + fs[i + 1..] == fs[i..];
  }

  lemma WidthOfShape()
    ensures Width(SHAPE) == 24
  {
    assert SHAPE[1..][1..] == SHAPE[2..];
    assert SHAPE[2..][1..] == SHAPE[3..];
    assert SHAPE[3..][1..] == SHAPE[4..];
    assert SHAPE[4..][1..] == SHAPE[5..];
    assert SHAPE[5..][1..] == SHAPE[6..];
    assert SHAPE[6..][1..] == [];
  }

  /** Reads a timestamp: the fields of section 5.6 of RFC 3339, each within its range. */
  function Parse(s: string): Option<DateTime> {
    match Read(s, SHAPE)
    case None => None
    case Some(v) =>
      if |v| != 7 then None
      else
        var t := DateTime(v[0], v[1], v[2], v[3], v[4], v[5], v[6]);
        if t.Calendar() then Some(t) else None
  }

  lemma ReadsBack(t: DateTime)
    requires t.Calendar() && t.Expressible()
    ensures Parse(Written(t)) == Some(t) && |Written(t)| == 24
  {
    WrittenIsText(t);
    FieldsAreValid(t);
    FieldsHaveShape(t);
    TextReadsBack(FieldsOf(t));
    ReadIsFixedWidth(Written(t), SHAPE);
    WidthOfShape();
  }

  lemma YearWidth(year: int)
    requires -262143 <= year <= 262142
    ensures year < 0 ==> YearText(year)[0] == '-'
    ensures year >= 0 ==> |YearText(year)| >= 4 && (year > 9999 ==> |YearText(year)| >= 5)
  {
    if year < 0 {
      assert Zeros(0) == "";
    } else if year <= 9999 {
      YearIsFixed(year);
    } else {
      Powers();
      DecimalWidth(year, 4);
    }
  }

  lemma MillisWidth(millis: nat)
    ensures |MillisText(millis)| >= 3 && (millis >= 1000 ==> |MillisText(millis)| >= 4)
  {
    Powers();
    if millis < 1000 {
      MillisIsFixed(millis);
    } else {
      DecimalWidth(millis, 3);
    }
  }

  lemma WrittenWidth(t: DateTime)
    requires t.Calendar()
    ensures |Written(t)| == |YearText(t.year)| + |MillisText(t.millis)| + 17
    ensures Written(t)[0] == YearText(t.year)[0]
  {
    TwoIsFixed(t.month);
    TwoIsFixed(t.day);
    TwoIsFixed(t.hour);
    TwoIsFixed(t.minute);
    TwoIsFixed(t.second);
  }

  /** A timestamp keeps its value exactly when its year has four digits and it is not within
      a leap second; it is then 24 characters long. */
  lemma ReadsBackIffExpressible(t: DateTime)
    requires t.Calendar()
    ensures Parse(Written(t)) == Some(t) <==> t.Expressible()
    ensures t.Expressible() ==> |Written(t)| == 24
  {
    if t.Expressible() {
      ReadsBack(t);
    } else if Parse(Written(t)) == Some(t) {
      ReadIsFixedWidth(Written(t), SHAPE);
      WidthOfShape();
      WrittenWidth(t);
      YearWidth(t.year);
      MillisWidth(t.millis);
      assert false;
    }
  }

  predicate Before(t: DateTime, u: DateTime) {
    if t.year != u.year then t.year < u.year
    else if t.month != u.month then t.month < u.month
    else if t.day != u.day then t.day < u.day
    else if t.hour != u.hour then t.hour < u.hour
    else if t.minute != u.minute then t.minute < u.minute
    else if t.second != u.second then t.second < u.second
    else t.millis < u.millis
  }

  /** Timestamps sort as strings exactly as they do in time. */
  lemma SortsChronologically(t: DateTime, u: DateTime)
    requires t.Calendar() && t.Expressible() && u.Calendar() && u.Expressible()
    ensures Less(Written(t), Written(u)) <==> Before(t, u)
  {
    WrittenIsText(t);
    WrittenIsText(u);
    FieldsAreValid(t);
    FieldsAreValid(u);
    FieldsHaveShape(t);
    FieldsHaveShape(u);
    TextSorts(FieldsOf(t), FieldsOf(u));
    ValuesSort([t.year, t.month, t.day, t.hour, t.minute, t.second, t.millis],
               [u.year, u.month, u.day, u.hour, u.minute, u.second, u.millis]);
  }

  lemma ValuesSort(a: seq<nat>, b: seq<nat>)
    requires |a| == 7 == |b|
    ensures SmallerValues(a, b) <==>
      if a[0] != b[0] then a[0] < b[0]
      else if a[1] != b[1] then a[1] < b[1]
      else if a[2] != b[2] then a[2] < b[2]
      else if a[3] != b[3] then a[3] < b[3]
      else if a[4] != b[4] then a[4] < b[4]
      else if a[5] != b[5] then a[5] < b[5]
      else a[6] < b[6]
  {
    SmallerFrom(a, b, 0);
    SmallerFrom(a, b, 1);
    SmallerFrom(a, b, 2);
    SmallerFrom(a, b, 3);
    SmallerFrom(a, b, 4);
    SmallerFrom(a, b, 5);
    SmallerFrom(a, b, 6);
    assert a[0..] == a && b[0..] == b && a[7..] == [] == b[7..];
  }

  lemma SmallerFrom(a: seq<nat>, b: seq<nat>, i: nat)
    requires i < |a| == |b|
    ensures SmallerValues(a[i..], b[i..]) <==> a[i] < b[i] || (a[i] == b[i] && SmallerValues(a[i + 1..], b[i + 1..]))
  {
    assert a[i..][1..] == a[i + 1..] && b[i..][1..] == b[i + 1..];
  }

  // ---------------------------------------------------------------- the cache

  /** What the clock returns: milliseconds since the epoch, and the civil fields of that instant. */
  datatype Instant = Instant(sinceEpoch: int, civil: DateTime)

  /** The text of the last millisecond that a thread logged in. */
  datatype Cached = Cached(lastMillis: int, formatted: string)

  const NOTHING_CACHED := Cached(I64_MIN, "")

  predicate AllCalendar(history: seq<Instant>) {
    forall now <- history :: now.civil.Calendar()
  }

  function AfterCall(c: Cached, now: Instant): Cached
    requires now.civil.Calendar()
  {
    if c.lastMillis != now.sinceEpoch then Cached(now.sinceEpoch, Written(now.civil)) else c
  }

  /** The cache after a history of calls. */
  function AfterCalls(history: seq<Instant>): Cached
    requires AllCalendar(history)
  {
    if history == [] then NOTHING_CACHED
    else AfterCall(AfterCalls(history[..|history| - 1]), history[|history| - 1])
  }

  /** What the i-th call of a history appends. */
  function Appended(history: seq<Instant>, i: nat): string
    requires AllCalendar(history) && i < |history|
  {
    AfterCalls(history[..i + 1]).formatted
  }

  ghost predicate SameAsUncached(history: seq<Instant>)
    requires AllCalendar(history)
  {
    forall i :: 0 <= i < |history| ==> Appended(history, i) == Written(history[i].civil)
  }

  /** A call in the same millisecond as the one before it is to write the same text. */
  ghost predicate TextFollowsMillis(history: seq<Instant>)
    requires AllCalendar(history)
  {
    && (history != [] ==> history[0].sinceEpoch != -0x8000_0000_0000_0000)
    && forall i :: 0 < i < |history| && history[i].sinceEpoch == history[i - 1].sinceEpoch ==>
         Written(history[i].civil) == Written(history[i - 1].civil)
  }

  lemma {:induction false} FaithfulSoFar(history: seq<Instant>)
    requires AllCalendar(history) && history != [] && TextFollowsMillis(history)
    ensures AfterCalls(history) == Cached(history[|history| - 1].sinceEpoch, Written(history[|history| - 1].civil))
  {
    var init := history[..|history| - 1];
    if init != [] {
      FaithfulSoFar(init);
    }
  }

  lemma SentinelWritesNothing(history: seq<Instant>)
    requires AllCalendar(history) && history != [] && history[0].sinceEpoch == I64_MIN
    ensures !SameAsUncached(history)
  {
    assert history[..1][..0] == [] && history[..1][0] == history[0];
    assert AfterCalls(history[..1]) == AfterCall(AfterCalls([]), history[0]);
    assert Appended(history, 0) == "";
    WrittenWidth(history[0].civil);
  }

  lemma SameMillisSameText(history: seq<Instant>, i: nat)
    requires AllCalendar(history) && 0 < i < |history| && history[i].sinceEpoch == history[i - 1].sinceEpoch
    ensures Appended(history, i) == Appended(history, i - 1)
  {
    assert history[..i + 1][..i] == history[..i];
    RemembersMillis(history[..i]);
  }

  lemma FaithfulThroughout(history: seq<Instant>)
    requires AllCalendar(history) && TextFollowsMillis(history)
    ensures SameAsUncached(history)
  {
    forall i | 0 <= i < |history|
      ensures Appended(history, i) == Written(history[i].civil)
    {
      var h := history[..i + 1];
      assert h[|h| - 1] == history[i];
      FaithfulSoFar(h);
    }
  }

  lemma UnfaithfulAt(history: seq<Instant>, i: nat)
    requires AllCalendar(history) && 0 < i < |history| && history[i].sinceEpoch == history[i - 1].sinceEpoch
    requires Written(history[i].civil) != Written(history[i - 1].civil)
    ensures !SameAsUncached(history)
  {
    SameMillisSameText(history, i);
  }

  /** The cached writer appends what the uncached one would, over a whole history of calls, if
      and only if the text follows the millisecond and the first call is not at the sentinel. */
  lemma CacheIsTransparent(history: seq<Instant>)
    requires AllCalendar(history)
    ensures SameAsUncached(history) <==> TextFollowsMillis(history)
  {
    if TextFollowsMillis(history) {
      FaithfulThroughout(history);
    } else if history != [] && history[0].sinceEpoch == I64_MIN {
      SentinelWritesNothing(history);
    } else {
      var i :| 0 < i < |history| && history[i].sinceEpoch == history[i - 1].sinceEpoch
        && Written(history[i].civil) != Written(history[i - 1].civil);
      UnfaithfulAt(history, i);
    }
  }

  /** What the system clock returns: no leap second, civil fields that follow the milliseconds,
      and nothing as early as the sentinel. */
  ghost predicate ClockReadings(history: seq<Instant>) {
    && (forall now <- history ::
          now.civil.Calendar() && now.civil.millis < 1000 && now.sinceEpoch > -0x8000_0000_0000_0000)
    && (forall i, j :: 0 <= i < j < |history| && history[i].sinceEpoch == history[j].sinceEpoch ==>
          history[i].civil == history[j].civil)
  }

  /** For what the clock returns the cache is never observable. */
  lemma CacheIsTransparentForClock(history: seq<Instant>)
    requires ClockReadings(history)
    ensures AllCalendar(history) && SameAsUncached(history)
  {
    CacheIsTransparent(history);
  }

  lemma RemembersMillis(history: seq<Instant>)
    requires AllCalendar(history) && history != []
    ensures AfterCalls(history).lastMillis == history[|history| - 1].sinceEpoch
  {
  }

  lemma LeapIsLonger(leap: DateTime, after: DateTime)
    requires leap.Calendar() && after.Calendar() && 0 <= leap.year <= 9999 && leap.millis >= 1000 && after.Expressible()
    ensures |Written(leap)| > |Written(after)|
  {
    ReadsBackIffExpressible(after);
    WrittenWidth(leap);
    YearWidth(leap.year);
    MillisWidth(leap.millis);
  }

  lemma SecondCallRepeats(a: Instant, b: Instant)
    requires a.civil.Calendar() && b.civil.Calendar() && a.sinceEpoch == b.sinceEpoch != I64_MIN
    ensures AllCalendar([a, b]) && Appended([a, b], 1) == Written(a.civil)
  {
    SameMillisSameText([a, b], 1);
    assert [a, b][..1] == [a];
    FaithfulSoFar([a]);
  }

  /** Instants that can be represented, but that the clock does not return: half a second into the
      leap second at the end of 2016, and one second later, are the same number of milliseconds
      since the epoch, and the second call writes the first one's text. */
  lemma LeapSecondShows(leap: Instant, after: Instant)
    requires leap == Instant(1483228800500, DateTime(2016, 12, 31, 23, 59, 59, 1500))
    requires after == Instant(1483228800500, DateTime(2017, 1, 1, 0, 0, 0, 500))
    ensures AllCalendar([leap, after]) && Appended([leap, after], 1) == Written(leap.civil) != Written(after.civil)
  {
    SecondCallRepeats(leap, after);
    LeapIsLonger(leap.civil, after.civil);
  }

  class TimestampCache {
    var lastMillis: int
    const formatted: TextBuffer

    function State(): Cached
      reads this, formatted
    {
      Cached(lastMillis, formatted.text)
    }

    constructor ()
      ensures fresh(formatted) && State() == NOTHING_CACHED
    {
      lastMillis := I64_MIN;
      formatted := new TextBuffer();
    }

    /** Appends the text for `now`. */
    method WriteNowCached(buf: TextBuffer, now: Instant)
      requires buf != formatted && now.civil.Calendar()
      modifies this, formatted, buf
      ensures State() == AfterCall(old(State()), now)
      ensures buf.text == old(buf.text) + AfterCall(old(State()), now).formatted
    {
      if lastMillis != now.sinceEpoch {
        lastMillis := now.sinceEpoch;
        formatted.Clear();
        WriteTimestamp(formatted, now.civil);
      }
      buf.Push(formatted.text);
    }
  }
}
