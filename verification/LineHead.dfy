/** The head of a log line: timestamp, level and audience are written without escaping, and need none. */
module LineHead {
  import opened Wrappers
  import opened Digits
  import opened JsonText
  import opened JsonLine
  import opened Timestamp

  datatype LogLevel = Trace | Debug | Info | Warn | Error {
    function Name(): string {
      match this
      case Trace => "TRACE"
      case Debug => "DEBUG"
      case Info => "INFO"
      case Warn => "WARN"
      case Error => "ERROR"
    }
  }

  datatype LogAudience = Internal | Client | Both {
    function Name(): string {
      match this
      case Internal => "INTERNAL"
      case Client => "CLIENT"
      case Both => "BOTH"
    }
  }

  predicate Clean(s: string) {
    forall c <- s :: 32 <= c as int < 128 && c != '"' && c != '\\'
  }

  lemma {:induction false} CleanIsPlain(s: string)
    requires Clean(s)
    ensures !NeedsEscape(AsBytes(s))
  {
    if s != "" {
      assert s[0] in s && forall c <- s[1..] :: c in s;
      CleanIsPlain(s[1..]);
      NeedsConcat(Utf8(s[0]), AsBytes(s[1..]));
    }
  }

  lemma DecimalIsClean(n: nat)
    ensures Clean(Decimal(n))
  {
    DecimalReadsBack(n);
  }

  lemma FieldsAreClean(n: nat)
    ensures Clean(TwoText(n)) && Clean(MillisText(n))
  {
    DecimalIsClean(n);
  }

  lemma YearIsClean(year: int)
    requires -TWO_64 <= year < TWO_64
    ensures Clean(YearText(year))
  {
    DecimalIsClean(if year < 0 then -year else year);
    assert Clean(Zeros(4 - DigitCount(AsU64(year))));
  }

  lemma DateIsClean(t: DateTime)
    requires t.Calendar()
    ensures Clean(DateText(t))
  {
    YearIsClean(t.year);
    FieldsAreClean(t.month);
    FieldsAreClean(t.day);
    assert Clean(YearText(t.year) + "-");
    assert Clean(YearText(t.year) + "-" + TwoText(t.month));
  }

  lemma TimeIsClean(t: DateTime)
    ensures Clean(TimeText(t))
  {
    FieldsAreClean(t.hour);
    FieldsAreClean(t.minute);
    FieldsAreClean(t.second);
    FieldsAreClean(t.millis);
    assert Clean(TwoText(t.hour) + ":" + TwoText(t.minute));
    assert Clean(TwoText(t.hour) + ":" + TwoText(t.minute) + ":" + TwoText(t.second));
  }

  lemma WrittenIsClean(t: DateTime)
    requires t.Calendar()
    ensures Clean(Written(t))
  {
    DateIsClean(t);
    TimeIsClean(t);
    assert Clean(DateText(t) + "T");
  }

  lemma NamesAreClean(level: LogLevel, audience: LogAudience)
    ensures Clean(level.Name()) && Clean(audience.Name())
  {
  }

  lemma NamesArePlain(level: LogLevel, audience: LogAudience)
    ensures !NeedsEscape(AsBytes(level.Name())) && !NeedsEscape(AsBytes(audience.Name()))
  {
    NamesAreClean(level, audience);
    CleanIsPlain(level.Name());
    CleanIsPlain(audience.Name());
  }

  lemma WrittenIsPlain(t: DateTime)
    requires t.Calendar()
    ensures !NeedsEscape(AsBytes(Written(t)))
  {
    WrittenIsClean(t);
    CleanIsPlain(Written(t));
  }

  /** Every line that the logger writes has a plain head, so the laws of log lines hold of it. */
  lemma HeadIsPlain(l: LogLine, t: DateTime, level: LogLevel, audience: LogAudience)
    requires t.Calendar() && l.ts == Written(t) && l.level == level.Name() && l.audience == audience.Name()
    ensures PlainHead(l)
  {
    WrittenIsPlain(t);
    NamesArePlain(level, audience);
  }

  /** What the level and the audience of a line are called. */
  ghost predicate Named(level: LogLevel, audience: LogAudience, levelName: string, audienceName: string) {
    && (levelName == "TRACE" <==> level.Trace?) && (levelName == "DEBUG" <==> level.Debug?)
    && (levelName == "INFO" <==> level.Info?) && (levelName == "WARN" <==> level.Warn?)
    && (levelName == "ERROR" <==> level.Error?)
    && (audienceName == "INTERNAL" <==> audience.Internal?) && (audienceName == "CLIENT" <==> audience.Client?)
    && (audienceName == "BOTH" <==> audience.Both?)
  }

  /** A reader can tell level and audience from the line. */
  lemma HeadIsRead(l: LogLine, t: DateTime, level: LogLevel, audience: LogAudience,
                   received: seq<(string, JsonValue)>)
    requires t.Calendar() && l.ts == Written(t) && l.level == level.Name() && l.audience == audience.Name()
    requires ParseObject(LineText(l)) == Some(received)
    ensures Named(level, audience, l.level, l.audience)
    ensures ("level", JString(l.level)) in received && ("audience", JString(l.audience)) in received
  {
    HeadIsPlain(l, t, level, audience);
    FieldsUnderTheirKeys(l, received);
    NamesArePlain(level, audience);
  }
}
