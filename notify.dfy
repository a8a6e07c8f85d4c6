/** The Slack attachment built from the loop's counters (app/script.py, lines 59-101). */
module Notify {
  import opened Text
  import opened Reports

  /** The two colours of app/constants.py (their literal values are not part of this model). */
  datatype Color = PassColor | FailColor

  datatype Field = Field(title: string, value: string, short: bool)

  /** The attachment without `author_link` and `title`, which only pass CI metadata through. */
  datatype Attachment = Attachment(color: Color, authorName: string, fields: seq<Field>)

  const DefaultAuthorName: string := "JUnit Slack Reporter"

  const FieldTitles: seq<string> := ["Total # of tests", "Tests passed", "Tests errored", "Tests failed", "Time elapsed"]

  /** The attachment the script sends for a summary and a rounded elapsed time. */
  function AttachmentFor(s: Summary, authorName: string, elapsedSeconds: nat): Attachment {
    Attachment(
      if s.containsFailures then FailColor else PassColor,
      authorName,
      [ Field(FieldTitles[0], IntToDecimal(s.tests), true),
        Field(FieldTitles[1], IntToDecimal(s.passed), true),
        Field(FieldTitles[2], IntToDecimal(s.broken), true),
        Field(FieldTitles[3], IntToDecimal(s.failed), true),
        Field(FieldTitles[4], Clock(elapsedSeconds), true) ])
  }

  /** Five short fields in a fixed order; each counter reads back from its
      field; the last field is the elapsed time of day; the colour signals
      exactly whether some report had issues. */
  lemma AttachmentShape(s: Summary, authorName: string, elapsedSeconds: nat)
    ensures var a := AttachmentFor(s, authorName, elapsedSeconds);
      |a.fields| == 5 &&
      (forall i :: 0 <= i < 5 ==> a.fields[i].title == FieldTitles[i] && a.fields[i].short) &&
      (a.color == FailColor <==> s.containsFailures) &&
      a.authorName == authorName
    ensures var a := AttachmentFor(s, authorName, elapsedSeconds);
      IsDecimal(a.fields[0].value) && DecimalToInt(a.fields[0].value) == s.tests &&
      IsDecimal(a.fields[1].value) && DecimalToInt(a.fields[1].value) == s.passed &&
      IsDecimal(a.fields[2].value) && DecimalToInt(a.fields[2].value) == s.broken &&
      IsDecimal(a.fields[3].value) && DecimalToInt(a.fields[3].value) == s.failed
    ensures var v := AttachmentFor(s, authorName, elapsedSeconds).fields[4].value;
      |v| == 8 && AllDigits(v[0..2]) && AllDigits(v[3..5]) && AllDigits(v[6..8]) &&
      ClockParts(v) == (elapsedSeconds / 3600 % 24, elapsedSeconds / 60 % 60, elapsedSeconds % 60)
  {
    IntToDecimalRoundTrip(s.tests);
    IntToDecimalRoundTrip(s.passed);
    IntToDecimalRoundTrip(s.broken);
    IntToDecimalRoundTrip(s.failed);
    ClockRoundTrip(elapsedSeconds);
  }

  /** Lines 62-101: start from the pass colour with no fields, append the five
      fields one by one, then switch to the fail colour when some file had issues. */
  method BuildAttachment(s: Summary, authorName: string, elapsedSeconds: nat) returns (a: Attachment)
    ensures a == AttachmentFor(s, authorName, elapsedSeconds)
  {
    var fields: seq<Field> := [];
    fields := fields + [Field(FieldTitles[0], IntToDecimal(s.tests), true)];
    fields := fields + [Field(FieldTitles[1], IntToDecimal(s.passed), true)];
    fields := fields + [Field(FieldTitles[2], IntToDecimal(s.broken), true)];
    fields := fields + [Field(FieldTitles[3], IntToDecimal(s.failed), true)];
    fields := fields + [Field(FieldTitles[4], Clock(elapsedSeconds), true)];
    a := Attachment(PassColor, authorName, fields);
    if s.containsFailures {
      a := a.(color := FailColor);
    }
  }
}
