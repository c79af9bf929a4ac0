/** The records the session puts on its queue, their headings, and the defaults for missing keys. */
module Formatter {
  import opened Replies

  const NoTitle: string := "No Title"
  const NoContent: string := "No Content"
  const StepPrefix: string := "Step "
  const FinalHeading: string := "Final Answer"

  /** A step record carries its 1-based step number; the final record only the answer's content. */
  datatype Record = StepRecord(number: nat, title: string, content: string) | FinalRecord(content: string)

  /** The record for step `n`, with the defaults for a missing title or content. */
  function StepRecordOf(n: nat, r: Reply): (rec: Record)
    ensures rec.StepRecord? && rec.number == n
    ensures r.title.None? ==> rec.title == NoTitle
    ensures r.title.Some? ==> rec.title == r.title.value
    ensures r.content.None? ==> rec.content == NoContent
    ensures r.content.Some? ==> rec.content == r.content.value
  {
    StepRecord(n, r.title.GetOr(NoTitle), r.content.GetOr(NoContent))
  }

  /** The final-answer record; the reply's title and next action play no part in it. */
  function FinalRecordOf(r: Reply): (rec: Record)
    ensures rec.FinalRecord?
    ensures r.content.None? ==> rec.content == NoContent
    ensures r.content.Some? ==> rec.content == r.content.value
  {
    FinalRecord(r.content.GetOr(NoContent))
  }

  predicate IsDigit(c: char) {
    '0' <= c <= '9'
  }

  predicate AllDigits(s: string) {
    forall i :: 0 <= i < |s| ==> IsDigit(s[i])
  }

  function DigitChar(d: nat): (c: char)
    requires d < 10
    ensures IsDigit(c)
  {
    ('0' as int + d) as char
  }

  function DigitValue(c: char): (d: nat)
    requires IsDigit(c)
    ensures d < 10
  {
    c as int - '0' as int
  }

  /** Decimal rendering of a step number, as an f-string renders an int. */
  function DecimalString(n: nat): (s: string)
    ensures |s| >= 1 && AllDigits(s)
    ensures n >= 10 ==> |s| >= 2
    ensures n > 0 ==> s[0] != '0'
    decreases n
  {
    if n < 10 then [DigitChar(n)] else DecimalString(n / 10) + [DigitChar(n % 10)]
  }

  /** The number written by a string of decimal digits. */
  function DecimalValue(s: string): nat
    requires AllDigits(s)
  {
    if |s| == 0 then 0 else 10 * DecimalValue(s[..|s| - 1]) + DigitValue(s[|s| - 1])
  }

  lemma {:induction false} DecimalRoundTrip(n: nat)
    ensures DecimalValue(DecimalString(n)) == n
    decreases n
  {
    if n >= 10 {
      DecimalRoundTrip(n / 10);
      var s := DecimalString(n);
      assert s[..|s| - 1] == DecimalString(n / 10);
    }
  }

  /** The heading shown above a record: `Step n: title` for a step, a fixed literal for the final one. */
  function Heading(rec: Record): string {
    match rec
    case StepRecord(n, t, _) => StepPrefix + DecimalString(n) + ": " + t
    case FinalRecord(_) => FinalHeading
  }

  /** The rendered text of a record: its heading followed by its content (markup and timing omitted). */
  function Render(rec: Record): string {
    Heading(rec) + "\n" + rec.content + "\n"
  }

  /** The heading and the content can be cut back out of the rendered text. */
  lemma RenderParts(rec: Record)
    ensures var s := Render(rec); |s| == |Heading(rec)| + |rec.content| + 2
    ensures var s := Render(rec); s[..|Heading(rec)|] == Heading(rec)
    ensures var s := Render(rec); s[|Heading(rec)| + 1..|s| - 1] == rec.content
  {
    var s := Render(rec);
    assert s[..|Heading(rec)|] == Heading(rec);
    assert s[|Heading(rec)| + 1..|s| - 1] == rec.content;
  }

  /** Length of the run of digits at the start of `s`. */
  function LeadingDigits(s: string): (k: nat)
    ensures k <= |s| && AllDigits(s[..k])
    ensures k < |s| ==> !IsDigit(s[k])
  {
    if |s| > 0 && IsDigit(s[0]) then
      var k := 1 + LeadingDigits(s[1..]);
      assert s[..k] == [s[0]] + s[1..][..k - 1];
      k
    else 0
  }

  /** Reads the step number back from a heading; `None` for a heading that is not a step heading. */
  function HeadingNumber(h: string): Option<nat> {
    if |h| >= |StepPrefix| && h[..|StepPrefix|] == StepPrefix then
      var rest := h[|StepPrefix|..];
      var k := LeadingDigits(rest);
      if k > 0 then Some(DecimalValue(rest[..k])) else None
    else None
  }

  lemma {:induction false} LeadingDigitsOfNumber(ds: string, rest: string)
    requires AllDigits(ds)
    requires |rest| > 0 && !IsDigit(rest[0])
    ensures LeadingDigits(ds + rest) == |ds|
    decreases |ds|
  {
    if |ds| > 0 {
      assert (ds + rest)[1..] == ds[1..] + rest;
      LeadingDigitsOfNumber(ds[1..], rest);
    } else {
      assert ds + rest == rest;
    }
  }

  /** The step number can be read back from every step heading, and the final heading carries none. */
  lemma HeadingNumberRoundTrip(rec: Record)
    ensures rec.StepRecord? ==> HeadingNumber(Heading(rec)) == Some(rec.number)
    ensures rec.FinalRecord? ==> HeadingNumber(Heading(rec)) == None
  {
    if rec.StepRecord? {
      var ds := DecimalString(rec.number);
      var h := Heading(rec);
      assert h[..|StepPrefix|] == StepPrefix;
      assert h[|StepPrefix|..] == ds + (": " + rec.title);
      LeadingDigitsOfNumber(ds, ": " + rec.title);
      assert (ds + (": " + rec.title))[..|ds|] == ds;
      DecimalRoundTrip(rec.number);
    } else {
      assert Heading(rec)[..|StepPrefix|] != StepPrefix by {
        assert Heading(rec)[0] == 'F';
      }
    }
  }

  /** Step headings with different numbers are different, so no two step records look alike. */
  lemma HeadingsDistinct(a: Record, b: Record)
    requires a.StepRecord? && b.StepRecord? && a.number != b.number
    ensures Heading(a) != Heading(b)
  {
    HeadingNumberRoundTrip(a);
    HeadingNumberRoundTrip(b);
  }

  lemma StepThreeHeading()
    ensures Heading(StepRecordOf(3, Reply(Some("Check Units"), None, None))) == "Step 3: Check Units"
  {
  }
}
