/** The text of the report (`build_text`). */
module Report {
  import opened Text
  import opened Readings

  const Header := "Koa nde aire? #AireLibre"
  const Footer := "Más info en airelib.re"

  /** The line of one reading: `{source}: {index} - {legend}`. */
  function Line(aq: AirQuality): string {
    aq.source + ": " + IntToString(aq.index) + " - " + aq.legend
  }

  /** The lines of the readings, in input order. */
  function Lines(aqs: seq<AirQuality>): (lines: seq<string>)
    ensures |lines| == |aqs|
  {
    if aqs == [] then [] else Lines(aqs[..|aqs| - 1]) + [Line(aqs[|aqs| - 1])]
  }

  /** Line `i` of the report body belongs to reading `i`. */
  lemma {:induction false} LinesAt(aqs: seq<AirQuality>, i: nat)
    requires i < |aqs|
    ensures Lines(aqs)[i] == Line(aqs[i])
    decreases |aqs|
  {
    if i < |aqs| - 1 {
      LinesAt(aqs[..|aqs| - 1], i);
    }
  }

  /** The value of the accumulator `sensors` after the readings `aqs`: each
      reading contributes a line feed followed by its line. */
  function Segments(aqs: seq<AirQuality>): string {
    if aqs == [] then "" else Segments(aqs[..|aqs| - 1]) + "\n" + Line(aqs[|aqs| - 1])
  }

  /** The whole report, as the triple-quoted f-string lays it out: the header,
      the timestamp, the segments, a blank line, the footer and a final line
      feed. */
  function ReportText(updated: string, aqs: seq<AirQuality>): string {
    Header + "\n" + (updated + "\n" + (Segments(aqs) + "\n" + ("\n" + Footer))) + "\n"
  }

  /** `build_text`, with the timestamp `updated` passed in. */
  method BuildText(updated: string, aqs: seq<AirQuality>) returns (text: string)
    ensures text == ReportText(updated, aqs)
  {
    var sensors := "";
    for i := 0 to |aqs|
      invariant sensors == Segments(aqs[..i])
    {
      assert aqs[..i + 1][..i] == aqs[..i];
      sensors := sensors + "\n" + Line(aqs[i]);
    }
    assert aqs[..|aqs|] == aqs;
    text := Header + "\n" + (updated + "\n" + (sensors + "\n" + ("\n" + Footer))) + "\n";
  }

  /** A reading whose source label and legend fit on one line. */
  predicate OneLine(aq: AirQuality) {
    NoNewline(aq.source) && NoNewline(aq.legend)
  }

  /** A well-formed reading has a one-line legend, so only its source label
      can break the report's line structure. */
  lemma ValidOneLine(aq: AirQuality)
    requires aq.Valid() && NoNewline(aq.source)
    ensures OneLine(aq)
  {
    LegendOneLine(BandOf(aq.index));
  }

  lemma LineNoNewline(aq: AirQuality)
    requires OneLine(aq)
    ensures NoNewline(Line(aq))
  {
  }

  lemma {:induction false} SegmentsLines(aqs: seq<AirQuality>)
    requires forall k :: 0 <= k < |aqs| ==> OneLine(aqs[k])
    ensures Split(Segments(aqs)) == [""] + Lines(aqs)
    decreases |aqs|
  {
    if aqs != [] {
      var init, last := aqs[..|aqs| - 1], aqs[|aqs| - 1];
      var segs, line := Segments(init), Line(last);
      SegmentsLines(init);
      LineNoNewline(last);
      calc {
        Split(Segments(aqs));
        Split(segs + "\n" + line);
        { SplitConcat(segs, line); }
        Split(segs) + Split(line);
        { SplitNoNewline(line); }
        [""] + Lines(init) + [line];
        [""] + Lines(aqs);
      }
    }
  }

  /** The line structure of the report's layout, for any header, timestamp,
      segments and footer that fit on one line each. */
  lemma SplitLayout(header: string, updated: string, segs: string, footer: string)
    requires NoNewline(header) && NoNewline(updated) && NoNewline(footer)
    ensures Split(header + "\n" + (updated + "\n" + (segs + "\n" + ("\n" + footer))))
         == [header, updated] + Split(segs) + ["", footer]
  {
    var tail := "\n" + footer;
    var mid := segs + "\n" + tail;
    var rest := updated + "\n" + mid;
    SplitNoNewline(header);
    SplitNoNewline(updated);
    SplitNoNewline(footer);
    assert tail == "" + "\n" + footer;
    SplitConcat("", footer);
    SplitConcat(segs, tail);
    SplitConcat(updated, mid);
    SplitConcat(header, rest);
    Nest(header, updated, Split(segs), "", footer);
  }

  lemma Nest<T>(a: T, b: T, middle: seq<T>, d: T, e: T)
    ensures [a] + ([b] + (middle + ([d] + [e]))) == [a, b] + middle + [d, e]
  {
  }

  lemma ConstantsOneLine()
    ensures NoNewline(Header) && NoNewline(Footer)
  {
  }

  /** The lines of the report: the header, the timestamp and a blank line,
      then one line per reading in input order, then a blank line and the
      footer. */
  lemma ReportLines(updated: string, aqs: seq<AirQuality>)
    requires NoNewline(updated)
    requires forall k :: 0 <= k < |aqs| ==> OneLine(aqs[k])
    ensures SplitLines(ReportText(updated, aqs)) == [Header, updated, ""] + Lines(aqs) + ["", Footer]
  {
    SegmentsLines(aqs);
    ReportLinesFromSegments(updated, aqs);
  }

  lemma ReportLinesFromSegments(updated: string, aqs: seq<AirQuality>)
    requires NoNewline(updated)
    requires Split(Segments(aqs)) == [""] + Lines(aqs)
    ensures SplitLines(ReportText(updated, aqs)) == [Header, updated, ""] + Lines(aqs) + ["", Footer]
  {
    ReportSplit(updated, aqs);
    Regroup(Header, updated, "", Lines(aqs), "", Footer);
  }

  lemma ReportSplit(updated: string, aqs: seq<AirQuality>)
    requires NoNewline(updated)
    ensures SplitLines(ReportText(updated, aqs)) == [Header, updated] + Split(Segments(aqs)) + ["", Footer]
  {
    var body := Header + "\n" + (updated + "\n" + (Segments(aqs) + "\n" + ("\n" + Footer)));
    DropFinalNewline(body);
    ConstantsOneLine();
    SplitLayout(Header, updated, Segments(aqs), Footer);
  }

  lemma DropFinalNewline(body: string)
    ensures SplitLines(body + "\n") == Split(body)
  {
    assert (body + "\n")[..|body|] == body;
  }

  lemma Regroup<T>(a: T, b: T, c: T, middle: seq<T>, d: T, e: T)
    ensures [a, b] + ([c] + middle) + [d, e] == [a, b, c] + middle + [d, e]
  {
  }
}
