/** The output file: a fixed header line followed by one tab-separated line
    per video. The text of an error rate (Python's `str` of a float) is not
    modelled; rendering takes it as a function `fmt`. */
module OutputFile {

  import opened Errors
  import opened Batches

  /** The first line of every output file. */
  const Header: string := "VideoId,LabelConfidencePairs\n"

  datatype Line = HeaderLine | Body(record: Record)

  /** The body lines for a list of records, in the same order. */
  function BodyLines(records: seq<Record>): (lines: seq<Line>)
    ensures |lines| == |records|
    ensures forall i :: 0 <= i < |records| ==> lines[i] == Body(records[i])
  {
    seq(|records|, i requires 0 <= i < |records| => Body(records[i]))
  }

  lemma BodyLinesAppend(a: seq<Record>, b: seq<Record>)
    ensures BodyLines(a + b) == BodyLines(a) + BodyLines(b)
  {
  }

  function RenderLine(line: Line, fmt: real -> string): string {
    match line
    case HeaderLine => Header
    case Body(r) => r.videoId + "\t" + fmt(r.errorRate) + "\n"
  }

  /** The file's text: the lines' texts, one after the other. */
  function Render(lines: seq<Line>, fmt: real -> string): string {
    if |lines| == 0 then ""
    else Render(lines[..|lines| - 1], fmt) + RenderLine(lines[|lines| - 1], fmt)
  }

  function CountNewlines(s: string): nat {
    if |s| == 0 then 0
    else CountNewlines(s[..|s| - 1]) + (if s[|s| - 1] == '\n' then 1 else 0)
  }

  lemma {:induction false} CountNewlinesAppend(a: string, b: string)
    ensures CountNewlines(a + b) == CountNewlines(a) + CountNewlines(b)
    decreases |b|
  {
    if |b| == 0 {
      assert a + b == a;
    } else {
      assert (a + b)[..|a + b| - 1] == a + b[..|b| - 1];
      CountNewlinesAppend(a, b[..|b| - 1]);
    }
  }

  lemma {:induction false} NoNewlines(s: string)
    requires '\n' !in s
    ensures CountNewlines(s) == 0
    decreases |s|
  {
    if |s| > 0 {
      assert s[|s| - 1] in s;
      assert forall c :: c in s[..|s| - 1] ==> c in s;
      NoNewlines(s[..|s| - 1]);
    }
  }

  /** The line's text ends its only line break: neither the video id nor
      the printed error rate contains a newline. */
  predicate OneTextLine(line: Line, fmt: real -> string) {
    line.Body? ==> '\n' !in line.record.videoId && '\n' !in fmt(line.record.errorRate)
  }

  /** Each line's text holds exactly one line break, its last character. */
  lemma OneLineBreak(line: Line, fmt: real -> string)
    requires OneTextLine(line, fmt)
    ensures CountNewlines(RenderLine(line, fmt)) == 1
  {
    match line
    case HeaderLine =>
      assert Header == "VideoId,LabelConfidencePairs" + "\n";
      NoNewlines("VideoId,LabelConfidencePairs");
      CountNewlinesAppend("VideoId,LabelConfidencePairs", "\n");
    case Body(r) =>
      var text := r.videoId + "\t" + fmt(r.errorRate);
      NoNewlines(r.videoId);
      NoNewlines(fmt(r.errorRate));
      CountNewlinesAppend(r.videoId, "\t");
      CountNewlinesAppend(r.videoId + "\t", fmt(r.errorRate));
      CountNewlinesAppend(text, "\n");
  }

  /** Every line of the model becomes exactly one line of text, so a file
      of n lines has n line breaks. */
  lemma {:induction false} RenderedLineCount(lines: seq<Line>, fmt: real -> string)
    requires forall i :: 0 <= i < |lines| ==> OneTextLine(lines[i], fmt)
    ensures CountNewlines(Render(lines, fmt)) == |lines|
    decreases |lines|
  {
    if |lines| > 0 {
      var front := lines[..|lines| - 1];
      var last := lines[|lines| - 1];
      assert forall i :: 0 <= i < |front| ==> front[i] == lines[i];
      RenderedLineCount(front, fmt);
      CountNewlinesAppend(Render(front, fmt), RenderLine(last, fmt));
      OneLineBreak(last, fmt);
    }
  }

  /** The position of the first occurrence of `c` in `s`, if any. */
  function FirstIndexOf(s: string, c: char): (r: Option<nat>)
    ensures r.None? <==> c !in s
    ensures r.Some? ==> r.value < |s| && s[r.value] == c && c !in s[..r.value]
  {
    if |s| == 0 then None
    else if s[0] == c then Some(0)
    else
      var rest := FirstIndexOf(s[1..], c);
      if rest.None? then
        assert s == [s[0]] + s[1..];
        None
      else
        assert s[..rest.value + 1] == [s[0]] + s[1..][..rest.value];
        Some(rest.value + 1)
  }

  /** Reads a body line back: the text before the first tab is the video id,
      the rest up to the final newline is the printed error rate. */
  function ParseBodyLine(s: string): Option<(string, string)> {
    if |s| == 0 || s[|s| - 1] != '\n' then None
    else
      match FirstIndexOf(s[..|s| - 1], '\t')
      case None => None
      case Some(t) => Some((s[..t], s[t + 1..|s| - 1]))
  }

  /** A body line is read back as the id and printed rate it was written
      from, provided the id has no tab. */
  lemma ParseRenderedBody(r: Record, fmt: real -> string)
    requires '\t' !in r.videoId
    ensures ParseBodyLine(RenderLine(Body(r), fmt)) == Some((r.videoId, fmt(r.errorRate)))
  {
    var s := RenderLine(Body(r), fmt);
    var n := |r.videoId|;
    var line := s[..|s| - 1];
    assert line == r.videoId + "\t" + fmt(r.errorRate);
    assert forall i :: 0 <= i < n ==> line[i] == r.videoId[i];
    assert line[n] == '\t';
    assert forall j :: n < j <= |line| ==> line[..j][n] == '\t';
    var t := FirstIndexOf(line, '\t');
    assert t.value == n;
    assert s[..n] == r.videoId;
    assert s[n + 1..|s| - 1] == fmt(r.errorRate);
  }
}
