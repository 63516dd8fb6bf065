/**
 * The metric formatter: the two text templates every metric printer uses,
 * readers that recover the fields of a formatted block, and the
 * gate-difference printer, both as the source has it and as it is
 * evidently meant to behave.
 */
module PrintMetrics {
  import Constants
  import opened Wrappers

  /** The four fields of a result block. */
  datatype Fields = Fields(desc: string, gate: string, note: string, result: string)

  /** The result template: four newline-terminated labelled lines. */
  function MetricOut(f: Fields): string
  {
    "Metric:\t" + f.desc + "\n" +
    "Gate:\t" + f.gate + "\n" +
    "Result Note:\t" + f.note + "\n" +
    "Result:\t" + f.result + "\n"
  }

  /** The error template: one newline-terminated line. */
  function MetricError(metricName: string, errorNote: string): string
  {
    "ERROR - " + metricName + ": " + errorNote + "\n"
  }

  const DiffGateName := "metricDiffGate"
  const InvalidGateNote := "Invalid gate string chosen."
  const MissingCompareNote := "Compare circuit must be defined."
  const DiffGateDesc := "Difference in Gate Occurrences"
  const DiffGateNote := "Compare - Input"

  /** The fixed labels of the gate-difference block are single lines. */
  lemma DiffGateLabelsSingleLine()
    ensures '\n' !in DiffGateDesc && '\n' !in DiffGateNote
  {
  }

  // ---------------------------------------------------------------------
  // Reading blocks back

  /** Splits `s` at the first occurrence of `c`, if there is one. */
  function ReadUntil(s: string, c: char): (r: Option<(string, string)>)
    ensures r.None? <==> c !in s
    ensures r.Some? ==> c !in r.value.0 && s == r.value.0 + [c] + r.value.1
  {
    if s == [] then None
    else if s[0] == c then Some(([], s[1..]))
    else match ReadUntil(s[1..], c)
      case None => None
      case Some((x, y)) => Some(([s[0]] + x, y))
  }

  /** The first occurrence of `c` is found, whatever follows it. */
  lemma {:induction false} ReadUntilSplit(x: string, c: char, y: string)
    requires c !in x
    ensures ReadUntil(x + [c] + y, c) == Some((x, y))
  {
    var s := x + [c] + y;
    if x != [] {
      assert s[0] == x[0] && s[1..] == x[1..] + [c] + y;
      ReadUntilSplit(x[1..], c, y);
      assert [s[0]] + x[1..] == x;
    }
  }

  /** The newline-separated lines of `s`; a final newline ends the last line. */
  function Lines(s: string): seq<string>
    decreases |s|
  {
    match ReadUntil(s, '\n')
    case None => if s == [] then [] else [s]
    case Some((line, rest)) => [line] + Lines(rest)
  }

  /** Lines of text each followed by a newline. */
  function JoinLines(ls: seq<string>): string
  {
    if ls == [] then "" else ls[0] + "\n" + JoinLines(ls[1..])
  }

  /** Splitting newline-terminated lines gives those lines back. */
  lemma {:induction false} LinesOfJoin(ls: seq<string>)
    requires forall i :: 0 <= i < |ls| ==> '\n' !in ls[i]
    ensures Lines(JoinLines(ls)) == ls
  {
    if ls != [] {
      ReadUntilSplit(ls[0], '\n', JoinLines(ls[1..]));
      LinesOfJoin(ls[1..]);
    }
  }

  /** The field of a line that starts with `tag`. */
  function After(tag: string, line: string): Option<string>
  {
    if tag <= line then Some(line[|tag|..]) else None
  }

  /** Recovers the fields of a result block, or None if `s` is not one. */
  function ParseMetricOut(s: string): Option<Fields>
  {
    if s == [] || s[|s| - 1] != '\n' then None
    else
      var ls := Lines(s);
      if |ls| != 4 then None
      else
        var desc :- After("Metric:\t", ls[0]);
        var gate :- After("Gate:\t", ls[1]);
        var note :- After("Result Note:\t", ls[2]);
        var result :- After("Result:\t", ls[3]);
        Some(Fields(desc, gate, note, result))
  }

  /** Recovers metric name and note of an error block, or None if `s` is not one. */
  function ParseMetricError(s: string): Option<(string, string)>
  {
    if s == [] || s[|s| - 1] != '\n' then None
    else
      var ls := Lines(s);
      if |ls| != 1 then None
      else
        var body :- After("ERROR - ", ls[0]);
        var (name, rest) :- ReadUntil(body, ':');
        var note :- After(" ", rest);
        Some((name, note))
  }

  /** No field of `f` spans two lines. */
  predicate SingleLine(f: Fields)
  {
    '\n' !in f.desc && '\n' !in f.gate && '\n' !in f.note && '\n' !in f.result
  }

  /**
   * A result block is the four lines "Metric:", "Gate:", "Result Note:",
   * "Result:" in this order, each a label, a tab and its field.
   */
  lemma MetricOutLines(f: Fields)
    requires SingleLine(f)
    ensures Lines(MetricOut(f)) ==
      ["Metric:\t" + f.desc, "Gate:\t" + f.gate, "Result Note:\t" + f.note, "Result:\t" + f.result]
  {
    var ls := ["Metric:\t" + f.desc, "Gate:\t" + f.gate, "Result Note:\t" + f.note, "Result:\t" + f.result];
    assert JoinLines(ls[3..]) == ls[3] + "\n" + "";
    assert JoinLines(ls[2..]) == ls[2] + "\n" + JoinLines(ls[3..]);
    assert JoinLines(ls[1..]) == ls[1] + "\n" + JoinLines(ls[2..]);
    assert JoinLines(ls) == ls[0] + "\n" + JoinLines(ls[1..]);
    assert JoinLines(ls) == MetricOut(f);
    LinesOfJoin(ls);
  }

  /** Every field of a result block can be read back from the text. */
  lemma MetricOutRoundTrip(f: Fields)
    requires SingleLine(f)
    ensures ParseMetricOut(MetricOut(f)) == Some(f)
  {
    MetricOutLines(f);
  }

  /** The metric name and the note of an error block can be read back. */
  lemma MetricErrorRoundTrip(metricName: string, errorNote: string)
    requires ':' !in metricName && '\n' !in metricName && '\n' !in errorNote
    ensures ParseMetricError(MetricError(metricName, errorNote)) == Some((metricName, errorNote))
  {
    var line := "ERROR - " + metricName + ": " + errorNote;
    var s := MetricError(metricName, errorNote);
    assert s == line + "\n" + "";
    ReadUntilSplit(line, '\n', "");
    assert Lines(s) == [line];
    var body := metricName + [':'] + (" " + errorNote);
    assert line == "ERROR - " + body;
    assert After("ERROR - ", line) == Some(body);
    ReadUntilSplit(metricName, ':', " " + errorNote);
    assert After(" ", " " + errorNote) == Some(errorNote);
  }

  /** An error block is never mistaken for a result block. */
  lemma ErrorIsNotResult(metricName: string, errorNote: string)
    ensures ParseMetricOut(MetricError(metricName, errorNote)).None?
  {
    var s := MetricError(metricName, errorNote);
    var ls := Lines(s);
    if |ls| == 4 {
      assert ReadUntil(s, '\n').Some?;
      assert ls[0] <= s;
      assert s[0] == 'E';
    }
  }

  /** No recognised gate identifier contains a newline. */
  lemma ValidGateSingleLine(gate: string)
    requires gate in Constants.ValidGateStrings
    ensures '\n' !in gate
  {
    Constants.ValidGateStringsExactly();
  }

  // ---------------------------------------------------------------------
  // printMetricDiffGate as written

  /**
   * What a call of the printer does: the strings it hands to print, in
   * order, and whether it calls the metric function. The printer itself
   * returns nothing (Python None); print adds a newline after each string.
   */
  datatype Effect = Effect(printed: seq<string>, metricCalled: bool)

  /** The console text of the printed strings. */
  function Stdout(printed: seq<string>): string
  {
    JoinLines(printed)
  }

  /**
   * printMetricDiffGate. `a` and `b` are the two arguments, None standing
   * for Python's None; `metric` is the string form of
   * Metrics.metricDiffGate, which is not part of this model.
   */
  function PrintMetricDiffGate<C>(a: Option<C>, b: Option<C>, gate: string,
                                  metric: (Option<C>, Option<C>, string) -> string): (e: Effect)
    ensures e.metricCalled <==> gate in Constants.ValidGateStrings
    ensures 1 <= |e.printed| <= 2
  {
    if gate !in Constants.ValidGateStrings then
      Effect([MetricError(DiffGateName, InvalidGateNote)], false)
    else
      var warning := if b.None? then [MetricError(DiffGateName, MissingCompareNote)] else [];
      var out := MetricOut(Fields(DiffGateDesc, gate, DiffGateNote, metric(a, b, gate)));
      Effect(warning + [out], true)
  }

  /**
   * An unknown gate prints exactly the invalid-gate error and nothing else,
   * whether or not the compare circuit is missing: the gate is checked first.
   */
  lemma DiffGateInvalidGate<C>(a: Option<C>, b: Option<C>, gate: string,
                               metric: (Option<C>, Option<C>, string) -> string)
    requires gate !in Constants.ValidGateStrings
    ensures var e := PrintMetricDiffGate(a, b, gate, metric);
      && !e.metricCalled
      && |e.printed| == 1
      && ParseMetricError(e.printed[0]) == Some((DiffGateName, InvalidGateNote))
  {
    MetricErrorRoundTrip(DiffGateName, InvalidGateNote);
  }

  /** The invalid-gate error, spelled out. */
  lemma InvalidGateText()
    ensures MetricError(DiffGateName, InvalidGateNote)
      == "ERROR - metricDiffGate: Invalid gate string chosen.\n"
  {
    DiffGateErrorPrefix();
    assert "ERROR - metricDiffGate: " + InvalidGateNote == "ERROR - metricDiffGate: Invalid gate string chosen.";
  }

  /** Every gate-difference error line starts the same way. */
  lemma DiffGateErrorPrefix()
    ensures "ERROR - " + DiffGateName + ": " == "ERROR - metricDiffGate: "
  {
    assert "ERROR - " + DiffGateName == "ERROR - metricDiffGate";
  }

  /** On the console the invalid-gate error is one line followed by an empty line. */
  lemma InvalidGateConsoleText<C>(a: Option<C>, b: Option<C>, gate: string,
                                  metric: (Option<C>, Option<C>, string) -> string)
    requires gate !in Constants.ValidGateStrings
    ensures Stdout(PrintMetricDiffGate(a, b, gate, metric).printed)
      == "ERROR - metricDiffGate: Invalid gate string chosen.\n\n"
  {
    var m := MetricError(DiffGateName, InvalidGateNote);
    assert [m][1..] == [] && JoinLines([]) == "";
    assert Stdout([m]) == m + "\n";
    InvalidGateText();
  }

  /**
   * A missing compare circuit (a None argument) prints the compare error
   * but does not stop the printer: the metric is still computed and its
   * result block follows the error.
   */
  lemma DiffGateMissingCompare<C>(a: Option<C>, gate: string,
                                  metric: (Option<C>, Option<C>, string) -> string)
    requires gate in Constants.ValidGateStrings
    ensures var e := PrintMetricDiffGate(a, None, gate, metric);
      && e.metricCalled
      && |e.printed| == 2
      && ParseMetricError(e.printed[0]) == Some((DiffGateName, MissingCompareNote))
      && e.printed[1] == MetricOut(Fields(DiffGateDesc, gate, DiffGateNote, metric(a, None, gate)))
  {
    MetricErrorRoundTrip(DiffGateName, MissingCompareNote);
  }

  /**
   * With a known gate the last printed block is the result block: the
   * description, the gate itself, the note "Compare - Input" and the
   * metric's value, in this order.
   */
  lemma DiffGateResult<C>(a: Option<C>, b: Option<C>, gate: string,
                          metric: (Option<C>, Option<C>, string) -> string)
    requires gate in Constants.ValidGateStrings
    requires '\n' !in metric(a, b, gate)
    ensures var e := PrintMetricDiffGate(a, b, gate, metric);
      ParseMetricOut(e.printed[|e.printed| - 1])
        == Some(Fields(DiffGateDesc, gate, DiffGateNote, metric(a, b, gate)))
  {
    var f := Fields(DiffGateDesc, gate, DiffGateNote, metric(a, b, gate));
    ValidGateSingleLine(gate);
    DiffGateLabelsSingleLine();
    LastPrintedIsResult(a, b, gate, metric);
    LastBlockParses(PrintMetricDiffGate(a, b, gate, metric).printed, f);
  }

  /** A list of blocks ending in a result block yields its fields from the last one. */
  lemma LastBlockParses(printed: seq<string>, f: Fields)
    requires printed != [] && printed[|printed| - 1] == MetricOut(f) && SingleLine(f)
    ensures ParseMetricOut(printed[|printed| - 1]) == Some(f)
  {
    MetricOutRoundTrip(f);
  }

  /** With a known gate the last printed block is the result block. */
  lemma LastPrintedIsResult<C>(a: Option<C>, b: Option<C>, gate: string,
                               metric: (Option<C>, Option<C>, string) -> string)
    requires gate in Constants.ValidGateStrings
    ensures var e := PrintMetricDiffGate(a, b, gate, metric);
      e.printed[|e.printed| - 1] == MetricOut(Fields(DiffGateDesc, gate, DiffGateNote, metric(a, b, gate)))
  {
  }

  // ---------------------------------------------------------------------
  // printMetricDiffGate as evidently intended

  /**
   * The gate-difference report as the rest of the program needs it: the
   * text is returned, and a missing compare circuit (read through its
   * reference) stops the metric like an unknown gate does. `a` and `b`
   * are the references bound to the request.
   */
  function DiffGateReport<C>(a: C, b: C, compareBound: bool, gate: string,
                             metric: (C, C, string) -> string): string
  {
    if gate !in Constants.ValidGateStrings then
      MetricError(DiffGateName, InvalidGateNote)
    else if !compareBound then
      MetricError(DiffGateName, MissingCompareNote)
    else
      MetricOut(Fields(DiffGateDesc, gate, DiffGateNote, metric(a, b, gate)))
  }

  /**
   * The report is the invalid-gate error for an unknown gate, else the
   * compare error when the compare circuit is unbound, else the result
   * block with the metric's value.
   */
  lemma DiffGateReportBlocks<C>(a: C, b: C, compareBound: bool, gate: string,
                                metric: (C, C, string) -> string)
    ensures var r := DiffGateReport(a, b, compareBound, gate, metric);
      && (gate !in Constants.ValidGateStrings ==>
            ParseMetricError(r) == Some((DiffGateName, InvalidGateNote)))
      && (gate in Constants.ValidGateStrings && !compareBound ==>
            ParseMetricError(r) == Some((DiffGateName, MissingCompareNote)))
      && (gate in Constants.ValidGateStrings && compareBound && '\n' !in metric(a, b, gate) ==>
            ParseMetricOut(r) == Some(Fields(DiffGateDesc, gate, DiffGateNote, metric(a, b, gate))))
  {
    if gate !in Constants.ValidGateStrings {
      MetricErrorRoundTrip(DiffGateName, InvalidGateNote);
    } else if !compareBound {
      MetricErrorRoundTrip(DiffGateName, MissingCompareNote);
    } else if '\n' !in metric(a, b, gate) {
      ValidGateSingleLine(gate);
      DiffGateLabelsSingleLine();
      MetricOutRoundTrip(Fields(DiffGateDesc, gate, DiffGateNote, metric(a, b, gate)));
    }
  }

  /** On either error the report does not depend on the metric: it is never consulted. */
  lemma DiffGateReportSkipsMetric<C>(a: C, b: C, compareBound: bool, gate: string,
                                     m1: (C, C, string) -> string, m2: (C, C, string) -> string)
    requires gate !in Constants.ValidGateStrings || !compareBound
    ensures DiffGateReport(a, b, compareBound, gate, m1) == DiffGateReport(a, b, compareBound, gate, m2)
  {
  }
}
