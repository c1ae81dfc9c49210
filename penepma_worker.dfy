/**
 * The PENEPMA worker: it exports a simulation into an empty directory,
 * launches the PENEPMA executable and turns each line of its standard
 * output into a status text or a progress fraction.  The subprocess is
 * replaced by the lines it prints and its return code; the export is
 * replaced by the path of the input file it would create.
 */
module PenepmaWorker {
  import opened Wrappers

  /** Python's `str.strip()` whitespace. */
  predicate IsWhitespace(c: char)
  {
    c == ' ' || c == '\t' || c == '\n' || c == '\r' || c == '\U{B}' || c == '\U{C}'
  }

  function TrimLeft(s: string): (r: string)
    ensures |r| <= |s| && r == s[|s| - |r|..]
    ensures r == [] || !IsWhitespace(r[0])
    ensures forall i :: 0 <= i < |s| - |r| ==> IsWhitespace(s[i])
  {
    if s != [] && IsWhitespace(s[0]) then
      var r := TrimLeft(s[1..]);
      assert s[1..][|s| - 1 - |r|..] == s[|s| - |r|..];
      assert forall i :: 1 <= i < |s| - |r| ==> s[i] == s[1..][i - 1];
      r
    else s
  }

  function TrimRight(s: string): (r: string)
    ensures |r| <= |s| && r == s[..|r|]
    ensures r == [] || !IsWhitespace(r[|r| - 1])
    ensures forall i :: |r| <= i < |s| ==> IsWhitespace(s[i])
  {
    if s != [] && IsWhitespace(s[|s| - 1]) then
      var r := TrimRight(s[..|s| - 1]);
      assert s[..|s| - 1][..|r|] == s[..|r|];
      assert forall i :: |r| <= i < |s| - 1 ==> s[i] == s[..|s| - 1][i];
      r
    else s
  }

  /** `str.strip()`: the slice of `s` left after dropping leading and trailing whitespace. */
  function Strip(s: string): (r: string)
    ensures r == [] || (!IsWhitespace(r[0]) && !IsWhitespace(r[|r| - 1]))
    ensures var a := |s| - |TrimLeft(s)|;
            && a + |r| <= |s| && r == s[a..a + |r|]
            && (forall i :: 0 <= i < a ==> IsWhitespace(s[i]))
            && (forall i :: a + |r| <= i < |s| ==> IsWhitespace(s[i]))
  {
    var l := TrimLeft(s);
    var r := TrimRight(l);
    PrefixOfSuffix(s, l, r);
    r
  }

  /** A prefix `r` of a suffix `l` of `s`, followed in `l` by whitespace only. */
  lemma PrefixOfSuffix(s: string, l: string, r: string)
    requires |l| <= |s| && l == s[|s| - |l|..]
    requires |r| <= |l| && r == l[..|r|]
    requires forall j :: |r| <= j < |l| ==> IsWhitespace(l[j])
    ensures var a := |s| - |l|; r == s[a..a + |r|]
    ensures forall i :: |s| - |l| + |r| <= i < |s| ==> IsWhitespace(s[i])
  {
    var a := |s| - |l|;
    forall i | a + |r| <= i < |s|
      ensures IsWhitespace(s[i])
    {
      assert s[i] == l[i - a];
    }
  }

  /** One comma-separated field of an output line, with the value `float()` gives it when the text is a number. */
  datatype Field = Field(text: string, number: Option<real>)

  /** The limits found in the options; an absent one is `None`. */
  datatype Limits = Limits(showers: Option<real>, timeSeconds: Option<real>, uncertainty: Option<real>)

  /** A divisor that may be Python's `float('inf')`. */
  datatype Divisor = Finite(value: real) | Infinity

  /** Defaults for absent limits: 1e38 showers, 1e38 seconds, an infinite uncertainty. */
  function ShowersDivisor(l: Limits): Divisor
  {
    Finite(l.showers.GetOr(100000000000000000000000000000000000000.0))
  }

  function TimeDivisor(l: Limits): Divisor
  {
    Finite(l.timeSeconds.GetOr(100000000000000000000000000000000000000.0))
  }

  function UncertaintyDivisor(l: Limits): Divisor
  {
    if l.uncertainty.Some? then Finite(l.uncertainty.value) else Infinity
  }

  /** Float division: by infinity gives 0, by zero raises ZeroDivisionError. */
  function Divide(x: real, d: Divisor): (r: Result<real>)
    ensures d == Finite(0.0) <==> r == Err(ZeroDivisionError)
    ensures d.Infinity? ==> r == Ok(0.0)
    ensures d.Finite? && d.value != 0.0 ==> r.Ok? && r.value * d.value == x
  {
    match d
    case Infinity => Ok(0.0)
    case Finite(v) => if v == 0.0 then Err(ZeroDivisionError) else Ok(x / v)
  }

  function Max(a: real, b: real): real
  {
    if a >= b then a else b
  }

  const MIN_PROGRESS: real := 0.001

  /** The worker's `(progress, status)` pair. */
  datatype Report = Report(progress: real, status: string)

  /**
   * `float(field) / limit` for one field: ValueError when the field is not
   * a number, otherwise the division against the limit.
   */
  function Ratio(f: Field, d: Divisor): (r: Result<real>)
    ensures f.number.None? ==> r == Err(ValueError)
    ensures f.number.Some? ==> r == Divide(f.number.value, d)
  {
    if f.number.None? then Err(ValueError) else Divide(f.number.value, d)
  }

  /** Whether computing one ratio raises. */
  predicate RatioFails(f: Field, d: Divisor)
  {
    f.number.None? || d == Finite(0.0)
  }

  /** The exception one failing ratio raises. */
  function RatioError(f: Field, d: Divisor): Error
  {
    if f.number.None? then ValueError else ZeroDivisionError
  }

  /**
   * The effect of one output line: a single field becomes the stripped
   * status; four fields set the progress to the largest of 0.001 and the
   * three ratios against the limits, with status 'Running'; any other field
   * count changes nothing.  The three ratios are computed one after the
   * other, so the first field that is not a number (ValueError) or whose
   * limit is zero (ZeroDivisionError) decides the exception.
   */
  function ApplyLine(r: Report, line: seq<Field>, limits: Limits): (out: Result<Report>)
    ensures |line| == 1 ==> out == Ok(Report(r.progress, Strip(line[0].text)))
    ensures |line| != 1 && |line| != 4 ==> out == Ok(r)
    ensures |line| == 4 ==>
              (out.Ok? <==> !RatioFails(line[0], ShowersDivisor(limits)) && !RatioFails(line[1], TimeDivisor(limits))
                            && !RatioFails(line[2], UncertaintyDivisor(limits)))
    ensures |line| == 4 && out.Ok? ==>
              out.value.status == "Running" && out.value.progress >= MIN_PROGRESS
              && out.value.progress
                 == Max(Max(Max(MIN_PROGRESS, Divide(line[0].number.value, ShowersDivisor(limits)).value),
                            Divide(line[1].number.value, TimeDivisor(limits)).value),
                        Divide(line[2].number.value, UncertaintyDivisor(limits)).value)
    ensures |line| == 4 && RatioFails(line[0], ShowersDivisor(limits)) ==>
              out == Err(RatioError(line[0], ShowersDivisor(limits)))
    ensures |line| == 4 && !RatioFails(line[0], ShowersDivisor(limits)) && RatioFails(line[1], TimeDivisor(limits)) ==>
              out == Err(RatioError(line[1], TimeDivisor(limits)))
    ensures |line| == 4 && !RatioFails(line[0], ShowersDivisor(limits)) && !RatioFails(line[1], TimeDivisor(limits))
            && RatioFails(line[2], UncertaintyDivisor(limits)) ==>
              out == Err(RatioError(line[2], UncertaintyDivisor(limits)))
  {
    if |line| == 1 then Ok(Report(r.progress, Strip(line[0].text)))
    else if |line| == 4 then
      var ps := Ratio(line[0], ShowersDivisor(limits));
      if ps.Err? then Err(ps.error) else
      var pt := Ratio(line[1], TimeDivisor(limits));
      if pt.Err? then Err(pt.error) else
      var pu := Ratio(line[2], UncertaintyDivisor(limits));
      if pu.Err? then Err(pu.error) else
      Ok(Report(Max(Max(Max(MIN_PROGRESS, ps.value), pt.value), pu.value), "Running"))
    else Ok(r)
  }

  /**
   * The showers ratio is computed before the time field is parsed: a zero
   * showers limit raises ZeroDivisionError even when a later field is not a
   * number.
   */
  lemma ZeroShowersLimitComesFirst(r: Report, limits: Limits)
    requires limits.showers == Some(0.0)
    ensures ApplyLine(r, [Field("1", Some(1.0)), Field("x", None), Field("0", Some(0.0)), Field("0", Some(0.0))], limits)
            == Err(ZeroDivisionError)
  {
  }

  /**
   * The report after reading all lines in order, or the first error a line
   * raises.  Lines whose field count is neither 1 nor 4 change nothing, and
   * only a four-field line changes the progress.
   */
  function ApplyLines(r: Report, lines: seq<seq<Field>>, limits: Limits): (out: Result<Report>)
    ensures (forall i :: 0 <= i < |lines| ==> |lines[i]| != 1 && |lines[i]| != 4) ==> out == Ok(r)
    ensures out.Ok? && out.value.progress != r.progress ==> exists i :: 0 <= i < |lines| && |lines[i]| == 4
    decreases |lines|
  {
    if lines == [] then Ok(r)
    else
      var next := ApplyLine(r, lines[0], limits);
      if next.Err? then next
      else
        var rest := ApplyLines(next.value, lines[1..], limits);
        assert forall i :: 0 <= i < |lines[1..]| ==> lines[1..][i] == lines[i + 1];
        rest
  }

  /** Once launched, the progress never drops below 0.001, whatever the output lines say. */
  lemma {:induction false} ProgressStaysAboveFloor(r: Report, lines: seq<seq<Field>>, limits: Limits)
    requires r.progress >= MIN_PROGRESS
    ensures ApplyLines(r, lines, limits).Ok? ==> ApplyLines(r, lines, limits).value.progress >= MIN_PROGRESS
    decreases |lines|
  {
    if lines != [] {
      var next := ApplyLine(r, lines[0], limits);
      if next.Ok? {
        ProgressStaysAboveFloor(next.value, lines[1..], limits);
      }
    }
  }

  /** The constructor raises IOError when the executable is not an existing file. */
  function CheckExecutable(executable: string, files: set<string>): (r: Option<Error>)
    ensures r.None? <==> executable in files
    ensures r.Some? ==> r.value == IOError
  {
    if executable in files then None else Some(IOError)
  }

  /** `_create`: nothing is exported into a non-empty directory; otherwise the exported input file. */
  function CreateInput(dirEntries: set<string>, exportedInfile: string): (r: Option<string>)
    ensures r.None? <==> dirEntries != {}
    ensures r.Some? ==> r.value == exportedInfile
  {
    if dirEntries != {} then None else Some(exportedInfile)
  }

  class Worker {
    var progress: real
    var status: string
    var processRunning: bool

    constructor ()
      ensures progress == 0.0 && status == "" && !processRunning
    {
      progress := 0.0;
      status := "";
      processRunning := false;
    }

    /**
     * `_run`: nothing happens when `_create` skipped the directory.
     * Otherwise the status becomes 'Running PENEPMA' with progress 0.001,
     * each output line is applied in order, and after the process ends a
     * non-zero return code raises RuntimeError.  A line that raises leaves
     * the process recorded as running.
     */
    method Run(dirEntries: set<string>, exportedInfile: string, limits: Limits,
               lines: seq<seq<Field>>, returnCode: int) returns (r: Result<()>)
      modifies this
      ensures CreateInput(dirEntries, exportedInfile).None? ==>
                r == Ok(()) && progress == old(progress) && status == old(status)
                && processRunning == old(processRunning)
      ensures CreateInput(dirEntries, exportedInfile).Some? ==>
                var final := ApplyLines(Report(MIN_PROGRESS, "Running PENEPMA"), lines, limits);
                && progress >= MIN_PROGRESS
                && (final.Err? ==> r == Err(final.error) && processRunning)
                && (final.Ok? ==> && progress == final.value.progress && status == final.value.status
                                  && !processRunning
                                  && r == (if returnCode != 0 then Err(RuntimeError) else Ok(())))
    {
      var infile := CreateInput(dirEntries, exportedInfile);
      if infile.None? {
        return Ok(());
      }
      status := "Running PENEPMA";
      progress := MIN_PROGRESS;
      processRunning := true;
      var i := 0;
      while i < |lines|
        invariant 0 <= i <= |lines|
        invariant processRunning && progress >= MIN_PROGRESS
        invariant ApplyLines(Report(MIN_PROGRESS, "Running PENEPMA"), lines, limits)
                  == ApplyLines(Report(progress, status), lines[i..], limits)
      {
        var next := ApplyLine(Report(progress, status), lines[i], limits);
        if next.Err? {
          return Err(next.error);
        }
        assert lines[i..][1..] == lines[i + 1..];
        progress := next.value.progress;
        status := next.value.status;
        i := i + 1;
      }
      processRunning := false;
      if returnCode != 0 {
        return Err(RuntimeError);
      }
      r := Ok(());
    }
  }
}
