/** The benchmark's driver: the tool is profiled for each sweep size, its
    wall time, CPU time and peak memory collected in sweep order, and the
    table written to the method's report. */
module Benchmark {
  import opened Paths
  import opened Command
  import opened Sweep

  /** The memory samples the profiler returns for one sweep size; it always
      records at least the reading it takes when the run starts. */
  type Samples = s: seq<real> | |s| > 0 witness [0.0]

  /** What the environment reports for one sweep size. The two durations come from
      clock readings and the samples from the memory profiler; the model
      treats all of them as given. */
  datatype Reading = Reading(wallTime: real, cpuTime: real, memSamples: Samples)

  /** numpy's `max` over a run's memory samples: the largest sample. */
  function Peak(samples: Samples): (m: real)
    ensures m in samples
    ensures forall i :: 0 <= i < |samples| ==> samples[i] <= m
  {
    if |samples| == 1 then samples[0]
    else
      var rest := Peak(samples[1..]);
      if samples[0] >= rest then samples[0] else rest
  }

  /** A value that is one of the samples and no smaller than any of them is
      the peak: the two properties of `Peak` pin its result down. */
  lemma PeakUnique(samples: Samples, m: real)
    requires m in samples
    requires forall i :: 0 <= i < |samples| ==> samples[i] <= m
    ensures m == Peak(samples)
  {
  }

  /** The first `k` sizes of `nseqs` are recorded: each list has one entry
      per size. Entry i of `calls` is the pair of arguments handed to
      `run_bac2feature` for size i, its input file `InputPath(nseqs[i])` and
      the mode; the other entries are run i's wall time, CPU time and peak
      memory. */
  ghost predicate Recorded(mode: string, nseqs: seq<int>, readings: seq<Reading>,
                           calls: seq<(string, string)>, wallTimes: seq<real>,
                           cpuTimes: seq<real>, memUsage: seq<real>, k: nat)
    requires k <= |nseqs| == |readings|
  {
    && |calls| == k && |wallTimes| == k && |cpuTimes| == k && |memUsage| == k
    && forall i :: 0 <= i < k ==>
         && calls[i] == (InputPath(nseqs[i]), mode)
         && wallTimes[i] == readings[i].wallTime
         && cpuTimes[i] == readings[i].cpuTime
         && memUsage[i] == Peak(readings[i].memSamples)
  }

  /** Recording size `k` extends each list by that size's entry, keeping the
      earlier entries as they were. */
  lemma RecordedExtend(mode: string, nseqs: seq<int>, readings: seq<Reading>,
                       calls: seq<(string, string)>, wallTimes: seq<real>,
                       cpuTimes: seq<real>, memUsage: seq<real>, k: nat)
    requires k < |nseqs| == |readings|
    requires Recorded(mode, nseqs, readings, calls, wallTimes, cpuTimes, memUsage, k)
    ensures Recorded(mode, nseqs, readings, calls + [(InputPath(nseqs[k]), mode)],
                     wallTimes + [readings[k].wallTime], cpuTimes + [readings[k].cpuTime],
                     memUsage + [Peak(readings[k].memSamples)], k + 1)
  {
    var calls', wallTimes' := calls + [(InputPath(nseqs[k]), mode)], wallTimes + [readings[k].wallTime];
    var cpuTimes', memUsage' := cpuTimes + [readings[k].cpuTime], memUsage + [Peak(readings[k].memSamples)];
    forall i | 0 <= i < k + 1
      ensures calls'[i] == (InputPath(nseqs[i]), mode) && wallTimes'[i] == readings[i].wallTime
      ensures cpuTimes'[i] == readings[i].cpuTime && memUsage'[i] == Peak(readings[i].memSamples)
    {
      if i < k {
        assert calls'[i] == calls[i] && wallTimes'[i] == wallTimes[i];
        assert cpuTimes'[i] == cpuTimes[i] && memUsage'[i] == memUsage[i];
      }
    }
  }

  /** The driver loop. For each size of `nseqs`, in order, it profiles the
      tool on that size's input file and records what `readings` reports for
      that size: the wall time, the CPU time and the largest memory sample.
      `calls` logs, per size, the very input path and mode handed to
      `run_bac2feature`; it does not count how often the profiler launched
      the tool. For an unrecognised
      mode the command is empty, launching it raises, and the sweep stops in
      its first iteration before anything is recorded (`aborted`). */
  method MeasureSweep(mode: string, nseqs: seq<int>, readings: seq<Reading>)
    returns (aborted: bool, calls: seq<(string, string)>,
             wallTimes: seq<real>, cpuTimes: seq<real>, memUsage: seq<real>)
    requires |readings| == |nseqs|
    ensures aborted <==> !Recognised(mode) && |nseqs| > 0
    ensures aborted ==> |calls| == 1 && calls[0] == (InputPath(nseqs[0]), mode)
    ensures aborted ==> |wallTimes| == 0 && |cpuTimes| == 0 && |memUsage| == 0
    ensures !aborted ==> Recorded(mode, nseqs, readings, calls, wallTimes, cpuTimes, memUsage, |nseqs|)
  {
    aborted := false;
    calls, wallTimes, cpuTimes, memUsage := [], [], [], [];
    for k := 0 to |nseqs|
      invariant k > 0 ==> Recognised(mode)
      invariant Recorded(mode, nseqs, readings, calls, wallTimes, cpuTimes, memUsage, k)
    {
      var testSeqPath := InputPath(nseqs[k]);
      RecordedExtend(mode, nseqs, readings, calls, wallTimes, cpuTimes, memUsage, k);
      calls := calls + [(testSeqPath, mode)];
      var raised := RunBac2Feature(testSeqPath, mode);
      if raised {
        // The launcher raises on the empty argument list; the exception
        // leaves the loop before the result lists are extended.
        assert k == 0 && !Recognised(mode);
        aborted := true;
        return;
      }
      var reading := readings[k];
      wallTimes := wallTimes + [reading.wallTime];
      cpuTimes := cpuTimes + [reading.cpuTime];
      memUsage := memUsage + [Peak(reading.memSamples)];
    }
  }

  /** One line of the report. */
  datatype Row = Row(nseqs: int, wallTime: real, cpuTime: real, memory: real)

  /** The report's contents: its column names and its rows, in order. */
  datatype Table = Table(columns: seq<string>, rows: seq<Row>)

  /** Names of the report's columns, in order. */
  const Columns: seq<string> := ["nseqs", "wall_time", "cpu_time", "memory"]

  /** The table built from the four equally long columns: row i holds the
      i-th entry of each. */
  function AssembleTable(nseqs: seq<int>, wall: seq<real>, cpu: seq<real>, mem: seq<real>): (t: Table)
    requires |wall| == |nseqs| && |cpu| == |nseqs| && |mem| == |nseqs|
    ensures t.columns == Columns && |t.rows| == |nseqs|
  {
    Table(Columns, seq(|nseqs|, i requires 0 <= i < |nseqs| => Row(nseqs[i], wall[i], cpu[i], mem[i])))
  }

  function NseqsColumn(t: Table): seq<int> { seq(|t.rows|, i requires 0 <= i < |t.rows| => t.rows[i].nseqs) }
  function WallTimeColumn(t: Table): seq<real> { seq(|t.rows|, i requires 0 <= i < |t.rows| => t.rows[i].wallTime) }
  function CpuTimeColumn(t: Table): seq<real> { seq(|t.rows|, i requires 0 <= i < |t.rows| => t.rows[i].cpuTime) }
  function MemoryColumn(t: Table): seq<real> { seq(|t.rows|, i requires 0 <= i < |t.rows| => t.rows[i].memory) }

  /** Reading each column back out of the assembled table gives the lists it
      was built from, so no entry is lost, moved or mixed with another. */
  lemma TableRoundTrip(nseqs: seq<int>, wall: seq<real>, cpu: seq<real>, mem: seq<real>)
    requires |wall| == |nseqs| && |cpu| == |nseqs| && |mem| == |nseqs|
    ensures var t := AssembleTable(nseqs, wall, cpu, mem);
      NseqsColumn(t) == nseqs && WallTimeColumn(t) == wall
      && CpuTimeColumn(t) == cpu && MemoryColumn(t) == mem
  {
  }

  /** The report: where it is written and what it holds. */
  datatype Report = Report(path: string, table: Table)

  /** The whole benchmark for one method: the sweep, the tool profiled for
      each size, and the report naming the method. `readings` holds what the
      environment reports for each size, in sweep order; entry i of `calls`
      is the input path and mode handed to `run_bac2feature` for the i-th
      size. For an
      unrecognised method the first launch raises and no report is written
      (`None`). */
  method CalcTime(mode: string, readings: seq<Reading>)
    returns (calls: seq<(string, string)>, report: Option<Report>)
    requires |readings| == |Nseqs()|
    ensures report == None <==> !Recognised(mode)
    ensures !Recognised(mode) ==> calls == [(InputPath(1000), mode)]
    ensures Recognised(mode) ==> |calls| == 10
    ensures Recognised(mode) ==> forall i :: 0 <= i < 10 ==> calls[i] == (InputPath(1000 * (i + 1)), mode)
    ensures report.Some? ==> report.value.path == ReportPath(mode)
    ensures report.Some? ==> report.value.table.columns == Columns
    ensures report.Some? ==> |report.value.table.rows| == 10
    ensures report.Some? ==> forall i :: 0 <= i < 10 ==>
      report.value.table.rows[i] ==
        Row(1000 * (i + 1), readings[i].wallTime, readings[i].cpuTime, Peak(readings[i].memSamples))
  {
    var nseqs := Nseqs();
    NseqsExact();
    var aborted, wallTimes, cpuTimes, memUsage;
    aborted, calls, wallTimes, cpuTimes, memUsage := MeasureSweep(mode, nseqs, readings);
    if aborted {
      report := None;
      return;
    }
    var table := AssembleTable(nseqs, wallTimes, cpuTimes, memUsage);
    TableRoundTrip(nseqs, wallTimes, cpuTimes, memUsage);
    report := Some(Report(ReportPath(mode), table));
  }

  /** With a recognised mode, a sweep that holds no size twice (the fixed
      sweep, for one) launches a different command for every run, each
      reading its own input file, and no run writes its output over an input
      file or over the report. */
  lemma SweepCommandsDistinct(mode: string, nseqs: seq<int>)
    requires Recognised(mode)
    requires forall i, j :: 0 <= i < j < |nseqs| ==> nseqs[i] != nseqs[j]
    ensures forall i, j :: 0 <= i < j < |nseqs| ==>
      Bac2FeatureCommand(InputPath(nseqs[i]), mode) != Bac2FeatureCommand(InputPath(nseqs[j]), mode)
    ensures forall i :: 0 <= i < |nseqs| ==>
      Bac2FeatureCommand(InputPath(nseqs[i]), mode)[4] !in {InputPath(nseqs[i]), ReportPath(mode)}
  {
    forall i, j | 0 <= i < j < |nseqs|
      ensures Bac2FeatureCommand(InputPath(nseqs[i]), mode) != Bac2FeatureCommand(InputPath(nseqs[j]), mode)
    {
      if Bac2FeatureCommand(InputPath(nseqs[i]), mode) == Bac2FeatureCommand(InputPath(nseqs[j]), mode) {
        CommandInjective(InputPath(nseqs[i]), mode, InputPath(nseqs[j]), mode);
        InputPathInjective(nseqs[i], nseqs[j]);
      }
    }
    forall i | 0 <= i < |nseqs|
      ensures Bac2FeatureCommand(InputPath(nseqs[i]), mode)[4] !in {InputPath(nseqs[i]), ReportPath(mode)}
    {
      PathKindsDisjoint(nseqs[i], mode, mode);
    }
  }
}
