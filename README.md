# Runtime benchmark of Bac2Feature, modelled in Dafny

The script `scripts/04_runtime_benchmarking/calc_time.py` measures how the
prediction tool `bac_to_feature.py` scales with the size of its input. It
takes one prediction method (`homology`, `phylogeny` or `taxonomy`) and
profiles the tool on each size of a fixed sweep, 1000 to 10000 sequences in
steps of 1000. For each size it records the wall-clock time, the CPU time and
the peak memory. It then writes the results as a four-column table to `time_<method>.tsv`.
The CPU time is read with `time.process_time()`, which counts only the
script's own process, and the memory samples are taken by `memory_profiler`
with its default of sampling only the script's own process. Neither value
covers the `bac_to_feature.py` child process; the model treats both as given.

This project models the deterministic parts of that script:

- `paths.dfy` (module `Paths`) covers the file names the script uses: the
  per-size input FASTA file, the tool's per-method output file and the report.
  It also models the decimal rendering of an integer inside an f-string,
  together with its inverse.
- `command.dfy` (module `Command`) covers `run_bac2feature`'s argument list for
  each method, with a reader that recovers the input path and method from a
  well-formed command, and whether launching that list raises.
- `sweep.dfy` (module `Sweep`) covers `numpy.arange` with a positive step and
  the fixed sweep built from it.
- `benchmark.dfy` (module `Benchmark`) covers the driver loop, which grows the
  three result lists. It also covers the peak of a run's memory samples, the
  table built from the columns and the report for the whole benchmark.

Clock readings and memory samples are not computed: each sweep size's
measurements enter the model as a given `Reading`. A `Reading` holds the wall time, the CPU
time and a non-empty sequence of memory samples.

The model follows the script, not the stricter harness the script might
have been:

- A method string other than the three recognised ones yields the empty
  argument list. There is no up-front configuration error: the launcher raises
  on the empty list during the first size's run, the loop stops there, and no
  report is written.
- Runs have no timeout or failure state, and exit codes are not checked.
- There is no "unavailable" memory value.
- The sweep bounds are fixed.

## Model

| member | source | states |
|---|---|---|
| Paths.NatDigits | scripts/04_runtime_benchmarking/calc_time.py:46 | the rendering of a natural number is non-empty, all decimal digits, and starts with `0` only for zero (no leading zeros) |
| Paths.Decimal | scripts/04_runtime_benchmarking/calc_time.py:46 | the f-string rendering of an integer is non-empty and starts with a digit exactly when the integer is non-negative |
| Paths.DecimalRoundTrip | scripts/04_runtime_benchmarking/calc_time.py:46 | parsing the rendering of any integer gives that integer back |
| Paths.DecimalInjective | scripts/04_runtime_benchmarking/calc_time.py:46 | distinct integers are rendered as distinct strings |
| Paths.InputPath | scripts/04_runtime_benchmarking/calc_time.py:46 | no contract of its own: `../../data/time_calculation/test/test_seqs_{n}.fasta`; its properties are stated by `InputPathInjective` and `PathKindsDisjoint` |
| Paths.OutputPath | scripts/04_runtime_benchmarking/calc_time.py:15-29 | no contract of its own: `../../data/time_calculation/b2f_output_<method>.tsv`; its properties are stated by `OutputPathInjective`, `PathKindsDisjoint` and, as it appears in a command, `Command.Bac2FeatureCommand` |
| Paths.ReportPath | scripts/04_runtime_benchmarking/calc_time.py:69 | no contract of its own: `../../data/time_calculation/time_<method>.tsv`; its properties are stated by `ReportPathInjective` and `PathKindsDisjoint` |
| Paths.InputPathInjective | scripts/04_runtime_benchmarking/calc_time.py:46 | `test_seqs_{n}.fasta` names a different file for every size n |
| Paths.OutputPathInjective | scripts/04_runtime_benchmarking/calc_time.py:15-29 | `b2f_output_<method>.tsv` names a different file for every method |
| Paths.ReportPathInjective | scripts/04_runtime_benchmarking/calc_time.py:69 | `time_<method>.tsv` names a different report for every method |
| Paths.PathKindsDisjoint | scripts/04_runtime_benchmarking/calc_time.py:13-69 | an input file, a tool output file and a report never share a name, whatever the size and methods |
| Command.Recognised | scripts/04_runtime_benchmarking/calc_time.py:11-25 | no contract of its own: the method is `homology`, `phylogeny` or `taxonomy`, the three tests of the if/elif chain; `CommandRoundTrip` states that exactly these methods get a non-empty command |
| Command.Bac2FeatureCommand | scripts/04_runtime_benchmarking/calc_time.py:9-31 | for each recognised method the list is exactly `[bac_to_feature.py, -s, path, -o, b2f_output_<method>.tsv, -m, method, --threads, 1]`, with the path passed through at index 2 and the method at index 6; any other string yields `[]` |
| Command.CommandRoundTrip | scripts/04_runtime_benchmarking/calc_time.py:10-31 | the list is non-empty exactly when the method is recognised; reading a built command back gives its input path and method, and the empty list reads back as nothing |
| Command.CommandArgsSound | scripts/04_runtime_benchmarking/calc_time.py:13-31 | every well-formed nine-element command is the one built from the path and method it reads back to |
| Command.CommandInjective | scripts/04_runtime_benchmarking/calc_time.py:13-31 | two equal non-empty commands come from the same input path and the same method |
| Command.OutputsDistinct | scripts/04_runtime_benchmarking/calc_time.py:15-29 | whatever the input paths, the three recognised methods pass three different output files to the tool |
| Command.RunBac2Feature | scripts/04_runtime_benchmarking/calc_time.py:9-32 | launching the built command raises exactly when the method is not one of the three, because the argument list is then empty |
| Sweep.Arange | scripts/04_runtime_benchmarking/calc_time.py:35 | no contract of its own: `numpy.arange` for a positive step, by recursion on `start`; its properties are stated by `ArangeSpec` and `ArangeIncreasing` |
| Sweep.Nseqs | scripts/04_runtime_benchmarking/calc_time.py:35 | no contract of its own: `arange(1000, 10000 + 1000, 1000)`; `NseqsExact` states its value |
| Sweep.ArangeSpec | scripts/04_runtime_benchmarking/calc_time.py:35 | `arange(start, stop, step)` is empty exactly when `start >= stop`; its i-th value is `start + i*step`; every value lies in `[start, stop)`; one more step past the last value reaches `stop` |
| Sweep.ArangeIncreasing | scripts/04_runtime_benchmarking/calc_time.py:35 | `arange` with a positive step is strictly increasing, so it holds no value twice |
| Sweep.NseqsExact | scripts/04_runtime_benchmarking/calc_time.py:35 | the sweep is exactly `[1000, 2000, ..., 10000]`: ten points, the i-th being 1000·(i+1), strictly increasing |
| Benchmark.Peak | scripts/04_runtime_benchmarking/calc_time.py:66 | the peak of a run's samples is one of the samples and is at least every sample |
| Benchmark.PeakUnique | scripts/04_runtime_benchmarking/calc_time.py:66 | any sample that is at least every sample equals the peak |
| Benchmark.MeasureSweep | scripts/04_runtime_benchmarking/calc_time.py:42-66 | the loop stops (`aborted`) exactly when the method is unrecognised and the sweep is non-empty; it then has handed only the first size to `run_bac2feature` and recorded no measurement. Otherwise the call log and the three result lists each have one entry per sweep size. Entry i of the log is the pair actually handed to `run_bac2feature` for size `nseqs[i]`, namely `test_seqs_{nseqs[i]}.fasta` and the method; the other entries are run i's wall time, CPU time and peak memory sample. On abort the log holds just the first size's pair |
| Benchmark.AssembleTable | scripts/04_runtime_benchmarking/calc_time.py:68 | the table has the columns `nseqs, wall_time, cpu_time, memory` in that order and one row per sweep size |
| Benchmark.TableRoundTrip | scripts/04_runtime_benchmarking/calc_time.py:68 | reading each column back out of the table gives the list it was built from, so row i is `(nseqs[i], wall[i], cpu[i], mem[i])` |
| Benchmark.CalcTime | scripts/04_runtime_benchmarking/calc_time.py:35-69 | a report is produced exactly when the method is recognised. For an unrecognised method only `test_seqs_1000.fasta` is handed to `run_bac2feature` and there is no report. Otherwise `run_bac2feature` is handed `test_seqs_{1000(i+1)}.fasta` and the method for i = 0..9 in order, and the report is `time_<method>.tsv` with columns `nseqs, wall_time, cpu_time, memory`, whose row i is `(1000(i+1), wall time, CPU time, peak memory of size i)` |
| Benchmark.SweepCommandsDistinct | scripts/04_runtime_benchmarking/calc_time.py:44-54 | for a recognised method and a sweep without repeated sizes, every run launches a different command, and no run's output file is its input file or the report |

## Left out

- `subprocess.run(cmd)` (line 32) is modelled only as raising on the empty argument list. What the launched tool does, its exit code and its output are outside the model. The driver logs, per size, the input path and method it passes to `run_bac2feature`, and `Command.Bac2FeatureCommand` gives the command built from them.
- Command.RunBac2Feature: its "raises only on the empty list" half assumes that `bac_to_feature.py` can be found on the search path and executed. Otherwise `subprocess.run` raises (for instance `FileNotFoundError`) for every method, and the script ends without a report whatever the method.
- Benchmark.CalcTime: for an unrecognised method the script's first launch raises an exception that ends the script, so no report is written. The model returns `None` for the report and stops the sweep at that point; the exception itself and its message are not modelled.
- `memory_usage(..., interval=1, timeout=100)` (line 54) is not modelled: its concurrent polling, its interval and its timeout. Its result enters the model as a given non-empty sequence of samples. The profiler may call `run_bac2feature` more than once for one size: when it took too few samples it retries with a shorter interval. The wall and CPU times then cover all of those launches, and the samples come from the last attempt. The call log in `Benchmark.MeasureSweep` and `Benchmark.CalcTime` has one entry per size, not per launch.
- `time.perf_counter`, `time.process_time` and the subtractions of their readings (lines 50-62) are not modelled. Each run's wall time and CPU time are given values.
- Floating point is not modelled: durations and memory values are mathematical reals, so there is no NaN and no rounding.
- Benchmark.Peak: takes only non-empty sample sequences (the `Samples` type). `np.max` raises on an empty list, but the profiler always returns at least one sample.
- Sweep.ArangeSpec: covers only a positive step. numpy also counts down for a negative step and rejects a zero step, but the script uses step 1000.
- pandas `DataFrame` and `to_csv` (lines 68-69) are modelled only as the column names, the rows and the report's file name. The tab-separated text itself is not modelled.
- `sys.argv` (lines 38-39) is not modelled. The method is a plain string parameter, and a missing command-line argument is outside the model.
- `n_threads` (line 37) and `test_qza_path` (line 47) are never used by the script and are left out.
- The script's result lists are module-level lists grown in place. Here they are the driver method's own sequences, because no other code reads them.
