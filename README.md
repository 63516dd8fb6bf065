# BAROQUE core in Dafny

BAROQUE is a command-line harness for quantum circuits. It reads a circuit
and, optionally, a second circuit to compare against. It selects IBM
backends, queues the metrics the user asked for, and prints a text report.
This project models the part of BAROQUE that decides what runs and how its
results are printed:

- the named reference cells (`Reference`) and the fifteen process-wide
  slots built from them;
- `handle_argv`, the walk over the parsed options. It sets slots, edits the
  preference map and queues metric requests;
- `run_metrics`, which drains the queue and concatenates what each metric
  printer returns;
- `no_valid_backend_check`, and the start-up gate in `main`: the
  compare-backend fallback, the input and API-key checks, the
  show-backends flag and the backend check;
- the constant sets of backend names, gate identifiers and routing methods;
- the two text templates and the gate-difference printer
  `printMetricDiffGate`.

Layout:

- `wrappers.dfy` holds `Option` and `Result`.
- `constants.dfy` holds the constants.
- `print_metrics.dfy` holds the templates, readers that parse a block back
  into its fields, and the printer, both as written and as intended.
- `reference.dfy` holds `Reference`, the slots and the `Settings` object
  that owns them.
- `metric_queue.dfy` holds the requests, the queue and `RunMetrics`.
- `handle_argv.dfy` holds the option walk.
- `startup.dfy` holds the backend check and the gate.

Each imperative piece of the source is a method. Its contract is stated
against a function of the old state: `SlotsAfter`, `PrefsAfter`,
`Requests`, `Drain` or `Gating`. The lemmas beside each function say what
the source promises about it.

## Model

| member | source | states |
|---|---|---|
| References.Reference.constructor | Baroque.py:48-50 | a new reference holds the given value and name; the name defaults to "" |
| References.Reference.Set | Baroque.py:58-60 | after `set(v, n)` the value is v and the name is n ("" by default); the reference is empty exactly when v is None or "" |
| References.EmptyValues | Baroque.py:62-65 | `isEmpty` holds for None and "" only; False, a non-empty string and any object are not empty |
| References.Settings.constructor | Baroque.py:68-83 | fifteen distinct references, one per slot, all None except the show-backends flag, which is False |
| References.Settings.Get | Baroque.py:55-56 | reading a slot gives the value it holds |
| References.Settings.Assign | Baroque.py:58-60 | `slot.set(v)` gives that slot v with name ""; every other slot is unchanged |
| Constants.ValidGateStringsExactly | BAROQUE_Common_Constants.py:66-75 | the gate set is exactly {cx, sx, id, rz, x, reset, measure} and has 7 members, because the controlled-NOT and controlled-X names coincide |
| Constants.UnknownGateRejected | BAROQUE_Common_Constants.py:75 | "zz" is not an accepted gate |
| Constants.HardwarePrefixes | BAROQUE_Common_Constants.py:21-52 | every hardware name starts with "ibm_" or "ibmq_" |
| Constants.HardwareCount | BAROQUE_Common_Constants.py:26-52 | there are 22 distinct hardware names |
| Constants.SimulatorCount | BAROQUE_Common_Constants.py:55-63 | there are 7 distinct simulator names |
| Constants.HardwareSimulatorsDisjoint | BAROQUE_Common_Constants.py:26-63 | no name is both hardware and simulator, although "ibmq_qasm_simulator" carries the "ibmq_" prefix |
| Constants.RoutingMethodsDistinct | BAROQUE_Common_Constants.py:78-82 | the five routing method names are pairwise distinct |
| PrintMetrics.MetricOutLines | Print_Metrics.py:14-17 | a result block is four lines, in the order Metric, Gate, Result Note, Result, each a label, a tab and its field |
| PrintMetrics.MetricOutRoundTrip | Print_Metrics.py:14-17 | every field of a result block is read back from its text |
| PrintMetrics.MetricErrorRoundTrip | Print_Metrics.py:21 | an error block is "ERROR - ", the metric name, ": ", the note and a newline; the name and the note are read back |
| PrintMetrics.ErrorIsNotResult | Print_Metrics.py:14-21 | an error block never parses as a result block |
| PrintMetrics.ValidGateSingleLine | BAROQUE_Common_Constants.py:66-75 | no accepted gate identifier contains a newline, so the Gate line of a block is a single line |
| PrintMetrics.PrintMetricDiffGate | Print_Metrics.py:24-43 | the metric function is called exactly when the gate is accepted; one or two blocks are printed |
| PrintMetrics.DiffGateInvalidGate | Print_Metrics.py:31-34 | an unknown gate prints only the invalid-gate error and skips the metric, even when the compare circuit is also missing |
| PrintMetrics.InvalidGateText | Print_Metrics.py:32 | the invalid-gate error is exactly "ERROR - metricDiffGate: Invalid gate string chosen.\n" |
| PrintMetrics.InvalidGateConsoleText | Print_Metrics.py:31-34 | on the console that error is followed by the empty line that print adds |
| PrintMetrics.DiffGateMissingCompare | Print_Metrics.py:35-43 | a None compare circuit prints the compare error and does not return; the metric still runs and its result block follows |
| PrintMetrics.DiffGateResult | Print_Metrics.py:38-43 | with an accepted gate, the last block parses to description "Difference in Gate Occurrences", the gate, note "Compare - Input" and the metric's value |
| PrintMetrics.DiffGateReportBlocks | Print_Metrics.py:31-43 | the intended report is the invalid-gate error for an unknown gate, else the compare error when the compare circuit is unbound, else the result block |
| PrintMetrics.DiffGateReportSkipsMetric | Print_Metrics.py:31-37 | on either error the intended report does not depend on the metric |
| MetricQueues.MetricQueue.constructor | Baroque.py:117 | a new queue is empty |
| MetricQueues.MetricQueue.Put | Baroque.py:397-410 | `put` appends the request at the back |
| MetricQueues.MetricQueue.Get | Baroque.py:424 | `get` removes and returns the front request |
| MetricQueues.MetricQueue.Empty | Baroque.py:423 | `empty` holds exactly when no request is queued |
| MetricQueues.RunMetrics | Baroque.py:416-426 | the result and the queue left behind are those of draining the queue front to back: the first None ends the run with a TypeError |
| MetricQueues.DrainConcatenates | Baroque.py:422-426 | when every printer returns text, the report is the in-order concatenation and the queue ends empty |
| MetricQueues.DrainStopsAtNone | Baroque.py:425 | the first printer that returns None raises a TypeError; the requests behind it stay queued |
| MetricQueues.DiffGateBreaksRunMetrics | Baroque.py:425 | as written, a queued gate-difference request makes run_metrics raise a TypeError no later than when it is drained, leaving a suffix of the queue that holds every request behind it; when no earlier printer returns None, the run stops exactly at that request |
| MetricQueues.DrainFailsByNone | Baroque.py:421-426 | a printer returning None at any position makes the run raise a TypeError no later than there; what stays queued is a suffix holding every request behind that position |
| MetricQueues.QueuedDiffGateIgnoresEmptyCompare | Baroque.py:398-399 | as written, a queued gate-difference request hands its printer the two references it is bound to, so the compare check never fires and only the result block is printed |
| MetricQueues.IntendedRunConcatenates | Baroque.py:422-426 | with the intended printer, run_metrics never raises: it returns every request's text in queue order and empties the queue |
| Argv.SetDefaultCompareFileRejected | Baroque.py:317-349 | no accepted long option starts with "set_default_compare_file", so getopt never yields that option |
| Argv.ApplySlotOption | Baroque.py:355-368 | one option sets the slot it names to its argument, or raises the show-backends flag; other options change no slot |
| Argv.ApplyPrefOption | Baroque.py:371-393 | one option sets the preference key it names, or --reset_all blanks the six defaults |
| Argv.EnqueueOption | Baroque.py:396-410 | one option appends the requests it names to the queue |
| Argv.HandleOption | Baroque.py:355-412 | the loop body: one option's effect on the slots, the preference map and the queue together |
| Argv.HandleArgv | Baroque.py:354-413 | after the walk, the slots, the preference map and the queue are those the options produce one by one, in order |
| Argv.LastOptionWins | Baroque.py:355-368 | among options writing the same slot, the last one decides its value |
| Argv.SlotUntouched | Baroque.py:355-368 | a slot no option writes keeps its contents |
| Argv.RequestsAppend | Baroque.py:396-410 | the requests of two option lists in a row are the first list's, then the second's |
| Argv.RequestsSnoc | Baroque.py:396-410 | one more option adds its own requests at the back of the queue |
| Argv.QueuedInOption | Baroque.py:396-410 | each option's requests sit in the queue directly after those of the options before it |
| Argv.EnqueuedByOption | Baroque.py:396-410 | each single metric option queues exactly one request of its own kind, carrying its gate argument where it has one; --metricRaw queues the input-side raw request, then the compare-side one; other options queue nothing |
| Argv.MetricOptionsOnlyQueue | Baroque.py:396-410 | an option that queues something changes no slot and no preference |
| Argv.NonMetricOptionsQueueNothing | Baroque.py:354-410 | when no option is a metric option, nothing is queued |
| Argv.ResetAll | Baroque.py:387-393 | --reset_all sets the six defaults to "" and keeps every other key, including API_KEY and DEFAULT_COMPARE_FILE |
| Argv.PrefStepKeepsCompareFile | Baroque.py:371-393 | only --set_default_compare_file changes the default compare file |
| Argv.CompareFileDefaultKept | Baroque.py:375-376 | for options getopt accepts, the default compare file never changes |
| Startup.NoValidBackendCheck | Baroque.py:249-269 | the check passes exactly when every backend that is neither None nor "" equals an offered name; on failure the error line is printed |
| Startup.BackendCheckSymmetric | Baroque.py:257-266 | swapping the two backends does not change the verdict |
| Startup.BackendCheckMonotone | Baroque.py:260-265 | offering more names never turns a pass into a failure |
| Startup.BackendCheckScenario | Baroque.py:257-269 | with "sim_a" and "sim_b" offered, "sim_a" beside an unset backend passes and "sim_x" fails |
| Startup.ApplyCompareFallback | Baroque.py:126-131 | a compare file with a "" compare backend copies the input backend into the compare slot and prints the warning; compare_exists records whether the compare file is set |
| Startup.CheckInputs | Baroque.py:134-141 | cont_metrics holds exactly when the input file and the input backend are both set; one warning is printed for each that is "" |
| Startup.ServeShowBackends | Baroque.py:156-158 | a raised show-backends flag lists the backends once and is lowered |
| Startup.FinishGate | Baroque.py:142-165 | from the API key check on: an empty key stops before any listing; otherwise the flag is served, then metrics stop when cont_metrics is false, or after a second listing when a backend is not offered |
| Startup.StartupGate | Baroque.py:126-165 | the verdict, the slots, the printed lines and the number of backend listings are those of the gate, decided in the source's order |
| Startup.CompareBackendFallback | Baroque.py:127-131 | a compare file with no compare backend borrows the input backend whatever else is decided; a set compare backend is kept |
| Startup.ApiKeyCheckedFirst | Baroque.py:142-144 | an empty API key stops main before any backend listing, and the result does not depend on the offered names |
| Startup.NoMetricsExactly | Baroque.py:134-141 | with an API key, metrics are abandoned exactly when the input file or the input backend is "" |
| Startup.NoneFilePassesGate | Baroque.py:136-141 | the gate compares with "" only, so an input file slot holding None passes as set |
| Startup.ProceedRequires | Baroque.py:160-169 | main goes on exactly when the API key, the input file and the input backend are set and both backends are offered; the compare container is built exactly when a compare file is set |
| Startup.ShowBackendsCleared | Baroque.py:156-158 | once past the API key check, the show-backends flag is lowered |

## Left out

- getopt's own tokenising is not modelled. `HandleArgv` starts from the parsed (option, argument) pairs. Only the list of accepted names is kept, in `Argv.Accepted`.
- The GetoptError path is not modelled. There `handle_argv` prints a line and returns None, which `main` cannot unpack.
- The preferences file is not modelled: the template copy, the JSON load and the dump. The preference map is a parameter and a result.
- Loading the slots from the preferences (Baroque.py:107-114) is not modelled. The gate starts from whatever the slots hold.
- Argv.HandleArgv: the preference dictionary is updated in place and also returned. The model returns the new map, which is what `main` uses.
- `-h/--help` (usage, Baroque.py:447-454) and `--show_defaults` (show_defaults, Baroque.py:293-303) are modelled as changing no slot, preference or queue entry. Their printing and their exceptions are not modelled. `usage` raises when help.txt cannot be opened. `show_defaults` concatenates each of seven preference values onto a string: a missing key raises KeyError, and a value that is not a string (None, say) raises TypeError. Either exception ends `handle_argv` and `main`. `SlotStep`, `PrefStep` and `Enqueued` instead treat these options as doing nothing, and the fold goes on to the next option.
- Backend enumeration through IBMProvider, AerSimulator and AerProvider, and `show_available_backends`, are foreign library and network calls. The offered names are a parameter, and a listing is only counted.
- Everything in `main` after the backend check is not modelled: the interface containers, qasm3 loading, DAG conversion, the commented-out transpilation, and writing the report to a file or the console.
- The other metric printers (count, ratio and depth gate metrics, raw results) and everything in BAROQUE_Metrics are not part of this model. In Print_Metrics.py only `printMetricDiffGate` is defined, so the other names Baroque.py:396-410 queues are not part of this model either. A request's printer output is a parameter (`others`, `metric`), and the metric value is an uninterpreted string. In the as-written `Returned`, `others` may return None for any request.
- PrintMetrics.PrintMetricDiffGate: an exception raised inside the metric function is not modelled.
- PrintMetrics.PrintMetricDiffGate: the printed text is a list of strings handed to print. `Stdout` adds the newline print appends to each.
- Startup.StartupGate: the warning lines are given without the newline print adds.
- PrintMetrics.PrintMetricDiffGate: a missing compare circuit does not stop the printer. The model follows the code here: it prints the error and carries on. The intended behaviour, which stops, is `PrintMetrics.DiffGateReport`.

## Findings

| source | as written | input that shows it | evidently intended | confidence | as-written member | corrected member |
|---|---|---|---|---|---|---|
| Baroque.py:425 | `printMetricDiffGate` prints its block and returns None, and `run_metrics` appends that return value to its string, which raises a TypeError | options `--metricDiffGate=cx`, with the gate passing the start-up checks | the printer returns its block, and the report is every request's text in queue order | not executed | MetricQueues.DiffGateBreaksRunMetrics | MetricQueues.IntendedRunConcatenates |
| Print_Metrics.py:35-37 | the compare check tests `circuit_b is None`, but the queued call passes the compare-circuit reference object, which is never None; and even on None there is no return, so the metric runs on a missing circuit | options `--metricDiffGate=cx` with no compare file: the compare slot holds None, yet no compare error is printed | test the value held by the reference, and stop with the compare error | not executed | MetricQueues.QueuedDiffGateIgnoresEmptyCompare | PrintMetrics.DiffGateReportBlocks |
