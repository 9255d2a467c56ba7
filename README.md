# benchHUB in Dafny

benchHUB is a benchmark suite with a public leaderboard. A client machine runs timed
workloads (CPU, memory, GPU, disk, ML, plotting) and collects the timings in one result
document. It condenses the CPU, GPU and memory timings into a single *reference index*,
saves the document locally and, if the user wants, also saves an anonymised copy for
public sharing. It then submits the result to a leaderboard service. The service stores
each submission in a `results` table, with the reference index exactly as the client
declared it. A Streamlit dashboard ranks the stored rows per configuration profile
(heavy, standard, light). Three maintenance scripts and a seeding script work on the same
table.

This project models the computational core of that system in Dafny:

- The client-side reference index scorers (`ReferenceIndex`).
- The seeding script's own, different scorers, and its batch import (`Seed`).
- The timing harness (`Timing`, with `Statistics` for median and mean).
- The trial-division prime benchmark and the shape of the CPU benchmark's result (`CpuBench`).
- The configuration profiles (`Config`), the configuration validator and the file names
  `save_results` writes (`BenchMain`).
- How a saved result file is flattened into one analysis row (`ParseResults`).
- The anonymiser, including the shallow-copy aliasing it has (`Anonymise`).
- The results table with its UNIQUE uuid and auto-assigned id (`Store`), the submission
  API (`Api`), the keep-top-N-per-category trim shared by the scripts (`Maintenance`),
  and the maintenance scripts themselves (`DbManager`, `ManageDatabase`, `DbCleanup`).
- The dashboard's data preparation: record shaping, profile list, score formatting,
  uuid search with a context window, and ranks (`Dashboard`).

Shared helpers:

- `PyValue` is the decoded JSON/Python value datatype, with `dict.get`, truthiness and
  `int()`.
- `Strings` holds `startswith`, `in`, `str.replace`, ASCII `lower`, join and decimal
  conversion.
- `Sorting` is a stable insertion sort by a real-valued key.
- `Wrappers` holds `Option` and `Result`.
- `Filtering` collects the values a partial step gives along a sequence, with the
  positions they come from.

Python exceptions are values of the `Exception` datatype carried in a `Result`. Python
floats are Dafny `real`s. A database table is a `seq<Record>` whose order carries no
meaning, so every statement about what an operation keeps or removes is made with
membership or multisets. Confirmation prompts, the clock, uuid generation and the file
system are parameters of the operations that use them.

## Model

| member | source | states |
|---|---|---|
| ReferenceIndex.CalculateReferenceIndex | benchHUB/reference_index.py:8-14 | non-negative component scores give a non-negative index; three equal scores s give 3000·s |
| ReferenceIndex.ReferenceIndexSymmetric | benchHUB/reference_index.py:14 | the index does not change when two component scores are swapped |
| ReferenceIndex.ReferenceIndexLinear | benchHUB/reference_index.py:14 | the index of a sum of score triples is the sum of their indices, and scaling the scores scales the index |
| ReferenceIndex.WeightedInverse | benchHUB/reference_index.py:24-28 | a nonzero numeric time t gives weight/t; a missing, zero or non-numeric time (the TypeError the division raises is caught) gives 0 |
| ReferenceIndex.ScoreCpu | benchHUB/reference_index.py:16-28 | succeeds exactly on a dictionary and then scores its 'calculate_primes' entry with weight 0.4; on anything else `.get` raises AttributeError, which the handler does not catch |
| ReferenceIndex.ScoreGpu | benchHUB/reference_index.py:30-45 | a string (the "GPU unavailable" result) or a falsy input scores 0; a non-empty dictionary scores 'tensor_operations', falling back to 'gpu_tensor_operations' when the first is falsy, with weight 0.4; any other truthy input raises AttributeError |
| ReferenceIndex.ScoreMemory | benchHUB/reference_index.py:47-59 | succeeds exactly on a dictionary and scores 'bandwidth', falling back to 'memory_bandwidth' when the first is falsy, with weight 0.2 |
| ReferenceIndex.FirstTruthy | benchHUB/reference_index.py:40 | the result is None or a truthy value found under one of the candidate keys |
| ReferenceIndex.AliasTableAgrees | benchHUB/reference_index.py:40 | scoring the chained `or` of two keys equals scoring the first truthy entry of the alias list [current, legacy] |
| ReferenceIndex.ScoreCpuMissingOrZero | benchHUB/reference_index.py:23-25 | a missing 'calculate_primes', or one equal to 0, scores 0 |
| ReferenceIndex.ScoreCpuOfTime | benchHUB/reference_index.py:26 | a nonzero time t scores 0.4/t, with no sign guard, so a positive t scores positively |
| ReferenceIndex.ScoreCpuNonNumeric | benchHUB/reference_index.py:26-28 | a non-numeric timing scores 0, because the TypeError is caught |
| ReferenceIndex.ScoreGpuUnavailable | benchHUB/reference_index.py:37-38 | any string, None and the empty dictionary all score 0 |
| ReferenceIndex.ScoreGpuFallback | benchHUB/reference_index.py:40-43 | when 'tensor_operations' is absent or falsy, a nonzero 'gpu_tensor_operations' t scores 0.4/t |
| ReferenceIndex.ScoreMemoryAliases | benchHUB/reference_index.py:54-57 | 'bandwidth' t scores 0.2/t; if 'bandwidth' is unusable, 'memory_bandwidth' t scores 0.2/t; if neither is usable, the score is 0 |
| ReferenceIndex.NonNegativeTimingsGiveNonNegativeIndex | benchHUB/reference_index.py:14-59 | result groups whose numeric timings are all non-negative never give a negative index |
| ReferenceIndex.MemoryBenchmarkScoresZero | benchHUB/memory_bench.py:19 | as written, the `{'allocation': t}` result the memory benchmark returns scores 0 for every t > 0 |
| ReferenceIndex.MemoryBenchmarkResult | benchHUB/memory_bench.py:19 | the memory benchmark's result holds only the key 'allocation', so neither 'bandwidth' nor 'memory_bandwidth' |
| ReferenceIndex.ScoreMemoryCorrected | benchHUB/reference_index.py:54-57 | the memory scorer with 'allocation' as a third alias: succeeds on a dictionary and scores its first truthy alias with weight 0.2 |
| ReferenceIndex.CorrectedScoresMemoryBenchmark | benchHUB/memory_bench.py:19 | the corrected scorer gives the memory benchmark result 0.2/t, and agrees with the shipped scorer whenever 'bandwidth' is present |
| Statistics.Mean | benchHUB/utils/timing.py:15 | statistics.mean of a non-empty list lies between its minimum and maximum |
| Statistics.Median | benchHUB/utils/timing.py:15 | statistics.median lies between the minimum and maximum, and is an element for an odd count |
| Statistics.MedianOfAscending | benchHUB/utils/timing.py:15 | for an ordered list: the middle element for an odd count, the average of the two middle elements for an even count |
| Statistics.MedianOfPermutation | benchHUB/utils/timing.py:15 | the median of any list is the middle (or middle-pair average) of every ordered rearrangement of it |
| Statistics.OrderedUnique | benchHUB/utils/timing.py:15 | two ordered lists with the same elements are equal, so the median does not depend on how it sorts |
| Statistics.MedianPositive | benchHUB/utils/timing.py:15 | positive durations have a positive median |
| Statistics.Reduce | benchHUB/utils/timing.py:15 | an empty duration list raises StatisticsError; otherwise the reduced time lies between the minimum and maximum |
| Statistics.ThreeRunsMedian | benchHUB/utils/timing.py:15 | three runs measured largest first are reduced to the middle value, not the last or the first, e.g. [9,1,2] gives 2 |
| Statistics.ThreeRunsMean | benchHUB/utils/timing.py:15 | the mean of three runs is their sum over 3, e.g. [1,2,9] gives 4 |
| Statistics.FourRunsMedian | benchHUB/utils/timing.py:15 | four runs measured out of order are reduced to the average of the two middle values |
| Timing.RunCount | benchHUB/utils/timing.py:11 | `range(n)` runs n times for positive n and never for n ≤ 0 |
| Timing.Durations | benchHUB/utils/timing.py:11-14 | one duration per run, in run order |
| Timing.CompletesOrRaises | benchHUB/utils/timing.py:11-14 | either every one of the first k runs returns, or some run among them is the first to raise |
| Timing.FirstRaiseUnique | benchHUB/utils/timing.py:11-14 | at most one run is the first to raise, so the exception that propagates is determined |
| Timing.RunTimed | benchHUB/utils/timing.py:10-14 | when no run raises, the callable runs exactly max(n,0) times, one duration is appended per call, and the result is the value of the last call (None when nothing ran); otherwise the exception of the first run that raises propagates and no later run happens |
| Timing.RecordTime | benchHUB/utils/timing.py:6-15 | the median (or the mean) of the n_runs durations; StatisticsError when n_runs ≤ 0, so there is no silent zero; an exception from a run propagates as the first raising run's exception, and no time is returned |
| Timing.TimedFunction.SetAttribute | benchHUB/utils/timing.py:17-27 | setting an attribute on the wrapper changes only its attribute dictionary, never the run count the closure captured |
| Timing.TimedFunction.Call | benchHUB/utils/timing.py:23-41 | returns the last run's value; the timings map gets exactly the entry `func.__name__` set to the reduced time, replacing an earlier one, and every other key is unchanged; n_runs ≤ 0 raises StatisticsError; a raising run propagates its exception; on every exception the map is left as it was |
| CpuBench.ISqrt | benchHUB/cpu_bench.py:33 | int(n ** 0.5) is the largest r with r·r ≤ n |
| CpuBench.SmallDivisor | benchHUB/cpu_bench.py:33 | a number with a proper divisor has one no larger than its integer square root |
| CpuBench.TrialDivisionSuffices | benchHUB/cpu_bench.py:33-37 | a number ≥ 2 with no divisor in 2..isqrt(n) is prime |
| CpuBench.SmallDivisorIsProper | benchHUB/cpu_bench.py:34-35 | a divisor found by the inner loop shows the number is not prime |
| CpuBench.CalculatePrimes | benchHUB/cpu_bench.py:29-39 | the list is strictly increasing and holds exactly the primes in [2, maxNumber]; it is empty below 2 |
| CpuBench.SumOfSquaresClosedForm | benchHUB/cpu_bench.py:11 | 6·(0²+…+(n−1)²) = (n−1)·n·(2n−1) |
| CpuBench.CpuTask | benchHUB/cpu_bench.py:6-11 | returns 333283335000, the sum of i² for i in 0..9999, whatever its argument |
| CpuBench.Trace | benchHUB/cpu_bench.py:28-42 | the i-th observed run of a workload returns the same value and takes the i-th clock duration |
| CpuBench.DurationsOfTrace | benchHUB/cpu_bench.py:28-42 | the recorded durations depend only on the clock, not on the values the runs return |
| CpuBench.CpuBenchmark | benchHUB/cpu_bench.py:13-61 | returns a fresh map with exactly the keys 'calculate_primes' and 'parallel_processing', each the median of the decorator's default 3 runs, whatever N_RUNS says; a non-integer prime limit raises TypeError |
| CpuBench.CpuBenchmarkScore | benchHUB/cpu_bench.py:61 | the CPU score of a benchmark result is 0.4 over the median prime time, or 0 when that median is 0 |
| CpuBench.CpuBenchmarkScorePositive | benchHUB/cpu_bench.py:61 | when each of the three prime runs takes some time, the CPU score is positive |
| Config.DefaultSettings | benchHUB/config/config.py:5-12 | the module-level defaults cover the eight settings |
| Config.ProfilesShareSettings | benchHUB/config/config.py:15-46 | the profiles are standard, light and heavy, and each defines the same eight settings |
| Config.ProfilesRunAtLeastOnce | benchHUB/config/config.py:17-37 | N_RUNS ≥ 1 in every profile |
| Config.ProfilesOrdered | benchHUB/config/config.py:16-45 | every setting grows strictly from light to standard to heavy, componentwise for shapes |
| Config.StandardIsDefault | benchHUB/config/config.py:5-25 | the standard profile equals the module-level default constants |
| Config.DefaultProfileExists | benchHUB/config/config.py:48 | DEFAULT_CONFIG_NAME names a profile |
| BenchMain.ValidateConfiguration | benchHUB/main.py:20-32 | passes iff every variable is acceptable; otherwise raises ValueError naming the first unacceptable variable. Dunder names are skipped, a name containing SIZE needs an int, and a name containing SHAPE needs a 2-tuple |
| BenchMain.MissingCharNotContained | benchHUB/main.py:27-29 | a name lacking one character of a pattern cannot contain the pattern |
| BenchMain.AcceptableByLetters | benchHUB/main.py:24-30 | a name with neither 'Z' nor 'H' is accepted whatever its value, as is any name whose value already fits its rule |
| BenchMain.ShippedVariablesAcceptable | benchHUB/config/config.py:5-48 | each variable of the shipped configuration module passes its check |
| BenchMain.ShippedConfigurationIsValid | benchHUB/main.py:20-32 | the shipped configuration passes validation |
| BenchMain.Padded | benchHUB/main.py:110 | a zero-padded field has the given width and reads back as its number |
| BenchMain.Strftime | benchHUB/main.py:110 | `%Y%m%d_%H%M%S` gives 15 characters, all digits but the '_' at position 8, and each field reads back as its date or time part |
| BenchMain.PathJoin | benchHUB/main.py:111 | os.path.join keeps an absolute name as it is, and otherwise ends with the name |
| BenchMain.SaveResultsPaths | benchHUB/main.py:110-121 | save_results writes benchmark_<ts>.json and, when sharing, also public_benchmark_<ts>.json with the same ts |
| BenchMain.LocalFilename | benchHUB/main.py:110-111 | the local file name starts with "benchmark_" and ends with ".json" |
| BenchMain.PublicFilename | benchHUB/main.py:121 | the public file name starts with "public_benchmark_" and ends with ".json" |
| ParseResults.SavedNamesGiveTimestamp | benchHUB/parse_benchmark_results.py:25-30 | stripping benchmark_<ts>.json or public_benchmark_<ts>.json gives back ts for any ts of digits and '_' |
| ParseResults.TimestampString | benchHUB/parse_benchmark_results.py:25-30 | str.replace with "" only deletes: the timestamp string is no longer than the file name, and shorter by at least the prefix when the name starts with "benchmark_" or "public_benchmark_" |
| ParseResults.SavedTimestampRoundTrip | benchHUB/parse_benchmark_results.py:25-32 | the timestamp save_results embeds in either file name is recovered exactly |
| ParseResults.OverriddenResolves | benchHUB/parse_benchmark_results.py:91-95 | "current key, overridden by the legacy key when present" is the same as resolving [legacy, current] in order with default 0.0 |
| ParseResults.JoinStrings | benchHUB/parse_benchmark_results.py:56 | ", ".join fails with TypeError exactly when some item is not a string |
| ParseResults.CoresColumn | benchHUB/parse_benchmark_results.py:80-83 | CPU_Cores is int(cores) when convertible; a ValueError gives None; any other error escapes the handler |
| ParseResults.Prefixed | benchHUB/parse_benchmark_results.py:124-129 | each entry k appears as prefix+k with its value, and only such keys appear |
| ParseResults.Columns | benchHUB/parse_benchmark_results.py:124-129 | every ml timing and best_params entry k appears as ml_timings_k / ml_best_params_k |
| ParseResults.ColumnsPresent | benchHUB/parse_benchmark_results.py:75-145 | every fixed column of the row is present |
| ParseResults.CpuColumns | benchHUB/parse_benchmark_results.py:90-95 | cpu_floating_point_operations is 'floating_point' when present, else 'floating_point_operations', else 0.0 |
| ParseResults.GpuColumns | benchHUB/parse_benchmark_results.py:102-107 | gpu_tensor_operations is 'matrix_multiplication' when present, else 'tensor_operations', else 0.0 |
| ParseResults.PlotColumns | benchHUB/parse_benchmark_results.py:132-142 | each legacy plot key overrides its current counterpart when present |
| ParseResults.MlColumns | benchHUB/parse_benchmark_results.py:115-129 | 'grid_search_time' overrides the timings' run_grid_search; the other ml columns come from their keys with default 0.0; timings and best_params are carried whole |
| ParseResults.MlFlattened | benchHUB/parse_benchmark_results.py:124-126 | each ml timing k of a built row appears in its columns as ml_timings_k |
| ParseResults.SystemColumns | benchHUB/parse_benchmark_results.py:40-85 | timestamp, OS, memory total, CPU_Cores (int or None), reference_index (default 0.0) and the system id components come from the document as the script reads them |
| ParseResults.DiscardedDocuments | benchHUB/parse_benchmark_results.py:36-153 | a document with a non-dict system_info or group, or unconvertible cores that raise other than ValueError, contributes no row |
| ParseResults.LookupGroups | benchHUB/parse_benchmark_results.py:90-132 | the benchmark groups are found exactly when cpu, memory, gpu, disk, ml, ml's timings and plot are each a dict or absent; otherwise the `.get` on the first non-dict raises AttributeError |
| ParseResults.RowOf | benchHUB/parse_benchmark_results.py:18-150 | a file yields a row exactly when its name ends in ".json", its JSON parsed and BuildRow succeeds on it with the file's timestamp (NaT when the name does not parse); the row carries that timestamp |
| ParseResults.BuildRow | benchHUB/parse_benchmark_results.py:37-145 | a document that is not a dict raises AttributeError; a failing GPU-name join propagates its exception; for a dict document, a row is built exactly when the GPU names join, system_info is a dict, the core count column is computed and every group is a dict or absent; the row carries the timestamp given |
| ParseResults.Rows | benchHUB/parse_benchmark_results.py:18-153 | the data list holds at most one row per listed file |
| ParseResults.RowsFromFiles | benchHUB/parse_benchmark_results.py:18-153 | there are no more rows than files, and each row is the row of one of the files |
| ParseResults.RowsOfAppend | benchHUB/parse_benchmark_results.py:150-153 | one more file adds its row, or nothing when it raised |
| ParseResults.ParseResults | benchHUB/parse_benchmark_results.py:15-153 | the loop collects exactly the rows of the files that parse, in file order: there are as many rows as files yielding one, and row k is the row of the k-th such file |
| ParseResults.BuiltIndices | benchHUB/parse_benchmark_results.py:18-150 | the positions of the files that yield a row: increasing, each yielding a row, and every yielding file is listed |
| ParseResults.RowsByIndex | benchHUB/parse_benchmark_results.py:18-150 | row k of the data list is the row of the file at the k-th position that yields one |
| ParseResults.RowsCollected | benchHUB/parse_benchmark_results.py:18-150 | the data list is what the per-file step collects over the listing, skipping files that yield no row |
| Anonymise.Scrub | benchHUB/utils/anonymise.py:16-17 | hostname and user are gone, and every other entry keeps its value |
| Anonymise.ScrubIdempotent | benchHUB/utils/anonymise.py:16-17 | scrubbing twice is scrubbing once |
| Anonymise.AnonymiseValue | benchHUB/utils/anonymise.py:1-20 | system_info keeps neither hostname nor user but keeps every other entry; other top-level keys keep their values; a missing system_info becomes {}; a list system_info raises TypeError, since list.pop takes one argument; any other non-dict system_info, None included, raises AttributeError |
| Anonymise.AnonymiseIdempotent | benchHUB/utils/anonymise.py:16-18 | anonymising twice gives the same document as anonymising once |
| Anonymise.InfoDict.Pop | benchHUB/utils/anonymise.py:16-17 | pop removes exactly the key |
| Anonymise.InfoDict.PopSensitive | benchHUB/utils/anonymise.py:16-17 | the two pops leave the object scrubbed: exactly hostname and user are removed |
| Anonymise.ResultDict.Copy | benchHUB/utils/anonymise.py:12 | dict.copy is a fresh outer dictionary with the same entries, so nested objects are shared |
| Anonymise.AnonymiseResults | benchHUB/utils/anonymise.py:11-20 | the returned copy reads as AnonymiseValue of the input; the caller's outer dictionary keeps its entries, but its shared system_info object has also lost hostname and user; a list system_info raises TypeError and any other plain value AttributeError, with nothing changed |
| Store.Where | benchHUB/api.py:15-27 | a WHERE selection holds exactly the rows satisfying the condition; `config_name = NULL` holds of no row |
| Store.WhereNot | benchHUB/api.py:15-27 | a DELETE keeps exactly the rows not satisfying the condition |
| Store.WhereSplit | benchHUB/api.py:15-27 | the selected and the kept rows partition the table |
| Store.WhereNotMultiplicity | benchHUB/api.py:15-27 | a DELETE removes every copy of a matching row and keeps every copy of any other |
| Store.KeyedSubset | benchHUB/api.py:17-27 | deleting rows keeps ids and uuids unique |
| Store.Table.constructor | benchHUB/api.py:29-30 | drop_all then create_all leaves an empty table |
| Store.Table.Insert | benchHUB/api.py:70-73 | given the UNIQUE uuid and autoincrement id columns (lines 17 and 27), a duplicate uuid fails with IntegrityError and changes nothing; otherwise exactly one row is appended under a fresh id one above the largest in use |
| Store.Table.Count | db_manager.py:128-130 | COUNT(*) WHERE is the size of the selection |
| Store.Table.Delete | db_manager.py:137-140 | DELETE WHERE leaves the unselected rows and reports how many it removed |
| Store.Table.DeleteAll | db_manager.py:111 | DELETE without a condition empties the table and reports how many rows there were |
| Store.MaxId | benchHUB/api.py:17 | 0 for an empty table; otherwise the largest id in use when one is positive (it is attained, bounds every id and is never negative), so one more is a fresh autoincrement id |
| Api.ConfigNameOf | benchHUB/api.py:42 | config_name defaults to "standard" when omitted |
| Api.Startup | benchHUB/api.py:29-30 | the table is empty after startup |
| Api.SubmitResult | benchHUB/api.py:56-73 | on a new uuid, exactly one row is added with the payload's groups and the declared reference_index verbatim, and its fresh id is returned; a duplicate uuid fails at commit and leaves the table unchanged |
| Api.GetLeaderboard | benchHUB/api.py:75-78 | every stored row of every config_name, in non-increasing reference_index order |
| Api.SubmittedRowListed | benchHUB/api.py:70-77 | a submitted row appears on the next leaderboard, which grows by one |
| Sorting.SortDescending | benchHUB/api.py:77 | ORDER BY reference_index DESC is a rearrangement of the rows in non-increasing key order |
| Maintenance.Top | db_manager.py:204-211 | ORDER BY score DESC LIMIT n keeps min(n, count) rows of the category (all of them for a negative limit) |
| Maintenance.TopDominates | db_manager.py:204-211 | every row the LIMIT keeps scores at least as high as every row it leaves out |
| Maintenance.TrimDeletesOnly | db_manager.py:214-218 | trimming a category only deletes rows |
| Maintenance.TrimCategory | db_manager.py:198-218 | one loop iteration keeps only rows that were already in the table |
| Maintenance.TrimAll | db_manager.py:190-221 | the whole category loop keeps only rows that were already in the table |
| Maintenance.TrimKeyed | db_manager.py:214-218 | trimming keeps ids and uuids unique |
| Maintenance.TrimBound | db_manager.py:199-218 | after trimming, the category holds at most limit rows |
| Maintenance.TrimLeavesOthers | db_manager.py:214-218 | trimming one category leaves every other category's rows as they were |
| Maintenance.TrimKeepsHighest | db_manager.py:204-218 | within a trimmed category, every kept row scores at least as high as every deleted one |
| Maintenance.TrimOwnCategory | db_manager.py:195-218 | a category at or under the limit is untouched; one over it keeps exactly its top rows |
| Maintenance.NullCategoryUntouched | db_cleanup.py:113-118 | the NULL category counts 0 rows under `config_name = ?`, so it is never trimmed |
| Maintenance.TrimKeepsOutside | db_manager.py:214-218 | rows outside the trimmed category keep their multiplicity |
| Maintenance.TrimAllBound | db_manager.py:191-218 | after the category loop, every visited category holds at most limit rows |
| Maintenance.TrimAllLeavesOthers | db_manager.py:191-218 | categories the loop does not visit are untouched |
| Maintenance.TrimAllDeletesOnly | db_manager.py:191-218 | the loop only deletes rows |
| Maintenance.TrimAllKeepsOutside | db_manager.py:191-218 | a row in no visited category keeps its multiplicity |
| Maintenance.TrimAllCategory | db_manager.py:191-218 | after the loop, each visited category is exactly its own top-limit rows, or all of them when within the limit |
| Maintenance.TrimAllKeepsHighest | db_manager.py:191-218 | in each visited category, every kept row scores at least as high as every deleted row of that category |
| Maintenance.SelectCategories | manage_database.py:51 | the filtered category list holds exactly the accepted categories, once each |
| Maintenance.DistinctCategories | db_cleanup.py:104-105 | SELECT DISTINCT config_name lists each category present in the table exactly once |
| Maintenance.Visited | db_manager.py:185-187 | the categories a script visits are exactly those present that its filter accepts, once each |
| Maintenance.LimitPerCategory | db_manager.py:189-222 | the loop leaves the table trimmed category by category, and total_deleted is the sum of the per-category decreases, i.e. the overall decrease |
| Maintenance.VisitedOutcome | db_manager.py:185-218 | an accepted named category ends as its top-limit rows; a rejected one is untouched |
| Maintenance.VisitedKeepsNull | db_manager.py:186 | rows with a NULL config_name are never deleted |
| Maintenance.VisitedKeepsRejected | manage_database.py:51 | rows in a category the filter rejects are never deleted |
| DbManager.Bucket | db_manager.py:70-77 | 0 maps to 'Zero scores'; other values below 100, negatives included, to '< 100'; then '100-500', '500-1000', '1K-10K', '> 10K' (each clause is an iff) |
| DbManager.ClearAllScores | db_manager.py:98-120 | empties the table only on exactly 'DELETE ALL'; otherwise nothing changes |
| DbManager.DeleteConfirmed | db_manager.py:134-141 | a 'yes' in any case deletes exactly the rows matching the filter; anything else changes nothing |
| DbManager.ClearZeroScores | db_manager.py:122-148 | when confirmed, removes exactly the rows with reference_index ≤ 0 and keeps all others |
| DbManager.ClearHighScores | db_manager.py:150-176 | when confirmed, removes exactly the rows with reference_index > threshold (default 1000) |
| DbManager.ZeroClearedExactly | db_manager.py:128-140 | clearing zero scores removes every copy of a row scoring ≤ 0 and keeps every copy of any other row |
| DbManager.HighClearedExactly | db_manager.py:156-168 | clearing high scores removes every copy of a row above the threshold and keeps every other row |
| DbManager.LimitScoresPerCategory | db_manager.py:178-228 | trims every non-NULL category to its top limit rows (default 2000); total_deleted is the overall decrease |
| DbManager.LimitedCategories | db_manager.py:185-218 | each non-NULL category ends as its top-limit rows, so holds at most limit rows |
| DbManager.LimitKeepsHighest | db_manager.py:204-218 | within a category, every kept row scores at least as high as every deleted one |
| DbManager.LimitKeepsNullRows | db_manager.py:186 | NULL-category rows are untouched |
| ManageDatabase.ClearAllScores | manage_database.py:25-42 | empties the table iff the confirmation lower-cases to 'yes' |
| ManageDatabase.LimitScoresPerCategory | manage_database.py:44-82 | trims every truthy category to its top limit rows; total_deleted is the overall decrease |
| ManageDatabase.LimitedCategories | manage_database.py:50-76 | a non-empty category name ends as its top-limit rows, so holds at most limit rows; the empty name is untouched |
| ManageDatabase.LimitKeepsHighest | manage_database.py:68-76 | within a category, every kept row scores at least as high as every deleted one |
| ManageDatabase.LimitKeepsUnnamed | manage_database.py:51 | rows whose config_name is NULL or empty are never deleted |
| ManageDatabase.Scores | manage_database.py:116 | the score list lines up with the rows |
| ManageDatabase.PositiveRows | manage_database.py:110-113 | the category's rows with reference_index > 0, and only those |
| ManageDatabase.ScoreRange | manage_database.py:106-117 | omitted exactly when the category has no positive score; otherwise min and max are positive scores of the category and bound all of them |
| ManageDatabase.ResetDatabaseSchema | manage_database.py:119-129 | an empty table only on exactly 'RESET'; otherwise no change |
| DbCleanup.GetDatabasePath | db_cleanup.py:11-21 | a non-empty DATABASE_URL not starting with "sqlite" exits with status 1; otherwise the path is "leaderboard.db" |
| DbCleanup.ClearAll | db_cleanup.py:63-89 | exits like get_database_path; with no database file nothing happens; otherwise deletes all rows iff the confirmation lower-cases to 'yes' |
| DbCleanup.LimitPerCategory | db_cleanup.py:91-138 | trims every category present, NULL included, to its top limit rows; exits like get_database_path |
| DbCleanup.LimitedCategories | db_cleanup.py:104-135 | each named category ends as its top-limit rows, so holds at most limit rows |
| DbCleanup.LimitKeepsHighest | db_cleanup.py:121-130 | within a category, every kept row scores at least as high as every deleted one |
| DbCleanup.LimitKeepsNullRows | db_cleanup.py:104-118 | NULL-category rows are untouched, because `config_name = ?` with NULL counts 0 |
| DbCleanup.ResetSchema | db_cleanup.py:140-153 | exactly 'RESET' removes the database file; anything else keeps it |
| DbCleanup.Dispatch | db_cleanup.py:155-174 | no action or an unknown action exits with 1; 'limit' uses int(argv[2]) (ValueError when that is not an integer) or 2000 |
| DbCleanup.DispatchLimitRoundTrip | db_cleanup.py:167-169 | `limit n` dispatches a limit of exactly n for every integer n |
| Seed.CalculateReferenceIndex | seed_database.py:40-49 | 0.4·c + 0.4·g + 0.2·m: the weights sum to 1, so equal scores s give s, and the index lies between the smallest and largest component |
| Seed.InverseOf | seed_database.py:51-58 | an absent key gives 1.0; a nonzero number d gives 1/d; 0 raises ZeroDivisionError; a non-number raises TypeError; a non-dict group raises AttributeError |
| Seed.ScoreCpu | seed_database.py:51-52 | 1.0 without a floating_point time, otherwise its inverse; a zero or non-numeric time fails, as does a non-dict group |
| Seed.ScoreGpu | seed_database.py:54-55 | 1.0 without a tensor_operations time, otherwise its inverse; a zero or non-numeric time fails, as does a non-dict group |
| Seed.ScoreMemory | seed_database.py:57-58 | 1.0 without an allocation time, otherwise its inverse; a zero or non-numeric time fails, as does a non-dict group |
| Seed.BuildDraft | seed_database.py:83-100 | a non-dict document raises AttributeError; a dict document gives a record exactly when the cpu, gpu and memory scores all succeed, else the first failing score's exception in that order; the record keeps the seven groups (default {}), the uuid, config_name from the file or 'standard', and the weighted index of the three scores |
| Seed.Batch | seed_database.py:64 | `[:3]` keeps the first three files, or all of them when fewer |
| Seed.Drafts | seed_database.py:72-101 | the loop adds at most one record per file |
| Seed.DraftsOrigin | seed_database.py:78-100 | each record added has a uuid new to the table and is built from one of the files with the uuid drawn for it |
| Seed.Step | seed_database.py:73-101 | an unreadable file raises; an existing uuid skips the file; otherwise its record is added or its error propagates |
| Seed.DraftsStep | seed_database.py:72-101 | processing one more file is one step of the loop |
| Seed.FreshFilesIncluded | seed_database.py:78-101 | every file whose generated uuid is new contributes its record |
| Seed.DraftsErrorSticks | seed_database.py:72-101 | an exception stops the loop: later files change nothing |
| Seed.ConfigColumn | seed_database.py:98 | a string config_name is stored, None stores NULL, and any other value cannot be stored |
| Seed.Committed | seed_database.py:104-105 | the commit keeps the existing rows and appends one row per pending record |
| Seed.CommittedRecord | seed_database.py:104-105 | each appended row keeps its record's uuid, document, reference index and stored config_name, under an id no existing row uses |
| Seed.CommittedStep | seed_database.py:104-105 | committing one more pending record appends it under the next id |
| Seed.Commit | seed_database.py:104-109 | all or nothing: the commit succeeds iff every pending record is storable and the uuids are distinct, and a failure rolls every addition back |
| Seed.ReadBatch | seed_database.py:72-101 | the loop over the batch builds exactly the pending records of the specification |
| Seed.SeedData | seed_database.py:61-111 | no files does nothing; an exception while reading leaves the table unchanged; otherwise the batch is committed whole or rolled back whole |
| Seed.SeedResult | seed_database.py:61-111 | seed_data does nothing exactly when no result file exists, and adds at most three records, never more than there are files |
| Seed.SeededRecords | seed_database.py:64-100 | at most three rows are added; each has a fresh uuid and id, and its config_name comes from its file, defaulting to 'standard' |
| Dashboard.GpuModelFromList | dashboard.py:106-107 | a non-empty 'gpus' list shows its names joined with ", " |
| Dashboard.GpuModelFallback | dashboard.py:108-111 | without a usable 'gpus' list, a torch_gpus dict without device_names, or no torch_gpus, shows "N/A" |
| Dashboard.GpuModelFromTorch | dashboard.py:108-109 | without a usable 'gpus' list, a torch_gpus dict whose device_names is a list of strings shows those names joined with ", " |
| Dashboard.GpuModelTorchRejects | dashboard.py:108-109 | without a usable 'gpus' list, device_names holding a non-string, or held in something other than a list, tuple or string, raises TypeError |
| Dashboard.GpuModel | dashboard.py:106-111 | the gpu_model column fails only with TypeError or AttributeError, and only when a non-empty gpus list or a torch_gpus dict is consulted |
| Dashboard.ShapeRow | dashboard.py:101-122 | a record is shaped exactly when its system_info is a string decoding to a dict with dict (or absent) cpu and memory entries, GpuModel succeeds on it, and the record has an id and a numeric reference_index; a non-string system_info raises TypeError, undecodable text ValueError, a decoded non-dict AttributeError; a shaped row keeps id and reference_index, and defaults config_name to "standard", uuid and timestamp to "N/A"; cpu_model, gpu_model and memory_total come from the decoded system_info's cpu model, GpuModel and memory total_gb |
| Dashboard.ShapeAll | dashboard.py:100-122 | one shaped row per record, in order; an error only when some record fails to shape |
| Dashboard.ShapeAllStep | dashboard.py:100-122 | shaping one more record is one step of the loop |
| Dashboard.ShapeAllErrorSticks | dashboard.py:100-122 | an error ends the loop: later records change nothing |
| Dashboard.ShapeRows | dashboard.py:100-122 | the append loop builds exactly the shaped rows |
| Dashboard.Available | dashboard.py:127-129 | the available profiles are exactly the present ones of the fixed order |
| Dashboard.ProfileSelector | dashboard.py:127-130 | "All", then heavy, standard, light, each only when present |
| Dashboard.UnspacedAppend | dashboard.py:135 | removing spaces distributes over concatenation |
| Dashboard.UnspacedDigits | dashboard.py:135 | a digit string has no spaces to remove |
| Dashboard.GroupedStep | dashboard.py:135 | a grouped string extended by a space and three digits is still grouped |
| Dashboard.UnspacedStep | dashboard.py:135 | the spaces added between groups are the only spaces |
| Dashboard.GroupThousands | dashboard.py:135 | removing the spaces gives back the digits; a space falls exactly before every third digit from the right |
| Dashboard.FormatScoreRoundTrip | dashboard.py:135 | the displayed score without its spaces is int(reference_index), truncated toward zero, and reads back as it |
| Dashboard.FormatScore | dashboard.py:135 | the shown score is never empty and starts with '-' exactly when int(reference_index) is negative |
| Dashboard.FindFirst | dashboard.py:160-162 | the first row whose uuid starts with the filter, or none when no row matches |
| Dashboard.InProfile | dashboard.py:165 | exactly the rows of one config_name |
| Dashboard.Ranking | dashboard.py:165 | the profile's rows rearranged in non-increasing reference_index order |
| Dashboard.Cards | dashboard.py:171-172 | rank i+1 for position i, highlighted exactly on the found uuid |
| Dashboard.ContextWindow | dashboard.py:166-170 | [max(0,i−2), min(n,i+3)): at most 5 rows, always containing the match |
| Dashboard.PositionOf | dashboard.py:166 | the first position of the found uuid in the ranking |
| Dashboard.Listing | dashboard.py:175-186 | one card per row of the profile |
| Dashboard.ListingRanked | dashboard.py:175-186 | every row of the profile is shown, ranked 1..n in non-increasing reference_index order, none highlighted |
| Dashboard.Around | dashboard.py:166-172 | with p the first position of the uuid in the ranking, the cards are ranking[max(0, p-2) .. min(n, p+3)), card k has rank max(0, p-2)+k+1 and that row, and is highlighted exactly when it shows the uuid |
| Dashboard.AroundShape | dashboard.py:166-172 | the window has 1 to 5 cards of the ranking with consecutive ranks and highlights the match |
| Dashboard.Search | dashboard.py:159-174 | no match shows the warning; a non-string config_name raises AttributeError; otherwise one section titled by the config_name whose cards are the window around the match's first position in that config's ranking: 1 to 5 consecutively ranked cards of its config_name, the match highlighted |
| Dashboard.View | dashboard.py:159-186 | the uuid filter wins; otherwise "All" lists every available profile in order, and a single profile lists only itself |
| Dashboard.Render | dashboard.py:97-186 | an empty leaderboard shows the empty message; otherwise the shaped rows are viewed |

## Left out

- I/O is not modelled: file reading and writing, `os.listdir` order, `json.load`/`json.dumps`, directory creation, printing, `input()` prompts and the Streamlit and HTML rendering. Prompts are confirmation-string parameters; a file is its decoded content, or none when it did not parse.
- The clock is not modelled. The i-th run's duration is a parameter.
- `uuid.uuid4()` is not modelled. Generated uuids are a parameter.
- `os.environ` and the existence of the database file are not modelled. They are parameters, and a missing file is a null table.
- The workload bodies (GPU, memory, disk, ML and plot benchmarks), numpy, torch, scikit-learn, matplotlib and the multiprocessing `Pool` are library code and concurrency. Only the shapes of their results enter: the "GPU unavailable" string, and the memory benchmark's `{'allocation': t}`.
- IEEE floating point is not modelled. Times and scores are exact reals.
- The pandas aggregation after line 155 of benchHUB/parse_benchmark_results.py, `pd.to_datetime`, and DataFrame tie order are not modelled. The datetime parse is an opaque partial function parameter.
- The SQL ORDER BY … LIMIT does not fix an order among equal scores. The model keeps some top-N set, chosen by a stable sort, and states only what holds for every such choice.
- Table row order is not modelled. A trimmed table is compared with the original by membership and multiplicity.
- The `NOT IN :keep_ids` tuple binding in db_manager.py depends on how the driver adapts a tuple, so only the intended meaning is modelled. The same goes for the SQLAlchemy subquery in manage_database.py.
- show_stats in db_cleanup.py and the printed counts of db_manager.py's show_database_stats are output only. Only the score bucket is modelled, with the per-category positive range of manage_database.py.
- Engines, sessions and connection URLs are not modelled, nor are FastAPI, pydantic validation, check_db.py, launcher.py, pages/, print_config.py, system-information probing and main.py's orchestration. A payload arrives already validated.
- The `count > 0` guard of the clear operations is not modelled separately. It skips the prompt, and with no matching rows the deletion would change nothing anyway.
- Seed.Commit: a config_name that is neither a string nor None is assumed to make the commit fail and roll back. Dafny cannot see the database driver's type adaptation, so this is an approximation.
- Seed.SeedData: the session uses autoflush=False. Pending records are therefore invisible to the existing-uuid query, and the model checks uuids against the committed table only.
- Dashboard.ShapeRow: `reference_index` must be a number; a null score, which pandas would turn into NaN, is reported as a TypeError instead of being ranked.
- Dashboard.ShapeRow: `memory_total` keeps the raw total_gb value, without the " GB" suffix of the f-string.
- Dashboard.Render: the card HTML and the `pd.to_datetime` formatting of the timestamp are not modelled. Records from the API carry no timestamp, so the "N/A" default of Dashboard.ShapeRow would not parse there.
- Dashboard.Search: `capitalize()` on a non-string config_name is modelled only as the AttributeError it raises. The capitalised heading text is not modelled.
- DbCleanup.Dispatch: `int()` is modelled on an optional sign followed by decimal digits. Python's acceptance of surrounding whitespace and underscores is not modelled.
- ParseResults.CoresColumn: the same `int()` model applies to the cores value. Whitespace or underscores that Python would accept give None here.
- ParseResults.JoinIterable: joining a dict's keys is modelled as a TypeError. The device_names value is expected to be a list.
- ParseResults.SystemColumns: system_id is an f-string in the source, but the model keeps its five components as a tuple and does not format them.
- Timing.TimedFunction.Call: the wrapper's own positional and keyword arguments are folded into the workload trace.

## Findings

| source | as written | input that shows it | evidently intended | confidence | as-written member | corrected member |
|---|---|---|---|---|---|---|
| benchHUB/reference_index.py:54-57 | score_memory reads only 'bandwidth' or 'memory_bandwidth', but the memory benchmark returns its timing under 'allocation' (benchHUB/memory_bench.py:19) | any memory result `{'allocation': t}` with t > 0 scores 0, so memory never counts toward the reference index | the memory timing counts with weight 0.2, i.e. 0.2/t, as the seeding script reads 'allocation' | not executed | ReferenceIndex.MemoryBenchmarkScoresZero | ReferenceIndex.ScoreMemoryCorrected |
