# SupplySentinel in Dafny

SupplySentinel is a small supply-chain risk monitor with two front ends that share one
alert-history file.

- **The command-line monitor** (`supply_sentinel.py`) runs one pass over the configured
  dependencies. For each dependency it runs three agents in turn:
  - the *watchman* asks a generative model, with web search, for recent news about the
    material from its country;
  - the *analyst* asks the model for a JSON risk assessment of that news;
  - the *dispatcher* raises an alert for a score of 7 or more, unless an alert for the same
    material and country was already raised on the same calendar day.

  The pass counts safe, critical and skipped dependencies.
- **The web front end** (`app.py`) does the same work through `check_item`. It checks the
  day's key before calling any agent. It reports each dependency as skipped, safe or
  critical, and counts safe and critical results.

Around the monitor sit two further pieces:

- a metrics tracker, which keeps cumulative counters and a scan history of the last 100
  scans;
- an in-memory log buffer of the last 500 log entries, meant for a web view of the logs.
  Only `setup_logging("streamlit")` installs the handler that fills it (logging_config.py:65-70),
  and neither front end makes that call. The command-line monitor calls
  `setup_logging(environment="cli")` (supply_sentinel.py:18), and app.py configures
  logging with `logging.basicConfig` (app.py:23). The model describes the buffer's own
  behaviour.

What the generative model answers is never computed here. Each call's reply is a parameter:

- a `SearchReply` for the search call, which either answered a text (possibly None) or
  raised;
- an `Option<Assessment>` for the scoring call, None when the call or its JSON parse
  failed.

An `Assessment` has the three documented keys as optional fields. Like the source, the
model reads a missing `risk_score` as 0 and a missing `reason` as `"Unknown"`. It also
keeps Python's dictionary truthiness: an empty reply dictionary counts as no assessment.

The clock is a parameter too. Each dispatcher or `check_item` call reads
`datetime.now()` itself, so a pass takes one `Date` per dependency (`days[i]` for the
i-th), and a pass that runs past midnight uses both days. A `Date` is any triple of
integers; only `StampRoundTrip` and `KeyDeterminesDate` need a real calendar date. The
alert key is `material-location-YYYY-MM-DD`, built exactly as the source's f-string
builds it. The history file is `Missing`, `Unparsable` or
`Listed(keys)`, and saving writes the set's keys in an order the model leaves open.

Modules:

- `Wrappers`: the `Option` type.
- `PyText`: the Python string operations the core relies on:
  - `str.isspace`;
  - ASCII `lower`;
  - the substring test `in`;
  - `split` on one character, with `Join` as its inverse;
  - `replace(pat, '')`.
- `PySlice`: the slice `s[-limit:]`, proved against a reference definition of "the last
  n elements".
- `Risk`: dependencies, oracle replies, assessments and the threshold 7.
- `AlertHistory`: dates, `strftime('%Y-%m-%d')`, the alert key, and loading and saving
  the history file.
- `SupplySentinel`: the command-line monitor, including the `Sentinel` class with the
  dispatcher and one pass of `run_loop`.
- `StreamlitApp`: the web front end's agents, `check_item`, and the counting loop of
  `main`.
- `MetricsTracker`: the `Tracker` class over the metrics dictionary and its file.
- `LoggingConfig`: the log buffer class, log levels, and the agent logger names.

The two front ends differ in three ways, and the model keeps each difference:

- In the command-line monitor, a failed search returns None. In the web front end it
  returns the text `"Search error: …"`, which the web analyst's guard then rejects because
  it contains `"error"`.
  - The guard rejects any text containing those five letters in any case, so news that
    mentions, for example, a "terror" attack is never scored (`ErrorInAnyCaseRejected`).
- The command-line dispatcher checks the day's key only after both model calls, and only
  for a present assessment. Its critical counter therefore also counts scores whose alert
  was suppressed.
- The web `check_item` checks the key first. A dependency already alerted today is
  skipped without any model call and is counted as neither safe nor critical.

On retries, the code stops short of what its prompt suggests. The analyst's prompt asks
the model for a `retry_search` flag when the score is 0 (supply_sentinel.py:106), and the
watchman accepts `retry_without_location` for a material-only search
(supply_sentinel.py:48). But `run_loop` never reads the flag and always calls the watchman
without that argument (supply_sentinel.py:195). The model follows the code and has no
retry.

## Model

| member | source | states |
|---|---|---|
| AlertHistory.LoadHistory | supply_sentinel.py:34-42 | a missing or unparsable history file loads as the empty set; a listed file loads as exactly the set of its entries, so repeated entries collapse |
| AlertHistory.ListKeys | supply_sentinel.py:46 | `list(alert_history)` holds exactly the keys of the set, each once, and is as long as the set |
| AlertHistory.SaveLoadRoundTrip | app.py:272-283 | any list holding exactly the keys of a set loads back as that set |
| AlertHistory.DateStamp | supply_sentinel.py:146 | the day's stamp is ten characters with dashes at positions 4 and 7 |
| AlertHistory.TwoDigits | supply_sentinel.py:146 | a number below 100 is read back from its two zero-padded digits |
| AlertHistory.FourDigits | supply_sentinel.py:146 | a number below 10000 is read back from its four zero-padded digits |
| AlertHistory.StampRoundTrip | supply_sentinel.py:146 | a calendar date can be read back from its stamp, so distinct days have distinct stamps |
| AlertHistory.AlertKey | supply_sentinel.py:146 | the key's length is that of material and location plus 12, and it ends with the day's stamp |
| AlertHistory.Keys | supply_sentinel.py:193-201 | a pass computes one key per dependency |
| AlertHistory.KeysAt | supply_sentinel.py:146 | key `i` of a pass is the key of dependency `i` on the day its call read the clock |
| AlertHistory.KeyDeterminesDate | supply_sentinel.py:146 | equal keys were made on the same day, so a key recorded on one day never suppresses an alert on another |
| AlertHistory.SteelChinaKey | supply_sentinel.py:146 | steel from China on 2024-01-15 has the key `Steel-China-2024-01-15` |
| PyText.Lower | app.py:305 | lower-casing keeps the length, maps each character on its own, and leaves no ASCII capital |
| PyText.Contains | app.py:305 | a string can only contain a pattern no longer than itself, and every string contains the empty pattern |
| PyText.MissingCharNotContained | logging_config.py:30 | a string lacking one of the pattern's characters does not contain the pattern |
| PyText.Split | supply_sentinel.py:75 | `split` always yields at least one piece |
| PyText.SplitJoin | supply_sentinel.py:75 | `split('\n')` gives one more piece than the newlines in the text, no piece holds a newline, and joining the pieces with newlines gives the text back |
| PyText.SplitCons | supply_sentinel.py:75 | a leading separator starts a new empty piece; any other leading character joins the first piece |
| PyText.SplitAround | supply_sentinel.py:75 | splitting `a + "\n" + b` gives the pieces of `a` followed by the pieces of `b` |
| PyText.RemoveAll | logging_config.py:30 | `replace(pat, '')` never lengthens the string |
| PyText.RemoveAllAbsent | logging_config.py:30 | removing a pattern that does not occur leaves the string unchanged |
| SupplySentinel.Watchman | supply_sentinel.py:65-85 | the search text is returned exactly when the call answered with a text; a raised call or a None text (whose `split` raises inside the same `try`) gives None |
| SupplySentinel.CountNonBlank | supply_sentinel.py:75 | the number of lines with a non-whitespace character is at most the number of lines, and zero exactly when every line is blank |
| SupplySentinel.SplitLinesBlank | supply_sentinel.py:75 | every newline-separated line is blank exactly when the whole text is empty or whitespace |
| SupplySentinel.ArticleCount | supply_sentinel.py:75 | the watchman reports zero data points exactly for empty or whitespace-only text, and never more data points than newlines plus one |
| SupplySentinel.ArticleCountAround | supply_sentinel.py:75 | joining two texts with a newline adds their data-point counts |
| SupplySentinel.Classify | supply_sentinel.py:122-129 | each severity holds exactly for its score range: 0 asks for a retry, 7 and above is critical, 5 up to 7 is elevated, any other nonzero score below 5 is normal |
| SupplySentinel.SeverityLevel | supply_sentinel.py:122-129 | the analyst's log line is critical exactly for a critical score, a warning exactly for a zero or an elevated score, and info exactly for a normal one |
| SupplySentinel.Analyst | supply_sentinel.py:91-134 | missing or empty search text gives None without a scoring call; otherwise the result is the scoring call's parsed reply |
| SupplySentinel.FailedSearchNotScored | supply_sentinel.py:83-93 | a search that raised, or answered no text, never yields an assessment |
| SupplySentinel.DispatchStep | supply_sentinel.py:136-167 | no assessment exactly gives no action; an assessment whose key is in the history exactly gives a suppressed duplicate; an alert, with score and reason (default `Unknown`), exactly for a critical score under a new key; a monitored score exactly for a lower one under a new key; the history gains the key exactly for a critical assessment |
| SupplySentinel.Tally | supply_sentinel.py:189-211 | after n dependencies the safe, critical and skipped counters add up to n |
| SupplySentinel.Risks | supply_sentinel.py:193-198 | a pass has one analysis per dependency |
| SupplySentinel.RisksAt | supply_sentinel.py:193-198 | analysis `i` is the analyst's answer on the watchman's answer for dependency `i` |
| SupplySentinel.Pass | supply_sentinel.py:193-201 | a pass of n dispatches has n outcomes |
| SupplySentinel.PassNext | supply_sentinel.py:193-201 | the next iteration appends the dispatcher's outcome against the history so far and leaves the history it produced |
| SupplySentinel.CriticalKeyIn | supply_sentinel.py:154-165 | every dependency analysed as critical in a pass has its key among the keys the pass records |
| SupplySentinel.NewKeysAtMostCritical | supply_sentinel.py:204-209 | a pass adds at most as many keys as its critical counter counts; suppressed alerts are still counted |
| SupplySentinel.PassHistory | supply_sentinel.py:163-165 | a pass adds to the history exactly the keys of its critical dependencies |
| SupplySentinel.PassPrefix | supply_sentinel.py:193-201 | a longer pass begins with the outcomes of a shorter one |
| SupplySentinel.PassOutcome | supply_sentinel.py:146-167 | dispatch `j` decides against the starting history plus the keys of the critical dependencies before it |
| SupplySentinel.PassAlerts | supply_sentinel.py:148-165 | dispatch `j` alerts exactly when its analysis is critical and its key is neither in the starting history nor among the keys of the earlier critical dependencies |
| SupplySentinel.AlertCount | supply_sentinel.py:154-165 | a pass raises at most one alert per dispatch |
| SupplySentinel.AlertCountAppend | supply_sentinel.py:154-165 | one more outcome adds one alert exactly when it is an alert |
| SupplySentinel.PassNoAlert | supply_sentinel.py:163-165 | a pass that raised no alert leaves the history as it found it |
| SupplySentinel.PassSuppressesRepeats | supply_sentinel.py:148-151 | a dependency analysed again under a key that already had a critical analysis in the pass is suppressed |
| SupplySentinel.Sentinel.constructor | supply_sentinel.py:21-24 | the history starts as the loaded history file |
| SupplySentinel.Sentinel.SaveHistory | supply_sentinel.py:44-46 | the file becomes a list that loads back as the in-memory set, with one entry per key |
| SupplySentinel.Sentinel.Dispatch | supply_sentinel.py:136-167 | the outcome and the new history are `DispatchStep` on the old history and the key of the given day; the file is rewritten, one entry per key, exactly for an alert, and otherwise left as it was; the file keeps reloading as the history |
| SupplySentinel.Sentinel.DispatchTwice | supply_sentinel.py:146-165 | two same-day dispatches of a critical assessment add exactly one key, and the second is suppressed |
| SupplySentinel.Sentinel.RunCycle | supply_sentinel.py:189-211 | the counters are the tally of the analyses of the given replies and add up to the number of dependencies; the outcomes and history are `Pass` over the keys of the given days; the history grows by exactly the keys of the critical dependencies; each alert is raised exactly for a critical analysis under a key not yet recorded; repeats are suppressed; without an alert the file is unchanged, and it always reloads as the history |
| SupplySentinel.Sentinel.RunDebug | supply_sentinel.py:175-220 | without a dependency list nothing runs and nothing changes; otherwise exactly one pass runs, with its counters, outcomes, history and file as in `RunCycle` |
| StreamlitApp.Watchman | app.py:291-302 | an answered call gives its text; a raised call gives `"Search error: "` followed by the message |
| StreamlitApp.Analyst | app.py:304-329 | text that is missing, empty or contains "error" in any case gives None without a scoring call; other text gives the scoring call's parsed reply |
| StreamlitApp.LowerOccurs | app.py:305 | lower-casing keeps an occurrence of a substring at its position |
| StreamlitApp.ErrorInAnyCaseRejected | app.py:305 | text holding any spelling of "error" (`ERROR`, `Error`, part of `terror`) is never scored |
| StreamlitApp.SearchErrorNeverScored | app.py:301-306 | the watchman's error text for a failed search is never scored, whatever the scoring call would answer |
| StreamlitApp.CheckOutcome | app.py:331-377 | skipped, with "Already assessed today", exactly when today's key is in the history; critical exactly for a critical assessment under a new key; no assessment under a new key: safe with score 0 and "No significant risks detected"; otherwise the score and reason (default `Unknown`); the history gains the key exactly for a critical result |
| StreamlitApp.Risks | app.py:343-346 | a run has one analysis per dependency |
| StreamlitApp.RisksAt | app.py:343-346 | analysis `i` is the web analyst's answer on the web watchman's answer for dependency `i` |
| StreamlitApp.CheckAll | app.py:579-584 | n checks give n results |
| StreamlitApp.CheckAllAligned | app.py:579-584 | result `i` names the material and location of dependency `i` |
| StreamlitApp.CheckAllNext | app.py:579-584 | the next iteration appends `check_item`'s result against the history so far and leaves the history it produced |
| StreamlitApp.CountStatus | app.py:576-624 | a status count never exceeds the number of results |
| StreamlitApp.CountStatusAppend | app.py:586-624 | one more result adds one to its own status count and nothing to the others |
| StreamlitApp.StatusCountsPartition | app.py:586-636 | skipped, safe and critical counts add up to the number of results |
| StreamlitApp.AlertedKeyIn | app.py:360-362 | every critical result's key is among the keys the loop records |
| StreamlitApp.CheckAllHistory | app.py:360-362 | the loop adds to the history exactly the keys of its critical results |
| StreamlitApp.CheckAllNoCritical | app.py:360-362 | a loop without a critical result leaves the history as it found it |
| StreamlitApp.CheckAllPrefix | app.py:579-584 | a longer loop begins with the results of a shorter one |
| StreamlitApp.CheckAllResult | app.py:332-377 | result `j` is `check_item` against the starting history plus the keys of the critical results before it |
| StreamlitApp.CheckAllResults | app.py:332-377 | the same, for every result of the loop |
| StreamlitApp.CheckAllSkipsRepeats | app.py:334-340 | a dependency checked again under a key that already produced a critical result is skipped |
| StreamlitApp.StreamlitSentinel.constructor | app.py:265-266 | the history starts as the loaded history file |
| StreamlitApp.StreamlitSentinel.SaveHistory | app.py:281-283 | the file becomes a list that loads back as the in-memory set, with one entry per key |
| StreamlitApp.StreamlitSentinel.CheckItem | app.py:331-377 | the result and the new history are `CheckOutcome` on the old history, the key of the given day and the analysis of the given replies; the file is rewritten, one entry per key, exactly for a critical result, and otherwise left as it was; the file keeps reloading as the history |
| StreamlitApp.StreamlitSentinel.CheckTwice | app.py:332-362 | after a critical result, a second same-day check of the pair is skipped, and exactly its key was added |
| StreamlitApp.StreamlitSentinel.RunChecks | app.py:576-624 | the results and history are `CheckAll` over the keys of the given days and the analyses of the given replies; one result per dependency; the safe and critical counters count those statuses and add up with the skipped ones to the number of dependencies; the history grows by exactly the keys of critical results; each result is `check_item` against the history left by the earlier ones; repeats are skipped; without a critical result the file is unchanged, and it always reloads as the history |
| MetricsTracker.DefaultMetrics | metrics_tracker.py:27-35 | the defaults are zero totals, empty score and history lists, and no timestamp |
| MetricsTracker.LoadMetrics | metrics_tracker.py:17-35 | a stored file loads as its metrics; a missing or unreadable one as zero totals, empty lists and no timestamp |
| MetricsTracker.Mean | metrics_tracker.py:54 | the average of no scores is 0 |
| MetricsTracker.Tracker.constructor | metrics_tracker.py:14-15 | the metrics start as the loaded file |
| MetricsTracker.Tracker.RecordScan | metrics_tracker.py:42-61 | the totals grow by the scan's supplier and critical counts; the scores are appended; the timestamp is `now`; the history is the last 100 of the old history plus the new entry, so below 100 it is appended and at 100 the oldest drops; the last element is the new entry with average 0 for no scores; the file is saved |
| MetricsTracker.Tracker.GetRecentScans | metrics_tracker.py:82-84 | `scan_history[-limit:]`, read only: for a positive limit the last `min(limit, len)` entries in order; for 0 the whole history; for a negative limit the history without its first `-limit` entries |
| MetricsTracker.Tracker.ResetMetrics | metrics_tracker.py:86-89 | the metrics are the defaults (zero totals, empty lists, no timestamp) and are saved |
| PySlice.Tail | logging_config.py:37 | `s[-limit:]` is the last `min(limit, len)` elements for a positive limit, the whole sequence for 0, and drops a prefix for a negative limit |
| PySlice.LastNIsSuffix | logging_config.py:37 | the last n elements are the suffix of length `min(n, len)` |
| PySlice.LastNAfterAppend | logging_config.py:21 | appending to a bounded sequence drops nothing below the bound, exactly the oldest element at the bound, never exceeds the bound, and ends with the new element |
| LoggingConfig.AgentLoggerName | logging_config.py:94 | the logger name is `Agent.` followed by the agent name |
| LoggingConfig.AgentLabel | logging_config.py:30 | the `agent` column is never longer than the logger name, and is the logger name itself when that holds no `Agent.` |
| LoggingConfig.AgentLabelOfAgentLogger | logging_config.py:84-94 | the `agent` column of a logger made by `get_agent_logger(name)` is the name, for any name without a dot |
| LoggingConfig.AgentLoggersLabels | logging_config.py:96-100 | the four agent loggers are labelled Config, Watchman, Analyst and Dispatcher |
| LoggingConfig.LogBuffer.constructor | logging_config.py:21 | the buffer starts empty |
| LoggingConfig.LogBuffer.Emit | logging_config.py:21-33 | the entry carries the record's time, level name, agent label and message; the buffer is the last 500 of the old buffer plus the entry, so below 500 it is appended and when full the oldest drops; it never exceeds 500 |
| LoggingConfig.LogBuffer.GetRecentLogs | logging_config.py:35-37 | read only, default limit 100: for a positive limit the last `min(limit, len)` entries in insertion order; for 0 all; for a negative limit all but the first `-limit` |
| LoggingConfig.LogBuffer.Clear | logging_config.py:39-41 | the buffer is empty |

The metrics getters `GetTotalScans`, `GetTotalCriticalAlerts` and `GetLastScanTimestamp`
(metrics_tracker.py:63-80) are read-only functions of the metrics. They appear in the
contracts of `RecordScan` and `ResetMetrics`.

## Left out

- The generative-model calls, their prompts and the search tool are not modelled. Their
  results are the `SearchReply` and `Option<Assessment>` parameters.
- `generate_suppliers` in app.py is not part of this model. It is a model call.
- config_agent.py and test_logging.py are not part of this model. The first only prompts,
  calls the model and writes a file; the second only emits log lines.
- The web UI (CSS, HTML cards, spinners and the progress percentage) is left out. It is
  rendering.
- `retry_without_location` in the command-line watchman is left out, because `run_loop`
  never passes it.
- Log messages, `print` output and the email notice are left out. The model keeps only
  what decides them:
  - the analyst's severity (`Classify`, `SeverityLevel`);
  - the watchman's data-point count (`ArticleCount`);
  - the dispatcher's outcome (`DispatchOutcome`).
- `setup_logging`, handlers, rotation and formatting are left out as library plumbing. The
  formatted text of an entry is the `fullText` parameter, and `created` stays the record's
  epoch time instead of a `datetime`.
- The infinite loop of `run_loop`, the cycle number and `time.sleep` are left out. One pass
  is modelled; the 24-hour pause only separates passes.
- `datetime.now()` is a parameter: one `Date` per dispatcher or `check_item` call for the
  key, and a string for the metrics timestamp.
- Real file I/O is an abstract file value, and concurrent runs sharing a file are not
  modelled.
- A `suppliers.json` that exists but is not valid JSON raises in the source. It is not
  modelled: the model distinguishes only a missing list from a present one, and each entry
  is a pair of strings.
- Scores are exact reals. Float rounding is not modelled, nor a `risk_score` that is not a
  number, which would raise on comparison in the source.
- A history file whose JSON is not a list of strings counts as `Unparsable`, even a JSON
  object, whose keys `set` would actually read.
- The web analyst returns whatever `json.loads` parses (app.py:327). A reply that parses
  to a truthy value other than an object, such as a non-empty list, makes `.get` raise
  `AttributeError` in `check_item` (app.py:357), and nothing in `main`'s loop
  (app.py:579-584) catches it, so the run stops. The model's reply is either an object or
  None and does not capture that crash. The command-line analyst calls `.get` inside its
  `try` (supply_sentinel.py:119), so there such a reply becomes None, as modelled.
- A metrics file that parses but lacks keys is stored as well-formed `Metrics`. The
  `KeyError` such a file would cause is not modelled.
- `get_avg_risk_score` (metrics_tracker.py:71-76) is left out. It is a floating-point
  quotient.
- MetricsTracker.Tracker.RecordScan: `avg_risk` is the exact mean of the scores, not the
  floating-point quotient; only its value for no scores is promised exactly.
- `str.lower` is modelled only on ASCII letters. The few non-ASCII capitals that Python
  lowers to ASCII letters, such as the Kelvin sign, stay as they are.
- AlertHistory.DateStamp: years are padded to four digits. `strftime('%Y')` for years
  before 1000 depends on the platform.
- Injectivity of the alert key is not claimed, because it does not hold: `("A-B", "C")`
  and `("A", "B-C")` share a key. `KeyDeterminesDate` proves only that the day is
  determined.
