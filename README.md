# Monitor Moon, modelled in Dafny

Monitor Moon watches a small fleet of Linux servers. A setup script asks for
three things on the console:

- a Telegram bot token and chat id;
- one or more SSH servers;
- a polling interval.

It assembles these into a configuration. The monitor then, on a schedule:

- polls every server over SSH with four shell commands (CPU, RAM, disk and
  the `eth0` byte counters);
- turns the command output into a per-host record, with an all-zero
  "offline" record whenever anything fails;
- formats an interval report (one section per host, plus the online hosts'
  fleet totals) and a daily report (traffic, and synthetic min/max bands
  around the current load);
- sends the reports to Telegram.

This project models that core as Dafny functions, methods and lemmas. The
files are:

- `outcomes.dfy` (`Outcomes`): `Option` and `Result`, standing for optional
  dictionary keys and for raised exceptions.
- `text.dfy` (`Text`): the Python string built-ins the code relies on.
  - `str.strip()` and `str.split()`, with Python's whitespace set.
  - `str.lower()` and `str.isdigit()`.
  - `int()` and `float()` over text with no surrounding whitespace.
- `settings.dfy` (`Settings`): the configuration the setup script writes and
  the monitor reads.
- `monitor.dfy` (`Monitor`):
  - `get_server_stats`, as `GetServerStats`;
  - `format_bytes`, as the `FormatBytes` method and its specification
    `Scaled`;
  - `generate_monitoring_report`, as `GenerateMonitoringReport`;
  - the content of `send_daily_report`, as `DailyReport`.
- `setup.dfy` (`Setup`):
  - `get_telegram_config`;
  - the `get_server_config` loop, as `GetServerConfig`, specified by
    `CollectServers`;
  - `get_monitoring_config`;
  - `main` up to the confirmation, as `RunSetup`, specified by `SetupFrom`.

The environment is given as data.

- An SSH session is a `Session`. It is either `Refused` (connection,
  authentication or timeout error, with its text) or `Connected`, holding a
  total function from each of the four commands to a `Reply`. A reply is the
  command's standard output, or the text of the exception that reading it
  raised.
- The console is a sequence of typed answers, plus the position of the next
  one to read. Reading past the last answer is `input()` raising `EOFError`,
  which is the `EndOfInput` outcome.
- A report's byte counts are `Shown(value, unit)` values. This is the
  magnitude and unit that `format_bytes` prints with `%.1f`. The surrounding
  emoji and Markdown text is not modelled.

## Model

| member | source | states |
|---|---|---|
| Text.Strip | monitor.py:84 | the stripped text has no whitespace at either end and is no longer than the original |
| Text.StripPadded | setup.py:34 | whitespace padding around a text that neither starts nor ends with whitespace is exactly what stripping removes |
| Text.StripEmpty | setup.py:35 | an answer strips to the empty string exactly when it is all whitespace, which is what the "is required" checks test |
| Text.StripIdempotent | setup.py:34 | a property of the `str.strip()` model: stripping an already stripped text changes nothing |
| Text.StripLine | monitor.py:83-84 | command output made of a value followed by its newline strips to the value |
| Text.Split | monitor.py:96 | every token `split()` yields is a non-empty run of non-whitespace characters |
| Text.SplitJoin | monitor.py:96 | splitting words joined by single spaces gives back exactly those words, in order |
| Text.SplitPair | monitor.py:95-98 | an `awk '{print $2, $10}'` line of two words splits into those two words |
| Text.Lower | setup.py:77 | lower-casing keeps the length and lower-cases each character |
| Text.LowerIsYes | setup.py:77-78 | a stripped answer lower-cases to "y" exactly when it is "y" or "Y" |
| Text.DecimalRoundTrip | setup.py:91 | the digits of a natural number read back as that number |
| Text.ParseInt | monitor.py:97 | `int()` accepts only a non-empty text that is a digit, or a sign followed by more text, and all of whose characters after the first are digits; a plain digit string reads as its decimal value |
| Text.ParseIntRoundTrip | monitor.py:97 | a property of the `int()` model: the spelling `str(i)` of every integer, negative ones included, reads back as `i` |
| Text.ParseFloat | monitor.py:84 | `float()` never accepts the empty text, so empty output has to be replaced by 0 first |
| Text.ParseFloatExtendsParseInt | monitor.py:91-92 | every text `int()` accepts, such as a whole disk percentage, `float()` accepts with the same value |
| Text.ParseFloatDecimal | monitor.py:87-88 | text of the form `digits.digits` reads as the whole part plus the fraction |
| Monitor.FaultText | monitor.py:111-120 | the error text of a failed command is that exception's own message; a parse failure's text ends with the rejected text in single quotes |
| Monitor.Metric | monitor.py:84 | blank output reads as 0.0; a rejected output fails with a float `ValueError` on the stripped text |
| Monitor.Counter | monitor.py:97-98 | a missing token reads as 0; a rejected token fails with an int `ValueError` on that very token |
| Monitor.Counters | monitor.py:96-98 | a blank counter line reads as (0, 0); a failure is an int `ValueError` on one of the line's tokens |
| Monitor.Probe | monitor.py:82-98 | a completed poll got standard output from all four commands |
| Monitor.GetServerStats | monitor.py:77-121 | every record has an error exactly when it is offline; an offline record is all zero; a record is online only if the session opened |
| Monitor.MetricOk | monitor.py:84 | `float(out.strip() or 0)` succeeds exactly when the stripped output is empty or a number |
| Monitor.CountersOk | monitor.py:96-98 | the counter parse succeeds exactly when each of the first two tokens that exists is an integer |
| Monitor.OnlineIff | monitor.py:79-121 | a host is online if and only if the session opened and all four commands gave usable output |
| Monitor.UnparsableMetricDropsHost | monitor.py:84-121 | non-empty output that is not a number takes the whole host to the all-zero offline record, not just that metric |
| Monitor.UnparsableCounterDropsHost | monitor.py:97-121 | a non-integer first or second counter token takes the host offline |
| Monitor.CounterTokenFails | monitor.py:97-98 | one of the first two tokens failing `int()` fails the counter parse |
| Monitor.ProbeNeedsCounters | monitor.py:95-98 | a poll completes only if the counter command answered with a usable line |
| Monitor.FailureRecord | monitor.py:80-121 | a refused session, or a first command that raises, gives the offline record carrying that error's text; unparsable CPU output gives the ValueError text |
| Monitor.MetricsUsable | monitor.py:83-92 | when the commands before a given one gave usable output, each of them read successfully |
| Monitor.CommandRaises | monitor.py:82-121 | whichever command raises first (CPU, RAM, disk or counters), the record is the offline one carrying that exception's text |
| Monitor.MetricRejected | monitor.py:84-121 | whichever of CPU, RAM or disk first prints a non-number, the record is offline with the `could not convert string to float` text for that output |
| Monitor.CountersRejected | monitor.py:95-121 | when the counter line is the first unusable output, the record is offline with the `invalid literal for int()` text of the first rejected token |
| Monitor.CountersFault | monitor.py:97-98 | a counter line that does not parse fails on the first of its two tokens that `int()` rejects |
| Monitor.ProbeCountersFault | monitor.py:95-98 | after three usable metric outputs, the poll fails exactly as the counter parse does |
| Monitor.FaultRecord | monitor.py:111-120 | a poll that fails with a fault gives the all-zero offline record with that fault's text |
| Monitor.MetricValue | monitor.py:84 | a successful metric parse is 0 for empty output, otherwise the number the output spells |
| Monitor.CountersValue | monitor.py:96-98 | successful counters are the first and second tokens, each 0 when missing |
| Monitor.ProbeReading | monitor.py:83-98 | a completed poll took each reading from its own command's output |
| Monitor.OnlineReading | monitor.py:102-109 | an online record has no error and holds the completed poll's readings |
| Monitor.OnlineMetrics | monitor.py:83-105 | in an online record, cpu, ram and disk are what their commands printed, 0 for empty output |
| Monitor.OnlineCounters | monitor.py:95-107 | in an online record, received and transmitted bytes are the line's first and second tokens, 0 when missing |
| Monitor.MetricOfDecimal | monitor.py:83-88 | a reply such as `42.3` plus a newline reads as its decimal value |
| Monitor.MetricOfDigits | monitor.py:91-92 | a reply such as `70` plus a newline reads as that whole number |
| Monitor.CountersOfDigits | monitor.py:95-98 | a reply such as `1000 2000` plus a newline reads as those two counters |
| Monitor.CpuReply | monitor.py:83-84 | the output `42.3` plus a newline reads as 42.3 |
| Monitor.RamReply | monitor.py:87-88 | the output `55.0` plus a newline reads as 55.0 |
| Monitor.DiskReply | monitor.py:91-92 | the output `70` plus a newline reads as 70.0 |
| Monitor.NetReply | monitor.py:95-98 | the output `1000 2000` plus a newline reads as counters 1000 and 2000 |
| Monitor.HealthyHostExample | monitor.py:77-109 | a host answering with typical output is online with exactly CPU 42.3, RAM 55.0, disk 70, rx 1000 and tx 2000 |
| Monitor.FitsUnique | monitor.py:125-129 | a byte count fits at most one unit (`Magnitude` gives the one it fits) |
| Monitor.FormatBytes | monitor.py:123-129 | the loop stops at the unit the count fits (at least 1024^k and under 1024^(k+1), with PB uncapped) and shows the count divided by 1024^k |
| Monitor.Magnitude | monitor.py:125-129 | the unit chosen by stepping up from bytes is one the count fits |
| Monitor.ScaledFits | monitor.py:125-129 | the displayed unit is the one the count fits, and the displayed value is the count in that unit |
| Monitor.FormatBytesIsScaled | monitor.py:123-129 | any result meeting the `format_bytes` contract is the same as the reference specification `Scaled` |
| Monitor.ShowBytes | monitor.py:160-162 | each `format_bytes` call in a report shows `Scaled` of its count |
| Monitor.ScaledUnit | monitor.py:125-129 | unit k is chosen if and only if 1024^k <= b < 1024^(k+1); PB has no upper bound |
| Monitor.ScaledSmall | monitor.py:126-127 | a count under 1024, zero or negative included, stays in bytes, unchanged |
| Monitor.ScaledHuge | monitor.py:129 | from 1024^5 up the unit is PB, and the value is the count divided by 1024^5 |
| Monitor.ScaledMonotone | monitor.py:125-129 | a larger count never gets a smaller unit |
| Monitor.ScaledExamples | monitor.py:123-129 | 0 shows as 0.0 B, 1536 as 1.5 KB, and 2^30 as 1.0 GB |
| Monitor.SectionFor | monitor.py:158-173 | a section names its server, is an online one exactly when its record is online, and an offline one shows the record's error when it has one |
| Monitor.GenerateMonitoringReport | monitor.py:151-185 | one section per configured server, in order, each built from that server's own poll; the totals are over the online hosts only |
| Monitor.ServerSection | monitor.py:158-173 | an online section shows input, output, total, cpu, ram and disk; an offline one shows the record's error, or "Connection failed" when it has none |
| Monitor.FleetTotals | monitor.py:182-185 | the totals show the summed input, output and their sum |
| Monitor.OnlineTotalsAreFleetTotals | monitor.py:168-169 | offline records carry zero counters, so summing the online hosts is the same as summing all hosts |
| Monitor.PollTotals | monitor.py:151-169 | the counter totals of one poll are the sums over every configured host |
| Monitor.DownSectionShowsError | monitor.py:170-172 | a polled offline host's section shows its own error text, so "Connection failed" never shows; a refused session shows the connection error |
| Monitor.SectionKind | monitor.py:158-173 | a section is an online one exactly when its record is online; it always names its server; its total is the scaled sum of the two counters |
| Monitor.MixedFleet | monitor.py:151-185 | for hosts A online, B polled over a refused session and C online with zero counters: an up, a down and an up section, B's section shows the connection error, C's input and output show as 0.0 B, and the totals are A's counters |
| Monitor.BandAround | monitor.py:205-207 | the low end is `max(0, v - d)`: at least 0, at least `v - d`, and one of the two; the high end is `v + d` |
| Monitor.DailyFor | monitor.py:201-207 | a daily section names its server, its three low ends are never negative, and its high ends are the readings plus 10, 15 and 5 |
| Monitor.BandBounds | monitor.py:205-207 | a band's low end is never negative and its high end is the reading plus the margin, uncapped; a non-negative reading lies inside its band |
| Monitor.BandExamples | monitor.py:205 | CPU 50 gives 40 to 60, CPU 5 gives 0 to 15, and CPU 95 gives a maximum over 100 |
| Monitor.DailyOffline | monitor.py:198-208 | an offline host still gets a daily section, with zero traffic and bands 0-10, 0-15 and 0-5 |
| Monitor.DailySections | monitor.py:198-208 | the daily report has one section per configured server |
| Monitor.DailySectionsAt | monitor.py:198-208 | section k of the daily report is server k's, built from poll k |
| Monitor.DailyStep | monitor.py:198-208 | one more server adds exactly its section at the end |
| Monitor.DailyReport | monitor.py:198-208 | the daily report polls every server again and lists, in order, each server's traffic and bands, whatever its status |
| Monitor.DailyServerSection | monitor.py:201-207 | a daily section shows the three byte counts and the ±10, ±15 and ±5 bands floored at 0 |
| Setup.GetTelegramConfig | setup.py:29-47 | a read telegram part holds a non-empty token and chat id and consumes exactly two answers |
| Setup.TelegramOutcome | setup.py:29-47 | the telegram part is read if and only if both answers are there and neither strips to nothing, and it holds the two stripped answers; an empty token stops first, then an empty chat id |
| Setup.CollectServers | setup.py:57-83 | the reference definition of the server loop, one round at a time; what it guarantees is stated by the lemmas below it |
| Setup.EntryAt | setup.py:59-63 | a round's port is never blank: a blank answer becomes "22", any other is kept stripped |
| Setup.CollectedServers | setup.py:57-83 | a finished server loop keeps the servers accepted before, adds at least one, and adds only servers with every required field filled |
| Setup.IncompleteRoundSkipped | setup.py:65-67 | a round with an empty required field stores nothing and asks again |
| Setup.CompleteRoundAppended | setup.py:65-75 | a complete round in a finished loop has a numeric port, and its server is stored next, with fields in entry order |
| Setup.AcceptedRound | setup.py:69-81 | after a stored server, the loop ends at an answer other than "y" to "Add another server?", continues at "y", and fails at end of input |
| Setup.BlankPortIs22 | setup.py:61 | a blank port answer becomes "22", which reads as port 22 |
| Setup.NonNumericPortStops | setup.py:72 | a complete round whose port is not an integer ends the setup with that port's ValueError |
| Setup.GetServerConfig | setup.py:49-83 | the `while True` loop gives exactly the outcome of the round-by-round reading, with the server counter one more than the number stored |
| Setup.ReadRound | setup.py:59-63 | the five answers of a round are stripped, and a blank port is replaced by "22" |
| Setup.ParseInterval | setup.py:90-91 | an interval other than 15 comes only from an answer that strips to a plain digit string |
| Setup.IntervalOfNumber | setup.py:90-91 | a number typed with any surrounding whitespace is read back as that number |
| Setup.IntervalDefault | setup.py:91 | any answer that is not a plain digit string, blank included, gives 15 |
| Setup.IntervalExamples | setup.py:90-91 | a blank answer, "-5" and "1.5" all give 15 |
| Setup.IntervalZero | setup.py:91 | "0" is accepted as an interval of 0 minutes |
| Setup.GetMonitoringConfig | setup.py:85-96 | the monitoring part is read exactly when an answer is left; it consumes that one answer, stores the interval that answer gives, and carries the Asia/Tehran zone |
| Setup.SetupFrom | setup.py:137-160 | a finished setup holds a non-empty bot token and chat id and the Asia/Tehran zone |
| Setup.RunSetup | setup.py:137-160 | `main` reads the telegram part, then the servers, then the interval, then the confirmation, and stops at the first failure or at an answer other than "y" |
| Setup.SetupShape | setup.py:137-146 | a finished setup holds the two stripped, non-empty Telegram answers, at least one server, only complete servers, the interval read from the answer after the last server round, and the Tehran zone |
| Setup.EmptyTokenIsFatal | setup.py:34-37 | an empty bot token ends the setup before any server is asked for |

## Left out

- The SSH transport is not modelled: paramiko, the host-key policy, the 10-second connect timeout and `ssh.close()`. A session is a parameter whose replies are given.
- A command that never returns is not modelled. In the source it would stall the poll, because only the connection has a timeout.
- Delivery to Telegram is not modelled: `send_telegram_message`, its Markdown parsing, the logged `TelegramError`, and the setup script's test message. They are network calls whose outcome does not change what the core computes.
- Scheduling is not modelled: `start_scheduler`, the daily 00:00 job, the one-second `while True` sleep loop and `run_monitoring`'s logging wrapper. They are timers and an endless loop around the two report functions.
- Report headers are not modelled: the Tehran date and time (`pytz` and clocks) and the fixed banner text.
- Any other rendering is not modelled: the emoji, Markdown and separator lines that wrap each section.
- Logging is not modelled.
- File I/O is not modelled: `load_config`, `save_config` and the JSON encoding.
- The monitor's `main` is not modelled. Its `sys.exit` in `load_config` refers to a module that `monitor.py` never imports.
- The setup script's printing is not modelled: the screen clearing, banners and the summary echo.
- `daily_stats` is not modelled: it is initialised in the monitor's constructor and never read or written again.
- Monitor.GetServerStats: the records hold the parsed readings themselves, not `round(x, 1)`. Python's binary floating point and its rounding are not modelled, and `Scaled` values are exact reals, not `%.1f` text.
- Monitor.FaultText: gives the `ValueError` text of `float()` and `int()` with the whole offending text in single quotes. Python's `repr` escaping of quotes and control characters is approximated, and so is `int()`'s `%.200R` formatting: for a token longer than 198 characters Python cuts the quoted text and drops the closing quote, where the model keeps the whole token and the quote.
- Monitor.FormatBytes: divides exact reals, so a count of any size is shown. In the source, `bytes /= 1024.0` converts the count to a float, which raises `OverflowError` for a count of 2^1024 or more, and that aborts the whole report.
- Text.ParseFloat: does not accept `inf`, `nan`, underscores between digits or non-ASCII digits, all of which Python's `float()` accepts.
- Text.ParseInt: does not accept underscores between digits or non-ASCII digits, which Python's `int()` accepts. It also accepts decimal text of any length, where Python 3.11 and later (and the 3.7.14, 3.8.14, 3.9.14 and 3.10.7 security releases) raise `ValueError` for more than 4300 digits. So an `eth0` counter token of more than 4300 digits gives an online record in the model but the offline record with that error in the source, and such a port answer is stored by the model where `int(port)` at setup.py:72 ends the setup script.
- Text.IsDigitString: counts only ASCII digits, which is narrower than `str.isdigit`.
- Text.Lower: lower-cases only ASCII letters. This is enough to decide the "y" answers, since only "Y" lowers to "y".
- Setup.ParseInterval: reads a digit string of any length as its value; for an answer of more than 4300 digits, `int()` at setup.py:91 raises `ValueError` on the Python versions named above and ends the setup script, where the model stores that number.
- Setup.GetServerConfig: its `ensures` ties the loop to `CollectServers`. The promise that a finished loop holds at least one server, all of them complete, is proved about `CollectServers` in `Setup.CollectedServers`.
- The code keeps no earlier counters and computes no rates; both reports show the cumulative `eth0` counters of the current poll.
- Network counters are read only from `eth0`. The code has no list of interface names and no fallback to another interface; if `eth0` is missing, the empty output gives counters of 0.
- Disk usage is read with `float()`, like CPU and RAM, not as an integer.
- A metric the code cannot parse takes the whole host offline; no unparsable metric is defaulted to 0, and only blank output reads as 0.
