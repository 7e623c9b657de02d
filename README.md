# Air-quality bot: a verified model of its text and data handling

The bot (`bot.py`) fetches the readings of a network of air-quality sensors,
turns each reading into an `AirQuality` value with a severity legend,
composes a report ("Koa nde aire? #AireLibre", a timestamp, one line per
sensor, a footer), cuts the report into `len // 250 + 1` posts balanced by
line count, and compares the set of sensor names with the set persisted by the previous
run to notice sensors that went offline.

This project models the deterministic part of that pipeline in Dafny and
proves what it promises:

- `readings.dfy` (module `Readings`): the six severity bands and their
  legends, the `AirQuality` class (its fields are fixed at construction, so
  they are `const`), and `parse_aqi` as a method with the loop of the source,
  including the `KeyError` that a record missing `source`, `quality` or
  `quality.index` raises.
- `report.dfy` (module `Report`): `build_text` as a method with the
  accumulating loop, proved equal to a specification of the report, and the
  line structure of the report.
- `tweets.dfy` (module `Tweets`): `chunkify` and `parse_tweets` as functions,
  with the partition, exact count, balance and reassembly properties.
- `sensors.dfy` (module `Sensors`): the names persisted by `write_sensors` and
  `sensor_diff`, with its deliberate asymmetry (`up` is always `None`).
- `text.dfy` (module `Text`): `str(int)`, `"\n".join`, `str.split("\n")` and
  `str.splitlines()` for text whose only separator is the line feed, with
  their round trips.
- `wrappers.dfy` (module `Wrappers`): `Option` and `Result`.

Modelling decisions:

- The timestamp of `build_text` (`datetime.now()`) is the parameter `updated`.
- The alert sent by `sensor_diff` is the `alerted` flag of its result.
- JSON records are the datatype `Record`. `None` in a field means a missing
  key, or a JSON `null` for `description`. The numeric `source` identifier is
  held as the text the f-string prints. `quality.index` is an integer.
- `str.splitlines()` is modelled as splitting on `"\n"` after dropping one
  final line feed. Python also splits on `\r`, `\x0b`, `\x0c`, `\x1c`-`\x1e`,
  `\x85`, `\u2028` and `\u2029`; the model does not.
- Lengths are counted in Unicode scalar values, as Python's `len` counts code
  points.
- A long report might be expected to give only non-empty posts, but
  `parse_tweets` derives the number of parts from the character count and
  splits by lines. A report with fewer lines than parts therefore yields
  empty posts (`Tweets.EmptyPostExample`). The model keeps this behaviour.
- `telegram_helper.py` defines no `sensor_diff` method on `TelegramService`,
  so in the source the alert call in `sensor_diff` would raise inside the
  `try` block of `__main__` (bot.py:142-147). The exception skips
  `write_sensors` (bot.py:145), so after an alert the saved names are not
  refreshed, and a run where `sensors.dat` is missing fails in `read_file`
  before it can create the file. The "previous run" of `Sensors.DiffAcrossRuns`
  is therefore the last run that saved its names. The model keeps the alert
  abstract.

## Model

Functions without a contract of their own model source expressions directly
and are covered by the rows of the lemmas about them: `Readings.Legend`
(bot.py:22-32) by `LegendsDistinct` and `LegendOneLine`; `Report.Line`
(bot.py:81) by `LinesAt` and `LineNoNewline`; `Report.ReportText`
(bot.py:83-88) by `BuildText` and `ReportLines`; `Text.Join` (bot.py:101)
and `Text.SplitLines` (bot.py:99) by `SplitJoin`, `JoinSplit` and
`SplitLinesRoundTrip`.

| member | source | states |
|---|---|---|
| `Readings.BandOf` | bot.py:21-32 | the band chosen by the strict `<` thresholds 51, 101, 151, 201, 301 is the band whose closed index range contains the index |
| `Readings.BandsPartition` | bot.py:21-32 | every index lies in exactly one band, the one the thresholds choose |
| `Readings.BandBoundaries` | bot.py:21-32 | 50→Libre, 51→Maso, 100→Maso, 101→No tan bien, 150/151, 200/201, 300→Muy Insalubre, 301→Peligroso; negative indices are Libre |
| `Readings.BandMonotone` | bot.py:21-32 | a higher index never gets a milder band |
| `Readings.LegendsDistinct` | bot.py:22-32 | the six legend strings are pairwise distinct |
| `Readings.LegendOneLine` | bot.py:22-32 | no legend contains a line feed |
| `Readings.AirQuality.constructor` | bot.py:16-32 | the reading keeps the given index and source, and its legend is the legend of the index's band |
| `Readings.ParseAqi` | bot.py:38-48 | succeeds exactly when every record has its keys; then one reading per record in input order, whose index is `quality.index`, whose label is the non-empty `description` or else `"Sensor " + source`, and whose legend matches its index; otherwise the `KeyError` of the first bad record, keys looked up in the source's order |
| `Report.BuildText` | bot.py:77-89 | the loop's result equals the report specification: header, timestamp, one segment per reading, footer |
| `Report.LinesAt` | bot.py:80-81 | the i-th reading line is `"{source}: {index} - {legend}"` of the i-th reading |
| `Report.ValidOneLine` | bot.py:16-32 | a well-formed reading whose source label has no line feed has a one-line legend too |
| `Report.LineNoNewline` | bot.py:81 | a reading whose source label and legend have no line feed gives a report line without line feed |
| `Report.ReportLines` | bot.py:77-89 | when the timestamp and every source label are free of line feeds, the report's lines are the header, the timestamp, a blank line, one line per reading in input order, a blank line and the footer |
| `Text.IntToString` | bot.py:81 | the printed index is non-empty and one line |
| `Text.IntToStringRoundTrip` | bot.py:81 | the printed index reads back as the same integer |
| `Text.SplitJoin` | bot.py:101 | splitting the join of one-line strings gives the strings back |
| `Text.JoinSplit` | bot.py:99-101 | joining the pieces of a split gives the text back |
| `Text.SplitLinesRoundTrip` | bot.py:99 | the lines rejoined give the text back, except for the final line feed that `splitlines` drops; no line contains a line feed |
| `Tweets.Chunkify` | bot.py:91-93 | exactly `n` groups; with `k, m = divmod(len, n)` the first `m` have `k + 1` elements and the rest `k` |
| `Tweets.ChunkifyFlatten` | bot.py:91-93 | concatenating the groups in order gives the list back |
| `Tweets.ChunkifyContiguous` | bot.py:93 | group `i` is the contiguous slice starting at `i*k + min(i, m)` |
| `Tweets.ChunkifyBalanced` | bot.py:92-93 | any two group sizes differ by at most one |
| `Tweets.ChunkifyEmptyGroups` | bot.py:92-93 | all groups are non-empty when `n <= len`; when `n > len` the last group is empty |
| `Tweets.ParseTweets` | bot.py:95-102 | a text shorter than 250 characters is returned alone and unchanged; otherwise there are exactly `len // 250 + 1` posts |
| `Tweets.ParseTweetsGroups` | bot.py:99-101 | each post is the join of a group of the text's lines, the groups concatenate to the lines, and their line counts differ by at most one |
| `Tweets.ParseTweetsRoundTrip` | bot.py:95-102 | when there are at least as many lines as posts, the posts joined with line feeds give back the text, without its final line feed |
| `Tweets.EmptyPostExample` | bot.py:96-101 | a one-line text of 250 characters gives two posts, the second empty: the part count follows characters, not lines |
| `Sensors.SensorNames` | bot.py:117 | one persisted name per reading, the reading's source, in order |
| `Sensors.SensorDiff` | bot.py:129-135 | `up` is `None`; a name is down exactly when it was in the old list and no current reading carries it; the alert fires exactly when some name is down |
| `Sensors.DownNotCurrent` | bot.py:130-132 | a current reading's source is never down |
| `Sensors.AppearedNeverAlerts` | bot.py:131-134 | when every old name is still reported, the result is `(None, {}, no alert)`, however many new sensors appeared |
| `Sensors.DiffAcrossRuns` | bot.py:116-132 | against the names persisted by the previous run, a name is down exactly when a previous reading had it and no current one does |
| `Sensors.DiffExample` | bot.py:129-135 | old `A, B, C` and current `A, C` give `down = {B}`, `up = None`, and an alert |

## Left out

- `get_data` (bot.py:51-74): HTTP request, retry and backoff policy, UTC time window, `exit()` and JSON decoding are network I/O and library behaviour. The model starts from decoded records.
- `send_tweet` (bot.py:104-114) and the posting loop (bot.py:152-154): tweepy API calls. The reply chain of post identifiers is not modelled.
- `write_sensors` and `read_file` (bot.py:116-127): file and pickle I/O. Only the list of names that gets persisted is modelled (`Sensors.SensorNames`).
- The `__main__` orchestration and its `try`/`except` (bot.py:139-147), including the missing-snapshot path: control flow around I/O.
- `AirQuality.__repr__` (bot.py:34-35): debugging output only.
- The `datetime.now()` timestamp (bot.py:78): a parameter of `Report.BuildText`.
- `Readings.ParseAqi`: JSON values of unexpected type (a numeric `description`, a non-integer `index`) are not modelled; such values would raise `TypeError` or be formatted by Python's `str`.
- Line separators other than `"\n"` in `str.splitlines()`, as stated above.
- `Tweets.Chunkify`: requires `n >= 1`. With `n == 0`, `divmod` raises `ZeroDivisionError`; `parse_tweets` never passes fewer than two parts.
- screen.py (headless-browser screenshot) and telegram_helper.py (messaging client): foreign I/O. The alert is an abstract flag.
