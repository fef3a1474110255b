# Flood-risk monitoring pipeline: a Dafny model of its core

The pipeline reads the monitored cities from the `cidades` table. For each city it then:

1. fetches three hourly series from Open-Meteo: precipitation, precipitation probability and weather code;
2. computes two window sums: the trailing 24 hours and the next 3 hours;
3. asks a generative model for a flood-risk JSON object;
4. appends one observation row to `historico_clima`;
5. appends one risk row to `insights_gemini`.

A failure in one city is caught and reported, and the loop moves on to the next city.

This project models that core in five files:

- `common.dfy`: the `Option` type.
- `window.dfy`: the two sums, under Python slice semantics: slice bounds clamp to the length of the series. It also models the index-24 read of the representative hour, which raises when offset 24 is missing, and `int()` truncation of the weather code.
- `cleanup.dfy`: the reply text clean-up. This is Python's left-to-right, non-overlapping `str.replace` of "```json" and then of "```", followed by `str.strip` with Python's whitespace set.
- `insight.dfy`: JSON values and the parse gate. Only an object (a dict) produces an insight row. Absent keys read as `None`, modelled as `JNull`.
- `pipeline.dfy`:
  - the per-city step order as a specification function (`CityEffects`) and the loop over cities (`RunEffects`, `MonitorEffects`);
  - a `Store` class whose four sequence fields are changed in place: the model calls made, the two tables, and the printed error reports;
  - methods for each step of the source, proved equal to the specification functions;
  - lemmas about step order, failure isolation and the entry point.

External collaborators become inputs:

- **Registry read:** an `Option<seq<City>>`.
- **Per-city outcomes:** an `Outcome` per city attempted. It holds the weather fetch (series or raise), the model reply (text or raise), and whether each of the two inserts commits.
- **JSON parser:** a parameter `parse: string -> Option<Json>`, i.e. any partial function from text to a value.

The model follows the code, which differs from what one might expect in three places:

- **Short series:** a series does not fail for being shorter than 27 hours. Slices clamp, so a city fails only when offset 24 is missing from one of the three series. The model has already been called by then: `ShortSeriesNoRows`, `ClampedSeriesSaves`.
- **Missing fields:** an insight row is still written when fields are absent. They are stored as `None`.
- **Risk level:** it is not checked against the four levels (Baixo/Moderado/Alto/Crítico). Any value is stored: `RowGate`.

## Model

| member | source | states |
|---|---|---|
| Window.Sum | main.py:139-140 | Python `sum` over the window, computed exactly; characterised by `SumAppend`, `SumNonnegative` and `SumUpdate` |
| Window.SumAppend | main.py:139-140 | the sum of a concatenation is the sum of the two parts |
| Window.SumNonnegative | main.py:139-140 | a sum of non-negative values is non-negative |
| Window.SumUpdate | main.py:139-140 | changing one value changes the sum by exactly the difference |
| Window.Slice | main.py:139-140 | Python slice with clamped bounds; characterised by `SliceSpec` |
| Window.Accumulated24h | main.py:139 | `sum(precipitacao[:24])`; characterised by `AccumulatedWindow`, `AccumulatedUpdate` and `FullSeriesWindows` |
| Window.Forecast3h | main.py:140 | `sum(precipitacao[24:27])`; characterised by `ForecastWindow`, `ForecastUpdate` and `FullSeriesWindows` |
| Window.RepresentativeHour | main.py:146 | the three offset-24 reads and the `int()` of the code, `None` for the IndexError; characterised by `RepresentativeHourAt` |
| Window.SliceSpec | main.py:139-140 | a Python slice: its length is the distance between the bounds clamped to the series length (0 when they cross), and its k-th element is the element at lo + k |
| Window.At | main.py:146 | an index read exists exactly when the index is below the length, and then yields that element |
| Window.TruncToInt | main.py:146 | `int()` of the weather code truncates toward zero: the result is within one unit of the value, on the side of zero |
| Window.AccumulatedWindow | main.py:139 | the 24-hour accumulation is the sum of the first min(24, n) values |
| Window.ForecastWindow | main.py:140 | the 3-hour forecast is the sum of the values at offsets 24 .. min(27, n) - 1 |
| Window.WindowsPartition | main.py:139-140 | the two windows are adjacent and disjoint: together they sum the first min(27, n) values |
| Window.FullSeriesWindows | main.py:139-140 | on a series of 27 or more hours the forecast is exactly p[24] + p[25] + p[26] and the accumulation the sum of p[0..23] |
| Window.ShortSeriesWindows | main.py:139-140 | on a series of at most 24 hours the slices raise nothing: the accumulation is the whole sum and the forecast is 0 |
| Window.AccumulatedUpdate | main.py:139 | changing an hour below 24 shifts the accumulation by exactly the change; changing any other hour leaves it unchanged |
| Window.ForecastUpdate | main.py:140 | changing an hour in 24..26 shifts the forecast by exactly the change; changing any other hour leaves it unchanged |
| Window.AggregatesNonnegative | main.py:139-140 | non-negative precipitation gives non-negative aggregates |
| Window.RepresentativeHourAt | main.py:146 | the stored observation exists iff all three series reach offset 24, and is then their values at offset 24 |
| Cleanup.RemoveAll | main.py:67 | `str.replace(pat, "")` with a left-to-right non-overlapping scan never lengthens the text |
| Cleanup.RemoveAllAbsent | main.py:67 | removing a pattern that does not occur leaves the text unchanged |
| Cleanup.RemoveFenceLeavesNone | main.py:67 | after the "```" removal the text contains no "```" (even where removal joins backticks) |
| Cleanup.IsSpace | main.py:67 | the characters Python's `str.strip()` removes (`str.isspace`) |
| Cleanup.TrimStart | main.py:67 | the leading half of `str.strip()`; characterised by `TrimStartSpec` |
| Cleanup.TrimEnd | main.py:67 | the trailing half of `str.strip()`; characterised by `TrimEndSpec` |
| Cleanup.Strip | main.py:67 | `str.strip()`; characterised by `StripSpec` and `StripTrimmed` |
| Cleanup.Clean | main.py:67 | the two replaces then the strip; characterised by `CleanShape`, `CleanIdempotent`, `CleanUnfenced` and `CleanFenced` |
| Cleanup.TrimStartSpec | main.py:67 | drops exactly the leading whitespace: a suffix whose first character is not whitespace, everything before it whitespace |
| Cleanup.TrimEndSpec | main.py:67 | drops exactly the trailing whitespace: a prefix whose last character is not whitespace, everything after it whitespace |
| Cleanup.StripSpec | main.py:67 | `str.strip()` returns a contiguous slice of the text with no whitespace at either end and only whitespace outside it |
| Cleanup.StripTrimmed | main.py:67 | stripping text with no whitespace at its ends is the identity |
| Cleanup.CleanShape | main.py:66-67 | the cleaned text contains no "```" and has no leading or trailing whitespace |
| Cleanup.CleanIdempotent | main.py:66-67 | cleaning the cleaned text changes nothing |
| Cleanup.CleanUnfenced | main.py:67 | a reply with no fence is only stripped |
| Cleanup.CleanFenced | main.py:66-67 | a reply "```json" + body + "```" with a fence-free body cleans to the stripped body |
| Insight.Get | main.py:84-88 | `dados.get(key)`: the value, or `None` for an absent key |
| Insight.RowFromReply | main.py:66-88 | the row the insight step inserts, or `None` when parsing raises or the value has no `.get`; characterised by `RowGate` |
| Insight.IsObject | main.py:68-72 | the parsed value is a dict, the only kind with `.get` |
| Insight.RowGate | main.py:68-88 | a row is built iff the cleaned reply parses to an object; the row then holds the three keys' values as they are, `None` for absent keys, with no check of the risk value |
| Insight.FencedReplyRow | main.py:66-88 | a fenced reply whose body parses to an object yields the row of that object's three values |
| Insight.RowStableUnderClean | main.py:67-68 | handing the insight step an already-cleaned reply gives the same row |
| Pipeline.RegistryCities | main.py:33-46 | the registry's cities, or `[]` when the read raises; characterised by `Store.ReadRegistry`, `RegistryFailureNoWork` and `EmptyRegistryNoWork` |
| Pipeline.RegistryEffects | main.py:44-46 | one report when the registry read raises, nothing otherwise; characterised by `RegistryFailureNoWork` |
| Pipeline.HistoryEffects | main.py:48-61 | one history row, or one swallowed report; characterised by `Store.SaveHistory` and `HistoryRowIff` |
| Pipeline.InsightEffects | main.py:63-96 | the gated insight row, or a report with the raw reply; characterised by `Store.SaveInsight`, `InsightRowIff` and `MalformedReplyKeepsHistory` |
| Pipeline.ReachesSaves | main.py:121-146 | the city gets past the name, the fetch, the model call and the offset-24 reads |
| Pipeline.CityEffects | main.py:120-150 | one city's attempt in step order; characterised by `CityEffectsShape`, `HistoryRowIff`, `InsightRowIff`, `FullSuccess` and the failure lemmas |
| Pipeline.Flatten | main.py:119-150 | the effects of steps run one after another; characterised by `FlattenConcat`, `FlattenBounds`, `FlattenRowsFrom` and `FlattenCallsInOrder` |
| Pipeline.Attempts | main.py:119-120 | each city's attempt with its own outcome; characterised by `AttemptsSpec` |
| Pipeline.RunEffects | main.py:119-150 | the loop over the cities; characterised by `Store.RunPipeline`, `RunConcat`, `CityIsolation`, `RunRowBounds` and `RunCallsInOrder` |
| Pipeline.MonitorEffects | main.py:152-157 | registry read then the guarded loop; characterised by `Store.MonitorOnce` and `GuardRedundant` |
| Pipeline.Store.ReadRegistry | main.py:33-46 | returns the registry's cities, or `[]` with an error report when the read fails |
| Pipeline.Store.SaveHistory | main.py:48-61 | appends the observation row, or only an error report when the insert fails (the error is swallowed) |
| Pipeline.Store.SaveInsight | main.py:63-96 | appends the insight row when the parse gate passes and the insert commits; otherwise appends only a report holding the raw reply |
| Pipeline.Store.ProcessCity | main.py:120-150 | one city's `try` body and handler: the new state is the old one plus exactly `CityEffects` for that city |
| Pipeline.Store.RunPipeline | main.py:117-150 | the loop: the new state is the old one plus `RunEffects` of the list, city by city in order |
| Pipeline.Store.MonitorOnce | main.py:152-157 | the entry point: registry read, then the loop only when the list is non-empty |
| Pipeline.CityEffectsShape | main.py:139-147 | a city makes at most one model call, with the two window sums, and only when the name and fetch succeed; no row without that call |
| Pipeline.HistoryRowIff | main.py:145-146 | a history row exists iff the city passes the model call and the index-24 read and the insert commits; it holds the offset-24 values |
| Pipeline.InsightRowIff | main.py:145-147 | an insight row exists iff the city passes the index-24 read, the cleaned reply parses to an object and the insert commits, whatever happened to the history insert |
| Pipeline.FetchFailureOnlyReports | main.py:129-150 | a failed fetch yields no model call, no row, only the city's failure report |
| Pipeline.ModelFailureNoRows | main.py:145-147 | a model call that raises leaves the city with no rows at all |
| Pipeline.ShortSeriesNoRows | main.py:145-150 | a series with 24 or fewer entries in any variable raises at the index read: no rows, though the model was already called |
| Pipeline.ClampedSeriesSaves | main.py:139-146 | series of 25 or 26 hours do not fail: the history row with the offset-24 values is written |
| Pipeline.MalformedReplyKeepsHistory | main.py:146-147 | a reply that is not a JSON object: the history row is already written, no insight row, and the raw reply is reported |
| Pipeline.FullSuccess | main.py:139-147 | when every step succeeds and the reply is an object, a city's attempt is exactly one model call with its two sums, the offset-24 history row, the reply's insight row and no report |
| Pipeline.HistoryFailureKeepsInsight | main.py:60-61 | a failed history insert is swallowed and the insight row of the same city is still written |
| Pipeline.FlattenConcat | main.py:119-150 | the effects of two runs of steps back to back are the first's followed by the second's |
| Pipeline.FlattenBounds | main.py:119-150 | steps that each make at most one model call, and add no row without one, add at most one call per step and no more rows than calls |
| Pipeline.FlattenRowsFrom | main.py:119-150 | every row a sequence of steps adds was added by one of the steps |
| Pipeline.FlattenCallsInOrder | main.py:119-150 | steps that each make exactly one model call make them in step order |
| Pipeline.AttemptsSpec | main.py:119-120 | the loop attempts each city of the list once, in list order, with that city's outcome |
| Pipeline.AttemptsSingle | main.py:119-120 | a one-city list is attempted exactly once |
| Pipeline.MapPairsSpec | main.py:119-120 | pairing the cities with their outcomes gives one result per city, computed from that city and its outcome |
| Pipeline.MapPairsConcat | main.py:119-120 | pairing a concatenated list is pairing each part and concatenating |
| Pipeline.RunConcat | main.py:119-150 | running two lists back to back equals running their concatenation |
| Pipeline.RunSingle | main.py:119-150 | the loop over one city is that city's attempt |
| Pipeline.CityIsolation | main.py:119-150 | a run's effects are the earlier cities', then city j's own, then the later cities'; changing city j's outcome, even to a failure, changes only its own part |
| Pipeline.RunRowBounds | main.py:119-150 | a run adds at most one model call per city and never more rows to either table than model calls |
| Pipeline.CityRowsCarryId | main.py:146-147 | every row a city's attempt adds carries that city's id |
| Pipeline.RunRowsBelong | main.py:146-147 | every row of a run carries the id of a city in the list |
| Pipeline.RunCallsInOrder | main.py:119-145 | when every city has a name and its fetch succeeds, each city reaches the model exactly once, in list order |
| Pipeline.RegistryFailureNoWork | main.py:44-46 | a failed registry read is reported and nothing else happens |
| Pipeline.EmptyRegistryNoWork | main.py:154-157 | an empty registry processes no city: no call, no row, no report |
| Pipeline.GuardRedundant | main.py:156-157 | the `if cidades:` guard does not change the effects of a run |
| Pipeline.TwoCityScenario | main.py:119-150 | first city fully successful and second city's reply malformed: two history rows, one insight row for the first city, and the second's raw reply reported |

## Left out

- PostgreSQL connections and SQL text (main.py:24-31 and the bodies of the three database functions) are left out. Each insert is an outcome that either commits or fails. The server-side `CURRENT_TIMESTAMP` column is omitted from both row types.
- The Open-Meteo client, its never-expiring HTTP cache and its retry/backoff settings (main.py:18-21, 123-136) are network I/O. The fetch is an outcome: three series, or a raise. This also covers a missing response or missing variables.
- The Gemini configuration and `generate_content` (main.py:14-16, 113-114) are a foreign, non-deterministic call. The call is recorded with the two aggregates, and its outcome is a reply text or a raise.
- Prompt text construction (main.py:100-112) is free text with `:.2f` float formatting, so it has no checkable contract. The other city attributes (region, coordinates, altitude, baseline risk) reach only the prompt and the fetch.
- `json.loads` is not modelled: it is an arbitrary partial function given as a parameter.
- The model uses exact reals instead of float32/numpy rounding in the sums and in the `float()` casts. Non-finite values (NaN, which the weather client uses for a missing hour, and infinities) are not modelled.
- Window.TruncToInt: is total, whereas `int(wmo[24])` (main.py:146) raises `ValueError` on NaN and `OverflowError` on an infinity. In the source such a city has had its model call but gets no history row and no insight row, only its failure report.
- Pipeline.HistoryRowIff: its "iff" holds only for finite weather codes; a non-finite code at offset 24 makes the source raise before the history insert, as described for `Window.TruncToInt`.
- Pipeline.ClampedSeriesSaves: likewise assumes the weather code at offset 24 is finite.
- Pipeline.Store.SaveInsight: does not model the insert failing because psycopg2 cannot adapt a nested JSON value. That case, like any database error, is the `insightInsertOk = false` outcome.
- Console output is left out, except the error reports. Each failing handler appends one, and the insight handler's report carries the raw reply. Success messages, the banner lines and exception texts are not modelled. Environment-variable loading is not modelled.
- The registry row construction `dict(zip(colunas, row))` is not modelled: a `City` value is already that dict.
