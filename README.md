# SunFlux chart cores in Dafny

This project models the logic inside two chart scripts of SunFlux. Both scripts turn space-weather telemetry into PNG charts:

- **proton_flux.py** keeps a cached table of GOES integral proton flux. The table is keyed by timestamp and has one column per energy band. The `ProtonFlux` object re-downloads the feed when the cache file is missing or older than `cache_time`. Otherwise it reads the pickled table back. It builds the table from the feed records in two passes: first every timestamp gets the eight bands 1, 5, 10, 30, 50, 60, 100 and 500 MeV set to 0.0, then each reading is written into its cell. The band comes from the record's `>=N MeV` label. For the chart it extracts the 10, 50 and 100 MeV series and their overall maximum.
- **aindex.py** reads daily `(max, avg, min, date)` rows of the A-index from the store and reorders them to `(date, max, avg, min)`. It reads the columns back out and colours each day's bar from its average using a cascade of strict thresholds. It draws the chart only when there is at least one row.

Modules:

| file | module | models |
|---|---|---|
| wrappers.dfy | `Wrappers` | `Option` and `Result` (a value or the exception raised instead) |
| energy_label.dfy | `EnergyLabel` | `get_e`: the anchored match of `>=(\d+)\sMeV`, and `int()` of the digits |
| flux_table.dfy | `FluxTable` | the feed records, the band table, and the two passes of `download` as functions, with their properties |
| proton_flux.dfy | `ProtonFlux` | the cache file as a `Store` object, the `ProtonFlux` class (`download`, `readcache`, `writecache`, the construction decision, the data side of `graph`) |
| aindex.dfy | `AIndex` | `get_wwv`'s reshaping loop, the column reads and colour loop of `graph`, and the empty-data guard of `main` |

Design choices:

- The file system is a `Store` object. It holds an optional `CacheFile`, which has a modification time and a `Snapshot`. A snapshot is one of three things: an empty file (`EOFError`, read as None), a pickled value, or a corrupt pickle (the error propagates).
- The clock is the parameter `now`. The modification time that `writecache` leaves is the parameter `writeTime`.
- The feed is a sequence of already-decoded `Record(timeTag, energy, flux)`.
- A Python exception becomes an `Err` value. When `__init__` raises, no object exists, so the construction decision is the static method `ProtonFlux.Open`, which returns `Result<ProtonFlux, FluxError>`. The constructor covers only the lines before the decision.
- The Python dictionary is a `Table`: `keys` is its iteration order and `rows` its contents. `WellFormed` says each key is listed once.
- The two passes of `download` and the per-band comprehension of `graph` are separate methods (`RowsPass`, `ReadingsPass`, `BandSeries`). `Download` and `GraphSeries` call them in the source's order.

What the code does, and what it does not:

- Colour bounds: every comparison in `aindex.py:88-95` is strict, so 20, 30 and 50 exactly stay light green, and 100 is dark magenta.
- Cache writes: `proton_flux.py:104-108` opens the cache file with `'wb'` and writes it in place. A failed `download` raises out of `__init__` before `writecache` runs, so the file is left untouched. There is no fallback to an older snapshot.
- Grouping: the per-day MAX/AVG/MIN comes from the SQL query at `aindex.py:30-35`. The model takes the daily rows as given.

## Model

| member | source | states |
|---|---|---|
| `EnergyLabel.DigitRun` | proton_flux.py:72 | the greedy `\d+` takes the longest all-digit prefix: all of it digits, and the next character (if any) not a digit |
| `EnergyLabel.GetE` | proton_flux.py:72-77 | a captured value is one or more digits, and the field is exactly `>=`, those digits, one whitespace character, `MeV`, then anything |
| `EnergyLabel.GetEAccepts` | proton_flux.py:72-77 | conversely, every field `>=` + digits + whitespace + `MeV` + anything yields exactly those digits (match anchored at the start only); with `GetE` this is an if-and-only-if |
| `EnergyLabel.DigitRunOfPrefix` | proton_flux.py:72 | the digit run of digits followed by a non-digit is exactly the digits |
| `EnergyLabel.DigitsValue` | proton_flux.py:90 | `int()` of a digit string: a string of k digits has a value below 10^k |
| `EnergyLabel.LeadingZeroIgnored` | proton_flux.py:90 | `int()` ignores a leading zero, so `>=010 MeV` is band 10 |
| `EnergyLabel.EnergyOf` | proton_flux.py:90 | `int(get_e(...))` yields a band exactly when `get_e` matches |
| `EnergyLabel.Decimal` | proton_flux.py:139 | the rendering of a band number is a non-empty digit string |
| `EnergyLabel.DecimalRoundTrip` | proton_flux.py:90 | `int()` of a rendered band number gives the number back |
| `EnergyLabel.EnergyOfBandLabel` | proton_flux.py:72-90 | the label `>=N MeV` (with anything after it) parses to band N |
| `FluxTable.TimeTags` | proton_flux.py:85-86 | every record's timestamp is in the feed's set of timestamps |
| `FluxTable.TimeTagsStamped` | proton_flux.py:85-86 | a timestamp is in that set exactly when some record carries it |
| `FluxTable.TimeTagsOfPrefix` | proton_flux.py:85-89 | a prefix of the feed has no timestamp the whole feed lacks |
| `FluxTable.InitRows` | proton_flux.py:84-86 | the first pass gives a dictionary whose keys are the feed's timestamps, each listed once, and whose every row is the eight bands at 0.0 |
| `FluxTable.Fill` | proton_flux.py:88-91 | the second pass never adds or removes a timestamp and never removes a band from a row |
| `FluxTable.SetCell` | proton_flux.py:91 | `data[date][energy] = flux`: that cell now holds the flux (added if absent), and every other cell of every row, and the key order, are unchanged |
| `FluxTable.Build` | proton_flux.py:84-92 | the table `download` assigns, or the exception it raises: a result is a dictionary keyed by the feed's timestamps whose every row has the eight default bands |
| `FluxTable.InitRowsFirstSeenOrder` | proton_flux.py:84-86 | the keys are in the order in which each timestamp first appears in the feed (dictionary insertion order), not sorted |
| `FluxTable.BuildKeys` | proton_flux.py:84-92 | the built table's keys are exactly the distinct timestamps of the feed, each once, and every row has all eight default bands; the keys keep the feed's first-appearance order, which `graph` plots as the x-axis |
| `FluxTable.FillKeepsUnwritten` | proton_flux.py:88-91 | a cell no record writes keeps its earlier presence and value, so other bands and rows are untouched |
| `FluxTable.FillLastWins` | proton_flux.py:88-91 | the cell of the record at i holds its flux unless a later record writes the same (timestamp, band) |
| `FluxTable.LastRecordWins` | proton_flux.py:88-91 | for duplicate (timestamp, band) pairs the last record's flux is in the table; bands outside the eight defaults are added |
| `FluxTable.UnreadBandIsZero` | proton_flux.py:84-91 | a band with no reading at a timestamp reads 0.0 if it is one of the eight defaults and is absent otherwise |
| `FluxTable.FillFailsOnBadLabel` | proton_flux.py:88-91 | the second pass fails exactly when some record's label is rejected by `get_e` |
| `FluxTable.FillErrorNamesFirstBadLabel` | proton_flux.py:88-91 | the model's error records the label of the first rejected record, where the loop stops |
| `FluxTable.FillFailureSticks` | proton_flux.py:88-91 | once a prefix of the records has failed, the whole pass fails with that error |
| `FluxTable.BuildFailsOnBadLabel` | proton_flux.py:88-92 | `download` raises exactly when some label fails `get_e` (`int(None)`); the model's error records the label of the first such record, where the loop stops |
| `FluxTable.BuildErrorAt` | proton_flux.py:90-92 | the loop stops at the first record whose label is rejected; the model's error records that record's label |
| `ProtonFlux.Load` | proton_flux.py:97-102 | `readcache`'s result: an error exactly for a corrupt pickle, and a table only when the file holds that pickled table; a missing or empty file gives None |
| `ProtonFlux.WrittenSnapshotReadsBack` | proton_flux.py:94-108 | what `writecache` stores, `readcache` gives back unchanged |
| `ProtonFlux.Construct` | proton_flux.py:59-68 | the construction decision: a fresh cache or a failed download leaves the file as it was; a successful refresh of a stale or missing cache returns a table and leaves the file holding exactly that table, stamped with the write time |
| `ProtonFlux.AgeAtTtlReadsCache` | proton_flux.py:62-68 | a cache whose age equals `cache_time` exactly is read, not refreshed (the comparison is a strict `>`) |
| `ProtonFlux.FreshCacheIgnoresFeed` | proton_flux.py:59-68 | within the time-to-live nothing is downloaded: the outcome is independent of the feed and the cache file is unchanged |
| `ProtonFlux.RefreshedCacheIsReused` | proton_flux.py:59-68 | after a successful refresh, a later construction within the time-to-live of the write reads back the same table and leaves the file as written |
| `ProtonFlux.PeakExtends` | proton_flux.py:133-144 | folding each series' maximum into `_max` keeps `_max` the largest of 0 and every value seen, and attained when non-zero |
| `ProtonFlux.SeqMax` | proton_flux.py:144 | `data.max()` is at least every element and equal to one of them |
| `ProtonFlux.BuiltTableHasPlotBands` | proton_flux.py:86 | a downloaded table has bands 10, 50 and 100 in every row, so the series lookups of `graph` cannot fail on it |
| `ProtonFlux.RowsPass` | proton_flux.py:84-86 | the first loop builds exactly the first-pass table |
| `ProtonFlux.ReadingsPass` | proton_flux.py:88-91 | the second loop gives exactly the second-pass result, stopping at the first rejected label |
| `ProtonFlux.BandSeries` | proton_flux.py:135 | the comprehension yields one flux per key in key order, or a KeyError exactly when some row lacks the band |
| `ProtonFlux.ProtonFlux.constructor` | proton_flux.py:54-57 | the object keeps its cache file and starts with `data` None |
| `ProtonFlux.ProtonFlux.Download` | proton_flux.py:70-92 | `data` becomes the built table; a rejected label raises and leaves `data` as it was |
| `ProtonFlux.ProtonFlux.ReadCache` | proton_flux.py:94-102 | a missing or empty cache file sets `data` to None, a pickled value is read back as written, and any other unpickling failure raises |
| `ProtonFlux.ProtonFlux.WriteCache` | proton_flux.py:104-108 | the cache file then holds `data`, stamped with the time of the write |
| `ProtonFlux.ProtonFlux.Open` | proton_flux.py:54-68 | a missing cache file or `now - mtime > cache_time` downloads then writes the cache (or raises, file untouched); otherwise the cache is read and the file is left alone |
| `ProtonFlux.ProtonFlux.GraphSeries` | proton_flux.py:130-144 | dates are the table keys; one series per band 10, 50 and 100 with one entry per key in key order; `_max` is their peak; None data raises; an empty table raises; a non-empty table where some row lacks a plotted band raises the KeyError of the first such band (in the order 10, 50, 100), and only then |
| `AIndex.ColorNamesDistinct` | aindex.py:86-95 | the five colour names are distinct, so a bar's name identifies its colour |
| `AIndex.Classify` | aindex.py:86-95 | 20 < v < 30 is dark orange, 30 < v < 50 red, 50 < v < 100 dark red, v >= 100 dark magenta, and light green exactly for v <= 20, v = 30 and v = 50 (each an if-and-only-if) |
| `AIndex.ClassifyAtBounds` | aindex.py:88-95 | 20, 30 and 50 are light green, 100 is dark magenta, and values just inside each band get that band's colour |
| `AIndex.Reshape` | aindex.py:68 | the reshaped tuple read at indices 1, 2, 3 and 0 is the store row again |
| `AIndex.GetWwv` | aindex.py:66-68 | one `(date, max, avg, min)` tuple per store row `(max, avg, min, date)`, in the store's order |
| `AIndex.ReadColumns` | aindex.py:81-84 | index 0 is read as the date, 1 as the max, 3 as the min and 2 as the average, position by position |
| `AIndex.ReadBackRecoversStoreColumns` | aindex.py:66-84 | reading the reshaped rows back recovers each of the store's columns unchanged |
| `AIndex.BarColors` | aindex.py:86-95 | the colour-name list is as long as the averages, and position i is the name the cascade gives the average at i alone |
| `AIndex.Graph` | aindex.py:79-106 | the chart carries the columns of the rows and, as `bar` receives them, one colour name per row from its average |
| `AIndex.RunReport` | aindex.py:153-159 | a chart is made exactly when the store returned rows; each bar then shows one store row coloured by its average |

## Left out

- `FluxTable.Build`: the label that its `BadEnergyLabel` error carries is not part of Python's exception. `int(None)` raises a `TypeError` whose message is the same whatever the record. The model keeps the label only to record where the loop of `proton_flux.py:88` stops.
- Network fetch and JSON decoding (`urlopen`, `json.loads`, `noaa_date`'s `strptime`): the feed is a parameter of already-decoded records, and transport errors are not modelled.
- Real file handling: `os.stat`, `open` and `pickle` become the `Store` object, and `time.time()` becomes the parameter `now`. An `os.stat` failure other than a missing file, and an unwritable cache path in `writecache`, are not modelled.
- Floating point: fluxes, A-index values and times are `real`. Rounding in `now - st_mtime` and NaN values are not modelled.
- `EnergyLabel.IsDigit`, `EnergyLabel.IsSpace`: only ASCII characters are modelled. `IsSpace` covers every ASCII character that Python 3's `\s` matches on `str`, including U+001C to U+001F. The non-ASCII digits and whitespace (such as U+0085 and U+00A0) that Python also matches are not modelled.
- `ProtonFlux.ProtonFlux.GraphSeries`: plotting, the log-scale magnitude `math.log(_max, 10)` (which raises when `_max` is 0), and the unused `remove_outlier` and `ProtonFlux.float` helpers are left out.
- `main` of proton_flux.py: configuration and argv glue. It always returns `EX_DATAERR` because `graph` returns None.
- The SQLite queries of aindex.py (`get_wwv`'s query, `get_conditions`, `utcnow`): the daily rows and the forecast caption are parameters, and a row's date is taken as already parsed.
- `AIndex.Graph`: rendering (`color_complement`, `autolabel`, axes, `savefig`) and the y-axis limit `max(amax) * 1.15` are left out. Only the precondition that the limit imposes (at least one row) is kept.
- Logging, configuration loading and the debug `print` calls in `get_wwv`.
