# MRMS thunderstorm tracking pipeline — a Dafny model

The pipeline mirrors the MRMS PrecipRate archive of Iowa State's Mesonet to local
disk, picks the radar frames of a time window whose rain rate reaches a
threshold, runs pysteps' thunderstorm detection and tracking on those frames,
and flattens the resulting tracks into one table of cells with a track ID, an
area and a longitude/latitude centroid.

The model covers the logic the repository owns:

* `tdating.dfy`, module `Tdating`: the `Tracks` class. Its four stage
  methods run in order and store their results in `Option` fields. Each stage
  requires the fields an earlier stage sets. `build_dataframe` is modelled as
  the append and column loops of the source, proved equal to a pure table
  function. The pysteps calls are function-valued fields of a `Pysteps` value.
* `track_table.dfy`, module `TrackTable`: the pure side of the track table.
  It covers flattening, the dense track-ID column, the cell-area formula with
  its quadratic pixel count, and the pixel-to-lon/lat conversion.
* `find_events.dfy`, module `FindEvents`: `mp`. This is the time sort, the
  inclusive window and threshold filters, the archive paths built in an append
  loop, and the hand-off to `Tracks`.
* `download.dfy`, module `Download`: `get_http_files` over the anchors of a
  listing page, `iastate_ingest`, the inclusive day loop, and the per-URL
  skip/download/decompress step. The local disk is a `set<string>` of existing
  paths, held by the class `LocalArchive`.
* Support modules:
  * `wrappers.dfy`: `Option`, `Result`, Python exceptions and Python indexing.
  * `seqs.dfy`: filter, subsequence and concatenation.
  * `text.dfy`: zero-padded fields, `endswith`, `in`, `rfind` and `replace`.
  * `calendar.dfy`: Python `datetime` with the proleptic Gregorian calendar,
    `toordinal`, `timedelta(days=…)` and the `%Y %m %d %H %M %S` fields.

External effects are parameters:
* A `Web` function gives the anchors of each listing page.
* The `Pysteps` value gives the importer, the reflectivity conversion, detection and dating.
* `Numerics` gives `pi` and `cos`.
* The frame-summary table is a sequence of `SummaryRow`s.
* Downloading, `mkdir` and decompression only add paths to the set.

The area formula is kept exactly as written (tdating.py:164-168). For each pixel
row `w3` of a cell, line 166 builds a vector of `len(w2)` identical latitudes,
and line 168 sums it. So every pixel's term is counted `len(w2)` times, and a
cell of `n` pixels in one row has area `n²` times the one-pixel term
(`TrackTable.AreaQuadraticAtFixedRow`). The Earth-radius constant `Re = 637` is
kept as well.

## Model

| member | source | states |
|---|---|---|
| Text.DigitsRoundTrip | ParallelProcessing_FindEvents.py:34 | a zero-padded field of width `w` reads back as the number written, for every number below `10^w` |
| Text.DigitsInjective | ParallelProcessing_FindEvents.py:34 | different numbers below `10^w` give different fixed-width fields |
| Text.RFind | DownloadDataCode.py:55 | `rfind` of a character gives the last index holding it, or -1 exactly when it is absent |
| Text.AfterLast | DownloadDataCode.py:55 | `url[url.rfind('/')+1:]` contains no `/` and is a suffix of `url`; it is all of `url` when there is no `/`, and otherwise it follows the last `/` |
| Text.RemoveAll | DownloadDataCode.py:67 | `str.replace(pat, '')` never lengthens the string and introduces no new characters |
| Text.RemoveAllAbsent | DownloadDataCode.py:67 | replacing a pattern that does not occur leaves the string unchanged |
| Text.RemoveGzSuffix | DownloadDataCode.py:67 | removing every `.gz` from `a + ".gz"` gives the same as removing every `.gz` from `a` |
| Calendar.LeIffSeconds | ParallelProcessing_FindEvents.py:22 | the lexicographic datetime order agrees with the order of seconds since 0001-01-01 |
| Calendar.SecondsInjective | ParallelProcessing_FindEvents.py:22 | two valid datetimes with equal second counts are equal |
| Calendar.NextDay | DownloadDataCode.py:44 | one day later is a well-formed datetime with the same time of day |
| Calendar.NextDayOrdinal | DownloadDataCode.py:44 | one day later has the next `toordinal` day number |
| Calendar.AddDays | DownloadDataCode.py:44 | `t + timedelta(days=n)` is a well-formed datetime with the same time of day |
| Calendar.AddDaysOrdinal | DownloadDataCode.py:44 | `t + timedelta(days=n)` has day number `toordinal(t) + n` |
| Calendar.DateFieldsInjective | DownloadDataCode.py:32 | the `%Y`, `%m` and `%d` fields of two valid datetimes are equal only when their dates are |
| Calendar.TimeFieldsInjective | ParallelProcessing_FindEvents.py:34 | the `%H`, `%M` and `%S` fields of two valid datetimes are equal only when their times of day are |
| TrackTable.Trunc | tdating.py:169 | `int()` of a float truncates toward zero: the result is within one of the value, and on its side of zero |
| TrackTable.TrackIds | tdating.py:153-156 | the ID column has one entry per flattened row |
| TrackTable.BuildTableLength | tdating.py:150-192 | no tracks raise KeyError('y'); any non-empty track list, even one of empty tracks, gives a table with `Σ len(track_k)` rows |
| TrackTable.FlattenLength | tdating.py:153-157 | the appended table and the ID column both have `Σ len(track_k)` rows |
| TrackTable.FlattenAt | tdating.py:153-157 | row `i` of track `k` sits at position `len(track_0) + … + len(track_{k-1}) + i` of the appended table, and its ID there is `k` |
| TrackTable.TrackIdsSorted | tdating.py:153-156 | every ID lies in `0 … len(track_list)-1` and the ID column is non-decreasing |
| TrackTable.TrackIdsCount | tdating.py:153-156 | each `k` occurs in the ID column exactly `len(track_k)` times, and no other value occurs |
| TrackTable.BuildTableRows | tdating.py:136-192 | when track `k` has a row `i`, the table has `Σ len(track_k)` rows and the row from track `k` gets ID `k`, the quirky area of its pixel rows, the lon/lat of its centroid, and every other column unchanged; `x`, `y` and `cont` are gone |
| TrackTable.AreaSumScales | tdating.py:162-168 | the accumulated area is `len(w2)` times the sum of the per-pixel terms |
| TrackTable.TermSumAtFixedRow | tdating.py:164-168 | `n` pixels in one row sum to `n` times that row's term |
| TrackTable.AreaQuadraticAtFixedRow | tdating.py:164-168 | with the per-pixel vector of length `len(w2)`, `n` pixels in one row give `n²` times one pixel's term |
| TrackTable.AreaOfNoPixels | tdating.py:162-169 | a cell with no pixel rows has area 0 |
| TrackTable.AreaNonNegative | tdating.py:162-169 | when every pixel's term is non-negative, the area is non-negative |
| TrackTable.TermSumNonNegative | tdating.py:162-168 | a sum of non-negative pixel terms is non-negative |
| TrackTable.CentroidMonotone | tdating.py:172-181 | with positive pixel sizes, longitude strictly increases with `cen_x` and latitude strictly decreases with `cen_y` |
| TrackTable.CentroidRoundTrip | tdating.py:172-181 | with non-zero pixel sizes, the pixel centroid can be recovered from lon/lat |
| Tdating.RowIds | tdating.py:122-125 | `track.ID` has one entry per row, each row's ID, in row order |
| Tdating.AppendTracks | tdating.py:153-157 | the append loop produces exactly the flattened rows and the dense ID column |
| Tdating.AreaOfCell | tdating.py:162-169 | the pixel loop accumulates to the cell area, then truncates it |
| Tdating.AreaColumn | tdating.py:160-169 | one area per row, in row order, each the area of that row's pixel rows |
| Tdating.LonColumn | tdating.py:172-175 | one longitude per row, in row order: `x1 + cen_x·xpixelsize` |
| Tdating.LatColumn | tdating.py:178-181 | one latitude per row, in row order: `y2 − cen_y·ypixelsize` |
| Tdating.Tracks.constructor | tdating.py:36-43 | stores the configuration with defaults `mrms_grib`, no importer arguments and `minref` 40; no stage has run |
| Tdating.Tracks.LoadData | tdating.py:65-79 | looks the importer up first, then reads the series and converts it to reflectivity, and sets `Z` and `metadata` to the result; a failing lookup raises its own error, then `**None` raises TypeError, then a failing read or conversion raises its error, and in every failure nothing is set |
| Tdating.Tracks.CellId | tdating.py:83-95 | needs `Z` and `metadata`; detects cells on frame 1 stamped with the time of frame `index` (0 by default); fewer than two frames or a bad index raises IndexError; sets `cells_id` and `labels` |
| Tdating.Tracks.CalculateTracks | tdating.py:99-109 | needs `Z` and `metadata`; runs dating on the whole series with the dynamic threshold and sets the three track fields |
| Tdating.Tracks.TrackFilter | tdating.py:122-126 | the append loop keeps, in original order, exactly the tracks with an ID among the detected cells' IDs, each repeated track as often as in the track list |
| Tdating.Tracks.BuildDataframe | tdating.py:136-195 | needs `track_list` and `metadata`; its loops build exactly the specified table; an empty track list raises KeyError('y') and leaves `df` alone |
| Tdating.Tracks.Execute | tdating.py:45-63 | the four stages in order, each reading only what an earlier one stored; the first failure is the result; on success `Z` and `metadata` hold the loaded series, `cells_id` and `labels` the detection on it, the three track fields the dating of it, and `df` the table of its tracks |
| Tdating.RunUnknownImporter | tdating.py:70 | an importer name that `io.get_method` rejects ends the run with that error, with or without importer arguments |
| Tdating.RunWithoutKwargs | tdating.py:70-71 | when the importer lookup succeeds, the default `importer_kwargs=None` makes the run raise TypeError |
| Tdating.RunConversionFails | tdating.py:71-74 | a conversion to reflectivity that raises ends the run with its error before `cell_id` |
| Tdating.RunNeedsTwoFrames | tdating.py:88-89 | a series of fewer than two frames raises IndexError in `cell_id` |
| Tdating.RunWithoutTracks | tdating.py:150-160 | when dating finds no tracks the run raises KeyError('y') instead of returning an empty table |
| FindEvents.Insert | ParallelProcessing_FindEvents.py:19 | inserting into a time-sorted list keeps it sorted and adds exactly the one row |
| FindEvents.SortByTime | ParallelProcessing_FindEvents.py:19 | the result is sorted by time and is a permutation of the input |
| FindEvents.FilterKeepsSorted | ParallelProcessing_FindEvents.py:19-25 | a filter of a time-sorted list is time-sorted |
| FindEvents.SelectSpec | ParallelProcessing_FindEvents.py:19-25 | the selection holds exactly the input rows with `start ≤ DateTime ≤ end` and `PrecipRate ≥ R_threshold`, each exactly as often as in the input, in time order |
| FindEvents.SelectNarrowing | ParallelProcessing_FindEvents.py:22-25 | a narrower window or a higher threshold selects a subsequence of the earlier selection |
| FindEvents.FramePathInjective | ParallelProcessing_FindEvents.py:34 | distinct valid times, to the second, give distinct frame paths |
| FindEvents.FileList | ParallelProcessing_FindEvents.py:32-35 | one frame path per time, index-aligned, and no two valid times share a path |
| FindEvents.Mp | ParallelProcessing_FindEvents.py:8-45 | `(files, times)` are the index-aligned paths and times of the selection; a new `Tracks` with the fixed extent and window size runs on them; the output name depends only on the window; `ran` is not read |
| Download.GetHttpFilesSpec | DownloadDataCode.py:12-22 | fails with AttributeError exactly when an anchor lacks `href`; otherwise it returns `url + '/' + href` for exactly the hrefs that end with `ext` and do not contain `latest`, in page order |
| Download.IngestSingleName | DownloadDataCode.py:29-37 | a one-element list of variables lists the same files as the variable alone |
| Download.ListingAllOkPrefix | DownloadDataCode.py:31-33 | a successful multi-variable listing is the listing of all but the last variable, followed by the last one's |
| Download.ListingAllAppend | DownloadDataCode.py:31-33 | listing `vs + ws` gives the listing of `vs` followed by that of `ws` |
| Download.ListingAllStop | DownloadDataCode.py:31-33 | once a variable's listing raises, the whole call raises that error |
| Download.IastateIngest | DownloadDataCode.py:24-37 | the `+=` loop over a list of variables and the single-name branch both return the specified concatenated listing, or its first error |
| Download.ListingUrlInjective | DownloadDataCode.py:32 | for a fixed variable, the listing URL determines the date |
| Download.LocalFileShape | DownloadDataCode.py:55 | the local name has no `/` and is the URL's tail after its last `/` |
| Download.LocalDirShape | DownloadDataCode.py:52 | the day directory is `/usr1/home/nas-qnap/MRMS/` followed by the zero-padded `YYYY/MM/DD` fields |
| Download.LocalDirInjective | DownloadDataCode.py:52 | different valid days have different day directories |
| Download.DecompressedName | DownloadDataCode.py:67 | for `X.gz` with no other `.gz` in `X`, the decompressed copy is `{path}/MRMS_X` |
| Download.FetchSpec | DownloadDataCode.py:58-68 | if the compressed file exists nothing changes, even when the decompressed copy is missing; otherwise both exist afterwards; nothing is removed; a second call changes nothing |
| Download.FetchLocation | DownloadDataCode.py:52-67 | everything one URL adds is the day directory, one of its ancestors, or a file inside the day directory |
| Download.AncestorsMembers | DownloadDataCode.py:62 | the ancestors `mkdir(parents=True)` creates are exactly the prefixes of the path cut at a `/` |
| Download.NotInDirChain | DownloadDataCode.py:62 | no file inside a directory is that directory or one of its ancestors |
| Download.CompressedPathInjective | DownloadDataCode.py:58 | in one day directory, two compressed paths are equal only when the file names are |
| Download.FetchAllNext | DownloadDataCode.py:50-68 | the URL loop after `i + 1` URLs is the loop after `i` URLs followed by URL `i`'s step |
| Download.FetchAllGrows | DownloadDataCode.py:50-68 | the URL loop never removes a path |
| Download.FetchAdded | DownloadDataCode.py:58-67 | a URL step that creates another URL's compressed path, without its own decompressed copy taking that name, writes that URL's decompressed copy too |
| Download.FetchAllWitness | DownloadDataCode.py:58-67 | a compressed file the loop created came with its decompressed copy, unless a decompressed copy took its name |
| Download.FetchAllPresent | DownloadDataCode.py:50-68 | after the URL loop every listed file's compressed copy exists; its decompressed copy exists too when the compressed one was new and no decompressed copy took its name |
| Download.FetchAllNoop | DownloadDataCode.py:50-58 | when every compressed file already exists, the URL loop changes nothing |
| Download.FetchAllIdempotent | DownloadDataCode.py:50-71 | running a day's URL loop twice gives the same disk as running it once |
| Download.MirrorDaysLast | DownloadDataCode.py:42-50 | a completed run is the completed run of the earlier days followed by the last day's URL loop |
| Download.MirrorDaysNext | DownloadDataCode.py:42-68 | a run that has completed its first `a` days continues with day `a`'s listing and URL loop |
| Download.MirrorDaysGrows | DownloadDataCode.py:42-68 | the day loop never removes a path |
| Download.MirrorDaysPresent | DownloadDataCode.py:42-68 | after a completed run every day's listing succeeded and every listed file's compressed copy exists |
| Download.MirrorDaysNoop | DownloadDataCode.py:42-58 | when every listed file already exists, the day loop changes nothing |
| Download.MirrorDaysIdempotent | DownloadDataCode.py:42-71 | re-running a completed mirror over the same listings changes nothing |
| Download.MirrorDaysStop | DownloadDataCode.py:42-46 | once a day's listing raises, the later days do not change the outcome |
| Download.DayRangeExact | DownloadDataCode.py:42-44 | the loop visits exactly the datetimes at the start's time of day from start to end, both included |
| Download.DayRangeIncreasing | DownloadDataCode.py:42-44 | days later in the loop are later in time and never repeat: day `b` is `b − a` day numbers after day `a` |
| Download.ScriptWindow | DownloadDataCode.py:39-44 | for the script's window, midnight 1 June 2017 to midnight 30 June 2017, the loop visits 30 days: day `i` is 1 June + `i` |
| Download.MonthWindow | DownloadDataCode.py:42-44 | a window inside one month at one time of day visits every day from the start day to the end day, in order |
| Download.SameMonthDaysBetween | DownloadDataCode.py:42 | within one month at one time of day, `(end − start).days` is the difference of the day numbers |
| Download.LocalArchive.FetchUrl | DownloadDataCode.py:52-68 | one URL's skip test, directory creation, download and decompression, as the specified change to the set of paths |
| Download.LocalArchive.MirrorDay | DownloadDataCode.py:44-68 | lists the day's PrecipRate files, then runs the URL loop in listing order; a failed listing raises and changes nothing |
| Download.LocalArchive.FetchUrls | DownloadDataCode.py:50-68 | the URL loop of one day leaves the set of paths as the specified per-URL steps in listing order |
| Download.LocalArchive.Mirror | DownloadDataCode.py:39-71 | the day loop over the inclusive range leaves the disk and the error exactly as the specified day-by-day run does, stopping at the first listing that raises |

## Left out

- The pysteps calls (importer lookup, `read_timeseries`, `to_reflectivity`, detection, dating) come from a foreign library. They are function-valued parameters that return either a value or a raised error, so nothing is assumed about what they compute or whether they succeed.
- Plotting (`create_plot` apart from its track filter, and mrms_tdating.py) is user interface. mrms_tdating.py is not part of this model.
- Floating point is not modelled. Lon/lat, area and the threshold are `real`, and `cos` and `pi` are open parameters. The `'%.3f'` formatting of lon/lat is left out, and the columns hold the unrounded values. The Z–R conversion of the dBZ threshold is left out too: `R_threshold` is a parameter.
- HTTP requests, HTML parsing, `urlretrieve`, gzip and file contents are I/O. Only the paths that come to exist are modelled. A failing request or a failing write is not modelled.
- `Path.exists()` is also true for a directory of the same name. The model tests only the path set, which holds directories and files alike, so this is covered. A path that exists as a file where `mkdir` needs a directory is not modelled.
- `multiprocessing.Pool` is concurrency and is not modelled. Both pool workers compute the same selection and write the same output file, because `mp` never reads `ran`. The model has a single call of `FindEvents.Mp`.
- CSV reading and writing are I/O. The frame-summary table is a parameter, and the output path is computed but not written.
- The `print`/`pprint` calls are output only.
- Read_In.py, DeleteGZ.py and IndexingEvents.py are not part of this model. They are loaders and file housekeeping with no logic of their own.
- FindEvents.SortByTime: the model sorts stably. pandas' default `sort_values` uses quicksort, which may order rows with equal times differently. The selection's membership and time order are the same either way.
- Tdating.Tracks.TrackFilter: `np.unique(track.ID) in IDs` is modelled as "some row of the track has an ID among the detected IDs". For a track with a single ID, which is what dating produces, this is the source's test. numpy's broadcasting rules for tracks with several IDs or none are not modelled.
- Tdating.Tracks.Execute: on failure the contract states the raised error but not which fields earlier stages already set.
- Download.FetchAllPresent: the decompressed copy is promised only when no listed file's decompressed name equals this file's compressed name. The skip test looks only at the compressed path, so a file named like another file's decompressed copy (`X.gz` becomes `MRMS_X`) is skipped even though its own decompressed copy is never written.
- Calendar.AddDays: the result is well-formed but may lie past year 9999, where Python's `+ timedelta` raises OverflowError instead. The script's dates are in 2017, so its day loop never reaches that case.
- Calendar: `%Y` is modelled as a four-digit zero-padded year, for years 1 to 9999. Below year 1000 the padding of `strftime` depends on the platform.
- The ID column is a float array in numpy (`np.concatenate` with an empty float list). The model keeps integer IDs. `np.float` and `DataFrame.append` are deprecated in current numpy and pandas, and the model follows their old meaning.
