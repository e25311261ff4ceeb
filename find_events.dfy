/**
 * Frame selection for a tracking run (`mp` in ParallelProcessing_FindEvents.py):
 * sort the frame summaries by time, keep those inside the inclusive window
 * that reach the rain-rate threshold, turn their times into archive paths,
 * and run the tracker on them.
 */
module FindEvents {
  import opened Wrappers
  import opened Seqs
  import opened Text
  import opened Calendar
  import opened TrackTable
  import opened Tdating

  /** One row of the frame-summary table: a frame's valid time and its largest rain rate. */
  datatype SummaryRow = SummaryRow(dateTime: DateTime, precipRate: real)

  predicate SortedByTime(rows: seq<SummaryRow>)
  {
    forall i, j :: 0 <= i < j < |rows| ==> Le(rows[i].dateTime, rows[j].dateTime)
  }

  /** Every row of `rows` is at or after `t`. */
  predicate AllFrom(t: DateTime, rows: seq<SummaryRow>)
  {
    forall j :: 0 <= j < |rows| ==> Le(t, rows[j].dateTime)
  }

  lemma AllFromPermutation(t: DateTime, a: seq<SummaryRow>, b: seq<SummaryRow>)
    requires AllFrom(t, a) && multiset(a) == multiset(b)
    ensures AllFrom(t, b)
  {
    forall j | 0 <= j < |b| ensures Le(t, b[j].dateTime) {
      assert b[j] in multiset(a);
      var m :| 0 <= m < |a| && a[m] == b[j];
    }
  }

  lemma SortedCons(x: SummaryRow, rows: seq<SummaryRow>)
    requires SortedByTime(rows) && AllFrom(x.dateTime, rows)
    ensures SortedByTime([x] + rows)
  {
  }

  /** Insert `r` into time-sorted `rows`, before the rows with the same time. */
  function Insert(r: SummaryRow, rows: seq<SummaryRow>): (res: seq<SummaryRow>)
    requires SortedByTime(rows)
    ensures SortedByTime(res)
    ensures multiset(res) == multiset(rows) + multiset{r}
  {
    if rows == [] then [r]
    else if Le(r.dateTime, rows[0].dateTime) then
      assert AllFrom(r.dateTime, rows) by {
        forall j | 0 <= j < |rows| ensures Le(r.dateTime, rows[j].dateTime) {
          if j > 0 { LeTransitive(r.dateTime, rows[0].dateTime, rows[j].dateTime); }
        }
      }
      SortedCons(r, rows);
      [r] + rows
    else
      LeTotal(r.dateTime, rows[0].dateTime);
      var rest := Insert(r, rows[1..]);
      assert rows == [rows[0]] + rows[1..];
      assert AllFrom(rows[0].dateTime, rows[1..] + [r]);
      assert multiset(rows[1..] + [r]) == multiset(rest);
      AllFromPermutation(rows[0].dateTime, rows[1..] + [r], rest);
      SortedCons(rows[0], rest);
      [rows[0]] + rest
  }

  /**
   * `df.sort_values('DateTime')`: the rows ordered by time. Rows with equal
   * times keep their input order here; pandas' default sort does not promise that.
   */
  function SortByTime(rows: seq<SummaryRow>): (r: seq<SummaryRow>)
    ensures SortedByTime(r)
    ensures multiset(r) == multiset(rows)
  {
    if rows == [] then []
    else
      assert rows == [rows[0]] + rows[1..];
      Insert(rows[0], SortByTime(rows[1..]))
  }

  /** `(df.DateTime >= start_date) & (df.DateTime <= end_date)`. */
  function InWindow(startDate: DateTime, endDate: DateTime): SummaryRow -> bool
  {
    (r: SummaryRow) => Le(startDate, r.dateTime) && Le(r.dateTime, endDate)
  }

  /** `df.PrecipRate >= R_threshold`. */
  function AboveThreshold(threshold: real): SummaryRow -> bool
  {
    (r: SummaryRow) => r.precipRate >= threshold
  }

  /** Lines 19-25: sort, then the window filter, then the threshold filter. */
  function Select(rows: seq<SummaryRow>, startDate: DateTime, endDate: DateTime, threshold: real)
    : seq<SummaryRow>
  {
    Filter(Filter(SortByTime(rows), InWindow(startDate, endDate)), AboveThreshold(threshold))
  }

  /** `df.DateTime.to_list()`. */
  function Times(rows: seq<SummaryRow>): (ts: seq<DateTime>)
    ensures |ts| == |rows|
    ensures forall i :: 0 <= i < |rows| ==> ts[i] == rows[i].dateTime
  {
    seq(|rows|, i requires 0 <= i < |rows| => rows[i].dateTime)
  }

  /** The fields of the archive path of the frame valid at `t`. */
  function FramePathParts(t: DateTime): seq<string>
  {
    ["/usr1/home/nas-qnap/MRMS/", Year4(t), "/", Month2(t), "/", Day2(t),
     "/MRMS_PrecipRate_00.00_", Year4(t), Month2(t), Day2(t), "-", Hour2(t), Minute2(t), Second2(t),
     ".grib2"]
  }

  /** `/usr1/home/nas-qnap/MRMS/YYYY/MM/DD/MRMS_PrecipRate_00.00_YYYYMMDD-HHMMSS.grib2`. */
  function FramePath(t: DateTime): string
  {
    Concat(FramePathParts(t))
  }

  /** `/usr1/home/nas-qnap/MRMS/Tracks_YYYYMMDD-HHMM_YYYYMMDD-HHMM.csv`. */
  function TracksCsvPath(startDate: DateTime, endDate: DateTime): string
  {
    Concat(["/usr1/home/nas-qnap/MRMS/Tracks_",
            Year4(startDate), Month2(startDate), Day2(startDate), "-", Hour2(startDate), Minute2(startDate), "_",
            Year4(endDate), Month2(endDate), Day2(endDate), "-", Hour2(endDate), Minute2(endDate), ".csv"])
  }

  /** The importer settings `mp` passes to `Tracks`. */
  const MpKwargs := ImporterKwargs([244, 253, 30, 38], 1)

  // --------------------------------------------------------------- lemmas

  /** A filter of a time-sorted list is time-sorted. */
  lemma {:induction false} FilterKeepsSorted(rows: seq<SummaryRow>, p: SummaryRow -> bool)
    requires SortedByTime(rows)
    ensures SortedByTime(Filter(rows, p))
  {
    if rows != [] {
      var rest := Filter(rows[1..], p);
      FilterKeepsSorted(rows[1..], p);
      FilterMembers(rows[1..], p);
      if p(rows[0]) {
        forall j | 0 <= j < |rest| ensures Le(rows[0].dateTime, rest[j].dateTime) {
          assert rest[j] in rows[1..];
          var m :| 0 <= m < |rows[1..]| && rows[1..][m] == rest[j];
          assert rows[m + 1] == rest[j];
        }
        assert Filter(rows, p) == [rows[0]] + rest;
      }
    }
  }

  /**
   * The selection is exactly the input rows inside the inclusive window that
   * reach the threshold, each as often as in the input, in time order.
   */
  lemma SelectSpec(rows: seq<SummaryRow>, startDate: DateTime, endDate: DateTime, threshold: real)
    ensures forall r :: r in Select(rows, startDate, endDate, threshold) <==>
      r in rows && Le(startDate, r.dateTime) && Le(r.dateTime, endDate) && r.precipRate >= threshold
    ensures multiset(Select(rows, startDate, endDate, threshold)) <= multiset(rows)
    ensures forall r ::
      multiset(Select(rows, startDate, endDate, threshold))[r]
        == if Le(startDate, r.dateTime) && Le(r.dateTime, endDate) && r.precipRate >= threshold
           then multiset(rows)[r] else 0
    ensures SortedByTime(Select(rows, startDate, endDate, threshold))
  {
    var sorted := SortByTime(rows);
    var windowed := Filter(sorted, InWindow(startDate, endDate));
    FilterFilter(sorted, InWindow(startDate, endDate), AboveThreshold(threshold));
    FilterCount(sorted, Both(InWindow(startDate, endDate), AboveThreshold(threshold)));
    FilterMembers(sorted, InWindow(startDate, endDate));
    FilterMembers(windowed, AboveThreshold(threshold));
    FilterKeepsSorted(sorted, InWindow(startDate, endDate));
    FilterKeepsSorted(windowed, AboveThreshold(threshold));
    forall r ensures r in sorted <==> r in rows {
      assert r in sorted <==> r in multiset(sorted);
    }
  }

  /** Narrowing the window or raising the threshold selects a subsequence of what was selected before. */
  lemma SelectNarrowing(rows: seq<SummaryRow>, start1: DateTime, end1: DateTime, threshold1: real,
                        start2: DateTime, end2: DateTime, threshold2: real)
    requires Le(start1, start2) && Le(end2, end1) && threshold1 <= threshold2
    ensures IsSubsequence(Select(rows, start2, end2, threshold2), Select(rows, start1, end1, threshold1))
  {
    var sorted := SortByTime(rows);
    var p1 := Both(InWindow(start1, end1), AboveThreshold(threshold1));
    var p2 := Both(InWindow(start2, end2), AboveThreshold(threshold2));
    FilterFilter(sorted, InWindow(start1, end1), AboveThreshold(threshold1));
    FilterFilter(sorted, InWindow(start2, end2), AboveThreshold(threshold2));
    forall r | p2(r) ensures p1(r) {
      LeTransitive(start1, start2, r.dateTime);
      LeTransitive(r.dateTime, end2, end1);
    }
    FilterMonotone(sorted, p2, p1);
  }

  /** Distinct valid times, to the second, have distinct frame paths. */
  lemma FramePathInjective(a: DateTime, b: DateTime)
    requires Valid(a) && Valid(b)
    requires FramePath(a) == FramePath(b)
    ensures a == b
  {
    ConcatInjective(FramePathParts(a), FramePathParts(b));
    DateFieldsInjective(a, b);
    TimeFieldsInjective(a, b);
  }

  // -------------------------------------------------------------- methods

  /** Lines 32-35: one path per time, appended in order. */
  method FileList(times: seq<DateTime>) returns (files: seq<string>)
    ensures |files| == |times|
    ensures forall i :: 0 <= i < |times| ==> files[i] == FramePath(times[i])
    ensures forall i, j ::
      (0 <= i < |times| && 0 <= j < |times| && Valid(times[i]) && Valid(times[j]) && files[i] == files[j])
      ==> times[i] == times[j]
  {
    files := [];
    var i := 0;
    while i < |times|
      invariant 0 <= i <= |times|
      invariant |files| == i
      invariant forall m :: 0 <= m < i ==> files[m] == FramePath(times[m])
    {
      var s := Concat(FramePathParts(times[i]));
      files := files + [s];
      i := i + 1;
    }
    forall i, j | 0 <= i < |times| && 0 <= j < |times| && Valid(times[i]) && Valid(times[j])
      && files[i] == files[j]
      ensures times[i] == times[j]
    {
      FramePathInjective(times[i], times[j]);
    }
  }

  /**
   * `mp`: select the frames, build the `(files, times)` pair, run the
   * tracker on it and name the output file. `ran` and `overwrite` are never
   * read; the window is `startDate`/`endDate` (module globals in the source).
   */
  method Mp(ran: DateTime, overwrite: bool, rows: seq<SummaryRow>, startDate: DateTime, endDate: DateTime,
            rThreshold: real, lib: Pysteps, np: Numerics)
    returns (metadata: FrameList, data: Tracks, outPath: string, err: Option<Exception>)
    ensures metadata.times == Times(Select(rows, startDate, endDate, rThreshold))
    ensures |metadata.files| == |metadata.times|
    ensures forall i :: 0 <= i < |metadata.times| ==> metadata.files[i] == FramePath(metadata.times[i])
    ensures fresh(data) && data.fns == metadata && data.importerKwargs == Some(MpKwargs)
    ensures match Run(lib, np, metadata, "mrms_grib", Some(MpKwargs), 40)
            case Ok(table) => err == None && data.df == Some(table)
            case Err(e) => err == Some(e)
    ensures outPath == TracksCsvPath(startDate, endDate)
  {
    var df := SortByTime(rows);
    df := Filter(df, InWindow(startDate, endDate));
    df := Filter(df, AboveThreshold(rThreshold));
    var times := Times(df);
    var files := FileList(times);
    metadata := FrameList(files, times);
    data := new Tracks(metadata, lib, np, importerKwargs := Some(MpKwargs));
    err := data.Execute();
    outPath := TracksCsvPath(startDate, endDate);
  }
}
