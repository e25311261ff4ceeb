/**
 * The flattening of per-track cell tables into one track table
 * (`Tracks.build_dataframe`): dense track IDs, cell areas from the pixel
 * rows, and centroids converted from pixels to longitude and latitude.
 */
module TrackTable {
  import opened Wrappers
  import opened Seqs
  import opened Calendar

  /**
   * One row of a pysteps cell table: a cell at one time step. `x` and `y`
   * list the column and row index of each pixel of the cell, `cont` is its
   * contour; `others` holds the remaining columns (time, max_ref, ...) by name.
   */
  datatype Row = Row(
    id: int,
    cenX: real,
    cenY: real,
    x: seq<int>,
    y: seq<int>,
    cont: seq<seq<real>>,
    others: map<string, string>)

  /** A track: the rows of one cell followed through time. */
  type Track = seq<Row>

  /**
   * One row of the output table. `lon` and `lat` replace the pixel centroid
   * in the `cen_x` and `cen_y` columns; the `x`, `y` and `cont` columns are gone.
   */
  datatype OutRow = OutRow(id: int, area: int, lon: real, lat: real, others: map<string, string>)

  /** The grid metadata the importer reports (the keys this code reads). */
  datatype Metadata = Metadata(
    xpixelsize: real,
    ypixelsize: real,
    x1: real,
    y2: real,
    timestamps: seq<DateTime>,
    unit: string)

  /** numpy's `pi` and `cos`, whose floating-point values the model leaves open. */
  datatype Numerics = Numerics(pi: real, cos: real -> real)

  /** The Earth-radius constant of `build_dataframe`, kept as written. */
  const Re: int := 637

  /** Python's `int(r)` on a float: truncation toward zero. */
  function Trunc(r: real): (i: int)
    ensures r >= 0.0 ==> i as real <= r < i as real + 1.0
    ensures r < 0.0 ==> i as real - 1.0 < r <= i as real
  {
    if r >= 0.0 then r.Floor else -((-r).Floor)
  }

  /** Longitude of pixel column `cx`: `x1 + cx * xpixelsize`. */
  function Lon(md: Metadata, cx: real): real
  {
    md.x1 + cx * md.xpixelsize
  }

  /** Latitude of pixel row `cy`, counted down from the northern bound: `y2 - cy * ypixelsize`. */
  function Lat(md: Metadata, cy: real): real
  {
    md.y2 - cy * md.ypixelsize
  }

  /** Latitude of pixel row `w3`, in radians. */
  function LatRadians(md: Metadata, np: Numerics, w3: int): real
  {
    np.pi / 180.0 * Lat(md, w3 as real)
  }

  /** `Re² · cos(lat) · dλ · dφ`: the area of one pixel of row `w3`. */
  function PixelTerm(md: Metadata, np: Numerics, w3: int): real
  {
    var dLambda := md.xpixelsize * np.pi / 180.0;
    var dPhi := md.ypixelsize * np.pi / 180.0;
    (Re * Re) as real * np.cos(LatRadians(md, np, w3)) * dLambda * dPhi
  }

  /**
   * What line 168 adds for the pixels `ws`, each as a `sum` over a vector of
   * `n` identical values `term(w3)` (`n` is the pixel count of the whole cell).
   */
  function AreaSum(term: int -> real, ws: seq<int>, n: nat): real
  {
    if ws == [] then 0.0 else AreaSum(term, ws[..|ws| - 1], n) + n as real * term(ws[|ws| - 1])
  }

  /** The plain sum of `term` over the pixels. */
  function TermSum(term: int -> real, ws: seq<int>): real
  {
    if ws == [] then 0.0 else TermSum(term, ws[..|ws| - 1]) + term(ws[|ws| - 1])
  }

  /** `PixelTerm` as a function of the pixel row alone. */
  function PixelTerms(md: Metadata, np: Numerics): int -> real
  {
    w3 => PixelTerm(md, np, w3)
  }

  /** The `area` column for a cell with pixel rows `w2`. */
  function CellArea(md: Metadata, np: Numerics, w2: seq<int>): int
  {
    Trunc(AreaSum(PixelTerms(md, np), w2, |w2|))
  }

  /** The flattened rows: every track's rows, in track order (`df.append` in a loop). */
  function Flatten(tracks: seq<Track>): seq<Row>
  {
    Concat(tracks)
  }

  /** The ID column: `k` repeated `len(tracks[k])` times, for each track in order. */
  function TrackIds(tracks: seq<Track>): (ids: seq<int>)
    ensures |ids| == |Flatten(tracks)|
  {
    if tracks == [] then []
    else TrackIds(tracks[..|tracks| - 1]) + Repeat(|tracks| - 1, |tracks[|tracks| - 1]|)
  }

  /** Position in the flattened table of the first row of track `k`. */
  function Offset(tracks: seq<Track>, k: nat): nat
    requires k <= |tracks|
  {
    |Flatten(tracks[..k])|
  }

  /** The output row for input row `r` of track `id`. */
  function OutputRow(md: Metadata, np: Numerics, r: Row, id: int): OutRow
  {
    OutRow(id, CellArea(md, np, r.y), Lon(md, r.cenX), Lat(md, r.cenY), r.others)
  }

  /**
   * The table `build_dataframe` stores in `df`. With no tracks nothing is
   * appended, the empty DataFrame has no column `y`, and `df['y']` raises.
   */
  function BuildTable(md: Metadata, np: Numerics, tracks: seq<Track>): Result<seq<OutRow>>
  {
    if tracks == [] then Err(KeyError("y"))
    else
      var rows, ids := Flatten(tracks), TrackIds(tracks);
      Ok(seq(|rows|, j requires 0 <= j < |rows| => OutputRow(md, np, rows[j], ids[j])))
  }

  // ---------------------------------------------------------------- lemmas

  /** The table has one row per input row: the sum of the track lengths. */
  lemma FlattenLength(tracks: seq<Track>)
    ensures |Flatten(tracks)| == |TrackIds(tracks)| == TotalLength(tracks)
  {
    ConcatLength(tracks);
  }

  /**
   * Row `i` of track `k` sits at `Offset(tracks, k) + i` of the flattened
   * table, unchanged, and receives ID `k`.
   */
  lemma {:induction false} FlattenAt(tracks: seq<Track>, k: nat, i: nat)
    requires k < |tracks| && i < |tracks[k]|
    ensures Offset(tracks, k) + i < |Flatten(tracks)|
    ensures Flatten(tracks)[Offset(tracks, k) + i] == tracks[k][i]
    ensures TrackIds(tracks)[Offset(tracks, k) + i] == k
  {
    var n := |tracks| - 1;
    if k == n {
      FlattenAtLast(tracks, i);
    } else {
      FlattenAt(tracks[..n], k, i);
      FlattenAtFront(tracks, k, i);
    }
  }

  lemma FlattenAtLast(tracks: seq<Track>, i: nat)
    requires tracks != [] && i < |tracks[|tracks| - 1]|
    ensures Offset(tracks, |tracks| - 1) + i < |Flatten(tracks)|
    ensures Flatten(tracks)[Offset(tracks, |tracks| - 1) + i] == tracks[|tracks| - 1][i]
    ensures TrackIds(tracks)[Offset(tracks, |tracks| - 1) + i] == |tracks| - 1
  {
    var n := |tracks| - 1;
    var front, ids := Flatten(tracks[..n]), TrackIds(tracks[..n]);
    assert Offset(tracks, n) == |front| == |ids|;
    assert Flatten(tracks) == front + tracks[n];
    assert TrackIds(tracks) == ids + Repeat(n, |tracks[n]|);
  }

  /** What track `k < |tracks| - 1` contributes is unaffected by appending the last track. */
  lemma FlattenAtFront(tracks: seq<Track>, k: nat, i: nat)
    requires k < |tracks| - 1 && i < |tracks[k]|
    requires Offset(tracks[..|tracks| - 1], k) + i < |Flatten(tracks[..|tracks| - 1])|
    requires Flatten(tracks[..|tracks| - 1])[Offset(tracks[..|tracks| - 1], k) + i] == tracks[k][i]
    requires TrackIds(tracks[..|tracks| - 1])[Offset(tracks[..|tracks| - 1], k) + i] == k
    ensures Offset(tracks, k) + i < |Flatten(tracks)|
    ensures Flatten(tracks)[Offset(tracks, k) + i] == tracks[k][i]
    ensures TrackIds(tracks)[Offset(tracks, k) + i] == k
  {
    var n := |tracks| - 1;
    var init := tracks[..n];
    assert init[..k] == tracks[..k];
    assert Offset(tracks, k) == Offset(init, k);
    assert Flatten(tracks) == Flatten(init) + tracks[n];
    assert TrackIds(tracks) == TrackIds(init) + Repeat(n, |tracks[n]|);
  }

  /** IDs run from 0 to `|tracks| - 1` and never decrease down the table. */
  lemma {:induction false} TrackIdsSorted(tracks: seq<Track>)
    ensures forall j :: 0 <= j < |TrackIds(tracks)| ==> 0 <= TrackIds(tracks)[j] < |tracks|
    ensures forall i, j :: 0 <= i <= j < |TrackIds(tracks)| ==> TrackIds(tracks)[i] <= TrackIds(tracks)[j]
  {
    if tracks != [] {
      var n := |tracks| - 1;
      TrackIdsSorted(tracks[..n]);
      var front := TrackIds(tracks[..n]);
      assert TrackIds(tracks) == front + Repeat(n, |tracks[n]|);
    }
  }

  /** ID `k` occurs exactly `len(tracks[k])` times, and no other value occurs. */
  lemma {:induction false} TrackIdsCount(tracks: seq<Track>, k: int)
    ensures multiset(TrackIds(tracks))[k] == if 0 <= k < |tracks| then |tracks[k]| else 0
  {
    if tracks != [] {
      var n := |tracks| - 1;
      TrackIdsCount(tracks[..n], k);
      RepeatMultiset(n, |tracks[n]|);
      assert TrackIds(tracks) == TrackIds(tracks[..n]) + Repeat(n, |tracks[n]|);
    }
  }

  /**
   * The table fails exactly when there are no tracks; otherwise it has one
   * row per input row, and row `i` of track `k` becomes: ID `k`, the area of
   * its pixels, its centroid in degrees, and its other columns unchanged.
   */
  /** With no tracks the table raises KeyError('y'); otherwise it has `Σ len(track_k)` rows, even when every track is empty. */
  lemma BuildTableLength(md: Metadata, np: Numerics, tracks: seq<Track>)
    ensures tracks == [] ==> BuildTable(md, np, tracks) == Err(KeyError("y"))
    ensures tracks != [] ==> BuildTable(md, np, tracks).Ok? && |BuildTable(md, np, tracks).value| == TotalLength(tracks)
  {
    FlattenLength(tracks);
  }

  lemma BuildTableRows(md: Metadata, np: Numerics, tracks: seq<Track>, k: nat, i: nat)
    requires k < |tracks| && i < |tracks[k]|
    ensures BuildTable(md, np, tracks).Ok?
    ensures |BuildTable(md, np, tracks).value| == TotalLength(tracks)
    ensures Offset(tracks, k) + i < TotalLength(tracks)
    ensures var out := BuildTable(md, np, tracks).value[Offset(tracks, k) + i];
            var r := tracks[k][i];
            && out.id == k
            && out.area == CellArea(md, np, r.y)
            && out.lon == md.x1 + r.cenX * md.xpixelsize
            && out.lat == md.y2 - r.cenY * md.ypixelsize
            && out.others == r.others
  {
    FlattenLength(tracks);
    FlattenAt(tracks, k, i);
    var rows, ids := Flatten(tracks), TrackIds(tracks);
    var j := Offset(tracks, k) + i;
    var table := seq(|rows|, j requires 0 <= j < |rows| => OutputRow(md, np, rows[j], ids[j]));
    assert BuildTable(md, np, tracks) == Ok(table);
    assert table[j] == OutputRow(md, np, tracks[k][i], k);
  }

  /**
   * Every pixel's area is counted once per pixel of its cell: the raw area
   * is the pixel count times the plain sum of the pixel areas.
   */
  lemma {:induction false} AreaSumScales(term: int -> real, ws: seq<int>, n: nat)
    ensures AreaSum(term, ws, n) == n as real * TermSum(term, ws)
  {
    if ws != [] {
      AreaSumScales(term, ws[..|ws| - 1], n);
    }
  }

  /** `n` pixels in one row have `n` times the area of one of them. */
  lemma {:induction false} TermSumAtFixedRow(term: int -> real, w3: int, n: nat)
    ensures TermSum(term, Repeat(w3, n)) == n as real * term(w3)
  {
    if n > 0 {
      assert Repeat(w3, n)[..n - 1] == Repeat(w3, n - 1);
      TermSumAtFixedRow(term, w3, n - 1);
    }
  }

  /**
   * At a fixed latitude the raw area of `n` pixels is `n²` times the area
   * of one pixel, not `n` times: it grows quadratically with the pixel count.
   */
  lemma {:induction false} AreaQuadraticAtFixedRow(term: int -> real, w3: int, n: nat)
    ensures AreaSum(term, Repeat(w3, n), n) == n as real * n as real * term(w3)
  {
    TermSumAtFixedRow(term, w3, n);
    AreaSumScales(term, Repeat(w3, n), n);
  }

  /** A cell without pixels has area 0. */
  lemma AreaOfNoPixels(md: Metadata, np: Numerics)
    ensures CellArea(md, np, []) == 0
  {
  }

  /** With non-negative pixel areas, the area is non-negative. */
  lemma AreaNonNegative(md: Metadata, np: Numerics, w2: seq<int>)
    requires forall w3 :: w3 in w2 ==> PixelTerm(md, np, w3) >= 0.0
    ensures CellArea(md, np, w2) >= 0
  {
    var term := PixelTerms(md, np);
    TermSumNonNegative(term, w2);
    AreaSumScales(term, w2, |w2|);
  }

  lemma {:induction false} TermSumNonNegative(term: int -> real, ws: seq<int>)
    requires forall w3 :: w3 in ws ==> term(w3) >= 0.0
    ensures TermSum(term, ws) >= 0.0
  {
    if ws != [] {
      var last := ws[|ws| - 1];
      assert last in ws;
      assert term(last) >= 0.0;
      TermSumNonNegative(term, ws[..|ws| - 1]);
      assert TermSum(term, ws) == TermSum(term, ws[..|ws| - 1]) + term(last);
    }
  }

  /** With positive pixel sizes, longitude grows with `cen_x` and latitude falls with `cen_y`. */
  lemma CentroidMonotone(md: Metadata, c1: real, c2: real)
    requires md.xpixelsize > 0.0 && md.ypixelsize > 0.0 && c1 < c2
    ensures Lon(md, c1) < Lon(md, c2)
    ensures Lat(md, c1) > Lat(md, c2)
  {
    assert c1 * md.xpixelsize < c2 * md.xpixelsize;
    assert c1 * md.ypixelsize < c2 * md.ypixelsize;
  }

  /** The pixel centroid can be recovered from the degrees by the inverse linear map. */
  lemma CentroidRoundTrip(md: Metadata, cx: real, cy: real)
    requires md.xpixelsize != 0.0 && md.ypixelsize != 0.0
    ensures (Lon(md, cx) - md.x1) / md.xpixelsize == cx
    ensures (md.y2 - Lat(md, cy)) / md.ypixelsize == cy
  {
  }
}
