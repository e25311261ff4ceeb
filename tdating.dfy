/**
 * The `Tracks` orchestrator of `tdating.py`: load the frames, identify the
 * cells of one frame, track cells through the series, and build the track
 * table. Each stage stores its results in fields that the next stage reads.
 */
module Tdating {
  import opened Wrappers
  import opened Seqs
  import opened Calendar
  import opened TrackTable

  /** One 2-D field: rows of pixel values. */
  type Image = seq<seq<real>>

  /** A time series of fields: `Z[t, :, :]` is `Z[t]`. */
  type Video = seq<Image>

  /** A 2-D field of cell labels. */
  type LabelImage = seq<seq<int>>

  /** The `files` argument: file names and their valid times, as `read_timeseries` takes them. */
  datatype FrameList = FrameList(files: seq<string>, times: seq<DateTime>)

  /** The keyword arguments passed on to the importer. */
  datatype ImporterKwargs = ImporterKwargs(extent: seq<int>, windowSize: int)

  /** The importer function `io.get_method` returns, known by the name it was looked up under. */
  datatype Importer = Importer(name: string)

  /**
   * The pysteps calls, as values: `getImporter` stands for
   * `io.get_method(name, "importer")`, `readTimeseries` for
   * `io.read_timeseries`, `toReflectivity` for `utils.to_reflectivity`,
   * `detection` for `tstorm_detect.detection(image, minsize, time, mindis, minref)`
   * and `dating` for `tstorm_dating.dating(video, timelist, dyn_thresh, minsize, mindis, minref)`.
   * Each of them may raise.
   */
  datatype Pysteps = Pysteps(
    getImporter: string -> Result<Importer>,
    readTimeseries: (FrameList, Importer, ImporterKwargs) -> Result<(Video, Metadata)>,
    toReflectivity: (Video, Metadata) -> Result<(Video, Metadata)>,
    detection: (Image, int, DateTime, int, int) -> Result<(seq<Row>, LabelImage)>,
    dating: (Video, seq<DateTime>, bool, int, int, int) -> Result<(seq<Track>, seq<seq<Row>>, seq<LabelImage>)>)

  /** The fixed detection and tracking settings: minimum cell size and distance. */
  const MinSize: int := 16
  const MinDis: int := 10

  // ------------------------------------------------- the stages as functions

  /**
   * `load_data`: look up the importer, read the series and convert it to
   * reflectivity. The lookup comes first; after it, with no importer keyword
   * arguments, `**None` raises TypeError before any reading.
   */
  function Load(lib: Pysteps, fns: FrameList, importerName: string, kwargs: Option<ImporterKwargs>)
    : Result<(Video, Metadata)>
  {
    match lib.getImporter(importerName)
    case Err(e) => Err(e)
    case Ok(importer) =>
      match kwargs
      case None => Err(TypeError("argument after ** must be a mapping"))
      case Some(kw) =>
        match lib.readTimeseries(fns, importer, kw)
        case Err(e) => Err(e)
        case Ok(loaded) => lib.toReflectivity(loaded.0, loaded.1)
  }

  /**
   * `cell_id`: detection on the image of frame 1, stamped with the time of
   * frame `index`. Fewer than two frames, or an index outside the
   * timestamps, raises IndexError.
   */
  function Detect(lib: Pysteps, z: Video, md: Metadata, minref: int, index: int)
    : Result<(seq<Row>, LabelImage)>
  {
    if |z| < 2 then Err(IndexError)
    else
      match PyIndex(md.timestamps, index)
      case Err(e) => Err(e)
      case Ok(time) => lib.detection(z[1], MinSize, time, MinDis, minref)
  }

  /** `calculate_tracks`: tracking over the whole series, with the dynamic threshold on. */
  function Dating(lib: Pysteps, z: Video, md: Metadata, minref: int)
    : Result<(seq<Track>, seq<seq<Row>>, seq<LabelImage>)>
  {
    lib.dating(z, md.timestamps, true, MinSize, MinDis, minref)
  }

  /**
   * `execute`: the four stages in order, each fed by the previous ones; the
   * first stage that raises ends the run.
   */
  function Run(lib: Pysteps, np: Numerics, fns: FrameList, importerName: string,
               kwargs: Option<ImporterKwargs>, minref: int): Result<seq<OutRow>>
  {
    match Load(lib, fns, importerName, kwargs)
    case Err(e) => Err(e)
    case Ok(loaded) =>
      match Detect(lib, loaded.0, loaded.1, minref, 0)
      case Err(e) => Err(e)
      case Ok(_) =>
        match Dating(lib, loaded.0, loaded.1, minref)
        case Err(e) => Err(e)
        case Ok(dated) => BuildTable(loaded.1, np, dated.0)
  }

  /** The ID of every row of a track: what `track.ID` holds. */
  function RowIds(rows: seq<Row>): (ids: seq<int>)
    ensures |ids| == |rows|
    ensures forall i :: 0 <= i < |rows| ==> ids[i] == rows[i].id
  {
    if rows == [] then [] else RowIds(rows[..|rows| - 1]) + [rows[|rows| - 1].id]
  }

  /** A track is drawn when its cell ID is among the IDs detected in the reference frame. */
  predicate Shown(track: Track, ids: seq<int>)
  {
    exists r :: r in track && r.id in ids
  }

  /** `Shown` as the filter predicate of `create_plot`. */
  function ShownAmong(ids: seq<int>): Track -> bool
  {
    t => Shown(t, ids)
  }

  // ------------------------------------ the loops of build_dataframe

  /** Lines 153-157: the ID list and the rows of all tracks, appended track by track. */
  method AppendTracks(tracks: seq<Track>) returns (idList: seq<int>, rows: seq<Row>)
    ensures idList == TrackIds(tracks) && rows == Flatten(tracks)
  {
    idList, rows := [], [];
    var i := 0;
    while i < |tracks|
      invariant 0 <= i <= |tracks|
      invariant idList == TrackIds(tracks[..i])
      invariant rows == Flatten(tracks[..i])
    {
      assert tracks[..i + 1][..i] == tracks[..i];
      idList := idList + Repeat(i, |tracks[i]|);
      rows := rows + tracks[i];
      i := i + 1;
    }
    assert tracks[..i] == tracks;
  }

  /** Lines 163-169 for one cell: the area accumulated pixel by pixel, then truncated. */
  method AreaOfCell(md: Metadata, np: Numerics, w2: seq<int>) returns (a: int)
    ensures a == CellArea(md, np, w2)
  {
    var area := 0.0;
    var k := 0;
    while k < |w2|
      invariant 0 <= k <= |w2|
      invariant area == AreaSum(PixelTerms(md, np), w2[..k], |w2|)
    {
      assert w2[..k + 1][..k] == w2[..k];
      area := area + |w2| as real * PixelTerm(md, np, w2[k]);
      k := k + 1;
    }
    assert w2[..k] == w2;
    a := Trunc(area);
  }

  /** Lines 160-169: one area per row, in row order. */
  method AreaColumn(md: Metadata, np: Numerics, rows: seq<Row>) returns (areaList: seq<int>)
    ensures |areaList| == |rows|
    ensures forall m :: 0 <= m < |rows| ==> areaList[m] == CellArea(md, np, rows[m].y)
  {
    areaList := [];
    var j := 0;
    while j < |rows|
      invariant 0 <= j <= |rows|
      invariant |areaList| == j
      invariant forall m :: 0 <= m < j ==> areaList[m] == CellArea(md, np, rows[m].y)
    {
      var area := AreaOfCell(md, np, rows[j].y);
      areaList := areaList + [area];
      j := j + 1;
    }
  }

  /** Lines 172-175: one longitude per row, in row order. */
  method LonColumn(md: Metadata, rows: seq<Row>) returns (cxList: seq<real>)
    ensures |cxList| == |rows|
    ensures forall m :: 0 <= m < |rows| ==> cxList[m] == md.x1 + rows[m].cenX * md.xpixelsize
  {
    cxList := [];
    var j := 0;
    while j < |rows|
      invariant 0 <= j <= |rows|
      invariant |cxList| == j
      invariant forall m :: 0 <= m < j ==> cxList[m] == md.x1 + rows[m].cenX * md.xpixelsize
    {
      cxList := cxList + [md.x1 + rows[j].cenX * md.xpixelsize];
      j := j + 1;
    }
  }

  /** Lines 178-181: one latitude per row, in row order. */
  method LatColumn(md: Metadata, rows: seq<Row>) returns (cyList: seq<real>)
    ensures |cyList| == |rows|
    ensures forall m :: 0 <= m < |rows| ==> cyList[m] == md.y2 - rows[m].cenY * md.ypixelsize
  {
    cyList := [];
    var j := 0;
    while j < |rows|
      invariant 0 <= j <= |rows|
      invariant |cyList| == j
      invariant forall m :: 0 <= m < j ==> cyList[m] == md.y2 - rows[m].cenY * md.ypixelsize
    {
      cyList := cyList + [md.y2 - rows[j].cenY * md.ypixelsize];
      j := j + 1;
    }
  }

  // ---------------------------------------------------------- the object

  class Tracks {
    const fns: FrameList
    const importerName: string
    const importerKwargs: Option<ImporterKwargs>
    const minref: int
    /** The library and numerics the methods call. */
    const lib: Pysteps
    const np: Numerics

    /** Set by `LoadData`. */
    var Z: Option<Video>
    var metadata: Option<Metadata>
    /** Set by `CellId`. */
    var cellsId: Option<seq<Row>>
    var labels: Option<LabelImage>
    /** Set by `CalculateTracks`. */
    var trackList: Option<seq<Track>>
    var cellList: Option<seq<seq<Row>>>
    var labelList: Option<seq<LabelImage>>
    /** Set by `BuildDataframe`. */
    var df: Option<seq<OutRow>>

    /** `__init__`: stores the configuration; no stage has run yet. */
    constructor (files: FrameList, lib: Pysteps, np: Numerics, importerName: string := "mrms_grib",
                 importerKwargs: Option<ImporterKwargs> := None, minref: int := 40)
      ensures this.fns == files && this.lib == lib && this.np == np
      ensures this.importerName == importerName && this.importerKwargs == importerKwargs
      ensures this.minref == minref
      ensures Z == None && metadata == None && cellsId == None && labels == None
      ensures trackList == None && cellList == None && labelList == None && df == None
    {
      this.fns := files;
      this.lib := lib;
      this.np := np;
      this.importerName := importerName;
      this.importerKwargs := importerKwargs;
      this.minref := minref;
      Z, metadata, cellsId, labels := None, None, None, None;
      trackList, cellList, labelList, df := None, None, None, None;
    }

    /** `load_data`: sets `Z` and `metadata`, or raises and leaves them as they were. */
    method LoadData() returns (err: Option<Exception>)
      modifies this`Z, this`metadata
      ensures match Load(lib, fns, importerName, importerKwargs)
              case Ok(loaded) => err == None && Z == Some(loaded.0) && metadata == Some(loaded.1)
              case Err(e) => err == Some(e) && Z == old(Z) && metadata == old(metadata)
    {
      var importer := lib.getImporter(importerName);
      if importer.Err? {
        return Some(importer.error);
      }
      if importerKwargs.None? {
        return Some(TypeError("argument after ** must be a mapping"));
      }
      var read := lib.readTimeseries(fns, importer.value, importerKwargs.value);
      if read.Err? {
        return Some(read.error);
      }
      var converted := lib.toReflectivity(read.value.0, read.value.1);
      if converted.Err? {
        return Some(converted.error);
      }
      Z := Some(converted.value.0);
      metadata := Some(converted.value.1);
      return None;
    }

    /**
     * `cell_id`: reads `Z` and `metadata`, which `LoadData` sets. The image
     * comes from frame 1 but the time from frame `index` (0 by default).
     */
    method CellId(minref: int, index: int := 0) returns (err: Option<Exception>)
      requires Z.Some? && metadata.Some?
      modifies this`cellsId, this`labels
      ensures match Detect(lib, Z.value, metadata.value, minref, index)
              case Ok(data) => err == None && cellsId == Some(data.0) && labels == Some(data.1)
              case Err(e) => err == Some(e) && cellsId == old(cellsId) && labels == old(labels)
    {
      var z := Z.value;
      if |z| < 2 {
        return Some(IndexError);
      }
      var inputImage := z[1];
      var time := PyIndex(metadata.value.timestamps, index);
      if time.Err? {
        return Some(time.error);
      }
      var data := lib.detection(inputImage, MinSize, time.value, MinDis, minref);
      if data.Err? {
        return Some(data.error);
      }
      cellsId := Some(data.value.0);
      labels := Some(data.value.1);
      return None;
    }

    /** `calculate_tracks`: reads `Z` and `metadata`, which `LoadData` sets. */
    method CalculateTracks(minref: int) returns (err: Option<Exception>)
      requires Z.Some? && metadata.Some?
      modifies this`trackList, this`cellList, this`labelList
      ensures match Dating(lib, Z.value, metadata.value, minref)
              case Ok(data) =>
                err == None && trackList == Some(data.0) && cellList == Some(data.1) && labelList == Some(data.2)
              case Err(e) =>
                err == Some(e) && trackList == old(trackList) && cellList == old(cellList)
                && labelList == old(labelList)
    {
      var data := lib.dating(Z.value, metadata.value.timestamps, true, MinSize, MinDis, minref);
      if data.Err? {
        return Some(data.error);
      }
      trackList, cellList, labelList := Some(data.value.0), Some(data.value.1), Some(data.value.2);
      return None;
    }

    /**
     * The track filter of `create_plot`: the tracks whose cell ID occurs
     * among the IDs of the cells `CellId` found, in their original order.
     */
    method TrackFilter() returns (trackFilt: seq<Track>)
      requires cellsId.Some? && trackList.Some?
      ensures trackFilt == Filter(trackList.value, ShownAmong(RowIds(cellsId.value)))
      ensures forall t :: t in trackFilt <==> t in trackList.value && Shown(t, RowIds(cellsId.value))
      ensures forall t :: multiset(trackFilt)[t] == if Shown(t, RowIds(cellsId.value)) then multiset(trackList.value)[t] else 0
      ensures IsSubsequence(trackFilt, trackList.value)
    {
      var ids := RowIds(cellsId.value);
      var tracks := trackList.value;
      trackFilt := [];
      var i := 0;
      while i < |tracks|
        invariant 0 <= i <= |tracks|
        invariant trackFilt == Filter(tracks[..i], ShownAmong(ids))
      {
        FilterSnoc(tracks[..i], tracks[i], ShownAmong(ids));
        assert tracks[..i + 1] == tracks[..i] + [tracks[i]];
        if Shown(tracks[i], ids) {
          trackFilt := trackFilt + [tracks[i]];
        }
        i := i + 1;
      }
      assert tracks[..i] == tracks;
      FilterMembers(tracks, ShownAmong(ids));
      FilterCount(tracks, ShownAmong(ids));
      FilterIsSubsequence(tracks, ShownAmong(ids));
    }

    /**
     * `build_dataframe`: reads `trackList` and `metadata`. Builds the ID,
     * area, longitude and latitude columns in loops over the appended rows
     * and stores the table in `df`; with no tracks it raises KeyError('y').
     */
    method BuildDataframe() returns (err: Option<Exception>)
      requires trackList.Some? && metadata.Some?
      modifies this`df
      ensures match BuildTable(metadata.value, np, trackList.value)
              case Ok(table) => err == None && df == Some(table)
              case Err(e) => err == Some(e) && df == old(df)
    {
      var tracks := trackList.value;
      var md := metadata.value;
      var idList, rows := AppendTracks(tracks);
      if |tracks| == 0 {
        return Some(KeyError("y"));
      }
      var areaList := AreaColumn(md, np, rows);
      var cxList := LonColumn(md, rows);
      var cyList := LatColumn(md, rows);

      // Replace ID, area, cen_x, cen_y; drop x, y and cont
      var table := seq(|rows|, m requires 0 <= m < |rows| =>
        OutRow(idList[m], areaList[m], cxList[m], cyList[m], rows[m].others));
      ghost var spec := seq(|rows|, m requires 0 <= m < |rows| => OutputRow(md, np, rows[m], idList[m]));
      assert BuildTable(md, np, tracks) == Ok(spec);
      forall m | 0 <= m < |rows|
        ensures table[m] == spec[m]
      {
        assert cxList[m] == Lon(md, rows[m].cenX) && cyList[m] == Lat(md, rows[m].cenY);
      }
      assert table == spec;
      df := Some(table);
      return None;
    }

    /** `execute`: `LoadData`, `CellId`, `CalculateTracks`, `BuildDataframe`, in that order. */
    method Execute() returns (err: Option<Exception>)
      modifies this`Z, this`metadata, this`cellsId, this`labels
      modifies this`trackList, this`cellList, this`labelList, this`df
      ensures match Run(lib, np, fns, importerName, importerKwargs, minref)
              case Ok(table) => err == None && df == Some(table)
              case Err(e) => err == Some(e)
      ensures err == None ==>
        && Load(lib, fns, importerName, importerKwargs).Ok?
        && Z == Some(Load(lib, fns, importerName, importerKwargs).value.0)
        && metadata == Some(Load(lib, fns, importerName, importerKwargs).value.1)
        && Detect(lib, Z.value, metadata.value, minref, 0).Ok?
        && cellsId == Some(Detect(lib, Z.value, metadata.value, minref, 0).value.0)
        && labels == Some(Detect(lib, Z.value, metadata.value, minref, 0).value.1)
        && Dating(lib, Z.value, metadata.value, minref).Ok?
        && trackList == Some(Dating(lib, Z.value, metadata.value, minref).value.0)
        && cellList == Some(Dating(lib, Z.value, metadata.value, minref).value.1)
        && labelList == Some(Dating(lib, Z.value, metadata.value, minref).value.2)
    {
      err := LoadData();
      if err.Some? {
        return;
      }
      err := CellId(minref);
      if err.Some? {
        return;
      }
      err := CalculateTracks(minref);
      if err.Some? {
        return;
      }
      err := BuildDataframe();
    }
  }

  // --------------------------------------------------------------- lemmas

  /** An importer name that `io.get_method` rejects ends the run with that error, whatever the other arguments. */
  lemma RunUnknownImporter(lib: Pysteps, np: Numerics, fns: FrameList, importerName: string,
                           kwargs: Option<ImporterKwargs>, minref: int)
    requires lib.getImporter(importerName).Err?
    ensures Run(lib, np, fns, importerName, kwargs, minref) == Err(lib.getImporter(importerName).error)
  {
  }

  /** A failing conversion to reflectivity ends the run with its error, before `cell_id`. */
  lemma RunConversionFails(lib: Pysteps, np: Numerics, fns: FrameList, importerName: string,
                           kw: ImporterKwargs, minref: int, importer: Importer, loaded: (Video, Metadata), e: Exception)
    requires lib.getImporter(importerName) == Ok(importer)
    requires lib.readTimeseries(fns, importer, kw) == Ok(loaded)
    requires lib.toReflectivity(loaded.0, loaded.1) == Err(e)
    ensures Run(lib, np, fns, importerName, Some(kw), minref) == Err(e)
  {
  }

  /** With a known importer and no importer keyword arguments (the default) the run raises TypeError. */
  lemma RunWithoutKwargs(lib: Pysteps, np: Numerics, fns: FrameList, importerName: string, minref: int)
    requires lib.getImporter(importerName).Ok?
    ensures Run(lib, np, fns, importerName, None, minref) == Err(TypeError("argument after ** must be a mapping"))
  {
  }

  /** A series of fewer than two frames raises IndexError in `cell_id`. */
  lemma RunNeedsTwoFrames(lib: Pysteps, np: Numerics, fns: FrameList, importerName: string,
                          kwargs: Option<ImporterKwargs>, minref: int)
    requires Load(lib, fns, importerName, kwargs).Ok?
    requires |Load(lib, fns, importerName, kwargs).value.0| < 2
    ensures Run(lib, np, fns, importerName, kwargs, minref) == Err(IndexError)
  {
  }

  /** When tracking finds no tracks the run raises KeyError('y') instead of giving an empty table. */
  lemma RunWithoutTracks(lib: Pysteps, np: Numerics, fns: FrameList, importerName: string,
                         kwargs: Option<ImporterKwargs>, minref: int)
    requires Load(lib, fns, importerName, kwargs).Ok?
    requires var loaded := Load(lib, fns, importerName, kwargs).value;
             && Detect(lib, loaded.0, loaded.1, minref, 0).Ok?
             && Dating(lib, loaded.0, loaded.1, minref).Ok?
             && Dating(lib, loaded.0, loaded.1, minref).value.0 == []
    ensures Run(lib, np, fns, importerName, kwargs, minref) == Err(KeyError("y"))
  {
  }
}
