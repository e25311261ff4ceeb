/**
 * Mirroring the MRMS archive (DownloadDataCode.py): list each day's files on
 * the remote archive, and download and decompress the ones whose compressed
 * copy is not yet on disk. The local file system is the set of paths that exist.
 */
module Download {
  import opened Wrappers
  import opened Seqs
  import opened Text
  import opened Calendar

  /** The hyperlinks of a listing page in page order; an `<a>` without `href` is `None`. */
  type Anchors = seq<Option<string>>

  /** The remote archive as the script sees it: the anchors of the page at each URL. */
  type Web = string -> Anchors

  /** The variable argument of `iastate_ingest`: one name, or a list of names. */
  datatype Vars = Name(name: string) | Names(names: seq<string>)

  // ------------------------------------------------------------ listings

  /** The href test of `get_http_files`: ends with `ext` and does not contain 'latest'. */
  function Wanted(ext: string): string -> bool
  {
    href => EndsWith(href, ext) && !Contains(href, "latest")
  }

  /** The hrefs of the anchors, when every anchor has one. */
  function Hrefs(anchors: Anchors): (hrefs: seq<string>)
    requires forall i :: 0 <= i < |anchors| ==> anchors[i].Some?
    ensures |hrefs| == |anchors|
    ensures forall i :: 0 <= i < |anchors| ==> anchors[i] == Some(hrefs[i])
  {
    seq(|anchors|, i requires 0 <= i < |anchors| => anchors[i].value)
  }

  /** `url + '/' + href` for each href, in order. */
  function Links(url: string, hrefs: seq<string>): (links: seq<string>)
    ensures |links| == |hrefs|
    ensures forall i :: 0 <= i < |hrefs| ==> links[i] == url + "/" + hrefs[i]
  {
    seq(|hrefs|, i requires 0 <= i < |hrefs| => url + "/" + hrefs[i])
  }

  /**
   * `get_http_files(url, ext)` given the page's anchors. An anchor without
   * `href` makes `None.endswith` raise AttributeError.
   */
  function GetHttpFiles(url: string, anchors: Anchors, ext: string): Result<seq<string>>
  {
    if exists i :: 0 <= i < |anchors| && anchors[i].None? then
      Err(AttributeError("'NoneType' object has no attribute 'endswith'"))
    else
      Ok(Links(url, Filter(Hrefs(anchors), Wanted(ext))))
  }

  /** `https://mtarchive.geol.iastate.edu/YYYY/MM/DD/mrms/ncep/<var>/`. */
  function ListingUrlParts(date: DateTime, v: string): seq<string>
  {
    ["https://mtarchive.geol.iastate.edu/", Year4(date), "/", Month2(date), "/", Day2(date), "/mrms/ncep/", v, "/"]
  }

  function ListingUrl(date: DateTime, v: string): string
  {
    Concat(ListingUrlParts(date, v))
  }

  /** The `.gz` files listed for one variable on one day. */
  function Listing(web: Web, date: DateTime, v: string): Result<seq<string>>
  {
    GetHttpFiles(ListingUrl(date, v), web(ListingUrl(date, v)), "gz")
  }

  /** `Listing` for a fixed day, as a function of the variable. */
  function ListingOf(web: Web, date: DateTime): string -> Result<seq<string>>
  {
    v => Listing(web, date, v)
  }

  /** The listings of several variables concatenated in order; the first failure raises. */
  function ListingAll(listing: string -> Result<seq<string>>, vs: seq<string>): Result<seq<string>>
  {
    if vs == [] then Ok([])
    else
      match ListingAll(listing, vs[..|vs| - 1])
      case Err(e) => Err(e)
      case Ok(front) =>
        match listing(vs[|vs| - 1])
        case Err(e) => Err(e)
        case Ok(last) => Ok(front + last)
  }

  /** `iastate_ingest(date, vars)`. */
  function Ingest(web: Web, date: DateTime, vars: Vars): Result<seq<string>>
  {
    match vars
    case Name(v) => Listing(web, date, v)
    case Names(vs) => ListingAll(ListingOf(web, date), vs)
  }

  /** The files the script lists for a day: `iastate_ingest(date, 'PrecipRate')`. */
  function DayListing(web: Web): DateTime -> Result<seq<string>>
  {
    d => Ingest(web, d, Name(Variable))
  }

  // ---------------------------------------------------------- local paths

  /** The root of the local mirror. */
  const Root := "/usr1/home/nas-qnap/MRMS"

  /** `/usr1/home/nas-qnap/MRMS/YYYY/MM/DD`. */
  function LocalDir(date: DateTime): string
  {
    Root + "/" + Year4(date) + "/" + Month2(date) + "/" + Day2(date)
  }

  /** `url[url.rfind('/') + 1:]`. */
  function LocalFile(url: string): string
  {
    AfterLast(url, '/')
  }

  /** `{path}/{file}`: where the compressed file is stored in the day directory `dir`. */
  function CompressedPath(dir: string, url: string): string
  {
    dir + "/" + LocalFile(url)
  }

  /** `MRMS_` + the file name with every `.gz` removed: the name of the decompressed copy. */
  function UnzippedName(file: string): string
  {
    "MRMS_" + RemoveAll(file, ".gz")
  }

  /** `{path}/MRMS_...`: where the decompressed copy is written in the day directory `dir`. */
  function DecompressedPath(dir: string, url: string): string
  {
    dir + "/" + UnzippedName(LocalFile(url))
  }

  /** The ancestors `p[..i]` of `p` cut at a `/` with `0 < i < n`. */
  function Ancestors(p: string, n: nat): set<string>
    requires n <= |p|
  {
    if n == 0 then {}
    else Ancestors(p, n - 1) + (if 0 < n - 1 && p[n - 1] == '/' then {p[..n - 1]} else {})
  }

  /** The directories `Path(p).mkdir(parents=True)` ensures: `p` and each proper ancestor. */
  function DirChain(p: string): set<string>
  {
    Ancestors(p, |p|) + {p}
  }

  /**
   * The per-URL step of the day loop: nothing happens when the compressed
   * file exists (the decompressed one is not looked at); otherwise the day
   * directory is made, the compressed file downloaded and kept, and the
   * decompressed copy written beside it.
   */
  function Fetch(fs: set<string>, dir: string, url: string): set<string>
  {
    if CompressedPath(dir, url) in fs then fs
    else fs + DirChain(dir) + {CompressedPath(dir, url), DecompressedPath(dir, url)}
  }

  /** `Fetch` for each URL in order. */
  function FetchAll(fs: set<string>, dir: string, urls: seq<string>): set<string>
  {
    if urls == [] then fs else Fetch(FetchAll(fs, dir, urls[..|urls| - 1]), dir, urls[|urls| - 1])
  }

  /** The variable the script mirrors. */
  const Variable := "PrecipRate"

  /**
   * The day loop over `days`: each day's listing, then its files; a listing
   * that raises ends the run with what was written so far.
   */
  function MirrorDays(fs: set<string>, listing: DateTime -> Result<seq<string>>, dirOf: DateTime -> string,
    days: seq<DateTime>): (set<string>, Option<Exception>)
  {
    if days == [] then (fs, None)
    else
      var before := MirrorDays(fs, listing, dirOf, days[..|days| - 1]);
      if before.1.Some? then before
      else DayStep(before.0, listing, dirOf, days[|days| - 1])
  }

  /** One pass of the day loop: the day's listing, then `Fetch` for each listed URL. */
  function DayStep(fs: set<string>, listing: DateTime -> Result<seq<string>>, dirOf: DateTime -> string,
    day: DateTime): (set<string>, Option<Exception>)
  {
    match listing(day)
    case Err(e) => (fs, Some(e))
    case Ok(urls) => (FetchAll(fs, dirOf(day), urls), None)
  }

  /** `start_date + timedelta(days=a)` for `a` in `range((end_date - start_date).days + 1)`. */
  function DayRange(startDate: DateTime, endDate: DateTime): (days: seq<DateTime>)
    requires WellFormed(startDate) && WellFormed(endDate)
    ensures |days| == if DaysBetween(startDate, endDate) + 1 > 0 then DaysBetween(startDate, endDate) + 1 else 0
    ensures forall a :: 0 <= a < |days| ==> days[a] == AddDays(startDate, a)
  {
    var n := DaysBetween(startDate, endDate) + 1;
    seq(if n > 0 then n else 0, a requires 0 <= a => AddDays(startDate, a))
  }

  // --------------------------------------------------------------- lemmas

  /**
   * `get_http_files` fails exactly when an anchor has no href; otherwise it
   * returns `url + '/' + href` for exactly the hrefs that end with `ext` and
   * do not contain 'latest', in page order.
   */
  lemma GetHttpFilesSpec(url: string, anchors: Anchors, ext: string)
    ensures GetHttpFiles(url, anchors, ext).Ok? <==> forall i :: 0 <= i < |anchors| ==> anchors[i].Some?
    ensures GetHttpFiles(url, anchors, ext).Ok? ==>
      var files := GetHttpFiles(url, anchors, ext).value;
      var kept := Filter(Hrefs(anchors), Wanted(ext));
      && IsSubsequence(kept, Hrefs(anchors))
      && (forall h :: h in kept <==> Some(h) in anchors && EndsWith(h, ext) && !Contains(h, "latest"))
      && files == Links(url, kept)
  {
    if forall i :: 0 <= i < |anchors| ==> anchors[i].Some? {
      var hrefs := Hrefs(anchors);
      FilterMembers(hrefs, Wanted(ext));
      FilterIsSubsequence(hrefs, Wanted(ext));
      forall h ensures h in hrefs <==> Some(h) in anchors {
        if h in hrefs {
          var i :| 0 <= i < |hrefs| && hrefs[i] == h;
          assert anchors[i] == Some(h);
        }
        if Some(h) in anchors {
          var i :| 0 <= i < |anchors| && anchors[i] == Some(h);
          assert hrefs[i] == h;
        }
      }
    }
  }

  /** A one-element list of names lists the same files as the name alone. */
  lemma IngestSingleName(web: Web, date: DateTime, v: string)
    ensures Ingest(web, date, Names([v])) == Ingest(web, date, Name(v))
  {
    assert [v][..0] == [];
    assert ListingAll(ListingOf(web, date), []) == Ok([]);
    assert ListingOf(web, date)(v) == Listing(web, date, v);
    match Listing(web, date, v)
    case Err(e) =>
    case Ok(files) => assert [] + files == files;
  }

  /** A listing of several names that succeeds succeeds on all but the last, and on the last. */
  lemma ListingAllOkPrefix(listing: string -> Result<seq<string>>, vs: seq<string>)
    requires vs != [] && ListingAll(listing, vs).Ok?
    ensures ListingAll(listing, vs[..|vs| - 1]).Ok? && listing(vs[|vs| - 1]).Ok?
    ensures ListingAll(listing, vs).value
      == ListingAll(listing, vs[..|vs| - 1]).value + listing(vs[|vs| - 1]).value
  {
  }

  /** Listing `vs + ws` concatenates the two listings when both succeed. */
  lemma {:induction false} ListingAllAppend(listing: string -> Result<seq<string>>, vs: seq<string>, ws: seq<string>)
    requires ListingAll(listing, vs).Ok? && ListingAll(listing, ws).Ok?
    ensures ListingAll(listing, vs + ws) == Ok(ListingAll(listing, vs).value + ListingAll(listing, ws).value)
    decreases |ws|
  {
    if ws == [] {
      assert vs + ws == vs;
      assert ListingAll(listing, vs).value + [] == ListingAll(listing, vs).value;
    } else {
      var n := |ws| - 1;
      ListingAllOkPrefix(listing, ws);
      ListingAllAppend(listing, vs, ws[..n]);
      var left := ListingAll(listing, vs).value;
      var mid := ListingAll(listing, ws[..n]).value;
      var last := listing(ws[n]).value;
      assert (vs + ws)[..|vs + ws| - 1] == vs + ws[..n];
      assert (vs + ws)[|vs + ws| - 1] == ws[n];
      assert ListingAll(listing, vs + ws) == Ok((left + mid) + last);
      assert (left + mid) + last == left + (mid + last);
    }
  }

  /** Once a prefix of the names fails to list, the whole list fails with the same error. */
  lemma {:induction false} ListingAllStop(listing: string -> Result<seq<string>>, vs: seq<string>, i: nat)
    requires i <= |vs|
    requires ListingAll(listing, vs[..i]).Err?
    ensures ListingAll(listing, vs) == ListingAll(listing, vs[..i])
    decreases |vs| - i
  {
    if i < |vs| {
      assert vs[..i + 1][..i] == vs[..i];
      ListingAllStop(listing, vs, i + 1);
    } else {
      assert vs[..i] == vs;
    }
  }

  /** The listing URL of a valid date, for a fixed variable, determines the date. */
  lemma ListingUrlInjective(a: DateTime, b: DateTime, v: string)
    requires Valid(a) && Valid(b)
    requires ListingUrl(a, v) == ListingUrl(b, v)
    ensures a.year == b.year && a.month == b.month && a.day == b.day
  {
    ConcatInjective(ListingUrlParts(a, v), ListingUrlParts(b, v));
    DateFieldsInjective(a, b);
  }

  /** The local file name is the URL's tail after its last `/` and contains no `/`. */
  lemma LocalFileShape(url: string)
    ensures '/' !in LocalFile(url)
    ensures EndsWith(url, LocalFile(url))
    ensures '/' in url ==> EndsWith(url, "/" + LocalFile(url))
  {
    var f := LocalFile(url);
    if '/' in url {
      assert url[|url| - |f| - 1..] == "/" + f;
    }
  }

  /** The day directory is the mirror root followed by the zero-padded `YYYY/MM/DD` fields. */
  lemma LocalDirShape(date: DateTime)
    ensures |LocalDir(date)| == |Root| + 11
    ensures StartsWith(LocalDir(date), Root + "/")
    ensures LocalDir(date)[|Root| + 1..|Root| + 5] == Year4(date)
    ensures LocalDir(date)[|Root| + 6..|Root| + 8] == Month2(date)
    ensures LocalDir(date)[|Root| + 9..] == Day2(date)
  {
    var r := |Root|;
    var dir := LocalDir(date);
    assert dir == (Root + "/") + Year4(date) + "/" + Month2(date) + "/" + Day2(date);
    assert dir[..r + 1] == Root + "/";
  }

  /** Valid dates on different days have different day directories. */
  lemma LocalDirInjective(a: DateTime, b: DateTime)
    requires Valid(a) && Valid(b)
    requires LocalDir(a) == LocalDir(b)
    ensures a.year == b.year && a.month == b.month && a.day == b.day
  {
    LocalDirShape(a);
    LocalDirShape(b);
    DateFieldsInjective(a, b);
  }

  /** For a name ending in `.gz` with no other `.gz`, the copy is `MRMS_` + the name without `.gz`. */
  lemma DecompressedName(dir: string, url: string, base: string)
    requires LocalFile(url) == base + ".gz" && !Contains(base, ".gz")
    ensures UnzippedName(LocalFile(url)) == "MRMS_" + base
    ensures DecompressedPath(dir, url) == dir + "/" + ("MRMS_" + base)
  {
    RemoveGzSuffix(base);
    RemoveAllAbsent(base, ".gz");
  }

  /**
   * One URL: if its compressed file exists nothing changes, even when the
   * decompressed copy is missing; otherwise both exist afterwards. Nothing
   * is removed, and a second run changes nothing.
   */
  lemma FetchSpec(fs: set<string>, dir: string, url: string)
    ensures CompressedPath(dir, url) in fs ==> Fetch(fs, dir, url) == fs
    ensures CompressedPath(dir, url) !in fs ==>
      CompressedPath(dir, url) in Fetch(fs, dir, url) && DecompressedPath(dir, url) in Fetch(fs, dir, url)
    ensures fs <= Fetch(fs, dir, url)
    ensures Fetch(Fetch(fs, dir, url), dir, url) == Fetch(fs, dir, url)
  {
  }

  /** Everything one URL adds lies in the day directory or is the directory or one of its ancestors. */
  lemma FetchLocation(fs: set<string>, dir: string, url: string)
    ensures forall p :: p in Fetch(fs, dir, url) && p !in fs ==> p in DirChain(dir) || StartsWith(p, dir + "/")
  {
    var c, d := CompressedPath(dir, url), DecompressedPath(dir, url);
    PrefixOfAppend(dir + "/", LocalFile(url));
    PrefixOfAppend(dir + "/", UnzippedName(LocalFile(url)));
    if c !in fs {
      forall p | p in Fetch(fs, dir, url) && p !in fs ensures p in DirChain(dir) || StartsWith(p, dir + "/") {
        InUnion(p, fs, DirChain(dir), c, d);
      }
    }
  }

  /** An element of `fs + chain + {a, b}` is in one of the parts. */
  lemma InUnion<T>(x: T, fs: set<T>, chain: set<T>, a: T, b: T)
    requires x in fs + chain + {a, b}
    ensures x in fs || x in chain || x == a || x == b
  {
  }

  lemma PrefixOfAppend(a: string, b: string)
    ensures StartsWith(a + b, a)
  {
    assert (a + b)[..|a|] == a;
  }

  /** The URL loop that has processed the first `i` URLs continues with URL `i`. */
  lemma FetchAllNext(fs: set<string>, dir: string, urls: seq<string>, i: nat)
    requires i < |urls|
    ensures FetchAll(fs, dir, urls[..i + 1]) == Fetch(FetchAll(fs, dir, urls[..i]), dir, urls[i])
  {
    assert urls[..i + 1][..i] == urls[..i];
  }

  /** `FetchAll` only adds paths. */
  lemma {:induction false} FetchAllGrows(fs: set<string>, dir: string, urls: seq<string>)
    ensures fs <= FetchAll(fs, dir, urls)
  {
    if urls != [] {
      FetchAllGrows(fs, dir, urls[..|urls| - 1]);
    }
  }

  /** The ancestors cut before position `n` are exactly the prefixes `p[..i]` with `0 < i < n` and `p[i] == '/'`. */
  lemma {:induction false} AncestorsMembers(p: string, n: nat, q: string)
    requires n <= |p|
    ensures q in Ancestors(p, n) <==> exists i :: 0 < i < n && p[i] == '/' && q == p[..i]
  {
    if n > 0 {
      AncestorsMembers(p, n - 1, q);
    }
  }

  /** A path longer than `dir` is neither `dir` nor one of its ancestors. */
  lemma NotInDirChain(dir: string, p: string)
    requires |p| > |dir|
    ensures p !in DirChain(dir)
  {
    AncestorsMembers(dir, |dir|, p);
  }

  /** Two compressed paths of one directory are equal only when the file names are. */
  lemma CompressedPathInjective(dir: string, u: string, w: string)
    requires CompressedPath(dir, u) == CompressedPath(dir, w)
    ensures LocalFile(u) == LocalFile(w)
  {
    var k := |dir + "/"|;
    assert LocalFile(u) == CompressedPath(dir, u)[k..];
    assert LocalFile(w) == CompressedPath(dir, w)[k..];
  }

  /**
   * The skip test looks only at the compressed path. A decompressed copy can
   * itself be named like another URL's compressed file (`X.gz` becomes
   * `MRMS_X`); this says none of `urls` does that to `url`.
   */
  predicate NoClash(dir: string, urls: seq<string>, url: string)
  {
    forall w :: w in urls ==> DecompressedPath(dir, w) != CompressedPath(dir, url)
  }

  /** An element of `fs + chain + {a, b}` that is in neither set nor `b` is `a`. */
  lemma PickFromUnion<T>(x: T, fs: set<T>, chain: set<T>, a: T, b: T)
    requires x in fs + chain + {a, b} && x !in fs && x !in chain && x != b
    ensures x == a
  {
  }

  /** One URL step that creates `url`'s compressed path, which the step's decompressed copy did not take, creates its decompressed copy too. */
  lemma FetchAdded(fs: set<string>, dir: string, last: string, url: string)
    requires CompressedPath(dir, url) in Fetch(fs, dir, last) && CompressedPath(dir, url) !in fs
    requires DecompressedPath(dir, last) != CompressedPath(dir, url)
    ensures DecompressedPath(dir, url) in Fetch(fs, dir, last)
  {
    var cu, cl, dl := CompressedPath(dir, url), CompressedPath(dir, last), DecompressedPath(dir, last);
    var chain := DirChain(dir);
    assert cl !in fs;
    assert Fetch(fs, dir, last) == fs + chain + {cl, dl};
    NotInDirChain(dir, cu);
    PickFromUnion(cu, fs, chain, cl, dl);
    CompressedPathInjective(dir, url, last);
    assert DecompressedPath(dir, url) == DecompressedPath(dir, last);
  }

  /** A compressed path that `FetchAll` added, and that no decompressed copy took, came with its decompressed copy. */
  lemma {:induction false} FetchAllWitness(fs: set<string>, dir: string, urls: seq<string>, url: string)
    requires CompressedPath(dir, url) in FetchAll(fs, dir, urls) && CompressedPath(dir, url) !in fs
    requires NoClash(dir, urls, url)
    ensures DecompressedPath(dir, url) in FetchAll(fs, dir, urls)
  {
    var n := |urls| - 1;
    var before := FetchAll(fs, dir, urls[..n]);
    assert urls[n] in urls;
    if CompressedPath(dir, url) in before {
      assert forall w :: w in urls[..n] ==> w in urls;
      FetchAllWitness(fs, dir, urls[..n], url);
      FetchAllGrows(before, dir, [urls[n]]);
      assert FetchAll(before, dir, [urls[n]]) == Fetch(before, dir, urls[n]);
    } else {
      FetchAdded(before, dir, urls[n], url);
    }
  }

  /**
   * After a day's URLs are processed, each URL's compressed file exists, and
   * so does its decompressed copy unless the compressed file was there before
   * or another URL's decompressed copy took its name.
   */
  lemma {:induction false} FetchAllPresent(fs: set<string>, dir: string, urls: seq<string>, k: nat)
    requires k < |urls|
    ensures CompressedPath(dir, urls[k]) in FetchAll(fs, dir, urls)
    ensures CompressedPath(dir, urls[k]) !in fs && NoClash(dir, urls, urls[k]) ==>
      DecompressedPath(dir, urls[k]) in FetchAll(fs, dir, urls)
  {
    var n := |urls| - 1;
    var before := FetchAll(fs, dir, urls[..n]);
    assert FetchAll(fs, dir, urls) == Fetch(before, dir, urls[n]);
    if k < n {
      assert urls[..n][k] == urls[k];
      FetchAllPresent(fs, dir, urls[..n], k);
    }
    if CompressedPath(dir, urls[k]) !in fs && NoClash(dir, urls, urls[k]) {
      FetchAllWitness(fs, dir, urls, urls[k]);
    }
  }

  /** When every compressed file is already there, the URL loop changes nothing. */
  lemma {:induction false} FetchAllNoop(fs: set<string>, dir: string, urls: seq<string>)
    requires forall u :: u in urls ==> CompressedPath(dir, u) in fs
    ensures FetchAll(fs, dir, urls) == fs
  {
    if urls != [] {
      var n := |urls| - 1;
      assert urls[n] in urls;
      assert forall u :: u in urls[..n] ==> u in urls;
      FetchAllNoop(fs, dir, urls[..n]);
    }
  }

  /** Processing the same URLs twice is the same as processing them once. */
  lemma FetchAllIdempotent(fs: set<string>, dir: string, urls: seq<string>)
    ensures FetchAll(FetchAll(fs, dir, urls), dir, urls) == FetchAll(fs, dir, urls)
  {
    forall u | u in urls ensures CompressedPath(dir, u) in FetchAll(fs, dir, urls) {
      var k :| 0 <= k < |urls| && urls[k] == u;
      FetchAllPresent(fs, dir, urls, k);
    }
    FetchAllNoop(FetchAll(fs, dir, urls), dir, urls);
  }

  /** One step of a completed day loop: the earlier days completed and the last day's listing succeeded. */
  lemma MirrorDaysLast(fs: set<string>, listing: DateTime -> Result<seq<string>>,
    dirOf: DateTime -> string, days: seq<DateTime>)
    requires days != [] && MirrorDays(fs, listing, dirOf, days).1.None?
    ensures MirrorDays(fs, listing, dirOf, days[..|days| - 1]).1.None?
    ensures listing(days[|days| - 1]).Ok?
    ensures MirrorDays(fs, listing, dirOf, days).0
      == FetchAll(MirrorDays(fs, listing, dirOf, days[..|days| - 1]).0, dirOf(days[|days| - 1]),
                  listing(days[|days| - 1]).value)
  {
  }

  /** A day loop that has completed its first `a` days continues with day `a`. */
  lemma MirrorDaysNext(fs: set<string>, listing: DateTime -> Result<seq<string>>,
    dirOf: DateTime -> string, days: seq<DateTime>, a: nat)
    requires a < |days| && MirrorDays(fs, listing, dirOf, days[..a]).1.None?
    ensures MirrorDays(fs, listing, dirOf, days[..a + 1])
      == DayStep(MirrorDays(fs, listing, dirOf, days[..a]).0, listing, dirOf, days[a])
  {
    assert days[..a + 1][..a] == days[..a];
  }

  /** The day loop only adds paths. */
  lemma {:induction false} MirrorDaysGrows(fs: set<string>, listing: DateTime -> Result<seq<string>>,
    dirOf: DateTime -> string, days: seq<DateTime>)
    ensures fs <= MirrorDays(fs, listing, dirOf, days).0
  {
    if days != [] {
      var n := |days| - 1;
      MirrorDaysGrows(fs, listing, dirOf, days[..n]);
      var before := MirrorDays(fs, listing, dirOf, days[..n]);
      if before.1.None? && listing(days[n]).Ok? {
        FetchAllGrows(before.0, dirOf(days[n]), listing(days[n]).value);
      }
    }
  }

  /**
   * After a run that completed, every day's listing succeeded and every
   * listed file has its compressed copy on disk.
   */
  lemma {:induction false} MirrorDaysPresent(fs: set<string>, listing: DateTime -> Result<seq<string>>,
    dirOf: DateTime -> string, days: seq<DateTime>, d: nat, k: nat)
    requires MirrorDays(fs, listing, dirOf, days).1.None?
    requires d < |days|
    ensures listing(days[d]).Ok?
    ensures k < |listing(days[d]).value| ==>
      CompressedPath(dirOf(days[d]), listing(days[d]).value[k]) in MirrorDays(fs, listing, dirOf, days).0
  {
    var n := |days| - 1;
    MirrorDaysLast(fs, listing, dirOf, days);
    var before := MirrorDays(fs, listing, dirOf, days[..n]).0;
    var urls := listing(days[n]).value;
    if d < n {
      assert days[..n][d] == days[d];
      MirrorDaysPresent(fs, listing, dirOf, days[..n], d, k);
      FetchAllGrows(before, dirOf(days[n]), urls);
    } else if k < |urls| {
      FetchAllPresent(before, dirOf(days[n]), urls, k);
    }
  }

  /** When every listed file is already on disk, the day loop changes nothing. */
  lemma {:induction false} MirrorDaysNoop(fs: set<string>, listing: DateTime -> Result<seq<string>>,
    dirOf: DateTime -> string, days: seq<DateTime>)
    requires forall d :: 0 <= d < |days| ==> listing(days[d]).Ok?
    requires forall d, u :: 0 <= d < |days| && u in listing(days[d]).value ==> CompressedPath(dirOf(days[d]), u) in fs
    ensures MirrorDays(fs, listing, dirOf, days) == (fs, None)
  {
    if days != [] {
      var n := |days| - 1;
      var front := days[..n];
      assert forall d :: 0 <= d < n ==> front[d] == days[d];
      MirrorDaysNoop(fs, listing, dirOf, front);
      FetchAllNoop(fs, dirOf(days[n]), listing(days[n]).value);
    }
  }

  /** Re-running a completed mirror over the same listings changes nothing. */
  lemma MirrorDaysIdempotent(fs: set<string>, listing: DateTime -> Result<seq<string>>,
    dirOf: DateTime -> string, days: seq<DateTime>)
    requires MirrorDays(fs, listing, dirOf, days).1.None?
    ensures MirrorDays(MirrorDays(fs, listing, dirOf, days).0, listing, dirOf, days)
      == (MirrorDays(fs, listing, dirOf, days).0, None)
  {
    var after := MirrorDays(fs, listing, dirOf, days).0;
    forall d | 0 <= d < |days| ensures listing(days[d]).Ok? {
      MirrorDaysPresent(fs, listing, dirOf, days, d, 0);
    }
    forall d, u | 0 <= d < |days| && u in listing(days[d]).value
      ensures CompressedPath(dirOf(days[d]), u) in after
    {
      var k :| 0 <= k < |listing(days[d]).value| && listing(days[d]).value[k] == u;
      MirrorDaysPresent(fs, listing, dirOf, days, d, k);
    }
    MirrorDaysNoop(after, listing, dirOf, days);
  }

  /** Once the day loop has failed, later days do not change the outcome. */
  lemma {:induction false} MirrorDaysStop(fs: set<string>, listing: DateTime -> Result<seq<string>>,
    dirOf: DateTime -> string, days: seq<DateTime>, a: nat)
    requires a <= |days|
    requires MirrorDays(fs, listing, dirOf, days[..a]).1.Some?
    ensures MirrorDays(fs, listing, dirOf, days) == MirrorDays(fs, listing, dirOf, days[..a])
    decreases |days| - a
  {
    if a < |days| {
      assert days[..a + 1][..a] == days[..a];
      MirrorDaysStop(fs, listing, dirOf, days, a + 1);
    } else {
      assert days[..a] == days;
    }
  }

  /**
   * The day loop visits exactly the datetimes at the start's time of day
   * from the start to the end, both included, in increasing order, one day apart.
   */
  lemma DayRangeExact(startDate: DateTime, endDate: DateTime, d: DateTime)
    requires WellFormed(startDate) && WellFormed(endDate) && WellFormed(d)
    ensures d in DayRange(startDate, endDate) <==>
      SecondOfDay(d) == SecondOfDay(startDate) && Le(startDate, d) && Le(d, endDate)
  {
    var days := DayRange(startDate, endDate);
    var total := DaysBetween(startDate, endDate);
    if d in days {
      var a :| 0 <= a < |days| && days[a] == d;
      AddDaysOrdinal(startDate, a);
      LeIffSeconds(startDate, d);
      LeIffSeconds(d, endDate);
    }
    if SecondOfDay(d) == SecondOfDay(startDate) && Le(startDate, d) && Le(d, endDate) {
      LeIffSeconds(startDate, d);
      LeIffSeconds(d, endDate);
      var a := Ordinal(d) - Ordinal(startDate);
      assert Seconds(d) - Seconds(startDate) == a * 86400;
      assert 0 <= a <= total;
      AddDaysOrdinal(startDate, a);
      SecondsInjective(AddDays(startDate, a), d);
      assert days[a] == d;
    }
  }

  /** Consecutive days of the loop are one day number apart, so the loop is strictly increasing. */
  lemma DayRangeIncreasing(startDate: DateTime, endDate: DateTime, a: nat, b: nat)
    requires WellFormed(startDate) && WellFormed(endDate)
    requires a < b < |DayRange(startDate, endDate)|
    ensures Ordinal(DayRange(startDate, endDate)[b]) - Ordinal(DayRange(startDate, endDate)[a]) == b - a
    ensures Le(DayRange(startDate, endDate)[a], DayRange(startDate, endDate)[b])
    ensures DayRange(startDate, endDate)[a] != DayRange(startDate, endDate)[b]
  {
    var days := DayRange(startDate, endDate);
    AddDaysOrdinal(startDate, a);
    AddDaysOrdinal(startDate, b);
    LeIffSeconds(days[a], days[b]);
  }

  /** The script's window, from 1 June 2017 to 30 June 2017 at midnight, is 30 days, one per day of June. */
  lemma ScriptWindow(startDate: DateTime, endDate: DateTime)
    requires startDate.year == 2017 && startDate.month == 6 && startDate.day == 1
    requires endDate.year == 2017 && endDate.month == 6 && endDate.day == 30
    requires SecondOfDay(startDate) == 0 && SecondOfDay(endDate) == 0
    requires WellFormed(startDate) && WellFormed(endDate)
    ensures |DayRange(startDate, endDate)| == 30
    ensures forall i :: 0 <= i < 30 ==> DayRange(startDate, endDate)[i] == startDate.(day := i + 1)
  {
    MonthWindow(startDate, endDate);
  }

  /** Two datetimes of one month at one time of day are as many days apart as their day numbers. */
  lemma SameMonthDaysBetween(a: DateTime, b: DateTime)
    requires WellFormed(a) && WellFormed(b)
    requires a.year == b.year && a.month == b.month && SecondOfDay(a) == SecondOfDay(b)
    ensures DaysBetween(a, b) == b.day - a.day
  {
    assert Seconds(b) - Seconds(a) == (b.day - a.day) * 86400;
  }

  /** Within one month, the day loop runs once per day from the first day to the last. */
  lemma MonthWindow(a: DateTime, b: DateTime)
    requires WellFormed(a) && WellFormed(b)
    requires a.year == b.year && a.month == b.month && SecondOfDay(a) == SecondOfDay(b) && a.day <= b.day
    ensures |DayRange(a, b)| == b.day - a.day + 1
    ensures forall i :: 0 <= i < |DayRange(a, b)| ==> DayRange(a, b)[i] == a.(day := a.day + i)
  {
    SameMonthDaysBetween(a, b);
    forall i | 0 <= i < |DayRange(a, b)| ensures DayRange(a, b)[i] == a.(day := a.day + i) {
      var c := a.(day := a.day + i);
      assert WellFormed(c);
      AddDaysOrdinal(a, i);
      assert Seconds(c) == Seconds(a) + i * 86400;
      SecondsInjective(AddDays(a, i), c);
    }
  }

  // -------------------------------------------------------------- methods

  /** `iastate_ingest`: for a list of names, the listings are accumulated with `+=`. */
  method IastateIngest(web: Web, date: DateTime, vars: Vars) returns (files: Result<seq<string>>)
    ensures files == Ingest(web, date, vars)
  {
    match vars
    case Names(vs) =>
      var acc: seq<string> := [];
      var i := 0;
      while i < |vs|
        invariant 0 <= i <= |vs|
        invariant ListingAll(ListingOf(web, date), vs[..i]) == Ok(acc)
      {
        assert vs[..i + 1][..i] == vs[..i];
        var url := ListingUrl(date, vs[i]);
        var listed := GetHttpFiles(url, web(url), "gz");
        assert listed == ListingOf(web, date)(vs[i]);
        if listed.Err? {
          ListingAllStop(ListingOf(web, date), vs, i + 1);
          return Err(listed.error);
        }
        acc := acc + listed.value;
        i := i + 1;
      }
      assert vs[..i] == vs;
      files := Ok(acc);
    case Name(v) =>
      var url := ListingUrl(date, v);
      files := GetHttpFiles(url, web(url), "gz");
  }

  /** The local mirror: the set of paths that exist. */
  class LocalArchive {
    var paths: set<string>

    constructor (existing: set<string>)
      ensures paths == existing
    {
      paths := existing;
    }

    /** The body of the URL loop for one URL of the day directory `path`. */
    method FetchUrl(path: string, url: string)
      modifies this
      ensures paths == Fetch(old(paths), path, url)
    {
      var file := LocalFile(url);
      if path + "/" + file !in paths {
        paths := paths + DirChain(path);
        paths := paths + {path + "/" + file};
        paths := paths + {path + "/" + UnzippedName(file)};
      }
    }

    /** One pass of the day loop: list the day's files, then process each URL in order. */
    method MirrorDay(web: Web, date: DateTime) returns (err: Option<Exception>)
      modifies this
      ensures (paths, err) == DayStep(old(paths), DayListing(web), LocalDir, date)
    {
      var returnFilenames := IastateIngest(web, date, Name(Variable));
      assert DayListing(web)(date) == returnFilenames;
      if returnFilenames.Err? {
        return Some(returnFilenames.error);
      }
      FetchUrls(LocalDir(date), returnFilenames.value);
      return None;
    }

    /** The URL loop of one day: `FetchUrl` for each URL in order. */
    method FetchUrls(path: string, urls: seq<string>)
      modifies this
      ensures paths == FetchAll(old(paths), path, urls)
    {
      var i := 0;
      while i < |urls|
        invariant 0 <= i <= |urls|
        invariant paths == FetchAll(old(paths), path, urls[..i])
      {
        FetchAllNext(old(paths), path, urls, i);
        FetchUrl(path, urls[i]);
        i := i + 1;
      }
      assert urls[..i] == urls;
    }

    /** The script's day loop from `startDate` to `endDate`, both included, stopping at the first failure. */
    method Mirror(web: Web, startDate: DateTime, endDate: DateTime) returns (err: Option<Exception>)
      requires WellFormed(startDate) && WellFormed(endDate)
      modifies this
      ensures (paths, err) == MirrorDays(old(paths), DayListing(web), LocalDir, DayRange(startDate, endDate))
    {
      var days := DayRange(startDate, endDate);
      var total := DaysBetween(startDate, endDate) + 1;
      var a := 0;
      while a < total
        invariant 0 <= a <= |days|
        invariant a <= total || a == 0
        invariant MirrorDays(old(paths), DayListing(web), LocalDir, days[..a]) == (paths, None)
      {
        var downloadDate := AddDays(startDate, a);
        MirrorDaysNext(old(paths), DayListing(web), LocalDir, days, a);
        err := MirrorDay(web, downloadDate);
        if err.Some? {
          MirrorDaysStop(old(paths), DayListing(web), LocalDir, days, a + 1);
          return;
        }
        a := a + 1;
      }
      assert days[..a] == days;
      err := None;
    }
  }
}
