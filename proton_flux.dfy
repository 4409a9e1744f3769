/**
 * The `ProtonFlux` object of the proton-flux script: a cached table of
 * proton flux per timestamp and energy band. Construction either refreshes
 * the table from the feed and rewrites the cache file, or reads the cache
 * file back; `GraphSeries` extracts what the chart plots.
 *
 * The file system is an abstract `Store` holding the optional cache file
 * with its modification time; the clock is the parameter `now`; the feed
 * is a sequence of already-decoded records.
 */
module ProtonFlux {
  import opened Wrappers
  import opened EnergyLabel
  import opened FluxTable

  /** What `pickle.load` makes of the cache file. */
  datatype Snapshot =
    | Truncated                      // an empty file: EOFError, read as None
    | Pickled(value: Option<Table>)  // what `pickle.dump(self.data, ...)` wrote
    | Corrupt                        // any other unpickling failure: it propagates

  /** The cache file: its `st_mtime` and its contents. */
  datatype CacheFile = CacheFile(mtime: real, snapshot: Snapshot)

  /** A cache file this script wrote holds a dictionary, if anything. */
  ghost predicate WellFormedFile(f: CacheFile) {
    f.snapshot.Pickled? && f.snapshot.value.Some? ==> WellFormed(f.snapshot.value.value)
  }

  /** The cache path on disk: absent, or present with a modification time and contents. */
  class Store {
    var file: Option<CacheFile>

    ghost predicate Valid()
      reads this
    {
      file.Some? ==> WellFormedFile(file.value)
    }

    constructor(file: Option<CacheFile>)
      ensures this.file == file
    {
      this.file := file;
    }
  }

  /** What `readcache` makes of the cache file: the table, None, or the exception. */
  function Load(file: Option<CacheFile>): (r: Result<Option<Table>, FluxError>)
    ensures r.Err? <==> file.Some? && file.value.snapshot.Corrupt?
    ensures r.Ok? && r.value.Some? ==> file.Some? && file.value.snapshot == Pickled(r.value)
  {
    match file
    case None => Ok(None)
    case Some(f) =>
      match f.snapshot
      case Truncated => Ok(None)
      case Pickled(d) => Ok(d)
      case Corrupt => Err(CorruptCache)
  }

  /** What `writecache` stores, `readcache` gives back unchanged. */
  lemma WrittenSnapshotReadsBack(mtime: real, d: Option<Table>)
    ensures Load(Some(CacheFile(mtime, Pickled(d)))) == Ok(d)
  {
  }

  /** The outcome of `ProtonFlux(cache_file, cache_time)`: `self.data` or the exception, and the cache file afterwards. */
  datatype Opening = Opening(data: Result<Option<Table>, FluxError>, file: Option<CacheFile>)

  /** The cache file is missing or older than `cacheTime` at `now` (strictly). */
  predicate Stale(file: Option<CacheFile>, cacheTime: real, now: real) {
    file.None? || now - file.value.mtime > cacheTime
  }

  /**
   * The construction decision: a stale or missing cache triggers a download
   * and a write of the result (stamped `writeTime`); a fresh one is read.
   */
  function Construct(file: Option<CacheFile>, cacheTime: real, now: real, feed: seq<Record>, writeTime: real): (r: Opening)
    ensures !Stale(file, cacheTime, now) || r.data.Err? ==> r.file == file
    ensures r.file != file ==> r.data.Ok? && r.file == Some(CacheFile(writeTime, Pickled(r.data.value)))
    ensures Stale(file, cacheTime, now) && r.data.Ok? ==>
      r.data.value.Some? && r.file == Some(CacheFile(writeTime, Pickled(r.data.value)))
  {
    if Stale(file, cacheTime, now) then
      match Build(feed)
      case Ok(t) => Opening(Ok(Some(t)), Some(CacheFile(writeTime, Pickled(Some(t)))))
      case Err(e) => Opening(Err(e), file)
    else
      Opening(Load(file), file)
  }

  /** A cache whose age equals `cacheTime` exactly is still read, not refreshed. */
  lemma AgeAtTtlReadsCache(f: CacheFile, cacheTime: real, feed: seq<Record>, writeTime: real)
    ensures Construct(Some(f), cacheTime, f.mtime + cacheTime, feed, writeTime) == Opening(Load(Some(f)), Some(f))
  {
  }

  /**
   * Within the time-to-live nothing is downloaded: the outcome does not
   * depend on the feed and the cache file is left as it was.
   */
  lemma FreshCacheIgnoresFeed(f: CacheFile, cacheTime: real, now: real,
                              feed1: seq<Record>, writeTime1: real, feed2: seq<Record>, writeTime2: real)
    requires now - f.mtime <= cacheTime
    ensures Construct(Some(f), cacheTime, now, feed1, writeTime1) == Construct(Some(f), cacheTime, now, feed2, writeTime2)
    ensures Construct(Some(f), cacheTime, now, feed1, writeTime1).file == Some(f)
  {
  }

  /**
   * After a refresh, a later construction within the time-to-live of the
   * write reads back the same table and leaves the file alone, whatever the
   * feed says by then.
   */
  lemma RefreshedCacheIsReused(file: Option<CacheFile>, cacheTime: real, now: real, feed: seq<Record>, writeTime: real,
                               cacheTime2: real, now2: real, feed2: seq<Record>, writeTime2: real)
    requires Stale(file, cacheTime, now)
    requires Construct(file, cacheTime, now, feed, writeTime).data.Ok?
    requires now2 - writeTime <= cacheTime2
    ensures var first := Construct(file, cacheTime, now, feed, writeTime);
      Construct(first.file, cacheTime2, now2, feed2, writeTime2) == first
  {
  }

  /** The energy bands that `graph` plots, in order. */
  const PlotBands: seq<nat> := [10, 50, 100]

  /** What `graph` hands to the plotting calls: the x-axis, one series per plotted band, and `_max`. */
  datatype Plot = Plot(dates: seq<Instant>, series: seq<seq<real>>, peak: real)

  /** Every row of `t` has a reading for every plotted band. */
  ghost predicate HasPlotBands(t: Table)
    requires WellFormed(t)
  {
    forall i, b :: 0 <= i < |t.keys| && b in PlotBands ==> b in t.rows[t.keys[i]]
  }

  /**
   * `PlotBands[j]` is the band whose lookup raises KeyError first: some row
   * lacks it, and every row has the bands plotted before it.
   */
  ghost predicate FirstMissingBand(t: Table, j: int)
    requires WellFormed(t)
  {
    && 0 <= j < |PlotBands|
    && (exists i :: 0 <= i < |t.keys| && PlotBands[j] !in t.rows[t.keys[i]])
    && forall jj, i :: 0 <= jj < j && 0 <= i < |t.keys| ==> PlotBands[jj] in t.rows[t.keys[i]]
  }

  /** `column` holds the flux of `band` from every row, one entry per key, in key order. */
  ghost predicate IsColumn(t: Table, band: nat, column: seq<real>)
    requires WellFormed(t)
  {
    && |column| == |t.keys|
    && forall i :: 0 <= i < |t.keys| ==> band in t.rows[t.keys[i]] && column[i] == t.rows[t.keys[i]][band]
  }

  /** `peak` is the largest of 0 and every value of every series. */
  ghost predicate IsPeak(series: seq<seq<real>>, peak: real) {
    && 0.0 <= peak
    && (forall j, i :: 0 <= j < |series| && 0 <= i < |series[j]| ==> series[j][i] <= peak)
    && (peak == 0.0 || exists j, i :: 0 <= j < |series| && 0 <= i < |series[j]| && series[j][i] == peak)
  }

  /** `data.max()` of a non-empty array. */
  function SeqMax(s: seq<real>): (m: real)
    requires |s| > 0
    ensures forall i :: 0 <= i < |s| ==> s[i] <= m
    ensures exists i :: 0 <= i < |s| && s[i] == m
  {
    if |s| == 1 then s[0]
    else
      var rest := SeqMax(s[1..]);
      if s[0] >= rest then s[0] else rest
  }

  /** Folding each series' maximum into `_max` keeps it the peak of the series seen so far. */
  lemma PeakExtends(series: seq<seq<real>>, peak: real, column: seq<real>)
    requires IsPeak(series, peak) && |column| > 0
    ensures var m := SeqMax(column);
      IsPeak(series + [column], if m > peak then m else peak)
  {
    var m := SeqMax(column);
    var grown, next := series + [column], if m > peak then m else peak;
    assert forall j :: 0 <= j < |series| ==> grown[j] == series[j];
    if next != 0.0 {
      if next == m {
        var i :| 0 <= i < |column| && column[i] == m;
        assert grown[|series|][i] == next;
      } else {
        var j, i :| 0 <= j < |series| && 0 <= i < |series[j]| && series[j][i] == peak;
        assert grown[j][i] == next;
      }
    }
  }

  /** A table built from the feed always has the plotted bands (they are among the defaults). */
  lemma BuiltTableHasPlotBands(feed: seq<Record>)
    requires Build(feed).Ok?
    ensures WellFormed(Build(feed).value) && HasPlotBands(Build(feed).value)
  {
    BuildKeys(feed);
  }

  /** The first loop of `download`: a row of default bands for every timestamp of the feed. */
  method RowsPass(feed: seq<Record>) returns (keys: seq<Instant>, rows: map<Instant, Row>)
    ensures Table(keys, rows) == InitRows(feed)
  {
    keys, rows := [], map[];
    for i := 0 to |feed|
      invariant Table(keys, rows) == InitRows(feed[..i])
    {
      assert feed[..i + 1][..i] == feed[..i];
      var k := feed[i].timeTag;
      if k !in rows {
        keys := keys + [k];
      }
      rows := rows[k := DefaultRow];
    }
    assert feed[..|feed|] == feed;
  }

  /** The second loop of `download`: each record writes its flux over its cell. */
  method ReadingsPass(feed: seq<Record>, keys: seq<Instant>, rows: map<Instant, Row>)
    returns (r: Result<Table, FluxError>)
    requires TimeTags(feed) <= rows.Keys
    ensures r == Fill(Table(keys, rows), feed)
  {
    ghost var init := Table(keys, rows);
    var filled := rows;
    for i := 0 to |feed|
      invariant TimeTags(feed[..i]) <= init.rows.Keys
      invariant Fill(init, feed[..i]) == Ok(Table(keys, filled))
    {
      assert feed[..i + 1][..i] == feed[..i];
      TimeTagsOfPrefix(feed, i + 1);
      var energy := EnergyOf(feed[i].energy);
      if energy.None? {
        FillFailureSticks(init, feed, i + 1);
        return Err(BadEnergyLabel(feed[i].energy));
      }
      var row: Row := filled[feed[i].timeTag][energy.value := feed[i].flux];
      filled := filled[feed[i].timeTag := row];
    }
    assert feed[..|feed|] == feed;
    r := Ok(Table(keys, filled));
  }

  /** The series of one band over the rows in key order, or the KeyError of a row without `band`. */
  method BandSeries(t: Table, band: nat) returns (r: Result<seq<real>, FluxError>)
    requires WellFormed(t)
    ensures r.Ok? <==> forall i :: 0 <= i < |t.keys| ==> band in t.rows[t.keys[i]]
    ensures r.Ok? ==> IsColumn(t, band, r.value)
    ensures r.Err? ==> r.error == MissingBand(band)
  {
    var column: seq<real> := [];
    for i := 0 to |t.keys|
      invariant |column| == i
      invariant forall ii :: 0 <= ii < i ==> band in t.rows[t.keys[ii]] && column[ii] == t.rows[t.keys[ii]][band]
    {
      var row := t.rows[t.keys[i]];
      if band !in row {
        return Err(MissingBand(band));
      }
      column := column + [row[band]];
    }
    r := Ok(column);
  }

  class ProtonFlux {
    const cacheFile: Store
    var data: Option<Table>

    ghost predicate Valid()
      reads this, cacheFile
    {
      && (data.Some? ==> WellFormed(data.value))
      && cacheFile.Valid()
    }

    /** The part of `__init__` before the cache decision: `self.data = None`. */
    constructor(cacheFile: Store)
      requires cacheFile.Valid()
      ensures this.cacheFile == cacheFile && data == None && Valid()
    {
      this.cacheFile := cacheFile;
      data := None;
    }

    /**
     * `download`: builds the table from the feed in two passes and assigns
     * it to `data`; a label that `get_e` rejects raises before anything is
     * assigned.
     */
    method Download(feed: seq<Record>) returns (err: Option<FluxError>)
      requires Valid()
      modifies this
      ensures Valid()
      ensures Build(feed).Ok? ==> err == None && data == Some(Build(feed).value)
      ensures Build(feed).Err? ==> err == Some(Build(feed).error) && data == old(data)
    {
      var keys, rows := RowsPass(feed);
      var built := ReadingsPass(feed, keys, rows);
      match built
      case Err(e) =>
        err := Some(e);
      case Ok(t) =>
        BuildKeys(feed);
        data := Some(t);
        err := None;
    }

    /**
     * `readcache`: a missing or empty cache file gives None; a pickled value
     * is read back as it was written; any other unpickling failure raises.
     */
    method ReadCache() returns (err: Option<FluxError>)
      requires Valid()
      modifies this
      ensures Valid()
      ensures cacheFile.file.None? || cacheFile.file.value.snapshot.Truncated? ==> err == None && data == None
      ensures cacheFile.file.Some? && cacheFile.file.value.snapshot.Pickled? ==>
        err == None && data == cacheFile.file.value.snapshot.value
      ensures cacheFile.file.Some? && cacheFile.file.value.snapshot.Corrupt? ==>
        err == Some(CorruptCache) && data == old(data)
    {
      match Load(cacheFile.file)
      case Ok(d) =>
        data := d;
        err := None;
      case Err(e) =>
        err := Some(e);
    }

    /** `writecache`: the cache file now holds `data`, stamped with the time of the write. */
    method WriteCache(writeTime: real)
      requires Valid()
      modifies cacheFile
      ensures Valid()
      ensures cacheFile.file == Some(CacheFile(writeTime, Pickled(data)))
    {
      cacheFile.file := Some(CacheFile(writeTime, Pickled(data)));
    }

    /**
     * `ProtonFlux(cache_file, cache_time)`. A missing cache file, or one
     * whose age at `now` exceeds `cacheTime`, makes it download and then
     * write the cache; otherwise it reads the cache. An exception from
     * either path is the `Err` result: no object is made.
     */
    static method Open(cacheFile: Store, cacheTime: real, now: real, feed: seq<Record>, writeTime: real)
      returns (r: Result<ProtonFlux, FluxError>)
      requires cacheFile.Valid()
      modifies cacheFile
      ensures cacheFile.Valid()
      ensures r.Ok? ==> fresh(r.value) && r.value.cacheFile == cacheFile && r.value.Valid()
      ensures Stale(old(cacheFile.file), cacheTime, now) ==>
        if Build(feed).Ok? then
          && r.Ok? && r.value.data == Some(Build(feed).value)
          && cacheFile.file == Some(CacheFile(writeTime, Pickled(Some(Build(feed).value))))
        else
          r == Err(Build(feed).error) && cacheFile.file == old(cacheFile.file)
      ensures !Stale(old(cacheFile.file), cacheTime, now) ==> cacheFile.file == old(cacheFile.file)
      ensures Construct(old(cacheFile.file), cacheTime, now, feed, writeTime)
        == Opening(if r.Ok? then Ok(r.value.data) else Err(r.error), cacheFile.file)
    {
      var p := new ProtonFlux(cacheFile);
      var f := cacheFile.file;
      if Stale(f, cacheTime, now) {
        var err := p.Download(feed);
        if err.Some? {
          return Err(err.value);
        }
        p.WriteCache(writeTime);
      } else {
        var err := p.ReadCache();
        if err.Some? {
          return Err(err.value);
        }
      }
      r := Ok(p);
    }

    /**
     * The data side of `graph`: the dates are the table's keys, and for
     * each of the bands 10, 50 and 100 the series holds that band's flux
     * for every key, in key order, so the three series share the x-axis;
     * `peak` is `_max`, the largest value of the three series (and at least
     * the 0 it starts from). `data` being None, a row without one of the
     * bands, or an empty table raise instead.
     */
    method GraphSeries() returns (r: Result<Plot, FluxError>)
      requires Valid()
      ensures data.None? ==> r == Err(NoTable)
      ensures data.Some? && data.value.keys == [] ==> r == Err(EmptyTable)
      ensures r.Ok? <==> data.Some? && data.value.keys != [] && HasPlotBands(data.value)
      ensures data.Some? && data.value.keys != [] && !HasPlotBands(data.value) ==> r.Err? && r.error.MissingBand?
      ensures r.Err? && r.error.MissingBand? ==>
        data.Some? && exists j :: FirstMissingBand(data.value, j) && r.error.band == PlotBands[j]
      ensures r.Ok? ==>
        && r.value.dates == data.value.keys
        && |r.value.series| == |PlotBands|
        && (forall j :: 0 <= j < |PlotBands| ==> IsColumn(data.value, PlotBands[j], r.value.series[j]))
        && IsPeak(r.value.series, r.value.peak)
    {
      if data.None? {
        return Err(NoTable);
      }
      var t := data.value;
      var series: seq<seq<real>> := [];
      var peak: real := 0.0;
      for j := 0 to |PlotBands|
        invariant |series| == j
        invariant forall jj :: 0 <= jj < j ==> IsColumn(t, PlotBands[jj], series[jj])
        invariant j > 0 ==> t.keys != []
        invariant IsPeak(series, peak)
      {
        var band := PlotBands[j];
        var extracted := BandSeries(t, band);
        if extracted.Err? {
          assert band in PlotBands && !HasPlotBands(t);
          forall jj, i | 0 <= jj < j && 0 <= i < |t.keys| ensures PlotBands[jj] in t.rows[t.keys[i]] {
            assert IsColumn(t, PlotBands[jj], series[jj]);
          }
          assert FirstMissingBand(t, j);
          return Err(extracted.error);
        }
        var column := extracted.value;
        if column == [] {
          return Err(EmptyTable);
        }
        var m := SeqMax(column);
        PeakExtends(series, peak, column);
        series := series + [column];
        peak := if m > peak then m else peak;
      }
      r := Ok(Plot(t.keys, series, peak));
    }
  }
}
