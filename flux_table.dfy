/**
 * The per-timestamp band table that `ProtonFlux.download` builds from the
 * feed, stated as functions over the already-parsed records. `InitRows`
 * is the first loop (every timestamp gets the eight bands set to 0.0),
 * `Fill` the second (each record writes its flux into its row), and
 * `Build` the two together.
 */
module FluxTable {
  import opened Wrappers
  import opened EnergyLabel

  /** A parsed `time_tag`; only compared and used as a dictionary key. */
  type Instant = int

  /** One element of the feed after JSON decoding: `time_tag`, `energy`, `flux`. */
  datatype Record = Record(timeTag: Instant, energy: string, flux: real)

  /** One row of the table: energy band (MeV) to flux. */
  type Row = map<nat, real>

  /**
   * The dictionary `data`: `keys` is its iteration order (insertion order
   * in Python), `rows` its contents.
   */
  datatype Table = Table(keys: seq<Instant>, rows: map<Instant, Row>)

  /** The exceptions the script raises while building, caching or plotting the table. */
  datatype FluxError =
    | BadEnergyLabel(field: string)  // `int(None)` in `download`
    | CorruptCache                   // an unpickling error other than EOFError
    | NoTable                        // `self.data` is None in `graph`
    | MissingBand(band: nat)         // KeyError in the series comprehension of `graph`
    | EmptyTable                     // `max()` of an empty array in `graph`

  /** The bands every row starts with. */
  const Bands: seq<nat> := [1, 10, 100, 30, 5, 50, 500, 60]

  /** The row every timestamp starts with: each default band at 0.0. */
  const DefaultRow: Row := map b | b in Bands :: 0.0

  /** A dictionary: its order lists each key exactly once. */
  ghost predicate WellFormed(t: Table) {
    && (forall i, j :: 0 <= i < j < |t.keys| ==> t.keys[i] != t.keys[j])
    && (forall i :: 0 <= i < |t.keys| ==> t.keys[i] in t.rows)
    && (forall k :: k in t.rows ==> k in t.keys)
  }

  /** Some record of `feed` carries timestamp `k`. */
  ghost predicate Stamped(feed: seq<Record>, k: Instant) {
    exists i :: 0 <= i < |feed| && feed[i].timeTag == k
  }

  /** The set of timestamps of `feed`. */
  function TimeTags(feed: seq<Record>): (tags: set<Instant>)
    ensures forall i :: 0 <= i < |feed| ==> feed[i].timeTag in tags
  {
    if feed == [] then {}
    else
      var prefix := feed[..|feed| - 1];
      assert forall i :: 0 <= i < |prefix| ==> prefix[i] == feed[i];
      TimeTags(prefix) + {feed[|feed| - 1].timeTag}
  }

  lemma {:induction false} TimeTagsStamped(feed: seq<Record>, k: Instant)
    ensures k in TimeTags(feed) <==> Stamped(feed, k)
  {
    if feed != [] {
      var prefix := feed[..|feed| - 1];
      TimeTagsStamped(prefix, k);
      if Stamped(prefix, k) {
        var i :| 0 <= i < |prefix| && prefix[i].timeTag == k;
        assert feed[i] == prefix[i];
      }
      if Stamped(feed, k) && k != feed[|feed| - 1].timeTag {
        var i :| 0 <= i < |feed| && feed[i].timeTag == k;
        assert prefix[i] == feed[i];
      }
    }
  }

  /** A prefix of the feed carries no timestamp the whole feed lacks. */
  lemma {:induction false} TimeTagsOfPrefix(feed: seq<Record>, n: nat)
    requires n <= |feed|
    ensures TimeTags(feed[..n]) <= TimeTags(feed)
  {
    if n < |feed| {
      var prefix := feed[..|feed| - 1];
      assert feed[..n] == prefix[..n];
      TimeTagsOfPrefix(prefix, n);
    } else {
      assert feed[..n] == feed;
    }
  }

  /** The first loop of `download`, over the records `feed`. */
  function InitRows(feed: seq<Record>): (t: Table)
    ensures WellFormed(t)
    ensures t.rows.Keys == TimeTags(feed)
    ensures forall k :: k in t.rows ==> t.rows[k] == DefaultRow
  {
    if feed == [] then Table([], map[])
    else
      var t := InitRows(feed[..|feed| - 1]);
      var k := feed[|feed| - 1].timeTag;
      var u := Table(if k in t.rows then t.keys else t.keys + [k], t.rows[k := DefaultRow]);
      assert WellFormed(u) by {
        if k !in t.rows {
          assert forall i :: 0 <= i < |t.keys| ==> u.keys[i] == t.keys[i] && t.keys[i] != k;
        }
      }
      u
  }

  /** `p` is the index of the first record of `feed` that carries timestamp `k`. */
  ghost predicate FirstAt(feed: seq<Record>, k: Instant, p: int) {
    && 0 <= p < |feed| && feed[p].timeTag == k
    && forall q :: 0 <= q < p ==> feed[q].timeTag != k
  }

  /** `keys` lists timestamps in the order in which they first appear in `feed`. */
  ghost predicate InFirstSeenOrder(keys: seq<Instant>, feed: seq<Record>) {
    forall i, j, p, q :: 0 <= i < j < |keys| && FirstAt(feed, keys[i], p) && FirstAt(feed, keys[j], q) ==> p < q
  }

  /** A timestamp already carried by `prefix` first appears inside it. */
  lemma FirstAtInPrefix(feed: seq<Record>, n: nat, k: Instant, p: int)
    requires n <= |feed| && Stamped(feed[..n], k) && FirstAt(feed, k, p)
    ensures p < n && FirstAt(feed[..n], k, p)
  {
    var i :| 0 <= i < n && feed[..n][i].timeTag == k;
    assert feed[i].timeTag == k;
  }

  /**
   * The dictionary built by the first loop lists the timestamps in the
   * order of their first appearance in the feed: insertion order, not
   * sorted order.
   */
  lemma {:induction false} InitRowsFirstSeenOrder(feed: seq<Record>)
    ensures InFirstSeenOrder(InitRows(feed).keys, feed)
  {
    if feed != [] {
      var n := |feed| - 1;
      var prefix := feed[..n];
      var t := InitRows(prefix);
      var k := feed[n].timeTag;
      var keys := InitRows(feed).keys;
      InitRowsFirstSeenOrder(prefix);
      forall i, j, p, q | 0 <= i < j < |keys| && FirstAt(feed, keys[i], p) && FirstAt(feed, keys[j], q)
        ensures p < q
      {
        TimeTagsStamped(prefix, keys[i]);
        FirstAtInPrefix(feed, n, keys[i], p);
        if j < |t.keys| {
          TimeTagsStamped(prefix, keys[j]);
          FirstAtInPrefix(feed, n, keys[j], q);
        } else {
          TimeTagsStamped(prefix, k);
        }
      }
    }
  }

  /** Writes `flux` into band `e` of the row for `k`; every other cell is kept. */
  function SetCell(t: Table, k: Instant, e: nat, flux: real): (r: Table)
    requires k in t.rows
    ensures r.keys == t.keys && r.rows.Keys == t.rows.Keys
    ensures e in r.rows[k] && r.rows[k][e] == flux
    ensures forall k', e' :: k' in t.rows && (k' != k || e' != e) ==>
      (e' in r.rows[k'] <==> e' in t.rows[k']) && (e' in t.rows[k'] ==> r.rows[k'][e'] == t.rows[k'][e'])
  {
    var row: Row := t.rows[k][e := flux];
    Table(t.keys, t.rows[k := row])
  }

  /**
   * The second loop of `download`, over the records `feed`, starting from
   * the table `t`; the first record whose label does not parse stops it.
   */
  function Fill(t: Table, feed: seq<Record>): (r: Result<Table, FluxError>)
    requires TimeTags(feed) <= t.rows.Keys
    ensures r.Ok? ==> r.value.keys == t.keys && r.value.rows.Keys == t.rows.Keys
    ensures r.Ok? ==> forall k :: k in t.rows ==> t.rows[k].Keys <= r.value.rows[k].Keys
  {
    if feed == [] then Ok(t)
    else
      var last := feed[|feed| - 1];
      match Fill(t, feed[..|feed| - 1])
      case Err(err) => Err(err)
      case Ok(u) =>
        match EnergyOf(last.energy)
        case None => Err(BadEnergyLabel(last.energy))
        case Some(e) => Ok(SetCell(u, last.timeTag, e, last.flux))
  }

  /** Once a prefix of the records has failed, the whole pass fails with the same error. */
  lemma {:induction false} FillFailureSticks(t: Table, feed: seq<Record>, n: nat)
    requires TimeTags(feed) <= t.rows.Keys && n <= |feed|
    requires TimeTags(feed[..n]) <= t.rows.Keys
    requires Fill(t, feed[..n]).Err?
    ensures Fill(t, feed) == Fill(t, feed[..n])
  {
    if n < |feed| {
      var prefix := feed[..|feed| - 1];
      assert feed[..n] == prefix[..n];
      FillFailureSticks(t, prefix, n);
    } else {
      assert feed[..n] == feed;
    }
  }

  /** The table `download` assigns to `self.data`, or the exception it raises. */
  function Build(feed: seq<Record>): (r: Result<Table, FluxError>)
    ensures r.Ok? ==> WellFormed(r.value) && r.value.rows.Keys == TimeTags(feed)
    ensures r.Ok? ==> forall k, b :: k in r.value.rows && b in Bands ==> b in r.value.rows[k]
  {
    Fill(InitRows(feed), feed)
  }

  /**
   * The keys of a built table are exactly the distinct timestamps of the
   * feed, each once, and every row holds at least the eight default bands.
   */
  lemma BuildKeys(feed: seq<Record>)
    requires Build(feed).Ok?
    ensures WellFormed(Build(feed).value)
    ensures forall k :: k in Build(feed).value.rows <==> Stamped(feed, k)
    ensures forall k, b :: k in Build(feed).value.rows && b in Bands ==> b in Build(feed).value.rows[k]
    ensures InFirstSeenOrder(Build(feed).value.keys, feed)
  {
    InitRowsFirstSeenOrder(feed);
    forall k ensures k in Build(feed).value.rows <==> Stamped(feed, k) {
      TimeTagsStamped(feed, k);
    }
  }

  /** A cell that no record of `feed` writes keeps what `t` had there. */
  lemma {:induction false} FillKeepsUnwritten(t: Table, feed: seq<Record>, k: Instant, e: nat)
    requires TimeTags(feed) <= t.rows.Keys
    requires Fill(t, feed).Ok? && k in t.rows
    requires forall i :: 0 <= i < |feed| && feed[i].timeTag == k ==> EnergyOf(feed[i].energy) != Some(e)
    ensures var u := Fill(t, feed).value.rows[k];
      (e in u <==> e in t.rows[k]) && (e in u ==> u[e] == t.rows[k][e])
  {
    if feed != [] {
      var prefix := feed[..|feed| - 1];
      FillKeepsUnwritten(t, prefix, k, e);
    }
  }

  /** The record at index `i` decides its cell unless a later record writes the same cell. */
  lemma {:induction false} FillLastWins(t: Table, feed: seq<Record>, i: nat)
    requires TimeTags(feed) <= t.rows.Keys
    requires Fill(t, feed).Ok? && i < |feed|
    requires forall j :: i < j < |feed| ==>
      feed[j].timeTag != feed[i].timeTag || EnergyOf(feed[j].energy) != EnergyOf(feed[i].energy)
    ensures EnergyOf(feed[i].energy).Some?
    ensures var u := Fill(t, feed).value.rows[feed[i].timeTag];
      EnergyOf(feed[i].energy).value in u && u[EnergyOf(feed[i].energy).value] == feed[i].flux
  {
    var prefix := feed[..|feed| - 1];
    if i < |feed| - 1 {
      FillLastWins(t, prefix, i);
    }
  }

  /**
   * For duplicate (timestamp, band) pairs the last record wins: the cell
   * holds the flux of the record at `i` when no later record writes it.
   */
  lemma LastRecordWins(feed: seq<Record>, i: nat)
    requires Build(feed).Ok? && i < |feed|
    requires forall j :: i < j < |feed| ==>
      feed[j].timeTag != feed[i].timeTag || EnergyOf(feed[j].energy) != EnergyOf(feed[i].energy)
    ensures EnergyOf(feed[i].energy).Some?
    ensures var u := Build(feed).value.rows[feed[i].timeTag];
      EnergyOf(feed[i].energy).value in u && u[EnergyOf(feed[i].energy).value] == feed[i].flux
  {
    FillLastWins(InitRows(feed), feed, i);
  }

  /**
   * A cell that no record writes: one of the eight default bands reads
   * 0.0, and any other band is absent from the row.
   */
  lemma UnreadBandIsZero(feed: seq<Record>, k: Instant, e: nat)
    requires Build(feed).Ok? && k in Build(feed).value.rows
    requires forall i :: 0 <= i < |feed| && feed[i].timeTag == k ==> EnergyOf(feed[i].energy) != Some(e)
    ensures var u := Build(feed).value.rows[k];
      (e in u <==> e in Bands) && (e in u ==> u[e] == 0.0)
  {
    FillKeepsUnwritten(InitRows(feed), feed, k, e);
  }

  /** Record `i` is the first one of `feed` whose label `get_e` rejects. */
  ghost predicate FirstBadLabel(feed: seq<Record>, i: int) {
    && 0 <= i < |feed|
    && EnergyOf(feed[i].energy).None?
    && forall j :: 0 <= j < i ==> EnergyOf(feed[j].energy).Some?
  }

  /** `Fill` fails exactly when some record's label does not parse. */
  lemma {:induction false} FillFailsOnBadLabel(t: Table, feed: seq<Record>)
    requires TimeTags(feed) <= t.rows.Keys
    ensures Fill(t, feed).Err? <==> exists i :: 0 <= i < |feed| && EnergyOf(feed[i].energy).None?
  {
    if feed != [] {
      var prefix, last := feed[..|feed| - 1], feed[|feed| - 1];
      FillFailsOnBadLabel(t, prefix);
      if Fill(t, prefix).Err? {
        var i :| 0 <= i < |prefix| && EnergyOf(prefix[i].energy).None?;
        assert feed[i] == prefix[i];
      } else if EnergyOf(last.energy).Some? {
        forall i | 0 <= i < |feed| ensures EnergyOf(feed[i].energy).Some? {
          if i < |prefix| { assert feed[i] == prefix[i]; }
        }
      }
    }
  }

  /** When `Fill` fails, the error names the label of the first record that does not parse. */
  lemma {:induction false} FillErrorNamesFirstBadLabel(t: Table, feed: seq<Record>)
    requires TimeTags(feed) <= t.rows.Keys
    requires Fill(t, feed).Err?
    ensures exists i :: FirstBadLabel(feed, i) && Fill(t, feed).error == BadEnergyLabel(feed[i].energy)
  {
    var prefix, last := feed[..|feed| - 1], feed[|feed| - 1];
    if Fill(t, prefix).Err? {
      FillErrorNamesFirstBadLabel(t, prefix);
      var i :| FirstBadLabel(prefix, i) && Fill(t, prefix).error == BadEnergyLabel(prefix[i].energy);
      assert FirstBadLabel(feed, i);
    } else {
      FillFailsOnBadLabel(t, prefix);
      assert EnergyOf(last.energy).None? && Fill(t, feed).error == BadEnergyLabel(last.energy);
      forall j | 0 <= j < |prefix| ensures EnergyOf(feed[j].energy).Some? {
        assert feed[j] == prefix[j];
      }
      assert FirstBadLabel(feed, |feed| - 1);
    }
  }

  /**
   * `download` raises exactly when some record's label fails `get_e`,
   * naming the first such label; otherwise it yields a table.
   */
  lemma BuildFailsOnBadLabel(feed: seq<Record>)
    ensures Build(feed).Err? <==> exists i :: 0 <= i < |feed| && EnergyOf(feed[i].energy).None?
    ensures Build(feed).Err? ==>
      exists i :: FirstBadLabel(feed, i) && Build(feed).error == BadEnergyLabel(feed[i].energy)
  {
    FillFailsOnBadLabel(InitRows(feed), feed);
    if Build(feed).Err? {
      FillErrorNamesFirstBadLabel(InitRows(feed), feed);
    }
  }

  /** The record at `i` being the first with a rejected label, `download` raises on its label. */
  lemma BuildErrorAt(feed: seq<Record>, i: nat)
    requires FirstBadLabel(feed, i)
    ensures Build(feed) == Err(BadEnergyLabel(feed[i].energy))
  {
    BuildFailsOnBadLabel(feed);
    var k :| FirstBadLabel(feed, k) && Build(feed).error == BadEnergyLabel(feed[k].energy);
  }
}
