/**
 * The load-progress bookkeeping of src/src_3d/AssetsTrackerLoader.js: the
 * per-asset record `_Object` and the tracker's sets and totals. The loaders,
 * the network and the `dispose` calls are not modelled; a loaded asset is an
 * opaque `Resource`.
 */
module AssetsTracker {
  import opened Wrappers

  /** The size assumed for an asset before its loader reports one: 1 MiB. */
  const DefaultSize: real := 1048576.0

  /** A loaded asset (a texture, a model), known only by identity. */
  datatype Resource = Resource(id: nat)

  /** A JavaScript quotient: a real number, or the NaN or Infinity that division by zero gives. */
  datatype Quotient = Exact(value: real) | NotFinite

  function Ratio(a: real, b: real): (q: Quotient)
    ensures q.NotFinite? <==> b == 0.0
    ensures q.Exact? ==> q.value * b == a
  {
    if b == 0.0 then NotFinite else Exact(a / b)
  }

  /** The numeric state of one asset record. */
  datatype LoadState = LoadState(loaded: real, total: real, progress: Quotient, isLoaded: bool)

  /**
   * `setLoaded(loaded, total)` on a state: an argument that is `undefined`
   * (`None`) leaves its field as it was; the record becomes loaded once
   * `loaded >= total` and is never unloaded; the progress is recomputed.
   */
  function SetLoadedStep(s: LoadState, loaded: Option<real>, total: Option<real>): (r: LoadState)
    ensures r.loaded == (if loaded.Some? then loaded.value else s.loaded)
    ensures r.total == (if total.Some? then total.value else s.total)
    ensures r.isLoaded <==> s.isLoaded || r.loaded >= r.total
    ensures r.progress == Ratio(r.loaded, r.total)
  {
    var newLoaded := if loaded.Some? then loaded.value else s.loaded;
    var newTotal := if total.Some? then total.value else s.total;
    LoadState(newLoaded, newTotal, Ratio(newLoaded, newTotal), s.isLoaded || newLoaded >= newTotal)
  }

  /** A progress report from a loader: the `{loaded, total}` pair, either part possibly missing. */
  datatype Report = Report(loaded: Option<real>, total: Option<real>)

  /** The state after a sequence of reports, applied in order. */
  function Replay(s: LoadState, reports: seq<Report>): LoadState
  {
    if |reports| == 0 then s
    else
      var last := reports[|reports| - 1];
      SetLoadedStep(Replay(s, reports[..|reports| - 1]), last.loaded, last.total)
  }

  /** Once loaded, a record stays loaded whatever reports follow. */
  lemma {:induction false} LoadedIsSticky(s: LoadState, reports: seq<Report>)
    requires s.isLoaded
    ensures Replay(s, reports).isLoaded
  {
    if |reports| > 0 {
      LoadedIsSticky(s, reports[..|reports| - 1]);
    }
  }

  /** After any report that brings `loaded` up to `total`, the record is loaded for good. */
  lemma {:induction false} LoadedAfterCompletion(s: LoadState, before: seq<Report>, done: Report, after: seq<Report>)
    requires var t := Replay(s, before);
      (if done.loaded.Some? then done.loaded.value else t.loaded) >= (if done.total.Some? then done.total.value else t.total)
    ensures Replay(s, before + [done] + after).isLoaded
  {
    if |after| == 0 {
      assert before + [done] + after == before + [done];
      assert (before + [done])[..|before + [done]| - 1] == before;
    } else {
      var whole := before + [done] + after;
      assert whole[..|whole| - 1] == before + [done] + after[..|after| - 1];
      LoadedAfterCompletion(s, before, done, after[..|after| - 1]);
    }
  }

  /** A load record: `_Object`. */
  class LoadRecord {
    var asset: Option<Resource>
    var total: real
    var loaded: real
    var progress: Quotient
    var isLoaded: bool

    function State(): LoadState
      reads this
    {
      LoadState(loaded, total, progress, isLoaded)
    }

    /** `new _Object(asset, total)`: nothing loaded yet; a missing size defaults to 1 MiB. */
    constructor(asset: Option<Resource>, total: Option<real>)
      ensures this.asset == asset
      ensures State() == LoadState(0.0, if total.Some? then total.value else DefaultSize, Exact(0.0), false)
    {
      this.asset := asset;
      this.total := if total.Some? then total.value else DefaultSize;
      loaded := 0.0;
      progress := Exact(0.0);
      isLoaded := false;
    }

    method SetLoaded(loaded: Option<real>, total: Option<real>)
      modifies this
      ensures State() == SetLoadedStep(old(State()), loaded, total)
      ensures asset == old(asset)
    {
      if loaded.Some? {
        this.loaded := loaded.value;
      }
      if total.Some? {
        this.total := total.value;
      }
      if this.loaded >= this.total {
        isLoaded := true;
      }
      progress := Ratio(this.loaded, this.total);
    }

    /** `setFullyLoaded`: reports the whole size as loaded. */
    method SetFullyLoaded()
      modifies this
      ensures State() == SetLoadedStep(old(State()), Some(old(total)), None)
      ensures asset == old(asset)
    {
      SetLoaded(Some(total), None);
    }
  }

  /** After `setFullyLoaded` a record holds `loaded == total`, is loaded, and shows progress 1 unless its size is 0. */
  lemma FullyLoaded(s: LoadState)
    ensures var r := SetLoadedStep(s, Some(s.total), None);
      && r.loaded == r.total == s.total
      && r.isLoaded
      && (s.total != 0.0 ==> r.progress == Exact(1.0))
  {
    if s.total != 0.0 {
      assert s.total / s.total == 1.0;
    }
  }

  // ---------------------------------------------------------------------------
  // The tracker

  /** `Σ total` over the records, in order. */
  function SumTotal(records: seq<LoadRecord>): real
    reads set r | r in records
  {
    if |records| == 0 then 0.0
    else SumTotal(records[..|records| - 1]) + records[|records| - 1].total
  }

  /** `Σ loaded` over the records, in order. */
  function SumLoaded(records: seq<LoadRecord>): real
    reads set r | r in records
  {
    if |records| == 0 then 0.0
    else SumLoaded(records[..|records| - 1]) + records[|records| - 1].loaded
  }

  /** When every record is completely loaded, the two sums agree. */
  lemma {:induction false} SumsAgreeWhenAllLoaded(records: seq<LoadRecord>)
    requires forall i :: 0 <= i < |records| ==> records[i].loaded == records[i].total
    ensures SumLoaded(records) == SumTotal(records)
  {
    if |records| > 0 {
      SumsAgreeWhenAllLoaded(records[..|records| - 1]);
    }
  }

  /** The tracker, `_AssetsTrackerLoaderClass`. */
  class Tracker {
    /** The records of started loads; a JavaScript `Set`, so without repeats. */
    var loadedObjects: seq<LoadRecord>
    /** The assets handed to `track`; `None` stands for `undefined`. */
    var trackedObjects: set<Option<Resource>>
    var totalSize: real
    var totalLoaded: real
    var totalProgress: Quotient

    ghost predicate Valid()
      reads this
    {
      forall i, j :: 0 <= i < j < |loadedObjects| ==> loadedObjects[i] != loadedObjects[j]
    }

    constructor()
      ensures Valid()
      ensures loadedObjects == [] && trackedObjects == {}
      ensures totalSize == 0.0 && totalLoaded == 0.0 && totalProgress == Exact(0.0)
    {
      loadedObjects := [];
      trackedObjects := {};
      totalSize := 0.0;
      totalLoaded := 0.0;
      totalProgress := Exact(0.0);
    }

    /** The bookkeeping `load` does before it starts the loader: a fresh record joins the set. */
    method BeginLoad() returns (record: LoadRecord)
      requires Valid()
      modifies this
      ensures Valid() && fresh(record)
      ensures record.State() == LoadState(0.0, DefaultSize, Exact(0.0), false) && record.asset == None
      ensures loadedObjects == old(loadedObjects) + [record]
      ensures trackedObjects == old(trackedObjects)
      ensures totalSize == old(totalSize) && totalLoaded == old(totalLoaded) && totalProgress == old(totalProgress)
    {
      record := new LoadRecord(None, None);
      loadedObjects := loadedObjects + [record];
    }

    /**
     * The loader's progress callback: update the record, then the totals. The
     * record need not be among `loadedObjects` any more: `disposeAll` may have
     * cleared them while the load was in flight.
     */
    method OnProgress(record: LoadRecord, loaded: Option<real>, total: Option<real>)
      requires Valid()
      modifies this, record
      ensures Valid() && loadedObjects == old(loadedObjects) && trackedObjects == old(trackedObjects)
      ensures record.State() == SetLoadedStep(old(record.State()), loaded, total)
      ensures record.asset == old(record.asset)
      ensures totalSize == SumTotal(loadedObjects) && totalLoaded == SumLoaded(loadedObjects)
      ensures totalProgress == Ratio(totalLoaded, totalSize)
    {
      record.SetLoaded(loaded, total);
      UpdateTotalLoadedProgress();
    }

    /**
     * The loader's completion callback: the record is fully loaded and holds
     * the asset, whether or not it is still among `loadedObjects`.
     */
    method OnLoad(record: LoadRecord, value: Resource)
      requires Valid()
      modifies record
      ensures record.State() == SetLoadedStep(old(record.State()), Some(old(record.total)), None)
      ensures record.asset == Some(value)
    {
      record.SetFullyLoaded();
      record.asset := Some(value);
    }

    /** `track(asset)`: remembers the asset for disposal and hands it back. */
    method Track(asset: Option<Resource>) returns (r: Option<Resource>)
      modifies this
      ensures r == asset
      ensures trackedObjects == old(trackedObjects) + {asset}
      ensures loadedObjects == old(loadedObjects)
      ensures totalSize == old(totalSize) && totalLoaded == old(totalLoaded) && totalProgress == old(totalProgress)
    {
      trackedObjects := trackedObjects + {asset};
      return asset;
    }

    /**
     * `trackArray(assets)`: spreads the array into `Set.add`, which takes one
     * argument, so only the first asset is remembered (`undefined` for an
     * empty array). The whole array is handed back.
     */
    method TrackArray(assets: seq<Option<Resource>>) returns (r: seq<Option<Resource>>)
      modifies this
      ensures r == assets
      ensures trackedObjects == old(trackedObjects) + {if |assets| > 0 then assets[0] else None}
      ensures loadedObjects == old(loadedObjects)
      ensures totalSize == old(totalSize) && totalLoaded == old(totalLoaded) && totalProgress == old(totalProgress)
    {
      var first := if |assets| > 0 then assets[0] else None;
      trackedObjects := trackedObjects + {first};
      return assets;
    }

    /** `disposeAll`: forgets everything and reports the (empty) load as complete. */
    method DisposeAll()
      modifies this
      ensures Valid()
      ensures loadedObjects == [] && trackedObjects == {}
      ensures totalLoaded == 0.0 && totalSize == 0.0 && totalProgress == Exact(1.0)
    {
      loadedObjects := [];
      trackedObjects := {};
      totalLoaded := 0.0;
      totalSize := 0.0;
      totalProgress := Exact(1.0);
    }

    /** `getObjects`: the assets of all records (`undefined` for records still loading). */
    method GetObjects() returns (assets: set<Option<Resource>>)
      ensures assets == set r | r in loadedObjects :: r.asset
    {
      assets := {};
      var i := 0;
      while i < |loadedObjects|
        invariant 0 <= i <= |loadedObjects|
        invariant assets == set j | 0 <= j < i :: loadedObjects[j].asset
      {
        assets := assets + {loadedObjects[i].asset};
        i := i + 1;
      }
      assert forall r :: r in loadedObjects ==> exists j :: 0 <= j < |loadedObjects| && loadedObjects[j] == r;
    }

    /** `_updateTotalLoadedProgress`: the totals over all records, and their ratio. */
    method UpdateTotalLoadedProgress()
      modifies this
      ensures loadedObjects == old(loadedObjects) && trackedObjects == old(trackedObjects)
      ensures totalSize == SumTotal(loadedObjects) && totalLoaded == SumLoaded(loadedObjects)
      ensures totalProgress == Ratio(totalLoaded, totalSize)
      ensures ((forall i :: 0 <= i < |loadedObjects| ==> loadedObjects[i].loaded == loadedObjects[i].total)
               && totalSize != 0.0)
        ==> totalProgress == Exact(1.0)
    {
      // The running sums are kept in locals; the fields get their final values.
      var size, loaded := 0.0, 0.0;
      var records := loadedObjects;
      var i := 0;
      while i < |records|
        invariant 0 <= i <= |records|
        invariant size == SumTotal(records[..i]) && loaded == SumLoaded(records[..i])
      {
        assert records[..i + 1][..i] == records[..i];
        size := size + records[i].total;
        loaded := loaded + records[i].loaded;
        i := i + 1;
      }
      assert records[..i] == records;
      totalSize, totalLoaded := size, loaded;
      totalProgress := Ratio(totalLoaded, totalSize);
      if (forall k :: 0 <= k < |records| ==> records[k].loaded == records[k].total) && size != 0.0 {
        AllLoadedMeansComplete(records);
      }
    }
  }

  /** Once every record is completely loaded and the sizes do not sum to 0, the ratio of their sums is exactly 1. */
  lemma AllLoadedMeansComplete(records: seq<LoadRecord>)
    requires forall i :: 0 <= i < |records| ==> records[i].loaded == records[i].total
    requires SumTotal(records) != 0.0
    ensures Ratio(SumLoaded(records), SumTotal(records)) == Exact(1.0)
  {
    SumsAgreeWhenAllLoaded(records);
    assert SumTotal(records) / SumTotal(records) == 1.0;
  }
}
