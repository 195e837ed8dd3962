/**
 * The media-type dispatch: starting a scan, building the scraper for a media
 * type, and applying a stored candidate chosen by the user.
 */
module Scraper {
  import opened Wrappers
  import opened Common
  import opened Database
  import opened Util
  import opened TVShowSpec
  import opened TVShow
  import opened TVShowProperties

  /** The settings of a newly built TV-show scraper. */
  function NewCtx(failing: set<StoreOp>, reg: Registry): Ctx
  {
    Ctx(failing, reg.providers, reg.names, 0, "", false, true, reg.score, reg.yearOf)
  }

  /** StartScan: only the TV media type has a scanner, and it needs a library. */
  function StartScanSpec(reg: Registry, failing: set<StoreOp>, fs: FileSystem, st: Store,
                         mediaType: MediaType, lib: int, conf: ScanConfig): (Store, Outcome)
  {
    if mediaType != Tvs then (st, Fail(UnsupportedMediaType))
    else if lib == 0 then (st, Fail(LibraryRequired))
    else
      var r := ScanSpec(NewCtx(failing, reg), fs, st, lib, conf);
      (r.st, r.out)
  }

  method StartScan(db: Catalog, reg: Registry, mediaType: MediaType, lib: int, conf: ScanConfig, fs: FileSystem)
    returns (out: Outcome)
    modifies db
    ensures (db.st, out) == StartScanSpec(reg, db.failing, fs, old(db.st), mediaType, lib, conf)
  {
    if mediaType == Tvs {
      if lib == 0 {
        return Fail(LibraryRequired);
      }
      var tv := new TVSScraper(db, reg);
      out := tv.Scan(lib, conf, fs);
      return;
    }
    return Fail(UnsupportedMediaType);
  }

  /** getScraperFromMediaType: a new TV-show scraper on the same store, for the TV media type only. */
  method GetScraperFromMediaType(db: Catalog, reg: Registry, mediaType: MediaType)
    returns (sc: Option<TVSScraper>, out: Outcome)
    ensures sc.Some? <==> mediaType == Tvs
    ensures out == if mediaType == Tvs then Pass else Fail(NoScraperForMediaType)
    ensures sc.Some? ==> fresh(sc.value) && sc.value.db == db && sc.value.Settings() == NewCtx(db.failing, reg)
  {
    if mediaType == Tvs {
      var t := new TVSScraper(db, reg);
      return Some(t), Pass;
    }
    return None, Fail(NoScraperForMediaType);
  }

  // ---------------------------------------------------------------- SelectScraperResult

  /** The bounds check of SelectScraperResult as written: it rejects `id` only when it exceeds the count. */
  predicate PassesIdGuard(count: int, id: int)
  {
    !(count < id)
  }

  /** A position of a batch of `count` candidates. */
  predicate ValidIndex(count: int, id: int)
  {
    0 <= id < count
  }

  /** The guard as written lets through the index one past the end, and every negative index. */
  lemma IdGuardAdmitsOutOfRange(count: nat)
    ensures PassesIdGuard(count, count) && !ValidIndex(count, count)
    ensures PassesIdGuard(count, -1) && !ValidIndex(count, -1)
  {
  }

  /** The guard as written rejects no valid index. */
  lemma IdGuardAdmitsValid(count: int, id: int)
    ensures ValidIndex(count, id) ==> PassesIdGuard(count, id)
  {
  }

  /** The result of SelectScraperResult: the store, the chosen candidate, and the error. */
  datatype Selected = Selected(st: Store, item: Option<SearchData>, out: Outcome)

  /** The stored candidate batch a call refers to, when it can be read. */
  function StoredBatch(st: Store, failing: set<StoreOp>, mediaType: MediaType, mediaData: int): Option<Batch>
  {
    GetMultipleResultsByMedia(st, failing, mediaType, mediaData)
  }

  /**
   * SelectScraperResult as written: the candidate at `id` is applied before
   * its index is checked, so the index must be valid for the call to be
   * defined.
   */
  function SelectScraperResultSpec(st: Store, failing: set<StoreOp>, mediaType: MediaType, mediaData: int, id: int): Selected
    requires var b := StoredBatch(st, failing, mediaType, mediaData);
      b.Some? && mediaType == Tvs ==> ValidIndex(|b.value.results|, id)
  {
    match StoredBatch(st, failing, mediaType, mediaData)
    case None => Selected(st, None, Fail(StoreFailed(GetResultsOp)))
    case Some(b) =>
      if mediaType != Tvs then Selected(st, None, Fail(NoScraperForMediaType))
      else
        var item := b.results[id];
        var (st1, out1) := SelectionSpec(st, failing, mediaData, SelectionOf(item));
        if out1.Fail? then Selected(st1, None, out1)
        else if !PassesIdGuard(|b.results|, id) then Selected(st1, None, Fail(InvalidId))
        else
          var (st2, rep) := Apply(st1, failing, DeleteResults(mediaType, mediaData));
          if rep.Failed? then Selected(st2, None, Fail(StoreFailed(DeleteResultsOp)))
          else Selected(st2, Some(item), Pass)
  }

  /** SelectScraperResult with the index checked before anything is written. */
  function SelectScraperResultChecked(st: Store, failing: set<StoreOp>, mediaType: MediaType, mediaData: int, id: int): (r: Selected)
    ensures var b := StoredBatch(st, failing, mediaType, mediaData);
      b.Some? && mediaType == Tvs && !ValidIndex(|b.value.results|, id) ==> r == Selected(st, None, Fail(InvalidId))
    ensures var b := StoredBatch(st, failing, mediaType, mediaData);
      b.Some? && mediaType == Tvs && ValidIndex(|b.value.results|, id) ==>
        r == SelectScraperResultSpec(st, failing, mediaType, mediaData, id)
  {
    match StoredBatch(st, failing, mediaType, mediaData)
    case None => Selected(st, None, Fail(StoreFailed(GetResultsOp)))
    case Some(b) =>
      if mediaType != Tvs then Selected(st, None, Fail(NoScraperForMediaType))
      else if !ValidIndex(|b.results|, id) then Selected(st, None, Fail(InvalidId))
      else SelectScraperResultSpec(st, failing, mediaType, mediaData, id)
  }

  /** SelectScraperResult; `reg` is what building the scraper loads. */
  method SelectScraperResult(db: Catalog, reg: Registry, mediaType: MediaType, mediaData: int, id: int)
    returns (item: Option<SearchData>, out: Outcome)
    requires var b := StoredBatch(db.st, db.failing, mediaType, mediaData);
      b.Some? && mediaType == Tvs ==> ValidIndex(|b.value.results|, id)
    modifies db
    ensures Selected(db.st, item, out) == SelectScraperResultSpec(old(db.st), db.failing, mediaType, mediaData, id)
  {
    var data := GetMultipleResultsByMedia(db.st, db.failing, mediaType, mediaData);
    if data.None? {
      return None, Fail(StoreFailed(GetResultsOp));
    }
    var searchData := data.value.results;
    var sc;
    sc, out := GetScraperFromMediaType(db, reg, mediaType);
    if sc.None? {
      return None, out;
    }
    out := sc.value.UpdateWithSelectionResult(mediaData, SelectionOf(searchData[id]));
    if out.Fail? {
      return None, out;
    }
    if |searchData| < id {
      return None, Fail(InvalidId);
    }
    var rep := db.Exec(DeleteResults(mediaType, mediaData));
    if rep.Failed? {
      return None, Fail(StoreFailed(DeleteResultsOp));
    }
    return Some(searchData[id]), Pass;
  }

  /**
   * StartScan: a media type other than TV is unsupported; a TV scan without a
   * library fails before any scraper is built; otherwise the result is the
   * new scraper's Scan of that library with the settings as given.
   */
  lemma StartScanDispatch(reg: Registry, failing: set<StoreOp>, fs: FileSystem, st: Store,
                          mediaType: MediaType, lib: int, conf: ScanConfig)
    ensures var r := StartScanSpec(reg, failing, fs, st, mediaType, lib, conf);
      && (mediaType != Tvs ==> r == (st, Fail(UnsupportedMediaType)))
      && (mediaType == Tvs && lib == 0 ==> r == (st, Fail(LibraryRequired)))
      && (mediaType == Tvs && lib != 0 ==>
            r == (ScanSpec(NewCtx(failing, reg), fs, st, lib, conf).st, ScanSpec(NewCtx(failing, reg), fs, st, lib, conf).out))
  {
  }

  /** The 3D switch does not change what StartScan does. */
  lemma StartScanIgnores3D(reg: Registry, failing: set<StoreOp>, fs: FileSystem, st: Store,
                           mediaType: MediaType, lib: int, conf: ScanConfig, enable3D: bool)
    ensures StartScanSpec(reg, failing, fs, st, mediaType, lib, conf) ==
            StartScanSpec(reg, failing, fs, st, mediaType, lib, conf.(enable3DScan := enable3D))
  {
    ScanIgnores3D(NewCtx(failing, reg), fs, st, lib, conf, enable3D);
  }

  /**
   * With a valid index, SelectScraperResult applies the binding of candidate
   * `id`; on success it returns that candidate, the show carries its binding
   * and the batch is gone; a failure before the final delete leaves the batch
   * in place; and the "invalid id" error never arises.
   */
  lemma SelectScraperResultApplies(st: Store, failing: set<StoreOp>, mediaType: MediaType, mediaData: int, id: int)
    requires mediaType == Tvs
    requires var b := StoredBatch(st, failing, mediaType, mediaData); b.Some? && ValidIndex(|b.value.results|, id)
    ensures var r := SelectScraperResultSpec(st, failing, mediaType, mediaData, id);
      var item := StoredBatch(st, failing, mediaType, mediaData).value.results[id];
      && r.out != Fail(InvalidId)
      && (r.out == Pass ==>
            && r.item == Some(item)
            && (mediaType, mediaData) !in r.st.batches
            && |r.st.shows| == |st.shows|
            && forall i :: 0 <= i < |st.shows| && st.shows[i].id == mediaData ==>
                 r.st.shows[i] == BindShow(st.shows[i], SelectionOf(item)))
      && (r.out.Fail? && r.out != Fail(StoreFailed(DeleteResultsOp)) ==> r.st.batches == st.batches)
  {
    var item := StoredBatch(st, failing, mediaType, mediaData).value.results[id];
    SelectionKeeps(st, failing, mediaData, SelectionOf(item));
    var st1 := SelectionSpec(st, failing, mediaData, SelectionOf(item)).0;
    if SelectionSpec(st, failing, mediaData, SelectionOf(item)).1 == Pass {
      SelectionResets(st, failing, mediaData, SelectionOf(item));
      assert PassesIdGuard(|StoredBatch(st, failing, mediaType, mediaData).value.results|, id);
      var st2 := Apply(st1, failing, DeleteResults(mediaType, mediaData)).0;
      assert st2.shows == st1.shows;
    } else {
      SelectionSucceeds(st, failing, mediaData, SelectionOf(item));
      var k :| 0 <= k < 5 && SelectionOps()[k] in failing && forall j :: 0 <= j < k ==> SelectionOps()[j] !in failing;
      SelectionOrder(st, failing, mediaData, SelectionOf(item), k);
    }
  }
}
