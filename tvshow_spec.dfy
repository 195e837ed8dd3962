/**
 * The TV-show scanner's routines as functions of the store: what each one
 * writes, in which order, and what it reports. The methods of
 * TVShow.TVSScraper are proved equal to these functions, and the properties
 * of the scanner are proved about them in TVShowProperties.
 */
module TVShowSpec {
  import opened Wrappers
  import opened Common
  import opened Database
  import opened Filename
  import opened Util

  /**
   * What the scanner's routines read from the scraper object: the failing
   * store operations, the loaded providers and their order of preference,
   * the library being scanned, the scan switches, and the scoring and
   * calendar functions.
   */
  datatype Ctx = Ctx(
    failing: set<StoreOp>,
    providers: map<string, Provider>,
    names: seq<string>,
    idLib: int,
    libPath: string,
    autoAdd: bool,
    addUnknown: bool,
    score: (string, string) -> int,
    yearOf: int -> int)

  /** getProviderFromName: the provider registered under `pname`, if any. */
  function ProviderFromName(providers: map<string, Provider>, pname: string): (r: Option<Provider>)
    ensures r.Some? <==> pname in providers
    ensures r.Some? ==> r.value == providers[pname]
  {
    if pname in providers then Some(providers[pname]) else None
  }

  /** The provider configured with a show's binding (its scraper id and data). */
  function ConfigOf(data: ShowRow): ProviderConfig
  {
    ProviderConfig(data.scraperID, data.scraperData)
  }

  // ---------------------------------------------------------------- show level

  /**
   * The search results of the providers named in `names`, concatenated in that
   * order; a provider whose search fails contributes nothing.
   */
  function SearchResults(providers: map<string, Provider>, names: seq<string>, title: string): seq<SearchData>
    decreases |names|
  {
    if names == [] then []
    else
      var init := SearchResults(providers, names[..|names| - 1], title);
      var n := names[|names| - 1];
      if n in providers && SearchTVS(providers[n], title).Some? then init + SearchTVS(providers[n], title).value
      else init
  }

  /** The store after AddTag for each tag, in order, against show `id`. */
  function AddTags(st: Store, failing: set<StoreOp>, id: int, tags: seq<TagData>): Store
    decreases |tags|
  {
    if tags == [] then st
    else AddTagSpec(AddTags(st, failing, id, tags[..|tags| - 1]), failing, Tvs, id, tags[|tags| - 1]).0
  }

  /** The store after AddPerson for each person, in order, against show `id`. */
  function AddPeople(st: Store, failing: set<StoreOp>, id: int, people: seq<PersonData>): Store
    decreases |people|
  {
    if people == [] then st
    else AddPersonSpec(AddPeople(st, failing, id, people[..|people| - 1]), failing, Tvs, id, people[|people| - 1]).0
  }

  /** The result of a show-level routine: the store, the show row as the scanner holds it, and the error. */
  datatype ShowResult = ShowResult(st: Store, data: ShowRow, out: Outcome)

  /**
   * updateTVS: fetch the bound provider's record, write it with the update
   * mode -1, then link the provider's tags and people (errors of the
   * individual links are dropped).
   */
  function UpdateTVSSpec(c: Ctx, st: Store, data: ShowRow): ShowResult
  {
    match ProviderFromName(c.providers, data.scraperName)
    case None => ShowResult(st, data, Fail(ProviderNotFound(data.scraperName)))
    case Some(p) =>
      match GetTVS(p, ConfigOf(data))
      case None => ShowResult(st, data, Fail(ProviderCallFailed))
      case Some(d) =>
        var (st1, rep) := Apply(st, c.failing, SetShowMetadata(data.id, d));
        if rep.Failed? then ShowResult(st1, data, Fail(StoreFailed(UpdateShowOp)))
        else
          var data1 := data.(title := d.title, scraperData := d.info.data, premiered := d.premiered);
          match ListTVSTag(p, ConfigOf(data))
          case None => ShowResult(st1, data1, Fail(ProviderCallFailed))
          case Some(tags) =>
            var st2 := AddTags(st1, c.failing, data.id, tags);
            match ListTVSPerson(p, ConfigOf(data))
            case None => ShowResult(st2, data1, Fail(ProviderCallFailed))
            case Some(people) => ShowResult(AddPeople(st2, c.failing, data.id, people), data1, Pass)
  }

  /** The five writes of UpdateWithSelectionResult, in the order they run. */
  function SelectionWrites(id: int, sel: SelectionResult): seq<Write>
  {
    [SetShowBinding(id, sel), ResetSeasons(id), ResetEpisodes(id), PurgeTagLinks(Tvs, id), PurgePersonLinks(Tvs, id)]
  }

  /** The store after every write of `ws` that succeeds, in order. */
  function ApplyAll(st: Store, failing: set<StoreOp>, ws: seq<Write>): Store
    decreases |ws|
  {
    if ws == [] then st else ApplyAll(Apply(st, failing, ws[0]).0, failing, ws[1..])
  }

  /** Runs `ws` in order and stops at the first write that fails, reporting it. */
  function RunWrites(st: Store, failing: set<StoreOp>, ws: seq<Write>): (Store, Outcome)
    decreases |ws|
  {
    if ws == [] then (st, Pass)
    else
      var (st1, rep) := Apply(st, failing, ws[0]);
      if rep.Failed? then (st1, Fail(StoreFailed(ws[0].Op())))
      else RunWrites(st1, failing, ws[1..])
  }

  /** UpdateWithSelectionResult. */
  function SelectionSpec(st: Store, failing: set<StoreOp>, id: int, sel: SelectionResult): (Store, Outcome)
  {
    RunWrites(st, failing, SelectionWrites(id, sel))
  }

  /**
   * addTVS: gather the providers' candidates; without any (and without
   * AddUnknown) give up before writing; insert the show when it has no id;
   * then either bind the best candidate and refresh the show, or store the
   * candidates for a manual choice.
   */
  function AddTVSSpec(c: Ctx, st: Store, data: ShowRow): ShowResult
  {
    var results := SearchResults(c.providers, c.names, data.title);
    if |results| == 0 && !c.addUnknown then ShowResult(st, data, Fail(NoData(data.title)))
    else
      var (st1, rep) := if data.id == 0 then Apply(st, c.failing, InsertShow(data.title, c.idLib)) else (st, Done(data.id));
      if rep.Failed? then ShowResult(st1, data, Fail(StoreFailed(AddShowOp)))
      else
        var data1 := data.(id := rep.id);
        var best := BestItem(results, data1.title, 0, c.score, c.yearOf);
        if c.autoAdd && best.Some? then
          var sel := best.value;
          var st2 := SelectionSpec(st1, c.failing, data1.id, SelectionOf(sel)).0;
          UpdateTVSSpec(c, st2, data1.(scraperID := sel.scraperID, scraperName := sel.scraperName,
                                      scraperData := sel.scraperData, path := data1.title))
        else
          ShowResult(AddResultsSpec(st1, c.failing, Tvs, data1.id, results, data1.title).0, data1, Pass)
  }

  // ---------------------------------------------------------------- season level

  /** The season numbers of `rows`, in order. */
  function SeasonNumbers(rows: seq<SeasonRow>): (r: seq<int>)
    ensures |r| == |rows| && forall i :: 0 <= i < |rows| ==> r[i] == rows[i].season
  {
    seq(|rows|, i requires 0 <= i < |rows| => rows[i].season)
  }

  /**
   * The store after the season refresh loop over the snapshot `rows`: a row
   * whose update mode is positive gets the provider's record, when the
   * provider has one (the write's error is dropped).
   */
  function RefreshSeasons(st: Store, failing: set<StoreOp>, p: Provider, cfg: ProviderConfig,
                          idShow: int, rows: seq<SeasonRow>): Store
    decreases |rows|
  {
    if rows == [] then st
    else
      var st1 := RefreshSeasons(st, failing, p, cfg, idShow, rows[..|rows| - 1]);
      var r := rows[|rows| - 1];
      if r.updateMode > 0 && GetTVSSeason(p, cfg, r.season).Some? then
        Apply(st1, failing, SetSeasonMetadata(idShow, r.season, GetTVSSeason(p, cfg, r.season).value)).0
      else st1
  }

  /** updateTVSSeasons: refresh the show's seasons and list their numbers. */
  function SeasonsSpec(st: Store, failing: set<StoreOp>, p: Provider, cfg: ProviderConfig, idShow: int)
    : (r: (Store, seq<int>, Outcome))
    ensures r.2 == Pass <==> ListShowSeasonOp !in failing
    ensures r.2 == Pass ==> r.1 == SeasonNumbers(SeasonsOf(st.seasons, idShow))
    ensures r.2 != Pass ==> r.0 == st && r.1 == []
  {
    match ListShowSeason(st, failing, idShow)
    case None => (st, [], Fail(StoreFailed(ListShowSeasonOp)))
    case Some(rows) => (RefreshSeasons(st, failing, p, cfg, idShow, rows), SeasonNumbers(rows), Pass)
  }

  // ---------------------------------------------------------------- episode level

  /** The row of a season discovered from a file name: the provider's record, or a "Season N" placeholder. */
  function NewSeasonRow(p: Provider, cfg: ProviderConfig, idShow: int, season: nat): SeasonRow
  {
    match GetTVSSeason(p, cfg, season)
    case Some(d) => SeasonRow(idShow, season, d.title, d.display, d.premiered, d.info, -1)
    case None => SeasonRow(idShow, season, "Season " + DecimalString(season), "", 0, NoInfo, -1)
  }

  /** The episode row to create for a new file: the provider's record, a row titled with the file name, or none. */
  function NewEpisodeRow(c: Ctx, p: Provider, cfg: ProviderConfig, idShow: int, filename: string,
                         season: nat, episode: nat): Option<EpisodeRow>
  {
    match GetTVSEpisode(p, cfg, season, episode)
    case Some(d) => Some(EpisodeRow(0, idShow, season, episode, d.title, d.display, d.premiered, d.info, -1))
    case None =>
      if c.addUnknown then Some(EpisodeRow(0, idShow, season, episode, filename, "", 0, NoInfo, -1)) else None
  }

  /** The store after creating the episode of a new file and registering the file against it. */
  function CreateEpisode(c: Ctx, st: Store, row: Option<EpisodeRow>, path: string): Store
  {
    match row
    case None => st
    case Some(r) =>
      var (st1, rep) := Apply(st, c.failing, InsertEpisode(r));
      if rep.Failed? then st1
      else Apply(st1, c.failing, InsertVideoFile(c.idLib, path, VideoFile(TvsEpisode, rep.id))).0
  }

  /** The store after refreshing the episode a known file is registered against. */
  function RefreshLinkedEpisode(c: Ctx, st: Store, p: Provider, cfg: ProviderConfig, v: VideoFile): Store
  {
    match GetShowEpisode(st, c.failing, v.mediaData)
    case None => st
    case Some(e) =>
      if e.updateMode > 0 && GetTVSEpisode(p, cfg, e.season, e.episode).Some? then
        Apply(st, c.failing, SetEpisodeMetadata(e.id, GetTVSEpisode(p, cfg, e.season, e.episode).value)).0
      else st
  }

  /**
   * updateTVSEpisode for the video file at `path`: refresh the episode of a
   * known file; otherwise read the season and episode numbers from its base
   * name, add the season when it is not in `seasons` (returning the grown
   * list), and create the episode.
   */
  function EpisodeStep(c: Ctx, st: Store, p: Provider, cfg: ProviderConfig, seasons: seq<int>,
                       path: string, idShow: int): (Store, seq<int>)
  {
    match GetVideoFileFromPath(st, c.failing, c.idLib, path)
    case Some(v) => (RefreshLinkedEpisode(c, st, p, cfg, v), seasons)
    case None =>
      var filename := BaseName(path);
      match ExtractNumbers(filename)
      case None => (st, seasons)
      case Some((season, episode)) =>
        var (st1, seasons1) :=
          if season in seasons then (st, seasons)
          else (Apply(st, c.failing, InsertSeason(NewSeasonRow(p, cfg, idShow, season))).0, seasons + [season]);
        (CreateEpisode(c, st1, NewEpisodeRow(c, p, cfg, idShow, filename, season, episode), path), seasons1)
  }

  /** The loop of updateTVSEpisodes over the files below the show folder `showPath`. */
  function EpisodeFold(c: Ctx, fs: FileSystem, st: Store, p: Provider, cfg: ProviderConfig, seasons: seq<int>,
                       showPath: string, files: seq<string>, idShow: int): (Store, seq<int>)
    decreases |files|
  {
    if files == [] then (st, seasons)
    else
      var (st1, seasons1) := EpisodeFold(c, fs, st, p, cfg, seasons, showPath, files[..|files| - 1], idShow);
      var path := JoinPath(showPath, files[|files| - 1]);
      if IsVideo(fs, path) then EpisodeStep(c, st1, p, cfg, seasons1, path, idShow) else (st1, seasons1)
  }

  /** updateTVSEpisodes: refresh the seasons, then reconcile every video file of the show folder. */
  function EpisodesSpec(c: Ctx, fs: FileSystem, st: Store, data: ShowRow): (Store, Outcome)
  {
    match ProviderFromName(c.providers, data.scraperName)
    case None => (st, Fail(ProviderNotFound(data.scraperName)))
    case Some(p) =>
      var (st1, seasons, out) := SeasonsSpec(st, c.failing, p, ConfigOf(data), data.id);
      if out.Fail? then (st1, out)
      else
        var files := ListFiles(fs, JoinPath(c.libPath, data.path));
        (EpisodeFold(c, fs, st1, p, ConfigOf(data), seasons, data.path, files, data.id).0, Pass)
  }

  // ---------------------------------------------------------------- scan level

  /** The path of every known show, in store order. */
  function ShowPaths(shows: seq<ShowRow>): (r: seq<string>)
    ensures |r| == |shows| && forall i :: 0 <= i < |shows| ==> r[i] == shows[i].path
  {
    seq(|shows|, i requires 0 <= i < |shows| => shows[i].path)
  }

  /** What processItemScan does with a library entry. */
  datatype Decision =
    | Ignore              // not a folder
    | Keep(row: ShowRow)  // a known show whose updates are off
    | Search(row: ShowRow)  // a known show without a binding: search again
    | Refresh(row: ShowRow) // a known bound show: refresh its metadata
    | Discover            // a new folder

  /** The decision table of processItemScan; a folder is known by the first show whose path is its name. */
  function Decide(entry: DirEntry, shows: seq<ShowRow>): (r: Decision)
    ensures r == Ignore <==> !entry.isDir
    ensures r == Discover <==> entry.isDir && entry.name !in ShowPaths(shows)
    ensures (r.Keep? || r.Search? || r.Refresh?) ==>
      exists k :: 0 <= k < |shows| && r.row == shows[k] && shows[k].path == entry.name
        && forall j :: 0 <= j < k ==> shows[j].path != entry.name
    ensures r.Keep? ==> r.row.updateMode <= 0
    ensures r.Search? ==> r.row.updateMode > 0 && (r.row.scraperID == "" || r.row.scraperName == "" || r.row.scraperName == " ")
    ensures r.Refresh? ==> r.row.updateMode > 0 && r.row.scraperID != "" && r.row.scraperName != "" && r.row.scraperName != " "
  {
    if !entry.isDir then Ignore
    else
      var k := IndexOf(ShowPaths(shows), entry.name);
      if k == -1 then Discover
      else
        var row := shows[k];
        if row.updateMode <= 0 then Keep(row)
        else if row.scraperID == "" || row.scraperName == "" || row.scraperName == " " then Search(row)
        else Refresh(row)
  }

  /**
   * The show-level call processItemScan makes for a decision: addTVS for an
   * unbound or new show, updateTVS for a bound one, and none for a show whose
   * updates are off (or for an entry that is not a folder).
   */
  function ShowStep(c: Ctx, st: Store, entry: DirEntry, d: Decision): ShowResult
  {
    match d
    case Ignore => ShowResult(st, EmptyShow, Pass)
    case Keep(row) => ShowResult(st, row, Pass)
    case Search(row) => AddTVSSpec(c, st, row)
    case Refresh(row) => UpdateTVSSpec(c, st, row)
    case Discover => AddTVSSpec(c, st, EmptyShow.(title := entry.name))
  }

  /**
   * processItemScan: apply the decision, then reconcile the episodes when the
   * show-level step succeeded and left the show bound. The outcome is the
   * error the routine logs.
   */
  function ProcessItemSpec(c: Ctx, fs: FileSystem, st: Store, entry: DirEntry, shows: seq<ShowRow>): (Store, Outcome)
  {
    var d := Decide(entry, shows);
    if d == Ignore then (st, Pass)
    else
      var s := ShowStep(c, st, entry, d);
      if s.out == Pass && s.data.scraperID != "" then EpisodesSpec(c, fs, s.st, s.data)
      else (s.st, s.out)
  }

  /**
   * processItemScan as intended: when a new folder gets a show row, that row
   * also records the folder name as its path, so that the next scan finds it.
   */
  function ProcessItemRecordingPathSpec(c: Ctx, fs: FileSystem, st: Store, entry: DirEntry, shows: seq<ShowRow>)
    : (Store, Outcome)
  {
    var r := ProcessItemSpec(c, fs, st, entry, shows);
    var n := |st.shows|;
    if Decide(entry, shows) == Discover && |r.0.shows| > n then
      (r.0.(shows := r.0.shows[n := r.0.shows[n].(path := entry.name)]), r.1)
    else r
  }

  /** The sequential loop of Scan: each entry in listing order, against the show list read before it. */
  function ItemsFold(c: Ctx, fs: FileSystem, st: Store, entries: seq<DirEntry>, shows: seq<ShowRow>): Store
    decreases |entries|
  {
    if entries == [] then st
    else ProcessItemSpec(c, fs, ItemsFold(c, fs, st, entries[..|entries| - 1], shows), entries[|entries| - 1], shows).0
  }

  /** The result of Scan: the store, the scraper's settings after it, and the error it returns. */
  datatype ScanResult = ScanResult(st: Store, ctx: Ctx, out: Outcome)

  /** Scan: record the settings, read the library path, the shows and the library folder, then process every entry. */
  function ScanSpec(c: Ctx, fs: FileSystem, st: Store, idlib: int, conf: ScanConfig): ScanResult
  {
    var c1 := c.(idLib := idlib, autoAdd := conf.autoAdd, addUnknown := conf.addUnknown);
    match GetLibrary(st, c.failing, idlib)
    case None => ScanResult(st, c1, Fail(LibraryLookupFailed))
    case Some(lib) =>
      var c2 := c1.(libPath := lib);
      match ListShow(st, c.failing)
      case None => ScanResult(st, c2, Fail(StoreFailed(ListShowOp)))
      case Some(shows) =>
        match ReadDir(fs, lib)
        case None => ScanResult(st, c2, Fail(ReadDirFailed))
        case Some(entries) => ScanResult(ItemsFold(c2, fs, st, entries, shows), c2, Pass)
  }
}
