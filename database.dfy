/**
 * The catalog store the scanner reads and writes, as tables of rows. The SQL
 * behind each query is not part of this model: a read returns the rows its
 * parameters select, a write changes the columns its caller names, and an
 * operation listed in the store's `failing` set returns an error on every call.
 */
module Database {
  import opened Wrappers
  import opened Common

  datatype ShowRow = ShowRow(
    id: int,
    title: string,
    idLib: int,
    path: string,
    display: string,
    premiered: int,
    scraperName: string,
    scraperID: string,
    scraperData: string,
    scraperLink: string,
    updateMode: int)

  /** database.ListShowRow{}: the zero row a newly discovered folder starts from. */
  const EmptyShow := ShowRow(0, "", 0, "", "", 0, "", "", "", "", 0)

  datatype SeasonRow = SeasonRow(
    idShow: int,
    season: int,
    title: string,
    display: string,
    premiered: int,
    info: ScraperInfo,
    updateMode: int)

  datatype EpisodeRow = EpisodeRow(
    id: int,
    idShow: int,
    season: int,
    episode: int,
    title: string,
    display: string,
    premiered: int,
    info: ScraperInfo,
    updateMode: int)

  /** The media entity a video file is registered against. */
  datatype VideoFile = VideoFile(mediaType: MediaType, mediaData: int)

  datatype TagRow = TagRow(id: int, name: string, value: string, icon: string)
  datatype PersonRow = PersonRow(id: int, name: string)

  /** An association of a tag or a person (`target`) with a media entity. */
  datatype Link = Link(target: int, mediaType: MediaType, mediaData: int)

  /** A stored batch of search candidates awaiting manual selection. */
  datatype Batch = Batch(name: string, results: seq<SearchData>)

  /** A provider configuration row; `settings` is None when its JSON does not parse. */
  datatype ScraperRow = ScraperRow(
    provider: string,
    mediaType: MediaType,
    enabled: bool,
    settings: Option<map<string, string>>)

  /**
   * The tables. `lastId` is the last identifier handed out by an insert;
   * `defaultUpdateMode` is the update mode the show table gives a new row.
   */
  datatype Store = Store(
    libraries: map<int, string>,
    shows: seq<ShowRow>,
    seasons: seq<SeasonRow>,
    episodes: seq<EpisodeRow>,
    videoFiles: map<(int, string), VideoFile>,
    tags: seq<TagRow>,
    tagLinks: set<Link>,
    people: seq<PersonRow>,
    personLinks: set<Link>,
    batches: map<(MediaType, int), Batch>,
    scrapers: seq<ScraperRow>,
    lastId: nat,
    defaultUpdateMode: int)

  /** The store's queries, one per operation of its query surface. */
  datatype StoreOp =
    | GetLibraryOp | ListShowOp | AddShowOp | UpdateShowOp
    | ListShowSeasonOp | AddShowSeasonOp | UpdateShowSeasonOp | UpdateShowAllSeasonsOp
    | GetShowEpisodeOp | AddShowEpisodeOp | UpdateShowEpisodeOp | UpdateShowAllEpisodesOp
    | GetVideoFileOp | AddVideoFileOp
    | GetTagOp | AddTagOp | AddTagLinkOp | DeleteAllTagLinksOp
    | GetPersonOp | AddPersonOp | AddPersonLinkOp | DeleteAllPersonLinksOp
    | GetResultsOp | AddResultsOp | DeleteResultsOp | ListScraperOp

  /** The errors the scanner reports. */
  datatype Error =
    | StoreFailed(op: StoreOp)
    | ProviderNotFound(name: string)
    | ProviderCallFailed
    | NoData(title: string)
    | LibraryLookupFailed
    | ReadDirFailed
    | MalformedSettings(provider: string)
    | NoScraperForMediaType
    | LibraryRequired
    | UnsupportedMediaType
    | InvalidId

  datatype Outcome = Pass | Fail(error: Error)

  // ---------------------------------------------------------------- reads

  /** GetLibrary: the library's root path. */
  function GetLibrary(st: Store, failing: set<StoreOp>, id: int): Option<string>
  {
    if GetLibraryOp !in failing && id in st.libraries then Some(st.libraries[id]) else None
  }

  /** ListShow: every show row, in store order. */
  function ListShow(st: Store, failing: set<StoreOp>): Option<seq<ShowRow>>
  {
    if ListShowOp in failing then None else Some(st.shows)
  }

  /** The rows of `rows` that belong to show `idShow`, in order. */
  function SeasonsOf(rows: seq<SeasonRow>, idShow: int): (r: seq<SeasonRow>)
    ensures forall s :: s in r <==> s in rows && s.idShow == idShow
    decreases |rows|
  {
    if rows == [] then []
    else
      var init := SeasonsOf(rows[..|rows| - 1], idShow);
      var last := rows[|rows| - 1];
      assert rows == rows[..|rows| - 1] + [last];
      if last.idShow == idShow then init + [last] else init
  }

  /** ListShowSeason: the show's season rows, in store order. */
  function ListShowSeason(st: Store, failing: set<StoreOp>, idShow: int): Option<seq<SeasonRow>>
  {
    if ListShowSeasonOp in failing then None else Some(SeasonsOf(st.seasons, idShow))
  }

  /** GetVideoFileFromPath. */
  function GetVideoFileFromPath(st: Store, failing: set<StoreOp>, idLib: int, path: string): Option<VideoFile>
  {
    if GetVideoFileOp !in failing && (idLib, path) in st.videoFiles then Some(st.videoFiles[(idLib, path)]) else None
  }

  /** The first episode row with identifier `id`. */
  function EpisodeById(rows: seq<EpisodeRow>, id: int): (r: Option<EpisodeRow>)
    ensures r.Some? ==> r.value in rows && r.value.id == id
    ensures r.None? ==> forall e :: e in rows ==> e.id != id
  {
    if rows == [] then None
    else if rows[0].id == id then Some(rows[0])
    else EpisodeById(rows[1..], id)
  }

  /** GetShowEpisode. */
  function GetShowEpisode(st: Store, failing: set<StoreOp>, id: int): Option<EpisodeRow>
  {
    if GetShowEpisodeOp in failing then None else EpisodeById(st.episodes, id)
  }

  /** The first tag row with this name and value. */
  function TagByValue(rows: seq<TagRow>, name: string, value: string): (r: Option<TagRow>)
    ensures r.Some? ==> r.value in rows && r.value.name == name && r.value.value == value
    ensures r.None? ==> forall t :: t in rows ==> !(t.name == name && t.value == value)
  {
    if rows == [] then None
    else if rows[0].name == name && rows[0].value == value then Some(rows[0])
    else TagByValue(rows[1..], name, value)
  }

  /** GetTagByValue. */
  function GetTagByValue(st: Store, failing: set<StoreOp>, name: string, value: string): Option<TagRow>
  {
    if GetTagOp in failing then None else TagByValue(st.tags, name, value)
  }

  /** The first person row with this name. */
  function PersonByName(rows: seq<PersonRow>, name: string): (r: Option<PersonRow>)
    ensures r.Some? ==> r.value in rows && r.value.name == name
    ensures r.None? ==> forall p :: p in rows ==> p.name != name
  {
    if rows == [] then None
    else if rows[0].name == name then Some(rows[0])
    else PersonByName(rows[1..], name)
  }

  /** GetPersonByName. */
  function GetPersonByName(st: Store, failing: set<StoreOp>, name: string): Option<PersonRow>
  {
    if GetPersonOp in failing then None else PersonByName(st.people, name)
  }

  /** GetMultipleResultsByMedia. */
  function GetMultipleResultsByMedia(st: Store, failing: set<StoreOp>, mediaType: MediaType, mediaData: int): Option<Batch>
  {
    if GetResultsOp !in failing && (mediaType, mediaData) in st.batches then Some(st.batches[(mediaType, mediaData)]) else None
  }

  /** The configuration rows for one media type, in store order. */
  function ScrapersFor(rows: seq<ScraperRow>, mediaType: MediaType): (r: seq<ScraperRow>)
    ensures forall x :: x in r <==> x in rows && x.mediaType == mediaType
    decreases |rows|
  {
    if rows == [] then []
    else
      var init := ScrapersFor(rows[..|rows| - 1], mediaType);
      var last := rows[|rows| - 1];
      assert rows == rows[..|rows| - 1] + [last];
      if last.mediaType == mediaType then init + [last] else init
  }

  /** ListScraperForType. */
  function ListScraperForType(st: Store, failing: set<StoreOp>, mediaType: MediaType): Option<seq<ScraperRow>>
  {
    if ListScraperOp in failing then None else Some(ScrapersFor(st.scrapers, mediaType))
  }

  // ---------------------------------------------------------------- writes

  /** The writes of the store's query surface. */
  datatype Write =
    | InsertShow(title: string, idLib: int)                       // AddShow: title and library only
    | SetShowMetadata(id: int, detail: Detail)                   // UpdateShow from a provider record
    | SetShowBinding(id: int, selection: SelectionResult)        // UpdateShow with a selection
    | InsertSeason(season: SeasonRow)                            // AddShowSeason
    | SetSeasonMetadata(idShow: int, number: int, detail: Detail) // UpdateShowSeason
    | ResetSeasons(idShow: int)                                  // UpdateShowAllSeasons
    | InsertEpisode(episode: EpisodeRow)                         // AddShowEpisode
    | SetEpisodeMetadata(id: int, detail: Detail)                // UpdateShowEpisode
    | ResetEpisodes(idShow: int)                                 // UpdateShowAllEpisodes
    | InsertVideoFile(idLib: int, path: string, file: VideoFile) // file.AddVideoFile
    | InsertTag(name: string, value: string, icon: string)       // AddTag
    | InsertTagLink(link: Link)                                  // AddTagLink
    | PurgeTagLinks(mediaType: MediaType, mediaData: int)        // DeleteAllTagLinks
    | InsertPerson(name: string)                                 // AddPerson
    | InsertPersonLink(link: Link)                               // AddPersonLink
    | PurgePersonLinks(mediaType: MediaType, mediaData: int)     // DeleteAllPersonLinks
    | InsertResults(mediaType: MediaType, mediaData: int, batch: Batch) // AddMultipleResults
    | DeleteResults(mediaType: MediaType, mediaData: int)        // DeleteMultipleResultsByMedia
  {
    /** The store operation that performs this write. */
    function Op(): StoreOp
    {
      match this
      case InsertShow(_, _) => AddShowOp
      case SetShowMetadata(_, _) => UpdateShowOp
      case SetShowBinding(_, _) => UpdateShowOp
      case InsertSeason(_) => AddShowSeasonOp
      case SetSeasonMetadata(_, _, _) => UpdateShowSeasonOp
      case ResetSeasons(_) => UpdateShowAllSeasonsOp
      case InsertEpisode(_) => AddShowEpisodeOp
      case SetEpisodeMetadata(_, _) => UpdateShowEpisodeOp
      case ResetEpisodes(_) => UpdateShowAllEpisodesOp
      case InsertVideoFile(_, _, _) => AddVideoFileOp
      case InsertTag(_, _, _) => AddTagOp
      case InsertTagLink(_) => AddTagLinkOp
      case PurgeTagLinks(_, _) => DeleteAllTagLinksOp
      case InsertPerson(_) => AddPersonOp
      case InsertPersonLink(_) => AddPersonLinkOp
      case PurgePersonLinks(_, _) => DeleteAllPersonLinksOp
      case InsertResults(_, _, _) => AddResultsOp
      case DeleteResults(_, _) => DeleteResultsOp
    }
  }

  /** A write's answer: the new row's identifier for an insert (0 otherwise), or an error. */
  datatype Reply = Done(id: int) | Failed

  /** A show row after a metadata refresh: the sentinel update mode -1 marks it "just updated". */
  function RefreshShow(r: ShowRow, d: Detail): ShowRow
  {
    r.(title := d.title, display := d.display, premiered := d.premiered,
       scraperLink := d.info.link, scraperData := d.info.data, updateMode := -1)
  }

  /** A show row after a selection is applied: update mode 1 forces the next refresh. */
  function BindShow(r: ShowRow, sel: SelectionResult): ShowRow
  {
    r.(scraperName := sel.scraperName, scraperID := sel.scraperID, scraperData := sel.scraperData, updateMode := 1)
  }

  function RefreshSeason(r: SeasonRow, d: Detail): SeasonRow
  {
    r.(title := d.title, display := d.display, premiered := d.premiered, info := d.info, updateMode := -1)
  }

  /** The binding the selection applier leaves on every season and episode: name " ", id "0", update mode 1. */
  function ResetSeason(r: SeasonRow): SeasonRow
  {
    r.(info := r.info.(name := " ", id := "0"), updateMode := 1)
  }

  function RefreshEpisode(r: EpisodeRow, d: Detail): EpisodeRow
  {
    r.(title := d.title, display := d.display, premiered := d.premiered, info := d.info, updateMode := -1)
  }

  function ResetEpisode(r: EpisodeRow): EpisodeRow
  {
    r.(info := r.info.(name := " ", id := "0"), updateMode := 1)
  }

  /** The links of `links` that do not belong to the given media entity. */
  function LinksWithout(links: set<Link>, mediaType: MediaType, mediaData: int): set<Link>
  {
    set l | l in links && !(l.mediaType == mediaType && l.mediaData == mediaData)
  }

  /** The effect of one write on the store, and its answer. */
  function Apply(st: Store, failing: set<StoreOp>, w: Write): (Store, Reply)
  {
    if w.Op() in failing then (st, Failed)
    else
      var id := st.lastId + 1;
      match w
      case InsertShow(title, idLib) =>
        (st.(shows := st.shows + [ShowRow(id, title, idLib, "", "", 0, "", "", "", "", st.defaultUpdateMode)],
             lastId := id), Done(id))
      case SetShowMetadata(showId, d) =>
        (st.(shows := seq(|st.shows|, i requires 0 <= i < |st.shows| =>
               if st.shows[i].id == showId then RefreshShow(st.shows[i], d) else st.shows[i])), Done(0))
      case SetShowBinding(showId, sel) =>
        (st.(shows := seq(|st.shows|, i requires 0 <= i < |st.shows| =>
               if st.shows[i].id == showId then BindShow(st.shows[i], sel) else st.shows[i])), Done(0))
      case InsertSeason(row) =>
        (st.(seasons := st.seasons + [row]), Done(0))
      case SetSeasonMetadata(idShow, number, d) =>
        (st.(seasons := seq(|st.seasons|, i requires 0 <= i < |st.seasons| =>
               if st.seasons[i].idShow == idShow && st.seasons[i].season == number
               then RefreshSeason(st.seasons[i], d) else st.seasons[i])), Done(0))
      case ResetSeasons(idShow) =>
        (st.(seasons := seq(|st.seasons|, i requires 0 <= i < |st.seasons| =>
               if st.seasons[i].idShow == idShow then ResetSeason(st.seasons[i]) else st.seasons[i])), Done(0))
      case InsertEpisode(row) =>
        (st.(episodes := st.episodes + [row.(id := id)], lastId := id), Done(id))
      case SetEpisodeMetadata(episodeId, d) =>
        (st.(episodes := seq(|st.episodes|, i requires 0 <= i < |st.episodes| =>
               if st.episodes[i].id == episodeId then RefreshEpisode(st.episodes[i], d) else st.episodes[i])), Done(0))
      case ResetEpisodes(idShow) =>
        (st.(episodes := seq(|st.episodes|, i requires 0 <= i < |st.episodes| =>
               if st.episodes[i].idShow == idShow then ResetEpisode(st.episodes[i]) else st.episodes[i])), Done(0))
      case InsertVideoFile(idLib, path, f) =>
        (st.(videoFiles := st.videoFiles[(idLib, path) := f]), Done(0))
      case InsertTag(name, value, icon) =>
        (st.(tags := st.tags + [TagRow(id, name, value, icon)], lastId := id), Done(id))
      case InsertTagLink(l) =>
        (st.(tagLinks := st.tagLinks + {l}), Done(0))
      case PurgeTagLinks(mt, md) =>
        (st.(tagLinks := LinksWithout(st.tagLinks, mt, md)), Done(0))
      case InsertPerson(name) =>
        (st.(people := st.people + [PersonRow(id, name)], lastId := id), Done(id))
      case InsertPersonLink(l) =>
        (st.(personLinks := st.personLinks + {l}), Done(0))
      case PurgePersonLinks(mt, md) =>
        (st.(personLinks := LinksWithout(st.personLinks, mt, md)), Done(0))
      case InsertResults(mt, md, b) =>
        (st.(batches := st.batches[(mt, md) := b]), Done(0))
      case DeleteResults(mt, md) =>
        (st.(batches := st.batches - {(mt, md)}), Done(0))
  }

  /** The store handle: its tables, and the operations that fail. */
  class Catalog {
    var st: Store
    const failing: set<StoreOp>

    constructor (tables: Store, failing: set<StoreOp>)
      ensures st == tables && this.failing == failing
    {
      st := tables;
      this.failing := failing;
    }

    /** Performs one write. */
    method Exec(w: Write) returns (rep: Reply)
      modifies this
      ensures (st, rep) == Apply(old(st), failing, w)
      ensures rep.Failed? <==> w.Op() in failing
    {
      var r := Apply(st, failing, w);
      st, rep := r.0, r.1;
    }
  }
}
