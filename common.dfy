/**
 * Values exchanged between the TV-show scanner, its metadata providers and its
 * caller: search candidates, provider records, selections and scan settings.
 */
module Common {
  import opened Wrappers

  /** database.MediaType: the two kinds this engine names, and every other kind. */
  datatype MediaType = Tvs | TvsEpisode | OtherMedia(code: int)

  /** common.SearchData: one candidate a provider proposes for a title. */
  datatype SearchData = SearchData(
    title: string,
    scraperName: string,
    scraperID: string,
    scraperData: string,
    premiered: int)

  /** The provider binding a record carries: provider name, id, opaque data and link. */
  datatype ScraperInfo = ScraperInfo(name: string, id: string, data: string, link: string)

  /** The zero value of a binding. */
  const NoInfo := ScraperInfo("", "", "", "")

  /**
   * A provider's record for a show, a season or an episode. `display` stands
   * for the descriptive columns (overview, icon, fanart, website, trailer,
   * rating), which every write copies together.
   */
  datatype Detail = Detail(title: string, display: string, premiered: int, info: ScraperInfo)

  /** common.TagData and common.PersonData. */
  datatype TagData = TagData(name: string, value: string, icon: string)
  datatype PersonData = PersonData(name: string)

  /** The arguments of a provider's Configure(id, data) call. */
  datatype ProviderConfig = ProviderConfig(id: string, data: string)

  /**
   * A metadata provider as a table of its answers. A missing key is a call
   * that returns an error.
   */
  datatype Provider = Provider(
    search: map<string, seq<SearchData>>,
    show: map<ProviderConfig, Detail>,
    seasons: map<(ProviderConfig, int), Detail>,
    episodes: map<(ProviderConfig, int, int), Detail>,
    tags: map<ProviderConfig, seq<TagData>>,
    people: map<ProviderConfig, seq<PersonData>>)

  function SearchTVS(p: Provider, title: string): Option<seq<SearchData>>
  {
    if title in p.search then Some(p.search[title]) else None
  }

  function GetTVS(p: Provider, cfg: ProviderConfig): Option<Detail>
  {
    if cfg in p.show then Some(p.show[cfg]) else None
  }

  function GetTVSSeason(p: Provider, cfg: ProviderConfig, season: int): Option<Detail>
  {
    if (cfg, season) in p.seasons then Some(p.seasons[(cfg, season)]) else None
  }

  function GetTVSEpisode(p: Provider, cfg: ProviderConfig, season: int, episode: int): Option<Detail>
  {
    if (cfg, season, episode) in p.episodes then Some(p.episodes[(cfg, season, episode)]) else None
  }

  function ListTVSTag(p: Provider, cfg: ProviderConfig): Option<seq<TagData>>
  {
    if cfg in p.tags then Some(p.tags[cfg]) else None
  }

  function ListTVSPerson(p: Provider, cfg: ProviderConfig): Option<seq<PersonData>>
  {
    if cfg in p.people then Some(p.people[cfg]) else None
  }

  /** SelectionResult: the binding a user or the auto-selection applies to a show. */
  datatype SelectionResult = SelectionResult(scraperName: string, scraperID: string, scraperData: string)

  /** The binding carried by a search candidate. */
  function SelectionOf(item: SearchData): SelectionResult
  {
    SelectionResult(item.scraperName, item.scraperID, item.scraperData)
  }

  /** ScraperScanConfig. */
  datatype ScanConfig = ScanConfig(
    autoAdd: bool,
    addUnknown: bool,
    enable3DScan: bool,
    maxConcurrentScans: int)

  /** One entry of a directory listing. */
  datatype DirEntry = DirEntry(name: string, isDir: bool)

  /**
   * The file system as the scanner sees it: the listing of the library root
   * (by absolute path), the files below each show folder (by the folder's
   * absolute path, relative to it), and the library-relative paths that are
   * video files.
   */
  datatype FileSystem = FileSystem(
    dirs: map<string, seq<DirEntry>>,
    files: map<string, seq<string>>,
    videos: set<string>)

  /** os.ReadDir: None when the directory cannot be read. */
  function ReadDir(fs: FileSystem, dir: string): Option<seq<DirEntry>>
  {
    if dir in fs.dirs then Some(fs.dirs[dir]) else None
  }

  /** ListFiles on a show folder: the files below it, relative to it. */
  function ListFiles(fs: FileSystem, showPath: string): seq<string>
  {
    if showPath in fs.files then fs.files[showPath] else []
  }

  /** file.IsVideo. */
  predicate IsVideo(fs: FileSystem, path: string)
  {
    path in fs.videos
  }

  /** filepath.Join of a show folder and a relative file name. */
  function JoinPath(dir: string, name: string): string
  {
    if dir == "" then name else dir + "/" + name
  }
}
