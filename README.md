# TV-show metadata scanner, modelled in Dafny

This project models the scanner of the Zogwine metadata service (package
`internal/providers`). The scanner walks a TV-show library folder. For every
show folder it either searches the registered metadata providers for the
show, or refreshes a show it already knows. It then reconciles the show's
seasons and episodes with the video files found below the folder. The model
also covers the helpers the scanner shares with the rest of the service:
fuzzy best-candidate selection, scraper configuration listing, storing and
applying candidate batches, tag and person linking, and the media-type
dispatch of `StartScan`.

The relational store is a value (`Database.Store`) held by a `Catalog`
object, and every write goes through one dispatcher (`Database.Apply`). A
store failure is modelled per operation kind: an operation named in the
catalog's `failing` set always fails. A failing read returns nothing, and a
failing write leaves the store unchanged and reports the error. A provider
plugin is a table of its answers keyed by the binding it is configured with;
a missing key is a provider call that returns an error. The clock, the file
system and the fuzzy-matching score are parameters.

Modules:

- `Wrappers`, `Common`: options and outcomes; the values exchanged with providers.
- `Database`: the tables, the queries the scanner issues, the write dispatcher and `Catalog`.
- `Filename`: the two season/episode regular expressions of `NewTVSScraper`, and `path.Base`.
- `Util`: `util.go`.
- `TVShowSpec`: every routine of `tvshow.go` as a function of the store.
- `TVShow`: the scraper object. Each routine is an imperative method, proved equal to its `TVShowSpec` function.
- `TVShowProperties`: what the routines promise, proved about those functions.
- `Scraper`: `scraper.go` and the media-type dispatch in `util.go`.

## Model

| member | source | states |
|---|---|---|
| Filename.DecimalRoundTrip | internal/providers/tvshow.go:446 | the decimal text of a season number (`strconv.Itoa`) reads back as that number (`strconv.Atoi`) |
| Filename.RunEnd | internal/providers/tvshow.go:76-77 | the end of the greedy `\d+` run from `i`: only digits before it, and the end of the name or a non-digit at it |
| Filename.RunEndUnique | internal/providers/tvshow.go:76-77 | any maximal digit run starting at `i` ends where RunEnd says |
| Filename.SeasonTokenAt | internal/providers/tvshow.go:76 | a token found at `i` is a match of `(?i)s(\d+)e` there |
| Filename.EpisodeAt | internal/providers/tvshow.go:77 | a token found at `i` is a match of `(?i)s\d+e(\d+)` there |
| Filename.SeasonTokenComplete | internal/providers/tvshow.go:76 | every season match at `i` is found at `i` |
| Filename.EpisodeAtComplete | internal/providers/tvshow.go:77 | every episode match at `i` is found at `i` |
| Filename.SeasonFromLeftmost | internal/providers/tvshow.go:414 | the season search returns the number of the leftmost match |
| Filename.SeasonFromNone | internal/providers/tvshow.go:414 | with no match the season search returns nothing |
| Filename.EpisodeFromLeftmost | internal/providers/tvshow.go:415 | the episode search returns the number of the leftmost match |
| Filename.EpisodeFromNone | internal/providers/tvshow.go:415 | with no match the episode search returns nothing |
| Filename.ExtractNumbersLeftmost | internal/providers/tvshow.go:414-419 | the pair read from a name is (leftmost season match, leftmost episode match) |
| Filename.ExtractNumbersNone | internal/providers/tvshow.go:417 | a name without an `sNNeNN` token yields no pair |
| Filename.AfterLastSlash | internal/providers/tvshow.go:377 | the base name holds no slash |
| Filename.AfterLastSlashOfName | internal/providers/tvshow.go:377 | the part after the last slash of `dir/name` is `name` |
| Filename.BaseNameOfJoin | internal/providers/tvshow.go:322-328 | the base name of a joined file path is the file's own name |
| Filename.MatchStart | internal/providers/tvshow.go:76-77 | a match starts with an `s` (either case, or U+017F, which Go's case folding treats as `s`) followed by a digit |
| Filename.NoMatchBefore | internal/providers/tvshow.go:76-77 | without an `s`+digit before `to`, no season or episode match starts there |
| Filename.ExampleSeasonEpisode | internal/providers/tvshow.go:414-419 | `Show.Name.S02E05.mkv` gives season 2, episode 5 |
| Filename.ExampleNoSeasonToken | internal/providers/tvshow.go:414-419 | `Show.Name.Episode5.mkv` gives no pair |
| Util.IndexOf | internal/providers/tvshow.go:146 | -1 exactly when the value is absent; otherwise the first position holding it |
| Util.OfYear | internal/providers/util.go:33-38 | keeps exactly the candidates premiered in the requested year, and no more candidates than given |
| Util.OfYearAppend | internal/providers/util.go:33-38 | the year filter distributes over concatenation, so it keeps the candidates in their order |
| Util.OfYearSingleton | internal/providers/util.go:34-36 | one candidate is kept exactly when it premiered in the requested year |
| Util.Titles | internal/providers/util.go:43-46 | one name per candidate, in order |
| Util.BestIndex | internal/providers/util.go:48 | the position of a best-scoring name; every earlier name scores strictly less |
| Util.SelectBestItem | internal/providers/util.go:30-55 | the loops compute BestItem, and a selected candidate is one of the inputs |
| Util.BestItemAccepts | internal/providers/util.go:50-54 | a candidate is selected exactly when some candidate of the year scores above 85 |
| Util.BestItemIsFirstBest | internal/providers/util.go:33-51 | the selected candidate is an input of the year, scores above 85, has the best score, and is the first with it |
| Util.UniqueTopScoreIsSelected | internal/providers/util.go:48-51 | the only candidate with a perfect score is the one selected |
| Util.ConfigurationOfReadable | internal/providers/util.go:68-80 | with readable settings: no error, the names are the enabled providers in store order, the map has exactly those names, and each name maps to the settings of its last enabled row |
| Util.ConfigurationOfStops | internal/providers/util.go:72-75 | once a row's settings cannot be read, later rows change nothing |
| Util.ListScraperConfiguration | internal/providers/util.go:58-81 | a failed listing gives empty results and the error; otherwise the loop computes ConfigurationOf the type's rows, stopping at the first unreadable settings with that provider already named |
| Util.AddResultsSpec | internal/providers/util.go:85-98 | success exactly when neither write fails; success replaces the batch of the media; a failed delete changes nothing; a failed insert leaves the batch deleted |
| Util.AddMultipleResults | internal/providers/util.go:85-98 | the method's writes leave the store AddResultsSpec describes |
| Util.AddTagSpec | internal/providers/util.go:139-156 | only tag tables change; an existing tag is reused and, on success, linked to the media; a new tag is appended as exactly one row under the next identifier and, on success, linked; a failed creation changes nothing; every new link targets a tag with that name and value |
| Util.AddTag | internal/providers/util.go:139-156 | the method's writes leave the store AddTagSpec describes |
| Util.AddPersonSpec | internal/providers/util.go:160-177 | as AddTagSpec, for people matched by name: an existing person is linked; a new person is appended as exactly one row under the next identifier |
| Util.AddPerson | internal/providers/util.go:160-177 | the method's writes leave the store AddPersonSpec describes |
| TVShowSpec.ProviderFromName | internal/providers/tvshow.go:38-45 | a provider exactly when the name is registered, and it is the registered one |
| TVShowSpec.SeasonNumbers | internal/providers/tvshow.go:368 | one season number per row, in order |
| TVShowSpec.SeasonsSpec | internal/providers/tvshow.go:334-371 | no error exactly when the season list can be read; then the numbers of the show's seasons as listed; on error, no write and an empty list |
| TVShowSpec.ShowPaths | internal/providers/tvshow.go:105-108 | one path per known show, in order |
| TVShowSpec.Decide | internal/providers/tvshow.go:144-174 | files are ignored; a folder no show has as path is new; otherwise the first show with that path is kept when its updates are off, searched again when unbound, refreshed when bound |
| TVShow.TVSScraper.constructor | internal/providers/tvshow.go:75-84 | a new scraper starts with library 0, auto-add off and unknown episodes added |
| TVShow.TVSScraper.Scan | internal/providers/tvshow.go:86-138 | the settings and the store after the scan are those ScanSpec describes |
| TVShow.TVSScraper.ProcessItemScan | internal/providers/tvshow.go:141-186 | the store and the logged error are those ProcessItemSpec describes |
| TVShow.TVSScraper.AddTVS | internal/providers/tvshow.go:188-241 | the store, returned show and error are those AddTVSSpec describes |
| TVShow.TVSScraper.UpdateTVS | internal/providers/tvshow.go:244-298 | the store, returned show and error are those UpdateTVSSpec describes |
| TVShow.TVSScraper.UpdateTVSEpisodes | internal/providers/tvshow.go:301-331 | the store and error are those EpisodesSpec describes |
| TVShow.TVSScraper.UpdateTVSSeasons | internal/providers/tvshow.go:334-371 | the store, season list and error are those SeasonsSpec describes |
| TVShow.TVSScraper.UpdateTVSEpisode | internal/providers/tvshow.go:375-514 | the store and the grown season list are those EpisodeStep describes |
| TVShow.TVSScraper.UpdateWithSelectionResult | internal/providers/tvshow.go:516-543 | the store and error are those SelectionSpec describes |
| TVShowProperties.SearchResultsAppend | internal/providers/tvshow.go:194-199 | searching a list of providers is searching each part in turn |
| TVShowProperties.SearchResultsOrigin | internal/providers/tvshow.go:194-199 | a candidate is gathered exactly when a listed, registered provider's search returns it |
| TVShowProperties.RunWritesStopsAtFirstFailure | internal/providers/tvshow.go:516-543 | a write sequence stops at its first failing write, reporting it; only earlier writes take effect |
| TVShowProperties.RunWritesAllPass | internal/providers/tvshow.go:516-543 | when no write fails, all take effect and the sequence succeeds |
| TVShowProperties.SelectionOrder | internal/providers/tvshow.go:519-541 | bind, reset seasons, reset episodes, purge tag links, purge person links, in that order; the first failure is reported and nothing after it runs |
| TVShowProperties.SelectionSucceeds | internal/providers/tvshow.go:516-543 | the selection succeeds exactly when none of its five operations fails |
| TVShowProperties.SelectionResets | internal/providers/tvshow.go:519-541 | after success the show carries the new binding and update mode 1, its seasons and episodes carry the binding " "/"0" and update mode 1, it has no tag or person link, and nothing else changed |
| TVShowProperties.AddTagsTouchesTags | internal/providers/tvshow.go:284-286 | linking tags touches only the tag tables and the identifier counter |
| TVShowProperties.AddPeopleTouchesPeople | internal/providers/tvshow.go:293-295 | linking people touches only the person tables and the identifier counter |
| TVShowProperties.ApplyKeepsShowIds | internal/providers/tvshow.go:205-216 | only a show insert adds a show row; no write changes a show's identifier, library or path |
| TVShowProperties.RunWritesKeeps | internal/providers/tvshow.go:516-543 | the selection keeps every show's identifier, library and path, and every candidate batch |
| TVShowProperties.UpdateTVSKeeps | internal/providers/tvshow.go:244-298 | updateTVS keeps every show's identifier, library and path, and changes only the title, data and premiere date of the row it returns |
| TVShowProperties.UpdateTVSWritesSentinel | internal/providers/tvshow.go:257-277 | a successful write gives the show the provider's record and update mode -1, leaves other shows alone, and returns the row with the new title, data and premiere date |
| TVShowProperties.FrozenShowIsKept | internal/providers/tvshow.go:151-168 | a known folder whose first matching show has updates off gets no show-level call |
| TVShowProperties.AddTVSInsertsOnce | internal/providers/tvshow.go:201-216 | no candidates without AddUnknown: no write and the "no data" error; a known show is not inserted again; a new show is inserted exactly once, under the next identifier, with its title and library and an empty path, or the insert error is returned |
| TVShowProperties.AddTVSStoresCandidates | internal/providers/tvshow.go:218-240 | without an automatic pick, the candidates are stored for a manual choice and the show is returned unbound, without error |
| TVShowProperties.AddTVSBindsBestCandidate | internal/providers/tvshow.go:218-230 | with an automatic pick, the returned show carries the picked candidate's binding and its title as path; when the selection's writes succeed and the chosen provider has the show, the stored row carries the candidate's binding, the provider's title, display, premiere date, data and link, and update mode -1 |
| TVShowProperties.RefreshSeasonsShape | internal/providers/tvshow.go:341-369 | the refresh changes only season rows, keeps each row's show and number, and a changed row belongs to the show, has update mode -1, and has the number of a snapshot row due for update |
| TVShowProperties.RefreshSeasonsMarks | internal/providers/tvshow.go:342-362 | a season due for update that the provider knows is marked -1 |
| TVShowProperties.RefreshSeasonsIdle | internal/providers/tvshow.go:342 | with nothing due for update, nothing is written |
| TVShowProperties.SeasonsSpecSettles | internal/providers/tvshow.go:334-371 | when the provider has every due season, a second refresh writes nothing |
| TVShowProperties.EpisodeStepList | internal/providers/tvshow.go:421-458 | one file adds at most one season number, new to the list |
| TVShowProperties.NewSeasonRowCases | internal/providers/tvshow.go:425-448 | a discovered season gets the provider's record, or else the title "Season N" (whose digits read back as N) with no binding; either way it belongs to the show with update mode -1 |
| TVShowProperties.EpisodeStepSeasons | internal/providers/tvshow.go:375-514 | one file grows the season table by the row of the number it adds (unless the insert fails), that row being the discovered-season row of that number, and touches only seasons, episodes and video files |
| TVShowProperties.EpisodeFoldList | internal/providers/tvshow.go:322-328 | over a folder the season list only grows, by new numbers, so it stays duplicate-free |
| TVShowProperties.EpisodeFoldTable | internal/providers/tvshow.go:322-328 | over a folder the season table grows by one row of the show per number added, in order, each the discovered-season row of its number |
| TVShowProperties.CreateEpisodeEffect | internal/providers/tvshow.go:461-509 | no row, no write; otherwise the episode gets the next identifier and the file is registered against it; no file entry without its episode |
| TVShowProperties.EpisodeCreation | internal/providers/tvshow.go:461-509 | a new file gets an episode with the provider's record, or one titled with the file name when unknown episodes are added, or nothing; no file entry without its episode |
| TVShowProperties.NoPairNoWrite | internal/providers/tvshow.go:510-511 | a new file without a season/episode pair causes no write |
| TVShowProperties.ExampleNumbersFromBaseName | internal/providers/tvshow.go:377-419 | the numbers come from the base name; the folder name takes no part |
| TVShowProperties.ExampleEpisodeWithoutSeasonWritesNothing | internal/providers/tvshow.go:510-511 | a new file named `Show.Name.Episode5.mkv` causes no write |
| TVShowProperties.EpisodeByIdAfterRefresh | internal/providers/tvshow.go:389-402 | after refreshing episode `id`, its lookup returns the refreshed row |
| TVShowProperties.LinkedEpisodeRefresh | internal/providers/tvshow.go:380-408 | a known file refreshes its episode only when the episode's update mode is positive and the provider knows it; the refresh sets update mode -1 on that episode only |
| TVShowProperties.EpisodeRefreshSettles | internal/providers/tvshow.go:380-408 | refreshing a known file's episode a second time writes nothing |
| TVShowProperties.ItemsFoldAppend | internal/providers/tvshow.go:116-119 | the entries are processed in listing order, each once, against the same show list |
| TVShowProperties.ItemsFoldSkipsFiles | internal/providers/tvshow.go:144 | entries that are not folders are ignored |
| TVShowProperties.ProcessItemGates | internal/providers/tvshow.go:141-186 | a file is ignored; a folder runs no show-level call when its show's updates are off, addTVS when unbound or new, updateTVS when bound; the episodes are reconciled exactly when that call succeeds and leaves the show bound, and otherwise its result is the routine's |
| TVShowProperties.EpisodesKeepShows | internal/providers/tvshow.go:301-331 | reconciling episodes does not change the show table |
| TVShowProperties.DiscoveredFolderStaysNew | internal/providers/tvshow.go:170-174 | as the show row stores no path, a discovered folder is still unknown to the next scan's decision, whatever processing it got |
| TVShowProperties.DiscoverAddsOneShow | internal/providers/tvshow.go:170-174 | a new folder that passes the "no data" check, and whose insert succeeds, adds exactly one show row, the inserted one |
| TVShowProperties.RescanInsertsShowAgain | internal/providers/tvshow.go:205-216 | as written, processing the same new folder in two scans adds two show rows |
| TVShowProperties.KnownFolderAddsNoShow | internal/providers/tvshow.go:151-168 | a folder known by a show row (with an identifier, when searched again) adds no show row |
| TVShowProperties.RecordedPathIsKnown | internal/providers/tvshow.go:141-186 | when the new row records the folder as its path, the folder gets one row, the next decision finds that row, and processing it again adds none |
| TVShowProperties.ScanFailsOnlyEarly | internal/providers/tvshow.go:86-138 | the scan fails, writing nothing, exactly when the library, the show list or the library folder cannot be read |
| TVShowProperties.ScanIgnores3D | internal/providers/tvshow.go:86-138 | the 3D switch does not change what a scan does |
| Scraper.StartScan | internal/providers/scraper.go:17-29 | the store and error are those StartScanSpec describes |
| Scraper.StartScanDispatch | internal/providers/scraper.go:19-28 | a non-TV type is unsupported; a TV scan without a library fails before anything runs; otherwise it is a fresh scraper's Scan |
| Scraper.StartScanIgnores3D | internal/providers/scraper.go:13 | the 3D switch does not change what StartScan does |
| Scraper.GetScraperFromMediaType | internal/providers/util.go:179-186 | a new TV-show scraper on the same store exactly for the TV type; otherwise the error |
| Scraper.IdGuardAdmitsOutOfRange | internal/providers/util.go:125 | the index check as written accepts the index one past the end and -1, neither of them valid |
| Scraper.IdGuardAdmitsValid | internal/providers/util.go:125 | the index check as written accepts every valid index |
| Scraper.SelectScraperResultChecked | internal/providers/util.go:102-135 | an invalid index is rejected with no write; a valid one behaves as the code as written |
| Scraper.SelectScraperResult | internal/providers/util.go:102-135 | the store, the returned candidate and the error are those SelectScraperResultSpec describes |
| Scraper.SelectScraperResultApplies | internal/providers/util.go:116-134 | with a valid index, success returns candidate `id`, binds the show to it and deletes the batch; a failure before the delete keeps the batch; "invalid id" never arises |

## Left out

- Plugin loading (`loadTVSPlugins`, tvshow.go:47-73) runs an interpreter over provider sources. The model takes its result as a `Registry`: providers by name and their order.
- A provider name that is not registered is skipped by the search loop (tvshow.go:195). In the source this is a nil-pointer call, which cannot happen after plugin loading succeeded.
- Fuzzy matching (`fuzzy.ExtractOne`) is a score function parameter. Among equally scored names it is taken to return the first. Its error on an empty list is modelled as "no selection".
- The premiere year (`time.Unix(..).Year()`) is a function parameter. Timestamps written to the store (`AddDate`, `UpdateDate`) are not modelled.
- JSON encoding and decoding of candidate batches and scraper settings: a batch is stored as its sequence of candidates. Unreadable settings are `None`. A batch that cannot be decoded is not modelled.
- Logging is not modelled. processItemScan logs the error of its show-level call or of updateTVSEpisodes; the model returns that error as its outcome. The errors updateTVSSeasons logs per season (a failed provider call or write) and those updateTVSEpisode logs per file are dropped, and EpisodeStep returns no outcome.
- The SQL queries are not part of this model. Each is a function of the store. A show update writes only the columns the call names. `AddShow` records the title, the library and the store's default update mode, with an empty path; the schema's own column defaults are not modelled. Uniqueness constraints of the schema are not modelled.
- `file.UpdateVideoFile` (tvshow.go:386) and the file-metadata part of `file.AddVideoFile` are not part of this model. Registering a file is one video-file entry.
- `filepath.Join` path cleaning and `ListFiles` recursion are not modelled. The file system is a table of folder listings and video paths.
- `strconv.Atoi` overflow on very long digit runs is not modelled: numbers are unbounded.
- TVShow.TVSScraper.Scan: the concurrent branch (`MaxConcurrentScans >= 2`) is modelled by its serial schedule. Interleavings of the goroutines over the shared store are not modelled.
- `Enable3DScan` is accepted and has no effect, as in the source (TVShowProperties.ScanIgnores3D).
- TVShowProperties.ScanIgnores3D: says nothing of `MaxConcurrentScans`. The model has no concurrency, so the limit is not an input of the scan.
- TVShow.TVSScraper.AddTVS: the path Title is set on the returned row only (tvshow.go:228). `AddShowParams` (tvshow.go:208-212) carries no path, and no later write stores one, so the stored show keeps an empty path. A rescan then decides that folder is new again (TVShowProperties.DiscoveredFolderStaysNew) and inserts it again (see Findings). Whether the SQL of `AddShow` fills the path in is not part of this model.
- Database.Apply: `InsertShow` stores an empty path, for the reason given for TVShow.TVSScraper.AddTVS.
- The HTTP server that calls these routines is not part of this model.

## Findings

| source | as written | input that shows it | evidently intended | confidence | as-written member | corrected member |
|---|---|---|---|---|---|---|
| internal/providers/tvshow.go:205-216 | `AddShow` gets only the title, library and add date. The path by which processItemScan recognises a show (line 146) is set on the returned copy only (line 228), and no write stores it | a library folder `Foo` with one search result: the first scan inserts a show for it; the second finds no show at path `Foo` and inserts another | store the folder name as the new show's path, so that a rescan finds the show | not executed; the SQL of `AddShow` is not part of this model and may fill the path in | TVShowProperties.RescanInsertsShowAgain | TVShowProperties.RecordedPathIsKnown |
| internal/providers/util.go:120-127 | the candidate at `id` is read and applied to the show at line 120, before the check at line 125; that check `len(searchData) < id` also lets through `id == len` and negative `id` | a batch of 3 candidates with `id == 3` or `id == -1`: the check passes, and the read at line 120 is out of range | reject `id` unless `0 <= id < len(searchData)`, before anything is read or written | not executed | Scraper.IdGuardAdmitsOutOfRange | Scraper.SelectScraperResultChecked |

For the first row, the corrected processing is `TVShowSpec.ProcessItemRecordingPathSpec`. The scan itself keeps the insert as written, because the fix belongs in the SQL of `AddShow`, which is not part of this model.
