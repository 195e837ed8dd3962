/**
 * The TV-show scanner object. Its methods perform the store writes step by
 * step, as the scanner does, and each is proved to leave the store in the
 * state its TVShowSpec function describes.
 */
module TVShow {
  import opened Wrappers
  import opened Common
  import opened Database
  import opened Filename
  import opened Util
  import opened TVShowSpec

  /**
   * What plugin loading hands the scanner: the providers by name, their order
   * of preference, and the scoring and calendar functions it uses.
   */
  datatype Registry = Registry(
    providers: map<string, Provider>,
    names: seq<string>,
    score: (string, string) -> int,
    yearOf: int -> int)

  class TVSScraper {
    const mediaType: MediaType
    const db: Catalog
    const providers: map<string, Provider>
    const providerNames: seq<string>
    const score: (string, string) -> int
    const yearOf: int -> int
    var idLib: int
    var libPath: string
    var autoAdd: bool
    var addUnknown: bool

    /** The scraper's settings as the spec functions read them. */
    function Settings(): Ctx
      reads this
    {
      Ctx(db.failing, providers, providerNames, idLib, libPath, autoAdd, addUnknown, score, yearOf)
    }

    /** NewTVSScraper: library 0, auto-add off, unknown episodes added. */
    constructor (db: Catalog, reg: Registry)
      ensures this.db == db && mediaType == Tvs
      ensures providers == reg.providers && providerNames == reg.names
      ensures score == reg.score && yearOf == reg.yearOf
      ensures idLib == 0 && libPath == "" && !autoAdd && addUnknown
    {
      mediaType := Tvs;
      this.db := db;
      providers := reg.providers;
      providerNames := reg.names;
      score := reg.score;
      yearOf := reg.yearOf;
      idLib := 0;
      libPath := "";
      autoAdd := false;
      addUnknown := true;
    }

    /** Scan. The concurrent branch runs the same per-entry step; it is modelled by its serial schedule. */
    method Scan(idlib: int, conf: ScanConfig, fs: FileSystem) returns (out: Outcome)
      modifies this, db
      ensures ScanResult(db.st, Settings(), out) == ScanSpec(old(Settings()), fs, old(db.st), idlib, conf)
    {
      idLib := idlib;
      autoAdd := conf.autoAdd;
      addUnknown := conf.addUnknown;
      var lib := GetLibrary(db.st, db.failing, idLib);
      if lib.None? {
        return Fail(LibraryLookupFailed);
      }
      libPath := lib.value;
      var tvsData := ListShow(db.st, db.failing);
      if tvsData.None? {
        return Fail(StoreFailed(ListShowOp));
      }
      var shows := tvsData.value;
      var tvsPaths: seq<string> := [];
      for i := 0 to |shows|
        invariant tvsPaths == ShowPaths(shows[..i])
      {
        tvsPaths := tvsPaths + [shows[i].path];
      }
      assert shows[..|shows|] == shows;
      var items := ReadDir(fs, libPath);
      if items.None? {
        return Fail(ReadDirFailed);
      }
      var entries := items.value;
      ghost var st0 := db.st;
      for i := 0 to |entries|
        modifies db
        invariant db.st == ItemsFold(Settings(), fs, st0, entries[..i], shows)
      {
        assert entries[..i + 1][..i] == entries[..i];
        var logged := ProcessItemScan(fs, entries[i], tvsPaths, shows);
      }
      assert entries[..|entries|] == entries;
      out := Pass;
    }

    /** processItemScan; the outcome is the error it logs. */
    method ProcessItemScan(fs: FileSystem, entry: DirEntry, tvsPaths: seq<string>, tvsData: seq<ShowRow>)
      returns (logged: Outcome)
      requires tvsPaths == ShowPaths(tvsData)
      modifies db
      ensures (db.st, logged) == ProcessItemSpec(Settings(), fs, old(db.st), entry, tvsData)
    {
      if !entry.isDir {
        return Pass;
      }
      var currentShow := IndexOf(tvsPaths, entry.name);
      var data := EmptyShow;
      var out := Pass;
      if currentShow > -1 {
        data := tvsData[currentShow];
        if data.updateMode > 0 {
          if data.scraperID == "" || data.scraperName == "" || data.scraperName == " " {
            data, out := AddTVS(data);
          } else {
            data, out := UpdateTVS(data);
          }
        }
      } else {
        data := data.(title := entry.name);
        data, out := AddTVS(data);
      }
      if out == Pass && data.scraperID != "" {
        out := UpdateTVSEpisodes(fs, data);
      }
      logged := out;
    }

    /** addTVS. */
    method AddTVS(data: ShowRow) returns (res: ShowRow, out: Outcome)
      modifies db
      ensures ShowResult(db.st, res, out) == AddTVSSpec(Settings(), old(db.st), data)
    {
      var searchResults: seq<SearchData> := [];
      for i := 0 to |providerNames|
        invariant searchResults == SearchResults(providers, providerNames[..i], data.title)
      {
        assert providerNames[..i + 1][..i] == providerNames[..i];
        var name := providerNames[i];
        if name in providers {
          var found := SearchTVS(providers[name], data.title);
          if found.Some? {
            searchResults := searchResults + found.value;
          }
        }
      }
      assert providerNames[..|providerNames|] == providerNames;
      if |searchResults| == 0 && !addUnknown {
        return data, Fail(NoData(data.title));
      }
      res := data;
      if data.id == 0 {
        var rep := db.Exec(InsertShow(data.title, idLib));
        if rep.Failed? {
          return data, Fail(StoreFailed(AddShowOp));
        }
        res := res.(id := rep.id);
      }
      if autoAdd {
        var selected := SelectBestItem(searchResults, res.title, 0, score, yearOf);
        if selected.Some? {
          var sel := selected.value;
          var ignored := UpdateWithSelectionResult(res.id, SelectionOf(sel));
          res := res.(scraperID := sel.scraperID, scraperName := sel.scraperName,
                      scraperData := sel.scraperData, path := res.title);
          res, out := UpdateTVS(res);
          return;
        }
      }
      var ignored := AddMultipleResults(db, Tvs, res.id, searchResults, res.title);
      out := Pass;
    }

    /** updateTVS. */
    method UpdateTVS(data: ShowRow) returns (res: ShowRow, out: Outcome)
      modifies db
      ensures ShowResult(db.st, res, out) == UpdateTVSSpec(Settings(), old(db.st), data)
    {
      var provider := ProviderFromName(providers, data.scraperName);
      if provider.None? {
        return data, Fail(ProviderNotFound(data.scraperName));
      }
      var p := provider.value;
      var cfg := ConfigOf(data);
      var tvsData := GetTVS(p, cfg);
      if tvsData.None? {
        return data, Fail(ProviderCallFailed);
      }
      var d := tvsData.value;
      var rep := db.Exec(SetShowMetadata(data.id, d));
      if rep.Failed? {
        return data, Fail(StoreFailed(UpdateShowOp));
      }
      res := data.(title := d.title, scraperData := d.info.data, premiered := d.premiered);

      var tagData := ListTVSTag(p, cfg);
      if tagData.None? {
        return res, Fail(ProviderCallFailed);
      }
      var tags := tagData.value;
      ghost var st1 := db.st;
      for i := 0 to |tags|
        invariant db.st == AddTags(st1, db.failing, data.id, tags[..i])
      {
        assert tags[..i + 1][..i] == tags[..i];
        var ignored := AddTag(db, Tvs, data.id, tags[i]);
      }
      assert tags[..|tags|] == tags;

      var persData := ListTVSPerson(p, cfg);
      if persData.None? {
        return res, Fail(ProviderCallFailed);
      }
      var people := persData.value;
      ghost var st2 := db.st;
      for i := 0 to |people|
        invariant db.st == AddPeople(st2, db.failing, data.id, people[..i])
      {
        assert people[..i + 1][..i] == people[..i];
        var ignored := AddPerson(db, Tvs, data.id, people[i]);
      }
      assert people[..|people|] == people;
      out := Pass;
    }

    /** updateTVSEpisodes. */
    method UpdateTVSEpisodes(fs: FileSystem, data: ShowRow) returns (out: Outcome)
      modifies db
      ensures (db.st, out) == EpisodesSpec(Settings(), fs, old(db.st), data)
    {
      var provider := ProviderFromName(providers, data.scraperName);
      if provider.None? {
        return Fail(ProviderNotFound(data.scraperName));
      }
      var p := provider.value;
      var cfg := ConfigOf(data);
      var seasons;
      seasons, out := UpdateTVSSeasons(p, cfg, data.id);
      if out.Fail? {
        return;
      }
      var files := ListFiles(fs, JoinPath(libPath, data.path));
      ghost var st1 := db.st;
      ghost var seasons0 := seasons;
      for i := 0 to |files|
        invariant (db.st, seasons) == EpisodeFold(Settings(), fs, st1, p, cfg, seasons0, data.path, files[..i], data.id)
      {
        assert files[..i + 1][..i] == files[..i];
        var path := JoinPath(data.path, files[i]);
        if IsVideo(fs, path) {
          seasons := UpdateTVSEpisode(p, cfg, seasons, path, data.id);
        }
      }
      assert files[..|files|] == files;
      out := Pass;
    }

    /** updateTVSSeasons: `p` is the provider configured with `cfg`. */
    method UpdateTVSSeasons(p: Provider, cfg: ProviderConfig, idShow: int) returns (seasons: seq<int>, out: Outcome)
      modifies db
      ensures (db.st, seasons, out) == SeasonsSpec(old(db.st), db.failing, p, cfg, idShow)
    {
      var seasonData := ListShowSeason(db.st, db.failing, idShow);
      if seasonData.None? {
        return [], Fail(StoreFailed(ListShowSeasonOp));
      }
      var rows := seasonData.value;
      ghost var st0 := db.st;
      seasons := [];
      for i := 0 to |rows|
        invariant db.st == RefreshSeasons(st0, db.failing, p, cfg, idShow, rows[..i])
        invariant seasons == SeasonNumbers(rows[..i])
      {
        assert rows[..i + 1][..i] == rows[..i];
        if rows[i].updateMode > 0 {
          var d := GetTVSSeason(p, cfg, rows[i].season);
          if d.Some? {
            var ignored := db.Exec(SetSeasonMetadata(idShow, rows[i].season, d.value));
          }
        }
        seasons := seasons + [rows[i].season];
      }
      assert rows[..|rows|] == rows;
      out := Pass;
    }

    /** updateTVSEpisode: `seasons` is the show's season list, returned grown when a season is added. */
    method UpdateTVSEpisode(p: Provider, cfg: ProviderConfig, seasons: seq<int>, path: string, idShow: int)
      returns (newSeasons: seq<int>)
      modifies db
      ensures (db.st, newSeasons) == EpisodeStep(Settings(), old(db.st), p, cfg, seasons, path, idShow)
    {
      newSeasons := seasons;
      var filename := BaseName(path);
      var videoData := GetVideoFileFromPath(db.st, db.failing, idLib, path);
      if videoData.Some? {
        var episodeData := GetShowEpisode(db.st, db.failing, videoData.value.mediaData);
        if episodeData.Some? && episodeData.value.updateMode > 0 {
          var e := episodeData.value;
          var epData := GetTVSEpisode(p, cfg, e.season, e.episode);
          if epData.Some? {
            var ignored := db.Exec(SetEpisodeMetadata(e.id, epData.value));
          }
        }
        return;
      }
      var numbers := ExtractNumbers(filename);
      if numbers.None? {
        return;
      }
      var (season, episode) := numbers.value;
      if season !in seasons {
        var seasonData := GetTVSSeason(p, cfg, season);
        if seasonData.Some? {
          var d := seasonData.value;
          var ignored := db.Exec(InsertSeason(SeasonRow(idShow, season, d.title, d.display, d.premiered, d.info, -1)));
        } else {
          var ignored := db.Exec(InsertSeason(SeasonRow(idShow, season, "Season " + DecimalString(season), "", 0, NoInfo, -1)));
        }
        newSeasons := seasons + [season];
      }
      var epData := GetTVSEpisode(p, cfg, season, episode);
      if epData.Some? {
        var d := epData.value;
        var rep := db.Exec(InsertEpisode(EpisodeRow(0, idShow, season, episode, d.title, d.display, d.premiered, d.info, -1)));
        if rep.Done? {
          var ignored := db.Exec(InsertVideoFile(idLib, path, VideoFile(TvsEpisode, rep.id)));
        }
      } else if addUnknown {
        var rep := db.Exec(InsertEpisode(EpisodeRow(0, idShow, season, episode, filename, "", 0, NoInfo, -1)));
        if rep.Done? {
          var ignored := db.Exec(InsertVideoFile(idLib, path, VideoFile(TvsEpisode, rep.id)));
        }
      }
    }

    /** UpdateWithSelectionResult. */
    method UpdateWithSelectionResult(id: int, selection: SelectionResult) returns (out: Outcome)
      modifies db
      ensures (db.st, out) == SelectionSpec(old(db.st), db.failing, id, selection)
    {
      ghost var ws := SelectionWrites(id, selection);
      ghost var st0 := db.st;
      var rep := db.Exec(SetShowBinding(id, selection));
      if rep.Failed? {
        return Fail(StoreFailed(UpdateShowOp));
      }
      assert RunWrites(st0, db.failing, ws) == RunWrites(db.st, db.failing, ws[1..]);
      rep := db.Exec(ResetSeasons(id));
      if rep.Failed? {
        return Fail(StoreFailed(UpdateShowAllSeasonsOp));
      }
      assert RunWrites(st0, db.failing, ws) == RunWrites(db.st, db.failing, ws[2..]);
      rep := db.Exec(ResetEpisodes(id));
      if rep.Failed? {
        return Fail(StoreFailed(UpdateShowAllEpisodesOp));
      }
      assert RunWrites(st0, db.failing, ws) == RunWrites(db.st, db.failing, ws[3..]);
      rep := db.Exec(PurgeTagLinks(Tvs, id));
      if rep.Failed? {
        return Fail(StoreFailed(DeleteAllTagLinksOp));
      }
      assert RunWrites(st0, db.failing, ws) == RunWrites(db.st, db.failing, ws[4..]);
      rep := db.Exec(PurgePersonLinks(Tvs, id));
      if rep.Failed? {
        return Fail(StoreFailed(DeleteAllPersonLinksOp));
      }
      assert RunWrites(st0, db.failing, ws) == RunWrites(db.st, db.failing, ws[5..]);
      out := Pass;
    }
  }
}
