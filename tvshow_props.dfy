/** Properties of the TV-show scanner, proved about the functions of TVShowSpec. */
module TVShowProperties {
  import opened Wrappers
  import opened Common
  import opened Database
  import opened Filename
  import opened Util
  import opened TVShowSpec

  // ---------------------------------------------------------------- provider search

  /** Searching a list of providers is searching each part in turn. */
  lemma {:induction false} SearchResultsAppend(providers: map<string, Provider>, a: seq<string>, b: seq<string>, title: string)
    ensures SearchResults(providers, a + b, title) == SearchResults(providers, a, title) + SearchResults(providers, b, title)
    decreases |b|
  {
    if b == [] {
      assert a + b == a;
    } else {
      var b' := b[..|b| - 1];
      assert (a + b)[..|a + b| - 1] == a + b';
      assert (a + b)[|a + b| - 1] == b[|b| - 1];
      SearchResultsAppend(providers, a, b', title);
    }
  }

  /** A candidate is gathered exactly when a listed, registered provider's search returns it. */
  lemma {:induction false} SearchResultsOrigin(providers: map<string, Provider>, names: seq<string>, title: string, x: SearchData)
    ensures x in SearchResults(providers, names, title) <==>
      exists i :: 0 <= i < |names| && names[i] in providers && SearchTVS(providers[names[i]], title).Some?
        && x in SearchTVS(providers[names[i]], title).value
    decreases |names|
  {
    if names != [] {
      var init := names[..|names| - 1];
      SearchResultsOrigin(providers, init, title, x);
      if x in SearchResults(providers, names, title) {
        if x !in SearchResults(providers, init, title) {
          assert x in SearchTVS(providers[names[|names| - 1]], title).value;
        } else {
          var i :| 0 <= i < |init| && init[i] in providers && SearchTVS(providers[init[i]], title).Some?
            && x in SearchTVS(providers[init[i]], title).value;
          assert names[i] == init[i];
        }
      }
      if exists i :: 0 <= i < |names| && names[i] in providers && SearchTVS(providers[names[i]], title).Some?
          && x in SearchTVS(providers[names[i]], title).value {
        var i :| 0 <= i < |names| && names[i] in providers && SearchTVS(providers[names[i]], title).Some?
          && x in SearchTVS(providers[names[i]], title).value;
        if i < |init| {
          assert init[i] == names[i];
        }
      }
    }
  }

  // ---------------------------------------------------------------- the write sequence of a selection

  /** A write sequence stops at its first failing write: only the writes before it take effect. */
  lemma {:induction false} RunWritesStopsAtFirstFailure(st: Store, failing: set<StoreOp>, ws: seq<Write>, k: nat)
    requires k < |ws| && ws[k].Op() in failing
    requires forall j :: 0 <= j < k ==> ws[j].Op() !in failing
    ensures RunWrites(st, failing, ws) == (ApplyAll(st, failing, ws[..k]), Fail(StoreFailed(ws[k].Op())))
    decreases k
  {
    if k > 0 {
      RunWritesStopsAtFirstFailure(Apply(st, failing, ws[0]).0, failing, ws[1..], k - 1);
      assert ws[..k][1..] == ws[1..][..k - 1];
    }
  }

  /** A write sequence none of whose writes fails applies all of them and succeeds. */
  lemma {:induction false} RunWritesAllPass(st: Store, failing: set<StoreOp>, ws: seq<Write>)
    requires forall j :: 0 <= j < |ws| ==> ws[j].Op() !in failing
    ensures RunWrites(st, failing, ws) == (ApplyAll(st, failing, ws), Pass)
    decreases |ws|
  {
    if ws != [] {
      RunWritesAllPass(Apply(st, failing, ws[0]).0, failing, ws[1..]);
    }
  }

  /** The operations the selection applier runs, in order. */
  function SelectionOps(): seq<StoreOp>
  {
    [UpdateShowOp, UpdateShowAllSeasonsOp, UpdateShowAllEpisodesOp, DeleteAllTagLinksOp, DeleteAllPersonLinksOp]
  }

  /**
   * The selection applier binds the show, resets seasons, resets episodes,
   * purges tag links and purges person links, in this order; when one of these
   * fails, it reports it and none of the later ones runs.
   */
  lemma SelectionOrder(st: Store, failing: set<StoreOp>, id: int, sel: SelectionResult, k: nat)
    requires k < 5 && SelectionOps()[k] in failing
    requires forall j :: 0 <= j < k ==> SelectionOps()[j] !in failing
    ensures SelectionSpec(st, failing, id, sel) ==
      (ApplyAll(st, failing, SelectionWrites(id, sel)[..k]), Fail(StoreFailed(SelectionOps()[k])))
  {
    var ws := SelectionWrites(id, sel);
    assert forall j :: 0 <= j < 5 ==> ws[j].Op() == SelectionOps()[j];
    RunWritesStopsAtFirstFailure(st, failing, ws, k);
  }

  /** The selection applier succeeds exactly when none of its five operations fails. */
  lemma SelectionSucceeds(st: Store, failing: set<StoreOp>, id: int, sel: SelectionResult)
    ensures SelectionSpec(st, failing, id, sel).1 == Pass <==> forall j :: 0 <= j < 5 ==> SelectionOps()[j] !in failing
  {
    var ws := SelectionWrites(id, sel);
    assert forall j :: 0 <= j < 5 ==> ws[j].Op() == SelectionOps()[j];
    if forall j :: 0 <= j < 5 ==> SelectionOps()[j] !in failing {
      RunWritesAllPass(st, failing, ws);
    } else {
      var k :| 0 <= k < 5 && SelectionOps()[k] in failing && forall j :: 0 <= j < k ==> SelectionOps()[j] !in failing;
      SelectionOrder(st, failing, id, sel, k);
    }
  }

  /** The store after all five writes of a selection succeed. */
  function SelectedStore(st: Store, id: int, sel: SelectionResult): Store
  {
    st.(shows := seq(|st.shows|, i requires 0 <= i < |st.shows| =>
          if st.shows[i].id == id then BindShow(st.shows[i], sel) else st.shows[i]),
        seasons := seq(|st.seasons|, i requires 0 <= i < |st.seasons| =>
          if st.seasons[i].idShow == id then ResetSeason(st.seasons[i]) else st.seasons[i]),
        episodes := seq(|st.episodes|, i requires 0 <= i < |st.episodes| =>
          if st.episodes[i].idShow == id then ResetEpisode(st.episodes[i]) else st.episodes[i]),
        tagLinks := LinksWithout(st.tagLinks, Tvs, id),
        personLinks := LinksWithout(st.personLinks, Tvs, id))
  }

  /** A write that does not fail hands the rest of the sequence the store it leaves. */
  lemma RunWritesStep(st: Store, failing: set<StoreOp>, ws: seq<Write>)
    requires ws != [] && ws[0].Op() !in failing
    ensures RunWrites(st, failing, ws) == RunWrites(Apply(st, failing, ws[0]).0, failing, ws[1..])
  {
  }

  /** A successful selection leaves the store SelectedStore describes. */
  lemma SelectionStore(st: Store, failing: set<StoreOp>, id: int, sel: SelectionResult)
    requires SelectionSpec(st, failing, id, sel).1 == Pass
    ensures SelectionSpec(st, failing, id, sel).0 == SelectedStore(st, id, sel)
  {
    SelectionSucceeds(st, failing, id, sel);
    var ws := SelectionWrites(id, sel);
    var w1 := ws[1..];
    var w2 := w1[1..];
    var w3 := w2[1..];
    var w4 := w3[1..];
    assert w1 == [ResetSeasons(id), ResetEpisodes(id), PurgeTagLinks(Tvs, id), PurgePersonLinks(Tvs, id)];
    assert w2 == [ResetEpisodes(id), PurgeTagLinks(Tvs, id), PurgePersonLinks(Tvs, id)];
    assert w3 == [PurgeTagLinks(Tvs, id), PurgePersonLinks(Tvs, id)];
    assert w4 == [PurgePersonLinks(Tvs, id)];
    var s1 := Apply(st, failing, SetShowBinding(id, sel)).0;
    var s2 := Apply(s1, failing, ResetSeasons(id)).0;
    var s3 := Apply(s2, failing, ResetEpisodes(id)).0;
    var s4 := Apply(s3, failing, PurgeTagLinks(Tvs, id)).0;
    var s5 := Apply(s4, failing, PurgePersonLinks(Tvs, id)).0;
    RunWritesStep(st, failing, ws);
    RunWritesStep(s1, failing, w1);
    RunWritesStep(s2, failing, w2);
    RunWritesStep(s3, failing, w3);
    RunWritesStep(s4, failing, w4);
    assert w4[1..] == [];
    var t := SelectedStore(st, id, sel);
    assert s5.shows == s1.shows == t.shows;
    assert s5.seasons == s2.seasons == t.seasons;
    assert s5.episodes == s3.episodes == t.episodes;
    assert s5.tagLinks == s4.tagLinks == t.tagLinks;
    assert s5.personLinks == t.personLinks;
    assert s5 == t;
  }

  /**
   * After a successful selection the show carries the new binding with update
   * mode 1, all its seasons and episodes carry the binding " "/"0" with update
   * mode 1, it has no tag or person link, and nothing else has changed.
   */
  lemma SelectionResets(st: Store, failing: set<StoreOp>, id: int, sel: SelectionResult)
    requires SelectionSpec(st, failing, id, sel).1 == Pass
    ensures var r := SelectionSpec(st, failing, id, sel).0;
      && |r.shows| == |st.shows| && |r.seasons| == |st.seasons| && |r.episodes| == |st.episodes|
      && (forall i :: 0 <= i < |st.shows| && st.shows[i].id == id ==> r.shows[i] == BindShow(st.shows[i], sel))
      && (forall i :: 0 <= i < |st.shows| && st.shows[i].id != id ==> r.shows[i] == st.shows[i])
      && (forall i :: 0 <= i < |st.seasons| && st.seasons[i].idShow != id ==> r.seasons[i] == st.seasons[i])
      && (forall i :: 0 <= i < |st.episodes| && st.episodes[i].idShow != id ==> r.episodes[i] == st.episodes[i])
      && (forall i :: 0 <= i < |r.seasons| && r.seasons[i].idShow == id ==>
            r.seasons[i].updateMode == 1 && r.seasons[i].info.name == " " && r.seasons[i].info.id == "0")
      && (forall i :: 0 <= i < |r.episodes| && r.episodes[i].idShow == id ==>
            r.episodes[i].updateMode == 1 && r.episodes[i].info.name == " " && r.episodes[i].info.id == "0")
      && (forall l :: l in r.tagLinks ==> !(l.mediaType == Tvs && l.mediaData == id))
      && (forall l :: l in r.personLinks ==> !(l.mediaType == Tvs && l.mediaData == id))
      && r == st.(shows := r.shows, seasons := r.seasons, episodes := r.episodes,
                  tagLinks := r.tagLinks, personLinks := r.personLinks)
  {
    SelectionStore(st, failing, id, sel);
  }

  // ---------------------------------------------------------------- tags and people

  /** Linking tags touches only the tag tables and the identifier counter. */
  lemma {:induction false} AddTagsTouchesTags(st: Store, failing: set<StoreOp>, id: int, tags: seq<TagData>)
    ensures var r := AddTags(st, failing, id, tags);
      r == st.(tags := r.tags, tagLinks := r.tagLinks, lastId := r.lastId)
    decreases |tags|
  {
    if tags != [] {
      AddTagsTouchesTags(st, failing, id, tags[..|tags| - 1]);
    }
  }

  /** Linking people touches only the person tables and the identifier counter. */
  lemma {:induction false} AddPeopleTouchesPeople(st: Store, failing: set<StoreOp>, id: int, people: seq<PersonData>)
    ensures var r := AddPeople(st, failing, id, people);
      r == st.(people := r.people, personLinks := r.personLinks, lastId := r.lastId)
    decreases |people|
  {
    if people != [] {
      AddPeopleTouchesPeople(st, failing, id, people[..|people| - 1]);
    }
  }

  // ---------------------------------------------------------------- show rows

  /** `after` has the show rows of `before`, with their identifiers, libraries and paths. */
  predicate SameShowIds(before: Store, after: Store)
  {
    && |after.shows| == |before.shows|
    && forall i :: 0 <= i < |before.shows| ==>
         && after.shows[i].id == before.shows[i].id
         && after.shows[i].idLib == before.shows[i].idLib
         && after.shows[i].path == before.shows[i].path
  }

  /** Only InsertShow adds a show row; no write changes a show's identifier, library or path. */
  lemma ApplyKeepsShowIds(st: Store, failing: set<StoreOp>, w: Write)
    requires !w.InsertShow?
    ensures SameShowIds(st, Apply(st, failing, w).0)
  {
  }

  /** No write but InsertResults and DeleteResults touches the candidate batches. */
  lemma ApplyKeepsBatches(st: Store, failing: set<StoreOp>, w: Write)
    requires !w.InsertResults? && !w.DeleteResults?
    ensures Apply(st, failing, w).0.batches == st.batches
  {
  }

  /** The selection applier keeps every show row's identifier, library and path, and every candidate batch. */
  lemma {:induction false} RunWritesKeeps(st: Store, failing: set<StoreOp>, ws: seq<Write>)
    requires forall j :: 0 <= j < |ws| ==> !ws[j].InsertShow? && !ws[j].InsertResults? && !ws[j].DeleteResults?
    ensures SameShowIds(st, RunWrites(st, failing, ws).0)
    ensures RunWrites(st, failing, ws).0.batches == st.batches
    decreases |ws|
  {
    if ws != [] {
      ApplyKeepsShowIds(st, failing, ws[0]);
      ApplyKeepsBatches(st, failing, ws[0]);
      var st1 := Apply(st, failing, ws[0]).0;
      if Apply(st, failing, ws[0]).1.Done? {
        RunWritesKeeps(st1, failing, ws[1..]);
      }
    }
  }

  lemma SelectionKeeps(st: Store, failing: set<StoreOp>, id: int, sel: SelectionResult)
    ensures SameShowIds(st, SelectionSpec(st, failing, id, sel).0)
    ensures SelectionSpec(st, failing, id, sel).0.batches == st.batches
  {
    RunWritesKeeps(st, failing, SelectionWrites(id, sel));
  }

  /**
   * updateTVS keeps every show row's identifier, library and path, and changes
   * only the title, data and premiere date of the row it holds.
   */
  lemma UpdateTVSKeeps(c: Ctx, st: Store, data: ShowRow)
    ensures var r := UpdateTVSSpec(c, st, data);
      && SameShowIds(st, r.st)
      && r.data == data.(title := r.data.title, scraperData := r.data.scraperData, premiered := r.data.premiered)
  {
    var p := ProviderFromName(c.providers, data.scraperName);
    if p.Some? && GetTVS(p.value, ConfigOf(data)).Some? {
      var d := GetTVS(p.value, ConfigOf(data)).value;
      var st1 := Apply(st, c.failing, SetShowMetadata(data.id, d)).0;
      ApplyKeepsShowIds(st, c.failing, SetShowMetadata(data.id, d));
      var tags := ListTVSTag(p.value, ConfigOf(data));
      if tags.Some? {
        AddTagsTouchesTags(st1, c.failing, data.id, tags.value);
        var st2 := AddTags(st1, c.failing, data.id, tags.value);
        var people := ListTVSPerson(p.value, ConfigOf(data));
        if people.Some? {
          AddPeopleTouchesPeople(st2, c.failing, data.id, people.value);
        }
      }
    }
  }

  /**
   * A successful metadata write gives every row of the show the provider's
   * record and the update mode -1 ("just updated"), and leaves the other
   * shows alone.
   */
  lemma UpdateTVSWritesSentinel(c: Ctx, st: Store, data: ShowRow)
    requires data.scraperName in c.providers
    requires GetTVS(c.providers[data.scraperName], ConfigOf(data)).Some?
    requires UpdateShowOp !in c.failing
    ensures var r := UpdateTVSSpec(c, st, data);
      var d := GetTVS(c.providers[data.scraperName], ConfigOf(data)).value;
      && |r.st.shows| == |st.shows|
      && (forall i :: 0 <= i < |st.shows| && st.shows[i].id == data.id ==>
            r.st.shows[i] == RefreshShow(st.shows[i], d) && r.st.shows[i].updateMode == -1)
      && (forall i :: 0 <= i < |st.shows| && st.shows[i].id != data.id ==> r.st.shows[i] == st.shows[i])
      && r.data == data.(title := d.title, scraperData := d.info.data, premiered := d.premiered)
  {
    var p := c.providers[data.scraperName];
    var d := GetTVS(p, ConfigOf(data)).value;
    var st1 := Apply(st, c.failing, SetShowMetadata(data.id, d)).0;
    var tags := ListTVSTag(p, ConfigOf(data));
    if tags.Some? {
      AddTagsTouchesTags(st1, c.failing, data.id, tags.value);
      var st2 := AddTags(st1, c.failing, data.id, tags.value);
      var people := ListTVSPerson(p, ConfigOf(data));
      if people.Some? {
        AddPeopleTouchesPeople(st2, c.failing, data.id, people.value);
      }
    }
  }

  /** A folder whose first matching show has updates off (as after a refresh) gets no show-level call. */
  lemma FrozenShowIsKept(entry: DirEntry, shows: seq<ShowRow>, k: nat)
    requires entry.isDir && k < |shows| && shows[k].path == entry.name
    requires forall j :: 0 <= j < k ==> shows[j].path != entry.name
    requires shows[k].updateMode <= 0
    ensures Decide(entry, shows) == Keep(shows[k])
  {
    assert ShowPaths(shows)[k] == entry.name;
  }

  // ---------------------------------------------------------------- addTVS

  /** Whether addTVS goes past its "no data" check. */
  predicate PassesNoDataGate(c: Ctx, title: string)
  {
    |SearchResults(c.providers, c.names, title)| > 0 || c.addUnknown
  }

  /** The row AddShow creates for a new folder. */
  function NewShowRow(st: Store, c: Ctx, title: string): ShowRow
  {
    ShowRow(st.lastId + 1, title, c.idLib, "", "", 0, "", "", "", "", st.defaultUpdateMode)
  }

  /**
   * addTVS writes nothing when no provider has a candidate and unknown shows
   * are not added; otherwise it inserts a show without an identifier exactly
   * once and never another.
   */
  lemma AddTVSInsertsOnce(c: Ctx, st: Store, data: ShowRow)
    ensures var r := AddTVSSpec(c, st, data);
      && (!PassesNoDataGate(c, data.title) ==> r == ShowResult(st, data, Fail(NoData(data.title))))
      && (PassesNoDataGate(c, data.title) && data.id != 0 ==> SameShowIds(st, r.st) && r.data.id == data.id)
      && (PassesNoDataGate(c, data.title) && data.id == 0 && AddShowOp in c.failing ==>
            r == ShowResult(st, data, Fail(StoreFailed(AddShowOp))))
      && (PassesNoDataGate(c, data.title) && data.id == 0 && AddShowOp !in c.failing ==>
            SameShowIds(st.(shows := st.shows + [NewShowRow(st, c, data.title)]), r.st) && r.data.id == st.lastId + 1)
  {
    var results := SearchResults(c.providers, c.names, data.title);
    if PassesNoDataGate(c, data.title) {
      var (st1, rep) := if data.id == 0 then Apply(st, c.failing, InsertShow(data.title, c.idLib)) else (st, Done(data.id));
      if rep.Done? {
        var data1 := data.(id := rep.id);
        var best := BestItem(results, data1.title, 0, c.score, c.yearOf);
        if c.autoAdd && best.Some? {
          var sel := best.value;
          SelectionKeeps(st1, c.failing, data1.id, SelectionOf(sel));
          var st2 := SelectionSpec(st1, c.failing, data1.id, SelectionOf(sel)).0;
          UpdateTVSKeeps(c, st2, data1.(scraperID := sel.scraperID, scraperName := sel.scraperName,
                                        scraperData := sel.scraperData, path := data1.title));
        }
      }
    }
  }

  /**
   * When auto-add is off or finds no candidate above the threshold, addTVS
   * stores the candidates for a manual choice and returns the show with its
   * binding unchanged.
   */
  lemma AddTVSStoresCandidates(c: Ctx, st: Store, data: ShowRow)
    requires PassesNoDataGate(c, data.title)
    requires data.id != 0 || AddShowOp !in c.failing
    requires !c.autoAdd || BestItem(SearchResults(c.providers, c.names, data.title), data.title, 0, c.score, c.yearOf).None?
    ensures var r := AddTVSSpec(c, st, data);
      && r.out == Pass
      && r.data == data.(id := r.data.id)
      && (DeleteResultsOp !in c.failing && AddResultsOp !in c.failing ==>
            r.st.batches == st.batches[(Tvs, r.data.id) := Batch(data.title, SearchResults(c.providers, c.names, data.title))])
  {
  }

  /**
   * When auto-add picks a candidate, the show returned carries its binding and
   * the path Title. When none of the selection's writes fails and the chosen
   * provider has the show, the stored row of the show carries the candidate's
   * binding and the provider's record, with the update mode -1.
   */
  lemma AddTVSBindsBestCandidate(c: Ctx, st: Store, data: ShowRow)
    requires PassesNoDataGate(c, data.title)
    requires data.id != 0 || AddShowOp !in c.failing
    requires c.autoAdd
    requires BestItem(SearchResults(c.providers, c.names, data.title), data.title, 0, c.score, c.yearOf).Some?
    ensures var r := AddTVSSpec(c, st, data);
      var sel := BestItem(SearchResults(c.providers, c.names, data.title), data.title, 0, c.score, c.yearOf).value;
      && sel in SearchResults(c.providers, c.names, data.title)
      && r.data.scraperID == sel.scraperID && r.data.scraperName == sel.scraperName
      && r.data.path == data.title
      && ((forall j :: 0 <= j < 5 ==> SelectionOps()[j] !in c.failing)
          && sel.scraperName in c.providers
          && GetTVS(c.providers[sel.scraperName], ProviderConfig(sel.scraperID, sel.scraperData)).Some? ==>
            var d := GetTVS(c.providers[sel.scraperName], ProviderConfig(sel.scraperID, sel.scraperData)).value;
            && r.data.title == d.title
            && forall i :: 0 <= i < |r.st.shows| && r.st.shows[i].id == r.data.id ==>
                 && r.st.shows[i].scraperName == sel.scraperName && r.st.shows[i].scraperID == sel.scraperID
                 && r.st.shows[i].title == d.title && r.st.shows[i].display == d.display
                 && r.st.shows[i].premiered == d.premiered
                 && r.st.shows[i].scraperData == d.info.data && r.st.shows[i].scraperLink == d.info.link
                 && r.st.shows[i].updateMode == -1)
  {
    var results := SearchResults(c.providers, c.names, data.title);
    BestItemIsFirstBest(results, data.title, 0, c.score, c.yearOf);
    var (st1, rep) := if data.id == 0 then Apply(st, c.failing, InsertShow(data.title, c.idLib)) else (st, Done(data.id));
    var data1 := data.(id := rep.id);
    var sel := BestItem(results, data1.title, 0, c.score, c.yearOf).value;
    var st2 := SelectionSpec(st1, c.failing, data1.id, SelectionOf(sel)).0;
    var data2 := data1.(scraperID := sel.scraperID, scraperName := sel.scraperName,
                        scraperData := sel.scraperData, path := data1.title);
    UpdateTVSKeeps(c, st2, data2);
    if && (forall j :: 0 <= j < 5 ==> SelectionOps()[j] !in c.failing)
       && sel.scraperName in c.providers
       && GetTVS(c.providers[sel.scraperName], ConfigOf(data2)).Some?
    {
      SelectionSucceeds(st1, c.failing, data1.id, SelectionOf(sel));
      SelectionResets(st1, c.failing, data1.id, SelectionOf(sel));
      SelectionKeeps(st1, c.failing, data1.id, SelectionOf(sel));
      assert SelectionOps()[0] == UpdateShowOp;
      UpdateTVSWritesSentinel(c, st2, data2);
      var r := UpdateTVSSpec(c, st2, data2);
      assert AddTVSSpec(c, st, data) == r;
      var d := GetTVS(c.providers[sel.scraperName], ConfigOf(data2)).value;
      forall i | 0 <= i < |r.st.shows| && r.st.shows[i].id == r.data.id
        ensures r.st.shows[i] == RefreshShow(BindShow(st1.shows[i], SelectionOf(sel)), d)
      {
        assert st2.shows[i].id == st1.shows[i].id == data1.id;
      }
    }
  }

  // ---------------------------------------------------------------- seasons

  /**
   * The season refresh changes only season rows; it keeps each row's show and
   * number, and a row it changes belongs to the show, carries the update mode
   * -1, and has a number some snapshot row with a positive update mode has.
   */
  lemma {:induction false} RefreshSeasonsShape(st: Store, failing: set<StoreOp>, p: Provider, cfg: ProviderConfig,
                                               idShow: int, rows: seq<SeasonRow>)
    ensures var r := RefreshSeasons(st, failing, p, cfg, idShow, rows);
      && r == st.(seasons := r.seasons)
      && |r.seasons| == |st.seasons|
      && forall i :: 0 <= i < |st.seasons| ==>
           && r.seasons[i].idShow == st.seasons[i].idShow && r.seasons[i].season == st.seasons[i].season
           && (r.seasons[i] == st.seasons[i] ||
                 (st.seasons[i].idShow == idShow && r.seasons[i].updateMode == -1 &&
                  exists j :: 0 <= j < |rows| && rows[j].updateMode > 0 && rows[j].season == st.seasons[i].season))
    decreases |rows|
  {
    if rows != [] {
      var init := rows[..|rows| - 1];
      RefreshSeasonsShape(st, failing, p, cfg, idShow, init);
      var st1 := RefreshSeasons(st, failing, p, cfg, idShow, init);
      var r := RefreshSeasons(st, failing, p, cfg, idShow, rows);
      forall i | 0 <= i < |st.seasons|
        ensures r.seasons[i] == st.seasons[i] ||
                 (st.seasons[i].idShow == idShow && r.seasons[i].updateMode == -1 &&
                  exists j :: 0 <= j < |rows| && rows[j].updateMode > 0 && rows[j].season == st.seasons[i].season)
      {
        if r.seasons[i] != st1.seasons[i] {
          assert rows[|rows| - 1].updateMode > 0 && rows[|rows| - 1].season == st.seasons[i].season;
        } else if r.seasons[i] != st.seasons[i] {
          var j :| 0 <= j < |init| && init[j].updateMode > 0 && init[j].season == st.seasons[i].season;
          assert rows[j] == init[j];
        }
      }
    }
  }

  /** A season row of the show whose number a snapshot row with a positive update mode has is marked -1, when the provider has that season. */
  lemma {:induction false} RefreshSeasonsMarks(st: Store, failing: set<StoreOp>, p: Provider, cfg: ProviderConfig,
                                               idShow: int, rows: seq<SeasonRow>, i: nat, j: nat)
    requires UpdateShowSeasonOp !in failing
    requires i < |st.seasons| && st.seasons[i].idShow == idShow
    requires j < |rows| && rows[j].updateMode > 0 && rows[j].season == st.seasons[i].season
    requires GetTVSSeason(p, cfg, rows[j].season).Some?
    ensures i < |RefreshSeasons(st, failing, p, cfg, idShow, rows).seasons|
    ensures RefreshSeasons(st, failing, p, cfg, idShow, rows).seasons[i].updateMode == -1
    decreases |rows|
  {
    var init := rows[..|rows| - 1];
    RefreshSeasonsShape(st, failing, p, cfg, idShow, init);
    RefreshSeasonsShape(st, failing, p, cfg, idShow, rows);
    if j < |rows| - 1 {
      assert init[j] == rows[j];
      RefreshSeasonsMarks(st, failing, p, cfg, idShow, init, i, j);
    }
  }

  /** With no snapshot row to refresh, the season refresh writes nothing. */
  lemma {:induction false} RefreshSeasonsIdle(st: Store, failing: set<StoreOp>, p: Provider, cfg: ProviderConfig,
                                              idShow: int, rows: seq<SeasonRow>)
    requires forall j :: 0 <= j < |rows| ==> rows[j].updateMode <= 0
    ensures RefreshSeasons(st, failing, p, cfg, idShow, rows) == st
    decreases |rows|
  {
    if rows != [] {
      RefreshSeasonsIdle(st, failing, p, cfg, idShow, rows[..|rows| - 1]);
    }
  }

  /**
   * When the provider has every season due for a refresh, one season refresh
   * leaves all of the show's seasons with update mode at most 0, so a second
   * one writes nothing.
   */
  lemma SeasonsSpecSettles(st: Store, failing: set<StoreOp>, p: Provider, cfg: ProviderConfig, idShow: int)
    requires ListShowSeasonOp !in failing && UpdateShowSeasonOp !in failing
    requires forall i :: 0 <= i < |st.seasons| && st.seasons[i].idShow == idShow && st.seasons[i].updateMode > 0 ==>
               GetTVSSeason(p, cfg, st.seasons[i].season).Some?
    ensures var r := SeasonsSpec(st, failing, p, cfg, idShow).0;
      && (forall i :: 0 <= i < |r.seasons| && r.seasons[i].idShow == idShow ==> r.seasons[i].updateMode <= 0)
      && SeasonsSpec(r, failing, p, cfg, idShow).0 == r
  {
    var rows := SeasonsOf(st.seasons, idShow);
    var r := SeasonsSpec(st, failing, p, cfg, idShow).0;
    RefreshSeasonsShape(st, failing, p, cfg, idShow, rows);
    forall i | 0 <= i < |r.seasons| && r.seasons[i].idShow == idShow
      ensures r.seasons[i].updateMode <= 0
    {
      if st.seasons[i].updateMode > 0 {
        assert st.seasons[i] in rows;
        var j :| 0 <= j < |rows| && rows[j] == st.seasons[i];
        RefreshSeasonsMarks(st, failing, p, cfg, idShow, rows, i, j);
      }
    }
    var rows2 := SeasonsOf(r.seasons, idShow);
    forall j | 0 <= j < |rows2| ensures rows2[j].updateMode <= 0 {
      assert rows2[j] in r.seasons;
    }
    RefreshSeasonsIdle(r, failing, p, cfg, idShow, rows2);
  }

  // ---------------------------------------------------------------- episodes: the season list

  /**
   * A season discovered from a file gets the provider's record when the
   * provider has one, and otherwise the title "Season N", whose digits read
   * back as N, with no binding; either way it belongs to the show and is
   * marked just updated.
   */
  lemma NewSeasonRowCases(p: Provider, cfg: ProviderConfig, idShow: int, season: nat)
    ensures var r := NewSeasonRow(p, cfg, idShow, season);
      && r.idShow == idShow && r.season == season && r.updateMode == -1
      && (GetTVSSeason(p, cfg, season).Some? ==>
            var d := GetTVSSeason(p, cfg, season).value;
            r.title == d.title && r.display == d.display && r.premiered == d.premiered && r.info == d.info)
      && (GetTVSSeason(p, cfg, season).None? ==>
            && |r.title| > 7 && r.title[..7] == "Season " && DecimalValue(r.title[7..]) == season
            && r.display == "" && r.premiered == 0 && r.info == NoInfo)
  {
    if GetTVSSeason(p, cfg, season).None? {
      var r := NewSeasonRow(p, cfg, idShow, season);
      assert r.title == "Season " + DecimalString(season);
      assert r.title[7..] == DecimalString(season);
      DecimalRoundTrip(season);
    }
  }

  predicate NoDup(xs: seq<int>)
  {
    forall i, j :: 0 <= i < j < |xs| ==> xs[i] != xs[j]
  }

  /** Inserting a season row appends it to the season table, unless the insert fails. */
  lemma SeasonInsertEffect(st: Store, failing: set<StoreOp>, row: SeasonRow)
    ensures var r := Apply(st, failing, InsertSeason(row)).0;
      && r == st.(seasons := r.seasons)
      && (AddShowSeasonOp in failing ==> r == st)
      && (AddShowSeasonOp !in failing ==> r.seasons == st.seasons + [row])
  {
  }

  /** The season list one file leaves behind: at most one number more, new to the list. */
  lemma EpisodeStepList(c: Ctx, st: Store, p: Provider, cfg: ProviderConfig, seasons: seq<int>, path: string, idShow: int)
    ensures var r := EpisodeStep(c, st, p, cfg, seasons, path, idShow).1;
      && |seasons| <= |r| <= |seasons| + 1 && r[..|seasons|] == seasons
      && (forall k :: |seasons| <= k < |r| ==> r[k] !in seasons)
  {
  }

  /**
   * One file grows the season list by at most one number, new to the list;
   * the season table grows by the row of that number (unless the insert
   * fails), and the step touches nothing but seasons, episodes and video files.
   */
  lemma EpisodeStepSeasons(c: Ctx, st: Store, p: Provider, cfg: ProviderConfig, seasons: seq<int>, path: string, idShow: int)
    ensures var r := EpisodeStep(c, st, p, cfg, seasons, path, idShow);
      && |seasons| <= |r.1| <= |seasons| + 1 && r.1[..|seasons|] == seasons
      && (forall k :: |seasons| <= k < |r.1| ==> r.1[k] !in seasons)
      && |st.seasons| <= |r.0.seasons| && r.0.seasons[..|st.seasons|] == st.seasons
      && SeasonNumbers(r.0.seasons[|st.seasons|..]) == (if AddShowSeasonOp in c.failing then [] else r.1[|seasons|..])
      && (forall k :: |st.seasons| <= k < |r.0.seasons| ==> r.0.seasons[k].idShow == idShow && r.0.seasons[k].updateMode == -1)
      && (forall k :: |st.seasons| <= k < |r.0.seasons| ==>
            r.0.seasons[k].season >= 0 && r.0.seasons[k] == NewSeasonRow(p, cfg, idShow, r.0.seasons[k].season as nat))
      && (AddShowSeasonOp !in c.failing && |r.1| > |seasons| ==>
            r.1[|seasons|] >= 0 && r.0.seasons[|st.seasons|] == NewSeasonRow(p, cfg, idShow, r.1[|seasons|] as nat))
      && r.0 == st.(seasons := r.0.seasons, episodes := r.0.episodes, videoFiles := r.0.videoFiles, lastId := r.0.lastId)
  {
    EpisodeStepList(c, st, p, cfg, seasons, path, idShow);
    var r := EpisodeStep(c, st, p, cfg, seasons, path, idShow);
    match GetVideoFileFromPath(st, c.failing, c.idLib, path)
    case Some(v) =>
      assert r.0 == RefreshLinkedEpisode(c, st, p, cfg, v) && r.1 == seasons;
      assert r.0.seasons == st.seasons;
    case None =>
      var filename := BaseName(path);
      match ExtractNumbers(filename)
      case None =>
        assert r == (st, seasons);
      case Some((season, episode)) =>
        var row := NewEpisodeRow(c, p, cfg, idShow, filename, season, episode);
        if season in seasons {
          assert r == (CreateEpisode(c, st, row, path), seasons);
          CreateEpisodeEffect(c, st, row, path);
          assert r.0.seasons == st.seasons;
        } else {
          var srow := NewSeasonRow(p, cfg, idShow, season);
          NewSeasonRowCases(p, cfg, idShow, season);
          var st1 := Apply(st, c.failing, InsertSeason(srow)).0;
          assert r == (CreateEpisode(c, st1, row, path), seasons + [season]);
          CreateEpisodeEffect(c, st1, row, path);
          SeasonInsertEffect(st, c.failing, srow);
          assert r.0.seasons == st1.seasons;
          if AddShowSeasonOp !in c.failing {
            assert r.0.seasons[|st.seasons|..] == [srow];
            assert r.1[|seasons|..] == [season];
          } else {
            assert r.0.seasons[|st.seasons|..] == [];
          }
        }
  }

  /** Growing `a` into `b` and `b` into `c` grows `a` into `c` by both suffixes. */
  lemma PrefixGrowth<T>(a: seq<T>, b: seq<T>, c: seq<T>)
    requires |a| <= |b| <= |c| && b[..|a|] == a && c[..|b|] == b
    ensures c[..|a|] == a && c[|a|..] == b[|a|..] + c[|b|..]
  {
    assert c[..|b|][..|a|] == c[..|a|];
  }

  /**
   * Over all the files of a show, the season list only grows, by numbers new
   * to it, so a list without duplicates stays without duplicates.
   */
  lemma {:induction false} EpisodeFoldList(c: Ctx, fs: FileSystem, st: Store, p: Provider, cfg: ProviderConfig,
                                           seasons: seq<int>, showPath: string, files: seq<string>, idShow: int)
    ensures var r := EpisodeFold(c, fs, st, p, cfg, seasons, showPath, files, idShow);
      && |seasons| <= |r.1| && r.1[..|seasons|] == seasons
      && (forall k :: |seasons| <= k < |r.1| ==> r.1[k] !in seasons)
      && (NoDup(seasons) ==> NoDup(r.1))
    decreases |files|
  {
    if files != [] {
      var init := files[..|files| - 1];
      EpisodeFoldList(c, fs, st, p, cfg, seasons, showPath, init, idShow);
      var (st1, seasons1) := EpisodeFold(c, fs, st, p, cfg, seasons, showPath, init, idShow);
      var path := JoinPath(showPath, files[|files| - 1]);
      if IsVideo(fs, path) {
        EpisodeStepSeasons(c, st1, p, cfg, seasons1, path, idShow);
        var seasons2 := EpisodeStep(c, st1, p, cfg, seasons1, path, idShow).1;
        PrefixGrowth(seasons, seasons1, seasons2);
        forall k | |seasons| <= k < |seasons2| ensures seasons2[k] !in seasons {
          if k < |seasons1| {
            assert seasons2[k] == seasons1[k];
          } else {
            assert seasons2[k] !in seasons1;
            assert forall x :: x in seasons ==> x in seasons1 by {
              assert seasons1[..|seasons|] == seasons;
            }
          }
        }
        if NoDup(seasons) {
          forall a, b | 0 <= a < b < |seasons2| ensures seasons2[a] != seasons2[b] {
            if b < |seasons1| {
              assert seasons2[a] == seasons1[a] && seasons2[b] == seasons1[b];
            } else {
              assert seasons2[a] == seasons1[a];
              assert seasons2[b] !in seasons1;
            }
          }
        }
      }
    }
  }

  /**
   * Over all the files of a show, the season table grows by one row of the
   * show per number added to the list, in that order (unless the inserts
   * fail), and nothing but seasons, episodes and video files changes: with
   * EpisodeFoldList, a season missing from the list is written once.
   */
  lemma {:induction false} EpisodeFoldTable(c: Ctx, fs: FileSystem, st: Store, p: Provider, cfg: ProviderConfig,
                                            seasons: seq<int>, showPath: string, files: seq<string>, idShow: int)
    ensures var r := EpisodeFold(c, fs, st, p, cfg, seasons, showPath, files, idShow);
      && |seasons| <= |r.1| && r.1[..|seasons|] == seasons
      && |st.seasons| <= |r.0.seasons| && r.0.seasons[..|st.seasons|] == st.seasons
      && SeasonNumbers(r.0.seasons[|st.seasons|..]) == (if AddShowSeasonOp in c.failing then [] else r.1[|seasons|..])
      && (forall k :: |st.seasons| <= k < |r.0.seasons| ==> r.0.seasons[k].idShow == idShow && r.0.seasons[k].updateMode == -1)
      && (forall k :: |st.seasons| <= k < |r.0.seasons| ==>
            r.0.seasons[k].season >= 0 && r.0.seasons[k] == NewSeasonRow(p, cfg, idShow, r.0.seasons[k].season as nat))
      && r.0 == st.(seasons := r.0.seasons, episodes := r.0.episodes, videoFiles := r.0.videoFiles, lastId := r.0.lastId)
    decreases |files|
  {
    if files != [] {
      var init := files[..|files| - 1];
      EpisodeFoldTable(c, fs, st, p, cfg, seasons, showPath, init, idShow);
      var (st1, seasons1) := EpisodeFold(c, fs, st, p, cfg, seasons, showPath, init, idShow);
      var path := JoinPath(showPath, files[|files| - 1]);
      if IsVideo(fs, path) {
        EpisodeStepSeasons(c, st1, p, cfg, seasons1, path, idShow);
        var (st2, seasons2) := EpisodeStep(c, st1, p, cfg, seasons1, path, idShow);
        PrefixGrowth(seasons, seasons1, seasons2);
        PrefixGrowth(st.seasons, st1.seasons, st2.seasons);
        assert SeasonNumbers(st2.seasons[|st.seasons|..]) ==
               SeasonNumbers(st1.seasons[|st.seasons|..]) + SeasonNumbers(st2.seasons[|st1.seasons|..]);
        forall k | |st.seasons| <= k < |st2.seasons|
          ensures st2.seasons[k].idShow == idShow && st2.seasons[k].updateMode == -1
          ensures st2.seasons[k].season >= 0 && st2.seasons[k] == NewSeasonRow(p, cfg, idShow, st2.seasons[k].season as nat)
        {
          if k < |st1.seasons| {
            assert st2.seasons[k] == st2.seasons[..|st1.seasons|][k];
          }
        }
      }
    }
  }

  // ---------------------------------------------------------------- episodes: new files

  /**
   * Creating an episode from a row: no row, no write; otherwise the row is
   * stored under the next identifier and the file is registered against it,
   * unless one of the two inserts fails. No file entry is written without its
   * episode.
   */
  lemma CreateEpisodeEffect(c: Ctx, st: Store, row: Option<EpisodeRow>, path: string)
    ensures var r := CreateEpisode(c, st, row, path);
      && r == st.(episodes := r.episodes, videoFiles := r.videoFiles, lastId := r.lastId)
      && (row.None? ==> r == st)
      && (row.Some? && AddShowEpisodeOp !in c.failing && AddVideoFileOp !in c.failing ==>
            && r.episodes == st.episodes + [row.value.(id := st.lastId + 1)]
            && r.videoFiles == st.videoFiles[(c.idLib, path) := VideoFile(TvsEpisode, st.lastId + 1)])
      && (r.videoFiles != st.videoFiles ==> |r.episodes| == |st.episodes| + 1)
  {
  }

  /**
   * A new file whose name yields season `s` and episode `e` gets an episode
   * with the provider's record and a video-file entry pointing to it; without
   * a record, an episode titled with the file name and its entry when unknown
   * episodes are added; otherwise neither. No entry is ever written without
   * its episode.
   */
  lemma EpisodeCreation(c: Ctx, st: Store, p: Provider, cfg: ProviderConfig, seasons: seq<int>,
                        path: string, idShow: int, s: nat, e: nat)
    requires GetVideoFileFromPath(st, c.failing, c.idLib, path).None?
    requires ExtractNumbers(BaseName(path)) == Some((s, e))
    ensures var r := EpisodeStep(c, st, p, cfg, seasons, path, idShow).0;
      var d := GetTVSEpisode(p, cfg, s, e);
      var id := st.lastId + 1;
      var written := AddShowEpisodeOp !in c.failing && AddVideoFileOp !in c.failing;
      && (d.Some? && written ==>
            && r.episodes == st.episodes + [EpisodeRow(id, idShow, s, e, d.value.title, d.value.display, d.value.premiered, d.value.info, -1)]
            && r.videoFiles == st.videoFiles[(c.idLib, path) := VideoFile(TvsEpisode, id)])
      && (d.None? && c.addUnknown && written ==>
            && r.episodes == st.episodes + [EpisodeRow(id, idShow, s, e, BaseName(path), "", 0, NoInfo, -1)]
            && r.videoFiles == st.videoFiles[(c.idLib, path) := VideoFile(TvsEpisode, id)])
      && (d.None? && !c.addUnknown ==> r.episodes == st.episodes && r.videoFiles == st.videoFiles)
      && (r.videoFiles != st.videoFiles ==> |r.episodes| == |st.episodes| + 1)
  {
    var st1 := if s in seasons then st else Apply(st, c.failing, InsertSeason(NewSeasonRow(p, cfg, idShow, s))).0;
    assert st1.episodes == st.episodes && st1.videoFiles == st.videoFiles && st1.lastId == st.lastId;
    var row := NewEpisodeRow(c, p, cfg, idShow, BaseName(path), s, e);
    assert EpisodeStep(c, st, p, cfg, seasons, path, idShow).0 == CreateEpisode(c, st1, row, path);
    CreateEpisodeEffect(c, st1, row, path);
  }

  /** A new file whose name yields no season and episode pair causes no write. */
  lemma NoPairNoWrite(c: Ctx, st: Store, p: Provider, cfg: ProviderConfig, seasons: seq<int>, path: string, idShow: int)
    requires GetVideoFileFromPath(st, c.failing, c.idLib, path).None?
    requires ExtractNumbers(BaseName(path)).None?
    ensures EpisodeStep(c, st, p, cfg, seasons, path, idShow) == (st, seasons)
  {
  }

  /** The numbers are read from the base name only: the folder name takes no part. */
  lemma ExampleNumbersFromBaseName()
    ensures ExtractNumbers(BaseName(JoinPath("Season 1", "Show.Name.S02E05.mkv"))) == Some((2, 5))
  {
    BaseNameOfJoin("Season 1", "Show.Name.S02E05.mkv");
    ExampleSeasonEpisode();
  }

  /** A new file named "Show.Name.Episode5.mkv" causes no write. */
  lemma ExampleEpisodeWithoutSeasonWritesNothing(c: Ctx, st: Store, p: Provider, cfg: ProviderConfig,
                                                 seasons: seq<int>, idShow: int)
    requires GetVideoFileFromPath(st, c.failing, c.idLib, JoinPath("Show", "Show.Name.Episode5.mkv")).None?
    ensures EpisodeStep(c, st, p, cfg, seasons, JoinPath("Show", "Show.Name.Episode5.mkv"), idShow) == (st, seasons)
  {
    BaseNameOfJoin("Show", "Show.Name.Episode5.mkv");
    ExampleNoSeasonToken();
  }

  // ---------------------------------------------------------------- episodes: known files

  /** The episode rows after refreshing those with identifier `id`. */
  function RefreshById(rows: seq<EpisodeRow>, id: int, d: Detail): seq<EpisodeRow>
  {
    seq(|rows|, i requires 0 <= i < |rows| => if rows[i].id == id then RefreshEpisode(rows[i], d) else rows[i])
  }

  lemma {:induction false} EpisodeByIdAfterRefresh(rows: seq<EpisodeRow>, id: int, d: Detail)
    requires EpisodeById(rows, id).Some?
    ensures EpisodeById(RefreshById(rows, id, d), id) == Some(RefreshEpisode(EpisodeById(rows, id).value, d))
    decreases |rows|
  {
    if rows[0].id != id {
      assert RefreshById(rows, id, d)[1..] == RefreshById(rows[1..], id, d);
      EpisodeByIdAfterRefresh(rows[1..], id, d);
    }
  }

  /**
   * A known file refreshes its episode only when the episode's update mode is
   * positive and the provider has its record; the refresh writes the update
   * mode -1 on the rows of that episode and nothing else.
   */
  lemma LinkedEpisodeRefresh(c: Ctx, st: Store, p: Provider, cfg: ProviderConfig, seasons: seq<int>, path: string, idShow: int)
    requires GetVideoFileFromPath(st, c.failing, c.idLib, path).Some?
    ensures var r := EpisodeStep(c, st, p, cfg, seasons, path, idShow);
      var e := GetShowEpisode(st, c.failing, GetVideoFileFromPath(st, c.failing, c.idLib, path).value.mediaData);
      && r.1 == seasons
      && ((e.None? || e.value.updateMode <= 0 || GetTVSEpisode(p, cfg, e.value.season, e.value.episode).None?
             || UpdateShowEpisodeOp in c.failing) ==> r.0 == st)
      && (e.Some? && e.value.updateMode > 0 && GetTVSEpisode(p, cfg, e.value.season, e.value.episode).Some?
            && UpdateShowEpisodeOp !in c.failing ==>
            r.0 == st.(episodes := RefreshById(st.episodes, e.value.id, GetTVSEpisode(p, cfg, e.value.season, e.value.episode).value)))
  {
  }

  /** Refreshing a known file's episode twice writes nothing the second time. */
  lemma EpisodeRefreshSettles(c: Ctx, st: Store, p: Provider, cfg: ProviderConfig, seasons: seq<int>, path: string, idShow: int)
    requires GetVideoFileFromPath(st, c.failing, c.idLib, path).Some?
    requires GetShowEpisodeOp !in c.failing && UpdateShowEpisodeOp !in c.failing
    requires var v := GetVideoFileFromPath(st, c.failing, c.idLib, path).value;
      var e := EpisodeById(st.episodes, v.mediaData);
      e.Some? && GetTVSEpisode(p, cfg, e.value.season, e.value.episode).Some?
    ensures var r := EpisodeStep(c, st, p, cfg, seasons, path, idShow).0;
      EpisodeStep(c, r, p, cfg, seasons, path, idShow).0 == r
  {
    var v := GetVideoFileFromPath(st, c.failing, c.idLib, path).value;
    var e := EpisodeById(st.episodes, v.mediaData).value;
    var d := GetTVSEpisode(p, cfg, e.season, e.episode).value;
    LinkedEpisodeRefresh(c, st, p, cfg, seasons, path, idShow);
    if e.updateMode > 0 {
      EpisodeByIdAfterRefresh(st.episodes, v.mediaData, d);
      var r := EpisodeStep(c, st, p, cfg, seasons, path, idShow).0;
      assert GetVideoFileFromPath(r, c.failing, c.idLib, path) == Some(v);
      assert GetShowEpisode(r, c.failing, v.mediaData) == Some(RefreshEpisode(e, d));
    }
  }

  // ---------------------------------------------------------------- scan

  /** The entries of a listing are processed in order, each once, against the same show list. */
  lemma {:induction false} ItemsFoldAppend(c: Ctx, fs: FileSystem, st: Store, a: seq<DirEntry>, b: seq<DirEntry>, shows: seq<ShowRow>)
    ensures ItemsFold(c, fs, st, a + b, shows) == ItemsFold(c, fs, ItemsFold(c, fs, st, a, shows), b, shows)
    decreases |b|
  {
    if b == [] {
      assert a + b == a;
    } else {
      var b' := b[..|b| - 1];
      assert (a + b)[..|a + b| - 1] == a + b';
      assert (a + b)[|a + b| - 1] == b[|b| - 1];
      ItemsFoldAppend(c, fs, st, a, b', shows);
    }
  }

  /** Entries that are not folders are ignored. */
  lemma {:induction false} ItemsFoldSkipsFiles(c: Ctx, fs: FileSystem, st: Store, entries: seq<DirEntry>, shows: seq<ShowRow>)
    requires forall k :: 0 <= k < |entries| ==> !entries[k].isDir
    ensures ItemsFold(c, fs, st, entries, shows) == st
    decreases |entries|
  {
    if entries != [] {
      ItemsFoldSkipsFiles(c, fs, st, entries[..|entries| - 1], shows);
    }
  }

  /**
   * processItemScan: a known show with updates off gets no show-level call;
   * episodes are reconciled exactly when the show-level step returns no error
   * and leaves the show bound, and otherwise the step's store and error stand.
   */
  lemma ProcessItemGates(c: Ctx, fs: FileSystem, st: Store, entry: DirEntry, shows: seq<ShowRow>)
    ensures var r := ProcessItemSpec(c, fs, st, entry, shows);
      var d := Decide(entry, shows);
      var s := ShowStep(c, st, entry, d);
      && (d == Ignore ==> r == (st, Pass))
      && (d.Keep? ==> s == ShowResult(st, d.row, Pass))
      && (d.Search? ==> s == AddTVSSpec(c, st, d.row))
      && (d.Refresh? ==> s == UpdateTVSSpec(c, st, d.row))
      && (d == Discover ==> s == AddTVSSpec(c, st, EmptyShow.(title := entry.name)))
      && (d != Ignore && (s.out.Fail? || s.data.scraperID == "") ==> r == (s.st, s.out))
      && (d != Ignore && s.out == Pass && s.data.scraperID != "" ==> r == EpisodesSpec(c, fs, s.st, s.data))
  {
  }

  /** updateTVSEpisodes writes no show row. */
  lemma EpisodesKeepShows(c: Ctx, fs: FileSystem, st: Store, data: ShowRow)
    ensures EpisodesSpec(c, fs, st, data).0.shows == st.shows
  {
    match ProviderFromName(c.providers, data.scraperName)
    case None =>
    case Some(p) =>
      var cfg := ConfigOf(data);
      match ListShowSeason(st, c.failing, data.id)
      case None =>
      case Some(rows) =>
        RefreshSeasonsShape(st, c.failing, p, cfg, data.id, rows);
        var st1 := RefreshSeasons(st, c.failing, p, cfg, data.id, rows);
        EpisodeFoldTable(c, fs, st1, p, cfg, SeasonNumbers(rows), data.path, ListFiles(fs, JoinPath(c.libPath, data.path)), data.id);
  }

  /**
   * AddShow stores no path, and no later write sets one, so a folder processed
   * as new is still at no show's path afterwards: the next scan discovers it
   * again.
   */
  lemma DiscoveredFolderStaysNew(c: Ctx, fs: FileSystem, st: Store, entry: DirEntry)
    requires entry.isDir && entry.name != "" && entry.name !in ShowPaths(st.shows)
    ensures Decide(entry, ProcessItemSpec(c, fs, st, entry, st.shows).0.shows) == Discover
  {
    var data := EmptyShow.(title := entry.name);
    var s := AddTVSSpec(c, st, data);
    AddTVSInsertsOnce(c, st, data);
    var r := ProcessItemSpec(c, fs, st, entry, st.shows).0;
    if s.out == Pass && s.data.scraperID != "" {
      EpisodesKeepShows(c, fs, s.st, s.data);
    }
    assert r.shows == s.st.shows;
    forall k | 0 <= k < |r.shows| ensures ShowPaths(r.shows)[k] != entry.name
    {
      if k < |st.shows| {
        assert ShowPaths(st.shows)[k] == st.shows[k].path;
      }
    }
  }

  /**
   * A new folder that passes the "no data" check, and whose insert succeeds,
   * leaves the show table with exactly one row more, the inserted one.
   */
  lemma DiscoverAddsOneShow(c: Ctx, fs: FileSystem, st: Store, entry: DirEntry)
    requires entry.isDir && entry.name !in ShowPaths(st.shows)
    requires PassesNoDataGate(c, entry.name) && AddShowOp !in c.failing
    ensures SameShowIds(st.(shows := st.shows + [NewShowRow(st, c, entry.name)]),
                        ProcessItemSpec(c, fs, st, entry, st.shows).0)
  {
    var data := EmptyShow.(title := entry.name);
    var s := AddTVSSpec(c, st, data);
    AddTVSInsertsOnce(c, st, data);
    if s.out == Pass && s.data.scraperID != "" {
      EpisodesKeepShows(c, fs, s.st, s.data);
    }
  }

  /**
   * As written, a new folder is inserted again by every scan: processing it
   * twice leaves two more show rows, not one.
   */
  lemma RescanInsertsShowAgain(c: Ctx, fs: FileSystem, st: Store, entry: DirEntry)
    requires entry.isDir && entry.name != "" && entry.name !in ShowPaths(st.shows)
    requires PassesNoDataGate(c, entry.name) && AddShowOp !in c.failing
    ensures var st1 := ProcessItemSpec(c, fs, st, entry, st.shows).0;
      |ProcessItemSpec(c, fs, st1, entry, st1.shows).0.shows| == |st.shows| + 2
  {
    var st1 := ProcessItemSpec(c, fs, st, entry, st.shows).0;
    DiscoverAddsOneShow(c, fs, st, entry);
    DiscoveredFolderStaysNew(c, fs, st, entry);
    DiscoverAddsOneShow(c, fs, st1, entry);
  }

  /**
   * A folder known by a show row (with an identifier, when it is searched
   * again) is processed without adding a show row.
   */
  lemma KnownFolderAddsNoShow(c: Ctx, fs: FileSystem, st: Store, entry: DirEntry, shows: seq<ShowRow>)
    requires Decide(entry, shows) != Discover
    requires Decide(entry, shows).Search? ==> Decide(entry, shows).row.id != 0
    ensures |ProcessItemSpec(c, fs, st, entry, shows).0.shows| == |st.shows|
  {
    var d := Decide(entry, shows);
    var s := ShowStep(c, st, entry, d);
    match d {
      case Ignore =>
      case Keep(_) =>
      case Search(row) => AddTVSInsertsOnce(c, st, row);
      case Refresh(row) => UpdateTVSKeeps(c, st, row);
    }
    if d != Ignore && s.out == Pass && s.data.scraperID != "" {
      EpisodesKeepShows(c, fs, s.st, s.data);
    }
  }

  /**
   * With the path recorded, a new folder gets one show row, is known to the
   * next decision by that row, and processing it again adds no show row.
   */
  lemma RecordedPathIsKnown(c: Ctx, fs: FileSystem, st: Store, entry: DirEntry)
    requires entry.isDir && entry.name != "" && entry.name !in ShowPaths(st.shows)
    requires PassesNoDataGate(c, entry.name) && AddShowOp !in c.failing
    ensures var st1 := ProcessItemRecordingPathSpec(c, fs, st, entry, st.shows).0;
      var d := Decide(entry, st1.shows);
      && |st1.shows| == |st.shows| + 1
      && d != Discover && d != Ignore && d.row.id == st.lastId + 1
      && |ProcessItemRecordingPathSpec(c, fs, st1, entry, st1.shows).0.shows| == |st1.shows|
  {
    var n := |st.shows|;
    var r := ProcessItemSpec(c, fs, st, entry, st.shows).0;
    DiscoverAddsOneShow(c, fs, st, entry);
    assert r.shows[n].id == st.lastId + 1;
    var st1 := ProcessItemRecordingPathSpec(c, fs, st, entry, st.shows).0;
    assert st1.shows == r.shows[n := r.shows[n].(path := entry.name)];
    forall j | 0 <= j < n ensures st1.shows[j].path != entry.name {
      assert ShowPaths(st.shows)[j] == st.shows[j].path;
    }
    assert ShowPaths(st1.shows)[n] == entry.name;
    var d := Decide(entry, st1.shows);
    var k :| 0 <= k < |st1.shows| && d.row == st1.shows[k] && st1.shows[k].path == entry.name
             && forall j :: 0 <= j < k ==> st1.shows[j].path != entry.name;
    assert k == n;
    KnownFolderAddsNoShow(c, fs, st1, entry, st1.shows);
  }

  /**
   * Scan fails, writing nothing, exactly when the library, the show list or
   * the library folder cannot be read; otherwise it returns no error.
   */
  lemma ScanFailsOnlyEarly(c: Ctx, fs: FileSystem, st: Store, idlib: int, conf: ScanConfig)
    ensures var r := ScanSpec(c, fs, st, idlib, conf);
      var lib := GetLibrary(st, c.failing, idlib);
      && (r.out == Pass <==> lib.Some? && ListShowOp !in c.failing && ReadDir(fs, lib.value).Some?)
      && (r.out != Pass ==> r.st == st)
      && r.ctx.idLib == idlib && r.ctx.autoAdd == conf.autoAdd && r.ctx.addUnknown == conf.addUnknown
      && (lib.Some? ==> r.ctx.libPath == lib.value)
  {
  }

  /** The 3D switch does not change what a scan does. */
  lemma ScanIgnores3D(c: Ctx, fs: FileSystem, st: Store, idlib: int, conf: ScanConfig, enable3D: bool)
    ensures ScanSpec(c, fs, st, idlib, conf) == ScanSpec(c, fs, st, idlib, conf.(enable3DScan := enable3D))
  {
  }
}
