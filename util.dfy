/**
 * Helpers shared by the scrapers: choosing the best search candidate, reading
 * the enabled providers' configuration, replacing a stored candidate batch,
 * and get-or-create of tags and people followed by a link to a show.
 */
module Util {
  import opened Wrappers
  import opened Common
  import opened Database

  /** util.Index: the first position of `x` in `xs`, or -1. */
  function IndexOf<T(==)>(xs: seq<T>, x: T): (k: int)
    ensures -1 <= k < |xs|
    ensures k == -1 <==> x !in xs
    ensures 0 <= k ==> xs[k] == x && forall j :: 0 <= j < k ==> xs[j] != x
  {
    if xs == [] then -1
    else if xs[0] == x then 0
    else
      var k := IndexOf(xs[1..], x);
      if k == -1 then -1 else k + 1
  }

  // ---------------------------------------------------------------- SelectBestItem

  /** The items whose premiere falls in `year`, in their order. */
  function OfYear(items: seq<SearchData>, year: int, yearOf: int -> int): (r: seq<SearchData>)
    ensures |r| <= |items|
    ensures forall x :: x in r <==> x in items && yearOf(x.premiered) == year
    decreases |items|
  {
    if items == [] then []
    else
      var init := OfYear(items[..|items| - 1], year, yearOf);
      var last := items[|items| - 1];
      assert items == items[..|items| - 1] + [last];
      if yearOf(last.premiered) == year then init + [last] else init
  }

  /** Filtering by year distributes over concatenation: the filter keeps the items' order. */
  lemma {:induction false} OfYearAppend(a: seq<SearchData>, b: seq<SearchData>, year: int, yearOf: int -> int)
    ensures OfYear(a + b, year, yearOf) == OfYear(a, year, yearOf) + OfYear(b, year, yearOf)
    decreases |b|
  {
    if b == [] {
      assert a + b == a;
    } else {
      var init := b[..|b| - 1];
      OfYearAppend(a, init, year, yearOf);
      assert (a + b)[..|a + b| - 1] == a + init;
      assert (a + b)[|a + b| - 1] == b[|b| - 1];
    }
  }

  /** A single item is kept exactly when it premiered in the year. */
  lemma OfYearSingleton(x: SearchData, year: int, yearOf: int -> int)
    ensures OfYear([x], year, yearOf) == if yearOf(x.premiered) == year then [x] else []
  {
    assert [x][..0] == [];
  }

  /** The candidates SelectBestItem considers: filtered by year when a year is given. */
  function Candidates(items: seq<SearchData>, year: int, yearOf: int -> int): seq<SearchData>
  {
    if year > 0 then OfYear(items, year, yearOf) else items
  }

  function Titles(items: seq<SearchData>): (r: seq<string>)
    ensures |r| == |items| && forall i :: 0 <= i < |items| ==> r[i] == items[i].title
  {
    seq(|items|, i requires 0 <= i < |items| => items[i].title)
  }

  /**
   * fuzzy.ExtractOne over `names`: the position of the first name with the
   * highest score against `title`.
   */
  function BestIndex(names: seq<string>, title: string, score: (string, string) -> int): (k: nat)
    requires |names| > 0
    ensures k < |names|
    ensures forall j :: 0 <= j < |names| ==> score(title, names[j]) <= score(title, names[k])
    ensures forall j :: 0 <= j < k ==> score(title, names[j]) < score(title, names[k])
    decreases |names|
  {
    if |names| == 1 then 0
    else
      var init := names[..|names| - 1];
      var k := BestIndex(init, title, score);
      assert forall j :: 0 <= j < |init| ==> init[j] == names[j];
      if score(title, names[|names| - 1]) > score(title, names[k]) then |names| - 1 else k
  }

  /** The score a match must exceed. */
  const Threshold := 85

  /** What SelectBestItem returns: None stands for its "no data" error. */
  function BestItem(items: seq<SearchData>, title: string, year: int,
                    score: (string, string) -> int, yearOf: int -> int): Option<SearchData>
  {
    var cands := Candidates(items, year, yearOf);
    var names := Titles(cands);
    if |names| == 0 then None
    else
      var k := BestIndex(names, title, score);
      if score(title, names[k]) > Threshold then Some(cands[IndexOf(names, names[k])]) else None
  }

  /** SelectBestItem. */
  method SelectBestItem(items: seq<SearchData>, title: string, year: int,
                        score: (string, string) -> int, yearOf: int -> int)
    returns (r: Option<SearchData>)
    ensures r == BestItem(items, title, year, score, yearOf)
    ensures r.Some? ==> r.value in items
  {
    var searchItems: seq<SearchData> := [];
    if year > 0 {
      for i := 0 to |items|
        invariant searchItems == OfYear(items[..i], year, yearOf)
      {
        assert items[..i + 1][..i] == items[..i];
        if yearOf(items[i].premiered) == year {
          searchItems := searchItems + [items[i]];
        }
      }
      assert items[..|items|] == items;
    } else {
      searchItems := items;
    }
    var names: seq<string> := [];
    for i := 0 to |searchItems|
      invariant names == Titles(searchItems[..i])
    {
      names := names + [searchItems[i].title];
    }
    assert searchItems[..|searchItems|] == searchItems;
    if |names| == 0 {
      return None;
    }
    var best := BestIndex(names, title, score);
    if score(title, names[best]) > Threshold {
      r := Some(searchItems[IndexOf(names, names[best])]);
    } else {
      r := None;
    }
  }

  /** SelectBestItem succeeds exactly when some candidate scores above the threshold. */
  lemma BestItemAccepts(items: seq<SearchData>, title: string, year: int,
                        score: (string, string) -> int, yearOf: int -> int)
    ensures var cands := Candidates(items, year, yearOf);
      BestItem(items, title, year, score, yearOf).Some? <==>
      exists i :: 0 <= i < |cands| && score(title, cands[i].title) > Threshold
  {
    var cands := Candidates(items, year, yearOf);
    var names := Titles(cands);
    if |names| > 0 {
      var k := BestIndex(names, title, score);
      if exists i :: 0 <= i < |cands| && score(title, cands[i].title) > Threshold {
        var i :| 0 <= i < |cands| && score(title, cands[i].title) > Threshold;
        assert score(title, names[i]) <= score(title, names[k]);
      }
    }
  }

  /**
   * The selected item is the first candidate reaching the highest score; with
   * a year it premiered in that year, and it is always one of the items.
   */
  lemma BestItemIsFirstBest(items: seq<SearchData>, title: string, year: int,
                            score: (string, string) -> int, yearOf: int -> int)
    requires BestItem(items, title, year, score, yearOf).Some?
    ensures var cands := Candidates(items, year, yearOf);
      var x := BestItem(items, title, year, score, yearOf).value;
      && x in items
      && (year > 0 ==> yearOf(x.premiered) == year)
      && score(title, x.title) > Threshold
      && exists k :: 0 <= k < |cands| && cands[k] == x
           && (forall j :: 0 <= j < |cands| ==> score(title, cands[j].title) <= score(title, x.title))
           && (forall j :: 0 <= j < k ==> score(title, cands[j].title) < score(title, x.title))
  {
    var cands := Candidates(items, year, yearOf);
    var names := Titles(cands);
    var k := BestIndex(names, title, score);
    var m := IndexOf(names, names[k]);
    assert names[m] == names[k];
    assert m == k;
  }

  /**
   * When exactly one candidate reaches the top score 100 (of a scorer bounded
   * by 100), that candidate is selected, whatever the order of the others.
   */
  lemma UniqueTopScoreIsSelected(items: seq<SearchData>, title: string, year: int,
                                 score: (string, string) -> int, yearOf: int -> int, i: nat)
    requires var cands := Candidates(items, year, yearOf);
      && i < |cands|
      && (forall j :: 0 <= j < |cands| ==> score(title, cands[j].title) <= 100)
      && score(title, cands[i].title) == 100
      && (forall j :: 0 <= j < |cands| && j != i ==> score(title, cands[j].title) < 100)
    ensures BestItem(items, title, year, score, yearOf) == Some(Candidates(items, year, yearOf)[i])
  {
    var cands := Candidates(items, year, yearOf);
    var names := Titles(cands);
    var k := BestIndex(names, title, score);
    assert score(title, names[i]) <= score(title, names[k]);
    assert k == i;
    var m := IndexOf(names, names[k]);
    assert m == i;
  }

  // ---------------------------------------------------------------- ListScraperConfiguration

  /** The result of ListScraperConfiguration: names, settings by name, and the error. */
  datatype Configuration = Configuration(
    names: seq<string>,
    config: map<string, map<string, string>>,
    out: Outcome)

  /** The configuration read from `rows`, in order, stopping at the first unreadable settings. */
  function ConfigurationOf(rows: seq<ScraperRow>): Configuration
    decreases |rows|
  {
    if rows == [] then Configuration([], map[], Pass)
    else
      var c := ConfigurationOf(rows[..|rows| - 1]);
      var r := rows[|rows| - 1];
      if c.out.Fail? || !r.enabled then c
      else
        match r.settings
        case None => c.(names := c.names + [r.provider], out := Fail(MalformedSettings(r.provider)))
        case Some(x) => c.(names := c.names + [r.provider], config := c.config[r.provider := x])
  }

  /** The enabled providers of `rows`, in order. */
  function EnabledProviders(rows: seq<ScraperRow>): seq<string>
    decreases |rows|
  {
    if rows == [] then []
    else
      var init := EnabledProviders(rows[..|rows| - 1]);
      if rows[|rows| - 1].enabled then init + [rows[|rows| - 1].provider] else init
  }

  /** Every enabled row's settings parse. */
  predicate SettingsReadable(rows: seq<ScraperRow>)
  {
    forall i :: 0 <= i < |rows| && rows[i].enabled ==> rows[i].settings.Some?
  }

  /**
   * When every enabled row's settings parse, the names are exactly the enabled
   * providers in store order, and the configuration has an entry for each of
   * them, holding the settings of the last enabled row of that name.
   */
  lemma {:induction false} ConfigurationOfReadable(rows: seq<ScraperRow>)
    requires SettingsReadable(rows)
    ensures var c := ConfigurationOf(rows);
      && c.out == Pass
      && c.names == EnabledProviders(rows)
      && (forall n :: n in c.config <==> n in c.names)
      && (forall i :: 0 <= i < |rows| && rows[i].enabled &&
            (forall j :: i < j < |rows| && rows[j].enabled ==> rows[j].provider != rows[i].provider)
            ==> rows[i].provider in c.config && c.config[rows[i].provider] == rows[i].settings.value)
    decreases |rows|
  {
    if rows != [] {
      var init := rows[..|rows| - 1];
      assert SettingsReadable(init) by {
        forall i | 0 <= i < |init| && init[i].enabled ensures init[i].settings.Some? {
          assert init[i] == rows[i];
        }
      }
      ConfigurationOfReadable(init);
      var c := ConfigurationOf(rows);
      forall i | 0 <= i < |rows| && rows[i].enabled &&
            (forall j :: i < j < |rows| && rows[j].enabled ==> rows[j].provider != rows[i].provider)
        ensures rows[i].provider in c.config && c.config[rows[i].provider] == rows[i].settings.value
      {
        if i < |rows| - 1 {
          assert init[i] == rows[i];
          forall j | i < j < |init| && init[j].enabled ensures init[j].provider != init[i].provider {
            assert init[j] == rows[j];
          }
        }
      }
    }
  }

  /** Once a row's settings fail to parse, the rows after it change nothing. */
  lemma {:induction false} ConfigurationOfStops(rows: seq<ScraperRow>, k: nat)
    requires k <= |rows| && ConfigurationOf(rows[..k]).out.Fail?
    ensures ConfigurationOf(rows) == ConfigurationOf(rows[..k])
    decreases |rows| - k
  {
    if k < |rows| {
      assert rows[..k + 1][..k] == rows[..k];
      ConfigurationOfStops(rows, k + 1);
    } else {
      assert rows[..k] == rows;
    }
  }

  /** ListScraperConfiguration: the enabled providers of a media type and their settings. */
  method ListScraperConfiguration(db: Catalog, mediaType: MediaType)
    returns (names: seq<string>, config: map<string, map<string, string>>, out: Outcome)
    ensures ListScraperOp in db.failing ==> names == [] && config == map[] && out == Fail(StoreFailed(ListScraperOp))
    ensures ListScraperOp !in db.failing ==>
      Configuration(names, config, out) == ConfigurationOf(ScrapersFor(db.st.scrapers, mediaType))
  {
    names, config := [], map[];
    var data := ListScraperForType(db.st, db.failing, mediaType);
    if data.None? {
      return names, config, Fail(StoreFailed(ListScraperOp));
    }
    var rows := data.value;
    for i := 0 to |rows|
      invariant Configuration(names, config, Pass) == ConfigurationOf(rows[..i])
    {
      assert rows[..i + 1][..i] == rows[..i];
      if rows[i].enabled {
        names := names + [rows[i].provider];
        if rows[i].settings.None? {
          assert Configuration(names, config, Fail(MalformedSettings(rows[i].provider))) == ConfigurationOf(rows[..i + 1]);
          ConfigurationOfStops(rows, i + 1);
          return names, config, Fail(MalformedSettings(rows[i].provider));
        }
        config := config[rows[i].provider := rows[i].settings.value];
      }
    }
    assert rows[..|rows|] == rows;
    out := Pass;
  }

  // ---------------------------------------------------------------- AddMultipleResults

  /**
   * AddMultipleResults: the batch for (mediaType, mediaData) is deleted, then
   * the new one inserted; the marshalling of the candidates cannot fail.
   */
  function AddResultsSpec(st: Store, failing: set<StoreOp>, mediaType: MediaType, mediaData: int,
                          results: seq<SearchData>, name: string): (r: (Store, Outcome))
    ensures r.1 == Pass <==> DeleteResultsOp !in failing && AddResultsOp !in failing
    ensures r.1 == Pass ==> r.0 == st.(batches := st.batches[(mediaType, mediaData) := Batch(name, results)])
    ensures DeleteResultsOp in failing ==> r == (st, Fail(StoreFailed(DeleteResultsOp)))
    ensures DeleteResultsOp !in failing && AddResultsOp in failing ==>
      r == (st.(batches := st.batches - {(mediaType, mediaData)}), Fail(StoreFailed(AddResultsOp)))
  {
    var (st1, rep1) := Apply(st, failing, DeleteResults(mediaType, mediaData));
    if rep1.Failed? then (st1, Fail(StoreFailed(DeleteResultsOp)))
    else
      var (st2, rep2) := Apply(st1, failing, InsertResults(mediaType, mediaData, Batch(name, results)));
      if rep2.Failed? then (st2, Fail(StoreFailed(AddResultsOp)))
      else (st2, Pass)
  }

  method AddMultipleResults(db: Catalog, mediaType: MediaType, mediaData: int,
                            results: seq<SearchData>, name: string) returns (out: Outcome)
    modifies db
    ensures (db.st, out) == AddResultsSpec(old(db.st), db.failing, mediaType, mediaData, results, name)
  {
    var rep := db.Exec(DeleteResults(mediaType, mediaData));
    if rep.Failed? {
      return Fail(StoreFailed(DeleteResultsOp));
    }
    rep := db.Exec(InsertResults(mediaType, mediaData, Batch(name, results)));
    if rep.Failed? {
      return Fail(StoreFailed(AddResultsOp));
    }
    return Pass;
  }

  // ---------------------------------------------------------------- AddTag and AddPerson

  /** The tag lookup AddTag trusts: a found row with an empty name counts as not found. */
  function ExistingTag(st: Store, failing: set<StoreOp>, tag: TagData): Option<TagRow>
  {
    var found := GetTagByValue(st, failing, tag.name, tag.value);
    if found.Some? && found.value.name != "" then found else None
  }

  /** AddTag: get or create the tag, then link it to the media entity. */
  function AddTagSpec(st: Store, failing: set<StoreOp>, mediaType: MediaType, mediaData: int,
                      tag: TagData): (r: (Store, Outcome))
    ensures r.0 == st.(tags := r.0.tags, tagLinks := r.0.tagLinks, lastId := r.0.lastId)
    ensures ExistingTag(st, failing, tag).Some? ==> r.0.tags == st.tags
    ensures ExistingTag(st, failing, tag).None? && AddTagOp in failing ==> r == (st, Fail(StoreFailed(AddTagOp)))
    ensures ExistingTag(st, failing, tag).Some? && r.1 == Pass ==>
              Link(ExistingTag(st, failing, tag).value.id, mediaType, mediaData) in r.0.tagLinks
    ensures ExistingTag(st, failing, tag).None? && AddTagOp !in failing ==>
              && r.0.tags == st.tags + [TagRow(st.lastId + 1, tag.name, tag.value, tag.icon)]
              && r.0.lastId == st.lastId + 1
              && (r.1 == Pass ==> Link(st.lastId + 1, mediaType, mediaData) in r.0.tagLinks)
    ensures r.1 == Pass ==> exists t :: t in r.0.tags && t.name == tag.name && t.value == tag.value
                                       && Link(t.id, mediaType, mediaData) in r.0.tagLinks
    ensures forall l :: l in r.0.tagLinks && l !in st.tagLinks ==>
              l.mediaType == mediaType && l.mediaData == mediaData &&
              exists t :: t in r.0.tags && t.id == l.target && t.name == tag.name && t.value == tag.value
  {
    var existing := ExistingTag(st, failing, tag);
    var (st1, tagId, created) :=
      if existing.Some? then (st, existing.value.id, Pass)
      else
        var (s, rep) := Apply(st, failing, InsertTag(tag.name, tag.value, tag.icon));
        if rep.Failed? then (s, 0, Fail(StoreFailed(AddTagOp))) else (s, rep.id, Pass);
    if created.Fail? then (st1, created)
    else
      assert TagRow(tagId, tag.name, tag.value, if existing.Some? then existing.value.icon else tag.icon) in st1.tags;
      var (st2, rep) := Apply(st1, failing, InsertTagLink(Link(tagId, mediaType, mediaData)));
      (st2, if rep.Failed? then Fail(StoreFailed(AddTagLinkOp)) else Pass)
  }

  method AddTag(db: Catalog, mediaType: MediaType, mediaData: int, tag: TagData) returns (out: Outcome)
    modifies db
    ensures (db.st, out) == AddTagSpec(old(db.st), db.failing, mediaType, mediaData, tag)
  {
    var tagId: int;
    var tagData := GetTagByValue(db.st, db.failing, tag.name, tag.value);
    if tagData.None? || tagData.value.name == "" {
      var rep := db.Exec(InsertTag(tag.name, tag.value, tag.icon));
      if rep.Failed? {
        return Fail(StoreFailed(AddTagOp));
      }
      tagId := rep.id;
    } else {
      tagId := tagData.value.id;
    }
    var rep := db.Exec(InsertTagLink(Link(tagId, mediaType, mediaData)));
    out := if rep.Failed? then Fail(StoreFailed(AddTagLinkOp)) else Pass;
  }

  /** The person lookup AddPerson trusts: a found row with an empty name counts as not found. */
  function ExistingPerson(st: Store, failing: set<StoreOp>, person: PersonData): Option<PersonRow>
  {
    var found := GetPersonByName(st, failing, person.name);
    if found.Some? && found.value.name != "" then found else None
  }

  /** AddPerson: get or create the person by name, then link it to the media entity. */
  function AddPersonSpec(st: Store, failing: set<StoreOp>, mediaType: MediaType, mediaData: int,
                         person: PersonData): (r: (Store, Outcome))
    ensures r.0 == st.(people := r.0.people, personLinks := r.0.personLinks, lastId := r.0.lastId)
    ensures ExistingPerson(st, failing, person).Some? ==> r.0.people == st.people
    ensures ExistingPerson(st, failing, person).None? && AddPersonOp in failing ==> r == (st, Fail(StoreFailed(AddPersonOp)))
    ensures ExistingPerson(st, failing, person).Some? && r.1 == Pass ==>
              Link(ExistingPerson(st, failing, person).value.id, mediaType, mediaData) in r.0.personLinks
    ensures ExistingPerson(st, failing, person).None? && AddPersonOp !in failing ==>
              && r.0.people == st.people + [PersonRow(st.lastId + 1, person.name)]
              && r.0.lastId == st.lastId + 1
              && (r.1 == Pass ==> Link(st.lastId + 1, mediaType, mediaData) in r.0.personLinks)
    ensures r.1 == Pass ==> exists p :: p in r.0.people && p.name == person.name
                                       && Link(p.id, mediaType, mediaData) in r.0.personLinks
    ensures forall l :: l in r.0.personLinks && l !in st.personLinks ==>
              l.mediaType == mediaType && l.mediaData == mediaData &&
              exists p :: p in r.0.people && p.id == l.target && p.name == person.name
  {
    var existing := ExistingPerson(st, failing, person);
    var (st1, personId, created) :=
      if existing.Some? then (st, existing.value.id, Pass)
      else
        var (s, rep) := Apply(st, failing, InsertPerson(person.name));
        if rep.Failed? then (s, 0, Fail(StoreFailed(AddPersonOp))) else (s, rep.id, Pass);
    if created.Fail? then (st1, created)
    else
      assert PersonRow(personId, person.name) in st1.people;
      var (st2, rep) := Apply(st1, failing, InsertPersonLink(Link(personId, mediaType, mediaData)));
      (st2, if rep.Failed? then Fail(StoreFailed(AddPersonLinkOp)) else Pass)
  }

  method AddPerson(db: Catalog, mediaType: MediaType, mediaData: int, person: PersonData) returns (out: Outcome)
    modifies db
    ensures (db.st, out) == AddPersonSpec(old(db.st), db.failing, mediaType, mediaData, person)
  {
    var personId: int;
    var personData := GetPersonByName(db.st, db.failing, person.name);
    if personData.None? || personData.value.name == "" {
      var rep := db.Exec(InsertPerson(person.name));
      if rep.Failed? {
        return Fail(StoreFailed(AddPersonOp));
      }
      personId := rep.id;
    } else {
      personId := personData.value.id;
    }
    var rep := db.Exec(InsertPersonLink(Link(personId, mediaType, mediaData)));
    out := if rep.Failed? then Fail(StoreFailed(AddPersonLinkOp)) else Pass;
  }
}
