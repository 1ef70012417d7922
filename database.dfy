/**
 * The Database collection: the Games dictionary, the lazily computed
 * aggregate caches, and the bulk updates that rewrite entries in place: the
 * app list, the AppInfo cache and a change of store language, plus the
 * popularity counts of developers, publishers and tags.
 */
module GameDatabase {
  import opened Wrappers
  import opened Text
  import opened Records
  import AppPlatforms
  import opened DatabaseQueries
  import opened AppSettings

  // ---------------------------------------------------------------------
  // Aggregates over the whole collection

  /** The columns a SortedSet cache is kept for. */
  predicate Cached(c: Column)
  {
    c == Developers || c == Genres || c == Flags || c == Publishers
  }

  /** The folded spellings found in column c of the entries with the given ids. */
  function FoldsIn(games: map<int, Entry>, ids: set<int>, c: Column): set<string>
  {
    set id, x | id in ids && id in games && x in ColumnOf(games[id], c) :: Fold(x)
  }

  /** x is spelled so in column c of some entry. */
  ghost predicate SpelledIn(games: map<int, Entry>, c: Column, x: string)
  {
    exists id :: id in games && x in ColumnOf(games[id], c)
  }

  /** s is the union of column c over the entries with the given ids. */
  ghost predicate UnionOf(s: CaseSet, games: map<int, Entry>, ids: set<int>, c: Column)
  {
    IsCaseSet(s) && s.Keys == FoldsIn(games, ids, c)
    && forall k :: k in s ==> SpelledIn(games, c, s[k])
  }

  /** The result of CalculateAll* over games: the union of column c over every entry. */
  ghost predicate IsUnionOver(s: CaseSet, games: map<int, Entry>, c: Column)
  {
    UnionOf(s, games, games.Keys, c)
  }

  /** A non-empty set of ids has a member to pick. */
  lemma SomeId(ids: set<int>)
    requires ids != {}
    ensures exists id :: id in ids
  {
    if forall id :: id !in ids {
      assert false;
    }
  }

  lemma FoldsInAdd(games: map<int, Entry>, done: set<int>, id: int, c: Column)
    requires id in games
    ensures FoldsIn(games, done + {id}, c) == FoldsIn(games, done, c) + FoldsOf(ColumnOf(games[id], c))
  {
  }

  /** Adding one more entry's column to a union gives the union over one more id. */
  lemma UnionStep(s: CaseSet, games: map<int, Entry>, done: set<int>, id: int, c: Column)
    requires id in games && UnionOf(s, games, done, c)
    ensures UnionOf(UnionWith(s, ColumnOf(games[id], c)), games, done + {id}, c)
  {
    var items := ColumnOf(games[id], c);
    var next := UnionWith(s, items);
    forall k | k in next ensures SpelledIn(games, c, next[k]) {
      if k !in s {
        UnionWithKeepsFirstSpelling(s, items, k);
      }
    }
    FoldsInAdd(games, done, id, c);
  }

  /**
   * The case-insensitive union of column c over every entry, taken in
   * whatever order Games.Values enumerates them: which spelling represents a
   * folded key depends on that order, the keys do not.
   */
  method UnionOver(games: map<int, Entry>, c: Column) returns (s: CaseSet)
    ensures IsUnionOver(s, games, c)
  {
    s := map[];
    var todo, done := games.Keys, {};
    while todo != {}
      invariant todo + done == games.Keys
      invariant UnionOf(s, games, done, c)
      decreases |todo|
    {
      SomeId(todo);
      var id :| id in todo;
      UnionStep(s, games, done, id, c);
      s, todo, done := UnionWith(s, ColumnOf(games[id], c)), todo - {id}, done + {id};
    }
  }

  /** The three column aggregates of a LanguageSupport or a VRSupport. */
  datatype Columns3 = Columns3(first: CaseSet, second: CaseSet, third: CaseSet)

  /** The VR and language aggregates hold the unions of their three columns. */
  ghost predicate IsUnionOver3(t: Columns3, games: map<int, Entry>, a: Column, b: Column, c: Column)
  {
    IsUnionOver(t.first, games, a) && IsUnionOver(t.second, games, b) && IsUnionOver(t.third, games, c)
  }

  method UnionOver3(games: map<int, Entry>, a: Column, b: Column, c: Column) returns (t: Columns3)
    ensures IsUnionOver3(t, games, a, b, c)
  {
    var x := UnionOver(games, a);
    var y := UnionOver(games, b);
    var z := UnionOver(games, c);
    t := Columns3(x, y, z);
  }

  // ---------------------------------------------------------------------
  // The app list

  /** One `/applist/apps/app` node: its appid when it parses as an int, and its name. */
  datatype AppNode = AppNode(appId: Option<int>, name: Option<string>)

  /**
   * One node of the app list: an unseen id is inserted with the node's name;
   * a known id whose name is empty or differs takes the node's name and is
   * reset to AppType Unknown.
   */
  function IntegrateNode(games: map<int, Entry>, node: AppNode): (r: map<int, Entry>)
    ensures node.appId.None? ==> r == games
    ensures node.appId.Some? ==>
      r.Keys == games.Keys + {node.appId.value} && r[node.appId.value].name == node.name
    ensures forall id :: id in games && Some(id) != node.appId ==> r[id] == games[id]
  {
    match node.appId
    case None => games
    case Some(id) =>
      if id in games then
        var g := games[id];
        if IsNullOrEmpty(g.name) || g.name != node.name then games[id := g.(name := node.name, appType := Unknown)]
        else games
      else games[id := NewEntry(id).(name := node.name)]
  }

  /** The node inserts a new entry. */
  function AddedBy(keys: set<int>, node: AppNode): nat
  {
    if node.appId.Some? && node.appId.value !in keys then 1 else 0
  }

  /** The games after IntegrateAppList over the nodes, in document order. */
  function IntegrateAll(games: map<int, Entry>, apps: seq<AppNode>): map<int, Entry>
  {
    if apps == [] then games else IntegrateNode(IntegrateAll(games, apps[..|apps| - 1]), apps[|apps| - 1])
  }

  /** The count IntegrateAppList returns. */
  function AddedCount(games: map<int, Entry>, apps: seq<AppNode>): nat
  {
    if apps == [] then 0
    else AddedCount(games, apps[..|apps| - 1]) + AddedBy(IntegrateAll(games, apps[..|apps| - 1]).Keys, apps[|apps| - 1])
  }

  /** The ids of the nodes whose appid parses. */
  function ListedIds(apps: seq<AppNode>): set<int>
  {
    set n | n in apps && n.appId.Some? :: n.appId.value
  }

  /** The ids of a node, as a set. */
  function NodeIds(node: AppNode): set<int>
  {
    if node.appId.Some? then {node.appId.value} else {}
  }

  lemma ListedIdsSnoc(apps: seq<AppNode>)
    requires apps != []
    ensures ListedIds(apps) == ListedIds(apps[..|apps| - 1]) + NodeIds(apps[|apps| - 1])
  {
    var init := apps[..|apps| - 1];
    assert forall n :: n in init ==> n in apps;
    forall i | i in ListedIds(apps)
      ensures i in ListedIds(init) || (apps[|apps| - 1].appId == Some(i))
    {
      var n :| n in apps && n.appId == Some(i);
      if n != apps[|apps| - 1] {
        var j :| 0 <= j < |apps| && apps[j] == n;
        assert init[j] == n;
      }
    }
  }

  /** Integration adds exactly the listed ids. */
  lemma {:induction false} IntegrateAddsListedIds(games: map<int, Entry>, apps: seq<AppNode>)
    ensures IntegrateAll(games, apps).Keys == games.Keys + ListedIds(apps)
  {
    if apps != [] {
      IntegrateAddsListedIds(games, apps[..|apps| - 1]);
      ListedIdsSnoc(apps);
    }
  }

  /** Set arithmetic of one integration step: a listed id is new exactly when the keys so far lack it. */
  lemma NewIdsStep(keys: set<int>, listed: set<int>, node: AppNode)
    ensures |(listed + NodeIds(node)) - keys| ==
      |listed - keys| + AddedBy(keys + listed, node)
  {
    if node.appId.Some? && node.appId.value !in keys + listed {
      assert (listed + NodeIds(node)) - keys == (listed - keys) + {node.appId.value};
    } else {
      assert (listed + NodeIds(node)) - keys == listed - keys;
    }
  }

  /** The count integration returns is the number of listed ids that were not in the database before. */
  lemma {:induction false} IntegrateCountsNewIds(games: map<int, Entry>, apps: seq<AppNode>)
    ensures AddedCount(games, apps) == |ListedIds(apps) - games.Keys|
  {
    if apps != [] {
      var init := apps[..|apps| - 1];
      var last := apps[|apps| - 1];
      IntegrateCountsNewIds(games, init);
      IntegrateAddsListedIds(games, init);
      ListedIdsSnoc(apps);
      NewIdsStep(games.Keys, ListedIds(init), last);
    }
  }

  /** An entry whose id no node lists is left exactly as it was. */
  lemma {:induction false} IntegrateKeepsUnlisted(games: map<int, Entry>, apps: seq<AppNode>, id: int)
    requires id in games && id !in ListedIds(apps)
    ensures id in IntegrateAll(games, apps) && IntegrateAll(games, apps)[id] == games[id]
  {
    if apps != [] {
      ListedIdsSnoc(apps);
      IntegrateKeepsUnlisted(games, apps[..|apps| - 1], id);
    }
  }

  /** A listed id ends with the name of the last node that lists it. */
  lemma {:induction false} IntegrateTakesLastName(games: map<int, Entry>, apps: seq<AppNode>, i: int)
    requires 0 <= i < |apps| && apps[i].appId.Some?
    requires forall j :: i < j < |apps| ==> apps[j].appId != apps[i].appId
    ensures apps[i].appId.value in IntegrateAll(games, apps)
    ensures IntegrateAll(games, apps)[apps[i].appId.value].name == apps[i].name
  {
    var init := apps[..|apps| - 1];
    if i < |apps| - 1 {
      IntegrateTakesLastName(games, init, i);
    }
  }

  /** After integrating a node with an id, GetName yields the node's name for that id. */
  lemma IntegratedNameIsListed(games: map<int, Entry>, node: AppNode)
    requires node.appId.Some?
    ensures GetName(IntegrateNode(games, node), node.appId.value) == node.name
  {
  }

  /** A known app renamed by the app list drops out of the game list until its type is learnt again. */
  lemma RenamedAppLeftOutOfGameList(games: map<int, Entry>, node: AppNode)
    requires node.appId.Some? && node.appId.value in games
    requires games[node.appId.value].name != node.name
    ensures !IncludeItemInGameList(IntegrateNode(games, node), node.appId.value)
  {
  }

  // ---------------------------------------------------------------------
  // The AppInfo cache

  /** What UpdateFromAppInfo reads from one AppInfo record. */
  datatype AppInfo = AppInfo(
    appId: int, appType: AppType, name: Option<string>, platforms: AppPlatforms.Platforms, parentId: int)

  /**
   * One AppInfo record applied to its entry: the AppInfo stamp becomes the
   * timestamp; a known type, a non-empty name and a positive parent are
   * adopted; platforms are adopted when none are recorded, or when the entry
   * was never scraped and the record names some.
   */
  function ApplyAppInfo(e: Entry, a: AppInfo, timestamp: int): (r: Entry)
  {
    e.(lastAppInfoUpdate := timestamp,
       appType := if a.appType != Unknown then a.appType else e.appType,
       name := if !IsNullOrEmpty(a.name) then a.name else e.name,
       platforms := if e.platforms == AppPlatforms.None || (e.lastStoreScrape == 0 && AppPlatforms.IsPositive(a.platforms))
                    then a.platforms else e.platforms,
       parentId := if a.parentId > 0 then a.parentId else e.parentId)
  }

  /** The body of the UpdateFromAppInfo loop for one entry. */
  method ApplyRecord(e: Entry, a: AppInfo, timestamp: int) returns (entry: Entry)
    ensures entry == ApplyAppInfo(e, a, timestamp)
  {
    var appType, name, platforms, parentId := e.appType, e.name, e.platforms, e.parentId;
    if a.appType != Unknown {
      appType := a.appType;
    }
    if !IsNullOrEmpty(a.name) {
      name := a.name;
    }
    if platforms == AppPlatforms.None || (e.lastStoreScrape == 0 && AppPlatforms.IsPositive(a.platforms)) {
      platforms := a.platforms;
    }
    if a.parentId > 0 {
      parentId := a.parentId;
    }
    entry := e.(lastAppInfoUpdate := timestamp, appType := appType, name := name, platforms := platforms, parentId := parentId);
  }

  /** One record applied to the collection: its entry is created when missing. */
  function UpdateOne(games: map<int, Entry>, a: AppInfo, timestamp: int): map<int, Entry>
  {
    var e := if a.appId in games then games[a.appId] else NewEntry(a.appId);
    games[a.appId := ApplyAppInfo(e, a, timestamp)]
  }

  /** The games after UpdateFromAppInfo over the records, in enumeration order. */
  function UpdateAll(games: map<int, Entry>, infos: seq<AppInfo>, timestamp: int): map<int, Entry>
  {
    if infos == [] then games else UpdateOne(UpdateAll(games, infos[..|infos| - 1], timestamp), infos[|infos| - 1], timestamp)
  }

  /** The UpdateFromAppInfo loop over the records; the count is the number of records. */
  method UpdateEntries(games: map<int, Entry>, infos: seq<AppInfo>, timestamp: int) returns (r: map<int, Entry>, updated: int)
    ensures r == UpdateAll(games, infos, timestamp)
    ensures updated == |infos|
  {
    r := games;
    updated := 0;
    for i := 0 to |infos|
      invariant r == UpdateAll(games, infos[..i], timestamp)
      invariant updated == i
    {
      assert infos[..i + 1][..i] == infos[..i];
      var a := infos[i];
      var entry := if a.appId in r then r[a.appId] else NewEntry(a.appId);
      entry := ApplyRecord(entry, a, timestamp);
      r := r[a.appId := entry];
      updated := updated + 1;
    }
    assert infos[..|infos|] == infos;
  }

  /** A record touches only its entry's stamp, type, name, platforms and parent, and never forgets a known type. */
  lemma AppInfoTouchesFiveFields(e: Entry, a: AppInfo, timestamp: int)
    ensures var r := ApplyAppInfo(e, a, timestamp);
      r == e.(lastAppInfoUpdate := timestamp, appType := r.appType, name := r.name,
              platforms := r.platforms, parentId := r.parentId)
      && (e.appType != Unknown ==> r.appType != Unknown)
      && (a.appType != Unknown ==> r.appType == a.appType)
      && (!IsNullOrEmpty(e.name) ==> !IsNullOrEmpty(r.name))
  {
  }

  /** Applying the same record twice is the same as applying it once. */
  lemma AppInfoIdempotent(e: Entry, a: AppInfo, timestamp: int)
    ensures ApplyAppInfo(ApplyAppInfo(e, a, timestamp), a, timestamp) == ApplyAppInfo(e, a, timestamp)
  {
  }

  /** Platforms recorded by a store scrape survive AppInfo unless none are recorded. */
  lemma ScrapedPlatformsKept(e: Entry, a: AppInfo, timestamp: int)
    requires e.lastStoreScrape != 0 && e.platforms != AppPlatforms.None
    ensures ApplyAppInfo(e, a, timestamp).platforms == e.platforms
  {
  }

  function InfoIds(infos: seq<AppInfo>): set<int>
  {
    set a | a in infos :: a.appId
  }

  lemma InfoIdsSnoc(infos: seq<AppInfo>)
    requires infos != []
    ensures InfoIds(infos) == InfoIds(infos[..|infos| - 1]) + {infos[|infos| - 1].appId}
  {
    var init := infos[..|infos| - 1];
    assert forall a :: a in init ==> a in infos;
    forall i | i in InfoIds(infos) ensures i in InfoIds(init) + {infos[|infos| - 1].appId} {
      var a :| a in infos && a.appId == i;
      if a != infos[|infos| - 1] {
        var j :| 0 <= j < |infos| && infos[j] == a;
        assert init[j] == a;
      }
    }
  }

  /** The records create exactly the entries they name that were missing. */
  lemma {:induction false} UpdateAllKeys(games: map<int, Entry>, infos: seq<AppInfo>, timestamp: int)
    ensures UpdateAll(games, infos, timestamp).Keys == games.Keys + InfoIds(infos)
  {
    if infos != [] {
      UpdateAllKeys(games, infos[..|infos| - 1], timestamp);
      InfoIdsSnoc(infos);
    }
  }

  /** Every entry a record names carries the new AppInfo timestamp. */
  lemma {:induction false} UpdateAllStamps(games: map<int, Entry>, infos: seq<AppInfo>, timestamp: int, id: int)
    requires id in InfoIds(infos)
    ensures id in UpdateAll(games, infos, timestamp) && UpdateAll(games, infos, timestamp)[id].lastAppInfoUpdate == timestamp
  {
    InfoIdsSnoc(infos);
    if infos[|infos| - 1].appId != id {
      UpdateAllStamps(games, infos[..|infos| - 1], timestamp, id);
    }
  }

  /** An entry no record names is left exactly as it was. */
  lemma {:induction false} UpdateAllKeepsUnlisted(games: map<int, Entry>, infos: seq<AppInfo>, timestamp: int, id: int)
    requires id in games && id !in InfoIds(infos)
    ensures id in UpdateAll(games, infos, timestamp) && UpdateAll(games, infos, timestamp)[id] == games[id]
  {
    if infos != [] {
      InfoIdsSnoc(infos);
      UpdateAllKeepsUnlisted(games, infos[..|infos| - 1], timestamp, id);
    }
  }

  // ---------------------------------------------------------------------
  // ChangeLanguage

  /**
   * The language the database is to hold: `windows` stands for the
   * language of the current culture (`culture`, resolved by the caller),
   * any other value for itself.
   */
  function DatabaseLanguage(lang: StoreLanguage, culture: StoreLanguage): StoreLanguage
  {
    if lang == Windows then culture else lang
  }

  /** An entry after the language reset: its store-language text is dropped and it looks long out of date. */
  function LanguageReset(e: Entry): (r: Entry)
  {
    e.(tags := [], flags := [], genres := [], steamReleaseDate := None, lastStoreScrape := 1,
       vrSupport := EmptyVr, languageSupport := EmptyLanguages)
  }

  /** The reset applies only to entries with a positive id. */
  function ResetEntry(e: Entry): Entry
  {
    if e.id > 0 then LanguageReset(e) else e
  }

  /** The reset keeps the developers, publishers, name, reviews and AppInfo data, and is idempotent. */
  lemma LanguageResetKeeps(e: Entry)
    ensures var r := ResetEntry(e);
      r.developers == e.developers && r.publishers == e.publishers && r.name == e.name
      && r.reviewTotal == e.reviewTotal && r.reviewPositivePercentage == e.reviewPositivePercentage
      && r.appType == e.appType && r.lastAppInfoUpdate == e.lastAppInfoUpdate
      && (e.id > 0 ==> r.tags == [] && r.flags == [] && r.genres == [] && r.lastStoreScrape == 1)
      && ResetEntry(r) == r
  {
  }

  /** The reset loop of ChangeLanguage over every entry. */
  method ResetLanguage(games: map<int, Entry>) returns (r: map<int, Entry>)
    ensures r.Keys == games.Keys
    ensures forall id :: id in r ==> r[id] == ResetEntry(games[id])
  {
    r := games;
    var todo := games.Keys;
    while todo != {}
      invariant todo <= r.Keys && r.Keys == games.Keys
      invariant forall id :: id in r ==> r[id] == if id in todo then games[id] else ResetEntry(games[id])
      decreases |todo|
    {
      SomeId(todo);
      var id :| id in todo;
      var entry := r[id];
      if entry.id > 0 {
        r := r[id := LanguageReset(entry)];
      }
      todo := todo - {id};
    }
  }

  // ---------------------------------------------------------------------
  // Popularity counts

  /**
   * The game-list filter of the count queries: for each id of the profile,
   * whether the game is hidden.  `None` counts every entry of the database.
   */
  type GameFilter = Option<map<int, bool>>

  /** The ids whose entries are counted. */
  function CountedIds(games: map<int, Entry>, filter: GameFilter): (r: set<int>)
    ensures r <= games.Keys
  {
    match filter
    case None => games.Keys
    case Some(f) => set id | id in f && id in games && !f[id]
  }

  /** Column c of the entries with the given ids, as one multiset: an item counts once per occurrence. */
  ghost function Tally(games: map<int, Entry>, ids: set<int>, c: Column): multiset<string>
    decreases ids
  {
    if ids == {} then multiset{}
    else
      SomeId(ids);
      var id :| id in ids;
      (if id in games then multiset(ColumnOf(games[id], c)) else multiset{}) + Tally(games, ids - {id}, c)
  }

  /** The tally does not depend on the order the ids are taken in. */
  lemma {:induction false} TallyRemove(games: map<int, Entry>, ids: set<int>, x: int, c: Column)
    requires x in ids
    ensures Tally(games, ids, c) ==
      (if x in games then multiset(ColumnOf(games[x], c)) else multiset{}) + Tally(games, ids - {x}, c)
    decreases ids
  {
    var id :| id in ids && Tally(games, ids, c) ==
      (if id in games then multiset(ColumnOf(games[id], c)) else multiset{}) + Tally(games, ids - {id}, c);
    if id != x {
      TallyRemove(games, ids - {id}, x, c);
      TallyRemove(games, ids - {x}, id, c);
      assert ids - {id} - {x} == ids - {x} - {id};
    }
  }

  /** The dictionary of counts as the query returns it: the items counted at least minCount times. */
  function AtLeast(tally: multiset<string>, minCount: int): (r: map<string, int>)
    ensures forall x :: x in r <==> x in tally && tally[x] >= minCount
    ensures forall x :: x in r ==> r[x] == tally[x]
  {
    map x | x in tally && tally[x] >= minCount :: tally[x]
  }

  /** CalculateSortedDevListHelper and CalculateSortedPubListHelper: +1 per occurrence. */
  method CountItems(counts: multiset<string>, items: seq<string>) returns (r: multiset<string>)
    ensures r == counts + multiset(items)
  {
    r := counts;
    for i := 0 to |items|
      invariant r == counts + multiset(items[..i])
    {
      assert items[..i + 1] == items[..i] + [items[i]];
      r := r[items[i] := r[items[i]] + 1];
    }
    assert items[..|items|] == items;
  }

  /** The counting loop of CalculateSortedDevList and CalculateSortedPubList over the counted entries. */
  method CountColumn(games: map<int, Entry>, ids: set<int>, c: Column) returns (t: multiset<string>)
    requires ids <= games.Keys
    ensures t == Tally(games, ids, c)
  {
    t := multiset{};
    var todo := ids;
    while todo != {}
      invariant todo <= ids
      invariant t + Tally(games, todo, c) == Tally(games, ids, c)
      decreases |todo|
    {
      SomeId(todo);
      var id :| id in todo;
      TallyRemove(games, todo, id, c);
      var own := multiset(ColumnOf(games[id], c));
      assert (t + own) + Tally(games, todo - {id}, c) == t + Tally(games, todo, c);
      t := CountItems(t, ColumnOf(games[id], c));
      todo := todo - {id};
    }
  }

  /** How many of an entry's tags are scored: all when tagsPerGame is 0, else at most tagsPerGame. */
  function TagsToLoad(tagsPerGame: int, count: nat): (n: int)
    ensures n <= count
    ensures tagsPerGame >= 0 ==> n >= 0
  {
    if tagsPerGame == 0 then count else if tagsPerGame < count then tagsPerGame else count
  }

  /**
   * The score of the tag at position i out of n: 1 without weighting, else
   * interpolated linearly from weightFactor down to 1.  Reals stand for the
   * floats of the code.
   */
  function TagScore(i: nat, n: int, weightFactor: real): real
  {
    if weightFactor > 1.0 then
      if n <= 1 then weightFactor
      else
        var interp := i as real / (n - 1) as real;
        (1.0 - interp) * weightFactor + interp
    else 1.0
  }

  /** The first tag scores weightFactor and the last scores 1. */
  lemma TagScoreEndpoints(n: int, weightFactor: real)
    requires weightFactor > 1.0 && n >= 2
    ensures TagScore(0, n, weightFactor) == weightFactor
    ensures TagScore(n - 1, n, weightFactor) == 1.0
  {
    var d := (n - 1) as real;
    assert (n - 1) as real / d == 1.0;
  }

  lemma MulNonNegative(x: real, y: real)
    requires x >= 0.0 && y >= 0.0
    ensures x * y >= 0.0
  {
  }

  lemma MulPositive(x: real, y: real)
    requires x > 0.0 && y > 0.0
    ensures x * y > 0.0
  {
  }

  /** Interpolating between weightFactor and 1 stays between them. */
  lemma ScaleBetween(interp: real, w: real)
    requires 0.0 <= interp <= 1.0 && w > 1.0
    ensures 1.0 <= (1.0 - interp) * w + interp <= w
  {
    assert (1.0 - interp) * w + interp == w - interp * (w - 1.0);
    MulNonNegative(interp, w - 1.0);
    MulNonNegative(1.0 - interp, w - 1.0);
  }

  /** Moving further along the interpolation lowers the score. */
  lemma ScaleDecreasing(a: real, b: real, w: real)
    requires a < b && w > 1.0
    ensures (1.0 - b) * w + b < (1.0 - a) * w + a
  {
    assert (1.0 - b) * w + b == w - b * (w - 1.0);
    assert (1.0 - a) * w + a == w - a * (w - 1.0);
    MulPositive(b - a, w - 1.0);
  }

  /** i / d lies in [0, 1] for 0 <= i <= d. */
  lemma RatioBetween(i: nat, d: nat)
    requires 0 < d && i <= d
    ensures 0.0 <= i as real / d as real <= 1.0
  {
    var q := i as real / d as real;
    assert q * d as real == i as real;
    if q < 0.0 {
      MulPositive(0.0 - q, d as real);
    }
    if q > 1.0 {
      MulPositive(q - 1.0, d as real);
    }
  }

  /** i / d grows with i. */
  lemma RatioIncreasing(i: nat, d: nat)
    requires 0 < d
    ensures i as real / d as real < (i + 1) as real / d as real
  {
    var q, q' := i as real / d as real, (i + 1) as real / d as real;
    assert q * d as real == i as real;
    assert q' * d as real == (i + 1) as real;
    if q >= q' {
      MulNonNegative(q - q', d as real);
    }
  }

  /** Scores lie between 1 and weightFactor and fall strictly from one position to the next. */
  lemma TagScoreBetween(i: nat, n: int, weightFactor: real)
    requires i < n
    ensures weightFactor <= 1.0 ==> TagScore(i, n, weightFactor) == 1.0
    ensures weightFactor > 1.0 ==> 1.0 <= TagScore(i, n, weightFactor) <= weightFactor
    ensures weightFactor > 1.0 && i + 1 < n ==> TagScore(i + 1, n, weightFactor) < TagScore(i, n, weightFactor)
  {
    if weightFactor > 1.0 && n > 1 {
      var q := i as real / (n - 1) as real;
      RatioBetween(i, n - 1);
      ScaleBetween(q, weightFactor);
      if i + 1 < n {
        var q' := (i + 1) as real / (n - 1) as real;
        assert TagScore(i + 1, n, weightFactor) == (1.0 - q') * weightFactor + q';
        RatioIncreasing(i, n - 1);
        ScaleDecreasing(q, q', weightFactor);
      }
    }
  }

  /** The tags of an entry that are scored. */
  function Loaded(tags: seq<string>, tagsPerGame: int): seq<string>
  {
    var n := TagsToLoad(tagsPerGame, |tags|);
    if n > 0 then tags[..n] else []
  }

  /** The score of t in a dictionary, 0 when it is absent. */
  function ScoreOf(counts: map<string, real>, t: string): real
  {
    if t in counts then counts[t] else 0.0
  }

  /** The score tag t earns from the first k of the tags, out of n loaded. */
  function EntryScore(tags: seq<string>, k: nat, n: int, weightFactor: real, t: string): real
    requires k <= |tags|
  {
    if k == 0 then 0.0
    else EntryScore(tags, k - 1, n, weightFactor, t) + (if tags[k - 1] == t then TagScore(k - 1, n, weightFactor) else 0.0)
  }

  /** A tag earns at least 1 per occurrence among the loaded tags. */
  lemma {:induction false} EntryScoreCountsOccurrences(tags: seq<string>, k: nat, n: int, weightFactor: real, t: string)
    requires k <= |tags| && k <= n
    ensures EntryScore(tags, k, n, weightFactor, t) >= multiset(tags[..k])[t] as real
  {
    if k > 0 {
      EntryScoreCountsOccurrences(tags, k - 1, n, weightFactor, t);
      TagScoreBetween(k - 1, n, weightFactor);
      assert tags[..k] == tags[..k - 1] + [tags[k - 1]];
    }
  }

  /** The dictionary after adding the scores of the first k tags, out of n loaded, in order. */
  function Scored(counts: map<string, real>, tags: seq<string>, k: nat, n: int, weightFactor: real): map<string, real>
    requires k <= |tags|
  {
    if k == 0 then counts
    else
      var before := Scored(counts, tags, k - 1, n, weightFactor);
      var t := tags[k - 1];
      before[t := ScoreOf(before, t) + TagScore(k - 1, n, weightFactor)]
  }

  /**
   * Scoring tags one after another adds each tag's own score to the
   * dictionary, and adds exactly the scored tags to its keys.
   */
  lemma {:induction false} ScoredAddsEntryScores(counts: map<string, real>, tags: seq<string>, k: nat, n: int, weightFactor: real)
    requires k <= |tags|
    ensures forall t :: t in Scored(counts, tags, k, n, weightFactor) <==> t in counts || t in tags[..k]
    ensures forall t :: ScoreOf(Scored(counts, tags, k, n, weightFactor), t) == ScoreOf(counts, t) + EntryScore(tags, k, n, weightFactor, t)
  {
    if k > 0 {
      ScoredAddsEntryScores(counts, tags, k - 1, n, weightFactor);
      assert tags[..k] == tags[..k - 1] + [tags[k - 1]];
      var before := Scored(counts, tags, k - 1, n, weightFactor);
      forall t ensures ScoreOf(Scored(counts, tags, k, n, weightFactor), t) == ScoreOf(counts, t) + EntryScore(tags, k, n, weightFactor, t) {
        assert ScoreOf(before, t) == ScoreOf(counts, t) + EntryScore(tags, k - 1, n, weightFactor, t);
      }
    }
  }

  /** CalculateSortedTagListHelper: the scores of the loaded tags of one entry added to the dictionary in order. */
  method AddTagScores(counts: map<string, real>, tags: seq<string>, weightFactor: real, tagsPerGame: int)
    returns (r: map<string, real>)
    ensures r == Scored(counts, tags, |Loaded(tags, tagsPerGame)|, TagsToLoad(tagsPerGame, |tags|), weightFactor)
  {
    var n := TagsToLoad(tagsPerGame, |tags|);
    r := counts;
    var i := 0;
    while i < n
      invariant 0 <= i <= |tags| && (i <= n || i == 0)
      invariant r == Scored(counts, tags, i, n, weightFactor)
    {
      var score := 1.0;
      if weightFactor > 1.0 {
        if n <= 1 {
          score := weightFactor;
        } else {
          var interp := i as real / (n - 1) as real;
          score := (1.0 - interp) * weightFactor + interp;
        }
      }
      assert score == TagScore(i, n, weightFactor);
      var tag := tags[i];
      if tag in r {
        r := r[tag := r[tag] + score];
      } else {
        r := r[tag := score];
      }
      i := i + 1;
    }
  }

  /** The score tag t earns from one entry. */
  function Contribution(e: Entry, tagsPerGame: int, weightFactor: real, t: string): real
  {
    EntryScore(e.tags, |Loaded(e.tags, tagsPerGame)|, TagsToLoad(tagsPerGame, |e.tags|), weightFactor, t)
  }

  /** The total score of tag t over the entries with the given ids. */
  ghost function TagTotal(games: map<int, Entry>, ids: set<int>, tagsPerGame: int, weightFactor: real, t: string): real
    decreases ids
  {
    if ids == {} then 0.0
    else
      SomeId(ids);
      var id :| id in ids;
      (if id in games then Contribution(games[id], tagsPerGame, weightFactor, t) else 0.0)
      + TagTotal(games, ids - {id}, tagsPerGame, weightFactor, t)
  }

  /** The total does not depend on the order the entries are taken in. */
  lemma {:induction false} TagTotalRemove(games: map<int, Entry>, ids: set<int>, x: int, tagsPerGame: int, weightFactor: real, t: string)
    requires x in ids
    ensures TagTotal(games, ids, tagsPerGame, weightFactor, t) ==
      (if x in games then Contribution(games[x], tagsPerGame, weightFactor, t) else 0.0)
      + TagTotal(games, ids - {x}, tagsPerGame, weightFactor, t)
    decreases ids
  {
    SomeId(ids);
    var id :| id in ids && TagTotal(games, ids, tagsPerGame, weightFactor, t) ==
      (if id in games then Contribution(games[id], tagsPerGame, weightFactor, t) else 0.0)
      + TagTotal(games, ids - {id}, tagsPerGame, weightFactor, t);
    if id != x {
      TagTotalRemove(games, ids - {id}, x, tagsPerGame, weightFactor, t);
      TagTotalRemove(games, ids - {x}, id, tagsPerGame, weightFactor, t);
      assert ids - {id} - {x} == ids - {x} - {id};
    }
  }

  /** The tags scored for the entries with the given ids. */
  function LoadedTags(games: map<int, Entry>, ids: set<int>, tagsPerGame: int): set<string>
  {
    set id, t | id in ids && id in games && t in Loaded(games[id].tags, tagsPerGame) :: t
  }

  lemma LoadedTagsAdd(games: map<int, Entry>, done: set<int>, id: int, tagsPerGame: int)
    requires id in games
    ensures LoadedTags(games, done + {id}, tagsPerGame) ==
      LoadedTags(games, done, tagsPerGame) + set t | t in Loaded(games[id].tags, tagsPerGame)
  {
  }

  /**
   * The scoring loop of CalculateSortedTagList: every scored tag is a key,
   * with its total score over the entries.
   */
  method ScoreTags(games: map<int, Entry>, ids: set<int>, weightFactor: real, tagsPerGame: int)
    returns (counts: map<string, real>)
    requires ids <= games.Keys
    ensures counts.Keys == LoadedTags(games, ids, tagsPerGame)
    ensures forall t :: ScoreOf(counts, t) == TagTotal(games, ids, tagsPerGame, weightFactor, t)
  {
    counts := map[];
    var todo, done := ids, {};
    while todo != {}
      invariant todo + done == ids && todo !! done
      invariant counts.Keys == LoadedTags(games, done, tagsPerGame)
      invariant forall t ::
        ScoreOf(counts, t) + TagTotal(games, todo, tagsPerGame, weightFactor, t) == TagTotal(games, ids, tagsPerGame, weightFactor, t)
      decreases |todo|
    {
      SomeId(todo);
      var id :| id in todo;
      var tags := games[id].tags;
      var next := AddTagScores(counts, tags, weightFactor, tagsPerGame);
      var k := |Loaded(tags, tagsPerGame)|;
      ScoredAddsEntryScores(counts, tags, k, TagsToLoad(tagsPerGame, |tags|), weightFactor);
      assert tags[..k] == Loaded(tags, tagsPerGame);
      forall t ensures ScoreOf(next, t) + TagTotal(games, todo - {id}, tagsPerGame, weightFactor, t)
        == TagTotal(games, ids, tagsPerGame, weightFactor, t)
      {
        TagTotalRemove(games, todo, id, tagsPerGame, weightFactor, t);
      }
      LoadedTagsAdd(games, done, id, tagsPerGame);
      counts, todo, done := next, todo - {id}, done + {id};
    }
  }

  /**
   * The end of CalculateSortedTagList: the excluded names are removed by
   * exact spelling, then the tags scoring below minScore are dropped.
   */
  function SelectTags(counts: map<string, real>, excluded: set<string>, minScore: int): (r: map<string, real>)
    ensures forall t :: t in r <==> t in counts && t !in excluded && counts[t] >= minScore as real
    ensures forall t :: t in r ==> r[t] == counts[t]
  {
    var kept := map t | t in counts && t !in excluded :: counts[t];
    map t | t in kept && kept[t] >= minScore as real :: kept[t]
  }

  // ---------------------------------------------------------------------
  // The collection

  class Database {
    var games: map<int, Entry>
    var allDevelopers: Option<CaseSet>
    var allGenres: Option<CaseSet>
    var allFlags: Option<CaseSet>
    var allPublishers: Option<CaseSet>
    /** `_allLanguages`: full audio, interface and subtitles. */
    var allLanguages: Option<Columns3>
    /** `_allVrSupportFlags`: headsets, input and play area. */
    var allVrSupportFlags: Option<Columns3>

    /** An empty database; no cache has been created, the two triple caches included. */
    constructor ()
      ensures games == map[]
      ensures allDevelopers == allGenres == allFlags == allPublishers == None
      ensures allLanguages == allVrSupportFlags == None
    {
      games := map[];
      allDevelopers, allGenres, allFlags, allPublishers := None, None, None, None;
      allLanguages, allVrSupportFlags := None, None;
    }

    /** The cache kept for column c. */
    function Cache(c: Column): Option<CaseSet>
      requires Cached(c)
      reads this
    {
      match c
      case Developers => allDevelopers
      case Genres => allGenres
      case Flags => allFlags
      case Publishers => allPublishers
    }

    /** Nothing but the cache for column c changed. */
    twostate predicate OnlyCacheChanged(c: Column)
      requires Cached(c)
      reads this
    {
      games == old(games) && allLanguages == old(allLanguages) && allVrSupportFlags == old(allVrSupportFlags)
      && (c != Developers ==> allDevelopers == old(allDevelopers))
      && (c != Genres ==> allGenres == old(allGenres))
      && (c != Flags ==> allFlags == old(allFlags))
      && (c != Publishers ==> allPublishers == old(allPublishers))
    }

    /**
     * CalculateAllDevelopers, CalculateAllGenres, CalculateAllPublishers and
     * CalculateAllStoreFlags: the cache is created or cleared, then refilled
     * with the case-insensitive union of the column over every entry.
     */
    method CalculateAll(c: Column) returns (r: CaseSet)
      requires Cached(c)
      modifies this
      ensures IsUnionOver(r, games, c)
      ensures Cache(c) == Some(r)
      ensures OnlyCacheChanged(c)
    {
      r := UnionOver(games, c);
      match c {
        case Developers => allDevelopers := Some(r);
        case Genres => allGenres := Some(r);
        case Flags => allFlags := Some(r);
        case Publishers => allPublishers := Some(r);
      }
    }

    /** GetAllDevelopers and its siblings: the cache when there is one, else a fresh calculation. */
    method GetAll(c: Column) returns (r: CaseSet)
      requires Cached(c)
      modifies this
      ensures old(Cache(c)).Some? ==> r == old(Cache(c)).value && Cache(c) == old(Cache(c))
      ensures old(Cache(c)).None? ==> IsUnionOver(r, games, c) && Cache(c) == Some(r)
      ensures OnlyCacheChanged(c)
    {
      match Cache(c) {
        case Some(s) => r := s;
        case None => r := CalculateAll(c);
      }
    }

    /** ClearAggregates: drops the four set caches, and neither the language nor the VR cache. */
    method ClearAggregates()
      modifies this
      ensures allGenres == allFlags == allDevelopers == allPublishers == None
      ensures games == old(games) && allLanguages == old(allLanguages) && allVrSupportFlags == old(allVrSupportFlags)
    {
      allGenres, allFlags, allDevelopers, allPublishers := None, None, None, None;
    }

    /**
     * CalculateAllLanguages as written: the three unions are computed, then
     * the columns of `_allLanguages` are replaced, which throws when no
     * cache object exists.
     */
    method CalculateAllLanguages() returns (r: Result<Columns3>)
      modifies this
      ensures old(allLanguages).None? ==> r == Err(NullReference) && allLanguages == None
      ensures old(allLanguages).Some? ==>
        r.Ok? && allLanguages == Some(r.value) && IsUnionOver3(r.value, games, FullAudio, Interface, Subtitles)
      ensures games == old(games) && allVrSupportFlags == old(allVrSupportFlags)
      ensures allDevelopers == old(allDevelopers) && allGenres == old(allGenres)
      ensures allFlags == old(allFlags) && allPublishers == old(allPublishers)
    {
      var t := UnionOver3(games, FullAudio, Interface, Subtitles);
      if allLanguages.None? {
        return Err(NullReference);
      }
      allLanguages := Some(t);
      r := Ok(t);
    }

    /** CalculateAllVrSupportFlags as written: the same, over `_allVrSupportFlags`. */
    method CalculateAllVrSupportFlags() returns (r: Result<Columns3>)
      modifies this
      ensures old(allVrSupportFlags).None? ==> r == Err(NullReference) && allVrSupportFlags == None
      ensures old(allVrSupportFlags).Some? ==>
        r.Ok? && allVrSupportFlags == Some(r.value) && IsUnionOver3(r.value, games, Headsets, Input, PlayArea)
      ensures games == old(games) && allLanguages == old(allLanguages)
      ensures allDevelopers == old(allDevelopers) && allGenres == old(allGenres)
      ensures allFlags == old(allFlags) && allPublishers == old(allPublishers)
    {
      var t := UnionOver3(games, Headsets, Input, PlayArea);
      if allVrSupportFlags.None? {
        return Err(NullReference);
      }
      allVrSupportFlags := Some(t);
      r := Ok(t);
    }

    /** GetAllLanguages as written: reading the columns of a missing cache object throws; the columns themselves are never null. */
    method GetAllLanguages() returns (r: Result<Columns3>)
      ensures allLanguages.None? ==> r == Err(NullReference)
      ensures allLanguages.Some? ==> r == Ok(allLanguages.value)
    {
      if allLanguages.None? {
        return Err(NullReference);
      }
      r := Ok(allLanguages.value);
    }

    /** GetAllVrSupportFlags as written. */
    method GetAllVrSupportFlags() returns (r: Result<Columns3>)
      ensures allVrSupportFlags.None? ==> r == Err(NullReference)
      ensures allVrSupportFlags.Some? ==> r == Ok(allVrSupportFlags.value)
    {
      if allVrSupportFlags.None? {
        return Err(NullReference);
      }
      r := Ok(allVrSupportFlags.value);
    }

    /**
     * CalculateAllLanguages as evidently intended: the cache object is
     * created when it is missing, so the call always yields the unions.
     */
    method CalculateAllLanguagesInitialised() returns (t: Columns3)
      modifies this
      ensures allLanguages == Some(t) && IsUnionOver3(t, games, FullAudio, Interface, Subtitles)
      ensures games == old(games) && allVrSupportFlags == old(allVrSupportFlags)
      ensures allDevelopers == old(allDevelopers) && allGenres == old(allGenres)
      ensures allFlags == old(allFlags) && allPublishers == old(allPublishers)
    {
      t := UnionOver3(games, FullAudio, Interface, Subtitles);
      allLanguages := Some(t);
    }

    /** CalculateAllVrSupportFlags as evidently intended. */
    method CalculateAllVrSupportFlagsInitialised() returns (t: Columns3)
      modifies this
      ensures allVrSupportFlags == Some(t) && IsUnionOver3(t, games, Headsets, Input, PlayArea)
      ensures games == old(games) && allLanguages == old(allLanguages)
      ensures allDevelopers == old(allDevelopers) && allGenres == old(allGenres)
      ensures allFlags == old(allFlags) && allPublishers == old(allPublishers)
    {
      t := UnionOver3(games, Headsets, Input, PlayArea);
      allVrSupportFlags := Some(t);
    }

    /** The members of the genre cache, if there is one. */
    function GenreMembers(): set<string>
      reads this
    {
      if allGenres.Some? then Members(allGenres.value) else {}
    }

    /**
     * GetGenreList: the genre cache is filled when the tag fallback needs it
     * and was empty; the list is the fallback lookup over that cache.
     */
    method GetGenreList(gameId: int, depth: int, tagFallback: bool) returns (r: Option<seq<string>>)
      modifies this
      ensures r == GenreList(games, GenreMembers(), gameId, depth, tagFallback)
      ensures !GenreCacheConsulted(games, gameId, depth, tagFallback) ==> allGenres == old(allGenres)
      ensures GenreCacheConsulted(games, gameId, depth, tagFallback) ==> allGenres.Some?
      ensures GenreCacheConsulted(games, gameId, depth, tagFallback) && old(allGenres).Some? ==>
        allGenres == old(allGenres)
      ensures GenreCacheConsulted(games, gameId, depth, tagFallback) && old(allGenres).None? ==>
        allGenres.Some? && IsUnionOver(allGenres.value, games, Genres)
      ensures OnlyCacheChanged(Genres)
    {
      if GenreCacheConsulted(games, gameId, depth, tagFallback) {
        var _ := GetAll(Genres);
      }
      r := GenreList(games, GenreMembers(), gameId, depth, tagFallback);
    }

    /** IntegrateAppList: the nodes of the app list merged in document order. */
    method IntegrateAppList(apps: seq<AppNode>) returns (added: int)
      modifies this
      ensures games == IntegrateAll(old(games), apps)
      ensures added == AddedCount(old(games), apps) == |ListedIds(apps) - old(games).Keys|
      ensures allDevelopers == old(allDevelopers) && allGenres == old(allGenres) && allFlags == old(allFlags)
      ensures allPublishers == old(allPublishers) && allLanguages == old(allLanguages)
      ensures allVrSupportFlags == old(allVrSupportFlags)
    {
      var all := games;
      added := 0;
      for i := 0 to |apps|
        invariant all == IntegrateAll(games, apps[..i])
        invariant added == AddedCount(games, apps[..i])
      {
        assert apps[..i + 1][..i] == apps[..i];
        var node := apps[i];
        match node.appId {
          case None =>
          case Some(appId) =>
            if appId in all {
              var g := all[appId];
              if IsNullOrEmpty(g.name) || g.name != node.name {
                all := all[appId := g.(name := node.name, appType := Unknown)];
              }
            } else {
              all := all[appId := NewEntry(appId).(name := node.name)];
              added := added + 1;
            }
        }
      }
      assert apps[..|apps|] == apps;
      IntegrateCountsNewIds(games, apps);
      games := all;
    }

    /** UpdateFromAppInfo: each record applied to its (possibly new) entry; returns the record count. */
    method UpdateFromAppInfo(infos: seq<AppInfo>, timestamp: int) returns (updated: int)
      modifies this
      ensures games == UpdateAll(old(games), infos, timestamp)
      ensures updated == |infos|
      ensures allDevelopers == old(allDevelopers) && allGenres == old(allGenres) && allFlags == old(allFlags)
      ensures allPublishers == old(allPublishers) && allLanguages == old(allLanguages)
      ensures allVrSupportFlags == old(allVrSupportFlags)
    {
      var all;
      all, updated := UpdateEntries(games, infos, timestamp);
      games := all;
    }

    /**
     * ChangeLanguage, given the language the current culture resolves to and
     * the language the database holds now: nothing happens when they agree;
     * otherwise every entry with a positive id is reset.
     */
    method ChangeLanguage(lang: StoreLanguage, culture: StoreLanguage, current: StoreLanguage)
      modifies this
      ensures current == DatabaseLanguage(lang, culture) ==> games == old(games)
      ensures current != DatabaseLanguage(lang, culture) ==>
        games.Keys == old(games).Keys && forall id :: id in games ==> games[id] == ResetEntry(old(games)[id])
      ensures allDevelopers == old(allDevelopers) && allGenres == old(allGenres) && allFlags == old(allFlags)
      ensures allPublishers == old(allPublishers) && allLanguages == old(allLanguages)
      ensures allVrSupportFlags == old(allVrSupportFlags)
    {
      if current == DatabaseLanguage(lang, culture) {
        return;
      }
      var all := ResetLanguage(games);
      games := all;
    }

    /**
     * CalculateSortedDevList and CalculateSortedPubList: the developer (or
     * publisher) cache is fetched, then each occurrence in a counted entry
     * adds 1, and the items counted at least minCount times are returned.
     */
    method CalculateSortedCounts(c: Column, filter: GameFilter, minCount: int) returns (r: map<string, int>)
      requires c == Developers || c == Publishers
      modifies this
      ensures r == AtLeast(Tally(games, CountedIds(games, filter), c), minCount)
      ensures old(Cache(c)).Some? ==> Cache(c) == old(Cache(c))
      ensures old(Cache(c)).None? ==> Cache(c).Some? && IsUnionOver(Cache(c).value, games, c)
      ensures OnlyCacheChanged(c)
    {
      var _ := GetAll(c);
      var t := CountColumn(games, CountedIds(games, filter), c);
      r := map x | x in t && t[x] >= minCount :: t[x];
    }

    /**
     * CalculateSortedTagList (the order of the returned list aside): the
     * genre cache is fetched; the loaded tags of each counted entry add their
     * scores; with excludeGenres the genre cache's members are removed (by
     * exact spelling); scores below minScore are dropped.
     */
    method CalculateSortedTagList(filter: GameFilter, weightFactor: real, minScore: int, tagsPerGame: int, excludeGenres: bool)
      returns (r: map<string, real>)
      modifies this
      ensures forall t :: t in r <==>
        t in LoadedTags(games, CountedIds(games, filter), tagsPerGame)
        && !(excludeGenres && t in GenreMembers())
        && TagTotal(games, CountedIds(games, filter), tagsPerGame, weightFactor, t) >= minScore as real
      ensures forall t :: t in r ==> r[t] == TagTotal(games, CountedIds(games, filter), tagsPerGame, weightFactor, t)
      ensures old(allGenres).Some? ==> allGenres == old(allGenres)
      ensures old(allGenres).None? ==> allGenres.Some? && IsUnionOver(allGenres.value, games, Genres)
      ensures OnlyCacheChanged(Genres)
    {
      var genreNames := GetAll(Genres);
      var counts := ScoreTags(games, CountedIds(games, filter), weightFactor, tagsPerGame);
      r := SelectTags(counts, if excludeGenres then Members(genreNames) else {}, minScore);
    }
  }

  /** On a fresh database the two triple caches are missing, so listing languages or VR flags always fails. */
  method FreshDatabaseCannotListLanguages() returns (languages: Result<Columns3>, vr: Result<Columns3>)
    ensures languages == Err(NullReference) && vr == Err(NullReference)
  {
    var db := new Database();
    languages := db.CalculateAllLanguages();
    vr := db.CalculateAllVrSupportFlags();
  }
}
