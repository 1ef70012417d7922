/**
 * Depressurizer.GameDBEntry, the legacy per-app record: its MergeIn, which
 * shares the incoming list objects instead of copying them, the store-scrape
 * decision logic of ScrapeStoreHelper and SetTypeFromStoreScrape, and the
 * extraction rules in which it differs from the Core record.
 */
module LegacyEntry {
  import opened Wrappers
  import opened Text
  import opened Records
  import AppPlatforms
  import opened StorePage
  import CoreEntry

  // ---------------------------------------------------------------------
  // SetTypeFromStoreScrape

  /** The store's type replaces the current one: nothing is known yet, or AppInfo never ran and the store knows. */
  predicate StoreTypeWins(current: AppType, fromStore: AppType, lastAppInfoUpdate: int)
  {
    current == Unknown || (fromStore != Unknown && lastAppInfoUpdate == 0)
  }

  function WithStoreType(e: Entry, fromStore: AppType): Entry
  {
    if StoreTypeWins(e.appType, fromStore, e.lastAppInfoUpdate) then e.(appType := fromStore) else e
  }

  /** The store's type is adopted exactly when the rule lets it win (or it is already the type); nothing else changes. */
  lemma StoreTypeAdopted(e: Entry, fromStore: AppType)
    ensures var r := WithStoreType(e, fromStore);
      (r.appType == fromStore <==> StoreTypeWins(e.appType, fromStore, e.lastAppInfoUpdate) || e.appType == fromStore)
      && r.(appType := e.appType) == e
  {
  }

  /** Reporting Unknown never changes the type, so the calls with Unknown are no-ops. */
  lemma UnknownStoreTypeIsNoOp(e: Entry)
    ensures WithStoreType(e, Unknown) == e
  {
  }

  /** A known type from AppInfo is never overwritten by the store. */
  lemma AppInfoTypeKept(e: Entry, fromStore: AppType)
    requires e.appType != Unknown && e.lastAppInfoUpdate != 0
    ensures WithStoreType(e, fromStore) == e
  {
  }

  // ---------------------------------------------------------------------
  // GetAllDataFromPage, legacy rules

  /** The flag captures as they are, with the blank ones dropped. */
  function NonBlank(captures: seq<string>): (r: seq<string>)
    ensures |r| <= |captures|
    ensures forall x :: x in r <==> x in captures && !IsBlank(x)
  {
    if captures == [] then []
    else
      var init := NonBlank(captures[..|captures| - 1]);
      var c := captures[|captures| - 1];
      assert captures == captures[..|captures| - 1] + [c];
      if IsBlank(c) then init else init + [c]
  }

  /** One flag capture is kept, as it is, exactly when it is not blank. */
  lemma NonBlankSingle(capture: string)
    ensures NonBlank([capture]) == if IsBlank(capture) then [] else [capture]
  {
    assert [capture][..0] == [];
  }

  /**
   * The flag filter works capture by capture: two runs of captures give the
   * flags of the first run followed by those of the second, so the capture
   * order and every repeated capture are kept.
   */
  lemma {:induction false} NonBlankAppend(a: seq<string>, b: seq<string>)
    ensures NonBlank(a + b) == NonBlank(a) + NonBlank(b)
    decreases |b|
  {
    if b == [] {
      assert a + b == a;
    } else {
      var init := b[..|b| - 1];
      assert (a + b)[..|a + b| - 1] == a + init;
      assert (a + b)[|a + b| - 1] == b[|b| - 1];
      NonBlankAppend(a, init);
    }
  }

  /** Every capture, HTML-decoded: neither trimmed nor filtered. */
  function Decoded(captures: seq<string>, ops: TextOps): (r: seq<string>)
    ensures |r| == |captures|
    ensures forall i :: 0 <= i < |captures| ==> r[i] == ops.htmlDecode(captures[i])
  {
    if captures == [] then []
    else Decoded(captures[..|captures| - 1], ops) + [ops.htmlDecode(captures[|captures| - 1])]
  }

  /** A language cell counts when its trimmed, then decoded text is not the empty string. */
  predicate Marked(cell: string, ops: TextOps)
  {
    ops.htmlDecode(ops.trim(cell)) != ""
  }

  /** The language triple of the legacy scraper, starting from a fresh one. */
  function LegacyLanguagesFrom(rows: seq<LanguageRow>, ops: TextOps): LanguageSupport
  {
    if rows == [] then EmptyLanguages
    else
      var acc := LegacyLanguagesFrom(rows[..|rows| - 1], ops);
      var row := rows[|rows| - 1];
      var language := ops.htmlDecode(ops.trim(row.language));
      if CoreEntry.SkippedLanguage(language) then acc
      else LanguageSupport(
        acc.fullAudio + (if Marked(row.fullAudio, ops) then [language] else []),
        acc.interface + (if Marked(row.interface, ops) then [language] else []),
        acc.subtitles + (if Marked(row.subtitles, ops) then [language] else []))
  }

  /** Every column of the legacy triple lists at most one language per row, and never a bugged marker. */
  lemma {:induction false} LegacyLanguagesBounded(rows: seq<LanguageRow>, ops: TextOps)
    ensures var r := LegacyLanguagesFrom(rows, ops);
      |r.interface| <= |rows| && |r.fullAudio| <= |rows| && |r.subtitles| <= |rows|
      && (forall l :: l in r.interface ==> !CoreEntry.SkippedLanguage(l))
  {
    if rows != [] {
      LegacyLanguagesBounded(rows[..|rows| - 1], ops);
    }
  }

  /** A cell the Core rule counts, the legacy rule counts too. */
  lemma CheckedIsMarked(cell: string, ops: TextOps)
    requires CoreEntry.Checked(cell, ops)
    ensures Marked(cell, ops)
  {
    assert IsBlank("");
  }

  /** The flag list after the raw flag captures and the achievement rule. */
  function LegacyFlags(current: seq<string>, scan: PageScan): seq<string>
  {
    var refilled := if |scan.flags| > 0 then NonBlank(scan.flags) else current;
    if scan.achievements.Some? && AchievementsFlag !in refilled then refilled + [AchievementsFlag] else refilled
  }

  /** The fields of the legacy GetAllDataFromPage other than the five lists. */
  function LegacyScalars(e: Entry, page: string, scan: PageScan, ops: TextOps): Entry
  {
    e.(
      vrSupport := VrSupport(
        CoreEntry.RefillIfMatched(e.vrSupport.headsets, scan.vrHeadsets, ops),
        CoreEntry.RefillIfMatched(e.vrSupport.input, scan.vrInput, ops),
        CoreEntry.RefillIfMatched(e.vrSupport.playArea, scan.vrPlayArea, ops)),
      languageSupport := if |scan.languages| > 0 then LegacyLanguagesFrom(scan.languages, ops) else e.languageSupport,
      totalAchievements :=
        if scan.achievements.Some? then CoreEntry.ParsedOr(e.totalAchievements, ops.tryParseInt(scan.achievements.value))
        else e.totalAchievements,
      steamReleaseDate := if scan.releaseDate.Some? then scan.releaseDate else e.steamReleaseDate,
      reviewPositivePercentage :=
        if scan.reviews.Some? then CoreEntry.ParsedOr(e.reviewPositivePercentage, ops.tryParseInt(scan.reviews.value.percent))
        else e.reviewPositivePercentage,
      reviewTotal :=
        if scan.reviews.Some? then CoreEntry.ParsedOr(e.reviewTotal, ops.tryParseThousands(scan.reviews.value.total))
        else e.reviewTotal,
      metacriticUrl := if scan.metacritic.Some? then scan.metacritic else e.metacriticUrl,
      platforms := CoreEntry.PlatformsFromPage(e.platforms, page))
  }

  /** The contents of the five string lists of an entry. */
  datatype ListItems = ListItems(
    genres: seq<string>,
    flags: seq<string>,
    tags: seq<string>,
    developers: seq<string>,
    publishers: seq<string>)

  function ItemsIn(e: Entry): ListItems
  {
    ListItems(e.genres, e.flags, e.tags, e.developers, e.publishers)
  }

  /** An entry with its five string lists replaced. */
  function WithItems(e: Entry, items: ListItems): (r: Entry)
    ensures ItemsIn(r) == items
  {
    e.(genres := items.genres, flags := items.flags, tags := items.tags,
       developers := items.developers, publishers := items.publishers)
  }

  /** The five lists after the legacy GetAllDataFromPage. */
  function LegacyItems(items: ListItems, scan: PageScan, ops: TextOps): ListItems
  {
    ListItems(
      if scan.genres.Some? then scan.genres.value else items.genres,
      LegacyFlags(items.flags, scan),
      if |scan.tags| > 0 then CoreEntry.Cleaned(scan.tags, ops) else items.tags,
      if scan.developers.Some? then Decoded(scan.developers.value, ops) else items.developers,
      if scan.publishers.Some? then Decoded(scan.publishers.value, ops) else items.publishers)
  }

  /** The entry after the legacy GetAllDataFromPage. */
  function LegacyPageData(e: Entry, page: string, scan: PageScan, ops: TextOps): Entry
  {
    WithItems(LegacyScalars(e, page, scan, ops), LegacyItems(ItemsIn(e), scan, ops))
  }

  /** The scalar part of the page data does not look at the lists, so the two parts can be computed apart. */
  lemma PageDataInParts(fields: Entry, items: ListItems, page: string, scan: PageScan, ops: TextOps)
    ensures LegacyPageData(WithItems(fields, items), page, scan, ops)
      == WithItems(LegacyScalars(fields, page, scan, ops), LegacyItems(items, scan, ops))
  {
  }

  /** Text functions that change nothing and parse nothing: enough to tell the two scrapers apart. */
  const PlainOps := TextOps(s => s, s => s, s => None, s => None)

  /** A blank genre capture is kept by the legacy scraper and dropped by the Core one. */
  lemma GenresKeptRaw(e: Entry, page: string, scan: PageScan)
    requires scan.genres == Some([" "])
    ensures LegacyPageData(e, page, scan, PlainOps).genres == [" "]
    ensures CoreEntry.WithPageData(e, page, scan, PlainOps).genres == []
  {
    assert IsBlank(" ");
    assert CoreEntry.Cleaned([" "], PlainOps) == [];
  }

  /** A developer capture is decoded but not trimmed: surrounding spaces survive. */
  lemma DevelopersNotTrimmed(e: Entry, page: string, scan: PageScan)
    requires scan.developers == Some([" Valve "])
    ensures LegacyPageData(e, page, scan, PlainOps).developers == [" Valve "]
  {
  }

  /** A language cell that decodes to a blank, non-empty text counts in the legacy scraper only. */
  lemma BlankCellCountsInLegacyOnly(language: string)
    requires language == "English"
    ensures var rows := [LanguageRow(language, " ", "", "")];
      LegacyLanguagesFrom(rows, PlainOps).interface == [language]
      && CoreEntry.LanguagesFrom(rows, PlainOps).interface == []
  {
    var rows := [LanguageRow(language, " ", "", "")];
    assert rows[..0] == [];
    assert !StartsWith(language, "#lang") && !StartsWith(language, "(") by {
      assert language[0] == 'E';
    }
    assert IsBlank(" ");
    assert IsBlank("");
  }

  // ---------------------------------------------------------------------
  // ScrapeStoreHelper

  /** How the redirect loop ends. */
  datatype LoopEnd =
    | StoppedAt(index: nat)
    | GaveUp(storeFront: bool)  // returned Unknown from inside the loop
    | LoopThrew

  /**
   * The redirect loop, from the response to request `count`.  A Location
   * equal to the store root returns after the type update with Unknown; a
   * Location equal to the response URI returns; a missing Location makes the
   * next request throw, and so does a request past the end of the chain.
   */
  function LegacyFollowFrom(chain: seq<Response>, count: nat, storeRoot: string): (r: LoopEnd)
    requires count <= 5
    ensures r.StoppedAt? ==> count <= r.index <= 5 && r.index < |chain|
    ensures r.StoppedAt? ==> chain[r.index].status != Found || r.index == 5
    decreases 5 - count
  {
    if count >= |chain| then LoopThrew
    else if chain[count].status != Found || count == 5 then StoppedAt(count)
    else if chain[count].location == Some(storeRoot) then GaveUp(true)
    else if chain[count].location == Some(chain[count].uri) then GaveUp(false)
    else if chain[count].location.None? then LoopThrew
    else LegacyFollowFrom(chain, count + 1, storeRoot)
  }

  /** Every redirect the legacy loop follows is a 302 whose Location is neither the store root nor the response URI. */
  lemma {:induction false} LegacyFollowedHops(chain: seq<Response>, count: nat, storeRoot: string, j: nat)
    requires count <= j < 5
    requires LegacyFollowFrom(chain, count, storeRoot).StoppedAt? && j < LegacyFollowFrom(chain, count, storeRoot).index
    ensures chain[j].status == Found && chain[j].location.Some?
    ensures chain[j].location.value != storeRoot && chain[j].location.value != chain[j].uri
    decreases 5 - count
  {
    if j > count {
      LegacyFollowedHops(chain, count + 1, storeRoot, j);
    }
  }

  /** What the checks on the final URI's segments decide. */
  datatype SegmentCheck =
    | Give(result: AppType, storeFront: bool)  // return this type
    | Proceed(redirectTarget: int)             // read the page

  function LegacyClassify(id: int, segments: seq<string>, ops: TextOps): SegmentCheck
  {
    if |segments| < 2 then Give(Unknown, true)
    else if segments[1] == "agecheck/" then
      if |segments| >= 4 && TrimEnd(segments[3], '/') != IntToString(id) then
        match ops.tryParseInt(TrimEnd(segments[3], '/'))
        case Some(n) => Proceed(n)
        case None => Give(Unknown, false)
      else Give(Unknown, false)
    else if segments[1] != "app/" then Give(Other, false)
    else if |segments| < 3 then Give(Unknown, false)
    else if TrimEnd(segments[2], '/') != IntToString(id) then
      match ops.tryParseInt(TrimEnd(segments[2], '/'))
      case Some(n) => Proceed(n)
      case None => Give(Unknown, false)
    else Proceed(-1)
  }

  /** The segment checks run in order: root, age gate, app route, app id. */
  lemma SegmentOrder(id: int, segments: seq<string>, ops: TextOps)
    ensures |segments| < 2 ==> LegacyClassify(id, segments, ops) == Give(Unknown, true)
    ensures |segments| >= 2 && segments[1] == "agecheck/" ==>
      (LegacyClassify(id, segments, ops).Proceed? <==>
         |segments| >= 4 && TrimEnd(segments[3], '/') != IntToString(id)
         && ops.tryParseInt(TrimEnd(segments[3], '/')).Some?)
    ensures |segments| >= 2 && segments[1] != "agecheck/" && segments[1] != "app/" ==>
      LegacyClassify(id, segments, ops) == Give(Other, false)
    ensures |segments| >= 3 && segments[1] == "app/" && TrimEnd(segments[2], '/') == IntToString(id) ==>
      LegacyClassify(id, segments, ops) == Proceed(-1)
  {
  }

  /** The part of ScrapeStoreHelper inside the try block. */
  datatype Fetch =
    | Early(result: AppType, storeFront: bool)
    | Failed
    | PageRead(page: string, redirectTarget: int)

  function LegacyFetch(id: int, chain: seq<Response>, storeRoot: string, ops: TextOps): Fetch
  {
    match LegacyFollowFrom(chain, 0, storeRoot)
    case LoopThrew => Failed
    case GaveUp(storeFront) => Early(Unknown, storeFront)
    case StoppedAt(k) =>
      if k == 5 && chain[k].status == Found then Early(Unknown, false)
      else match LegacyClassify(id, chain[k].segments, ops)
        case Give(t, storeFront) => Early(t, storeFront)
        case Proceed(target) =>
          match chain[k].body
          case None => Failed
          case Some(page) => PageRead(page, target)
  }

  predicate LegacySoftwarePage(page: string) { Contains(page, SoftwareMarkerHttp) }

  predicate LegacyDlcPage(page: string) { Contains(page, DlcMarkerHttp) }

  /** The legacy type of a parsed page: DLC, then Application, then Game. */
  function LegacyType(page: string): AppType
  {
    if LegacyDlcPage(page) then DLC
    else if LegacySoftwarePage(page) then Application
    else Game
  }

  /** A page with both the game and the software marker: Application here, Game in the Core scraper. */
  lemma PrecedenceDiffers(page: string, current: AppType)
    requires CoreEntry.IsGamePage(page) && LegacySoftwarePage(page)
    requires !LegacyDlcPage(page) && !CoreEntry.IsDlcPage(page)
    ensures LegacyType(page) == Application
    ensures CoreEntry.CoreType(page, current) == Game
  {
  }

  /** The entry and the returned type. */
  datatype Scrape = Scrape(entry: Entry, result: AppType)

  /** ScrapeStoreHelper: stamp, fetch, extract, classify. */
  function ScrapeHelper(e: Entry, chain: seq<Response>, scan: string -> PageScan, storeRoot: string,
                        ops: TextOps, now: int): Scrape
  {
    var stamped := e.(lastStoreScrape := now);
    match LegacyFetch(e.id, chain, storeRoot, ops)
    case Failed => Scrape(stamped.(lastStoreScrape := e.lastStoreScrape), Unknown)
    case Early(t, storeFront) => Scrape(if storeFront then WithStoreType(stamped, Unknown) else stamped, t)
    case PageRead(page, target) =>
      var parsed :=
        if Contains(page, SiteError) then Scrape(stamped, Unknown)
        else if CoreEntry.IsGamePage(page) || LegacySoftwarePage(page) then
          Scrape(LegacyPageData(stamped, page, scan(page), ops), LegacyType(page))
        else Scrape(stamped, Unknown);
      if target != -1 then Scrape(parsed.entry.(parentId := target), Unknown) else parsed
  }

  /** ScrapeStore: the helper, then the type update with its result. */
  function LegacyScraped(e: Entry, chain: seq<Response>, scan: string -> PageScan, storeRoot: string,
                         ops: TextOps, now: int): Scrape
  {
    var h := ScrapeHelper(e, chain, scan, storeRoot, ops, now);
    Scrape(WithStoreType(h.entry, h.result), h.result)
  }

  /** The stamp is restored only when the fetch throws; every early return keeps the new stamp and nothing else changes. */
  lemma StampRules(e: Entry, chain: seq<Response>, scan: string -> PageScan, storeRoot: string, ops: TextOps, now: int)
    ensures var h := ScrapeHelper(e, chain, scan, storeRoot, ops, now);
      match LegacyFetch(e.id, chain, storeRoot, ops)
      case Failed => h == Scrape(e, Unknown)
      case Early(t, _) => h == Scrape(e.(lastStoreScrape := now), t)
      case PageRead(_, _) => h.entry.lastStoreScrape == now
  {
    UnknownStoreTypeIsNoOp(e.(lastStoreScrape := now));
  }

  /** A redirect target sets ParentId and forces the result to Unknown, whatever the page held. */
  lemma RedirectTargetForcesUnknown(e: Entry, chain: seq<Response>, scan: string -> PageScan, storeRoot: string,
                                    ops: TextOps, now: int)
    requires LegacyFetch(e.id, chain, storeRoot, ops).PageRead?
    requires LegacyFetch(e.id, chain, storeRoot, ops).redirectTarget != -1
    ensures var s := LegacyScraped(e, chain, scan, storeRoot, ops, now);
      s.result == Unknown && s.entry.parentId == LegacyFetch(e.id, chain, storeRoot, ops).redirectTarget
      && s.entry.appType == ScrapeHelper(e, chain, scan, storeRoot, ops, now).entry.appType
  {
  }

  /** The result is Unknown, Other, DLC, Application or Game; a parsed page without a target is never Unknown or Other. */
  lemma ResultKinds(e: Entry, chain: seq<Response>, scan: string -> PageScan, storeRoot: string, ops: TextOps, now: int)
    ensures var f := LegacyFetch(e.id, chain, storeRoot, ops);
      var s := LegacyScraped(e, chain, scan, storeRoot, ops, now);
      ((f.PageRead? && f.redirectTarget == -1 && !Contains(f.page, SiteError)
        && (CoreEntry.IsGamePage(f.page) || LegacySoftwarePage(f.page))) ==> s.result in {DLC, Application, Game})
      && (f.Early? ==> s.result in {Unknown, Other})
  {
  }

  /** A first response redirecting to the store root returns Unknown with the entry only stamped. */
  lemma StoreRootRedirect(e: Entry, chain: seq<Response>, scan: string -> PageScan, storeRoot: string,
                          ops: TextOps, now: int)
    requires |chain| > 0 && chain[0].status == Found && chain[0].location == Some(storeRoot)
    ensures LegacyScraped(e, chain, scan, storeRoot, ops, now) == Scrape(e.(lastStoreScrape := now), Unknown)
  {
    UnknownStoreTypeIsNoOp(e.(lastStoreScrape := now));
  }

  // ---------------------------------------------------------------------
  // The record as an object, with shared list objects

  /** Which list of an entry a list object was created for. */
  datatype ListRole = GenreList | FlagList | TagList | DeveloperList | PublisherList

  /** A List<string> object; after MergeIn several entries may hold the same one. */
  class StringList {
    ghost const role: ListRole
    var items: seq<string>

    constructor (role: ListRole, items: seq<string>)
      ensures this.role == role && this.items == items
    {
      this.role := role;
      this.items := items;
    }
  }

  /** The five list references of an entry. */
  datatype Lists = Lists(
    genres: StringList,
    flags: StringList,
    tags: StringList,
    developers: StringList,
    publishers: StringList)

  /** The list references after MergeIn: each non-empty incoming list replaces ours when `take` holds. */
  function ListsTaken(mine: Lists, theirs: Lists, incoming: Entry, take: bool): Lists
  {
    Lists(
      if take && |incoming.genres| > 0 then theirs.genres else mine.genres,
      if take && |incoming.flags| > 0 then theirs.flags else mine.flags,
      if take && |incoming.tags| > 0 then theirs.tags else mine.tags,
      if take && |incoming.developers| > 0 then theirs.developers else mine.developers,
      if take && |incoming.publishers| > 0 then theirs.publishers else mine.publishers)
  }

  /** What the five list objects hold. */
  function ItemsOf(l: Lists): ListItems
    reads l.genres, l.flags, l.tags, l.developers, l.publishers
  {
    ListItems(l.genres.items, l.flags.items, l.tags.items, l.developers.items, l.publishers.items)
  }

  /** Each list object plays the role of its field, so the five are distinct objects. */
  ghost predicate RolesHeld(l: Lists)
  {
    l.genres.role == GenreList && l.flags.role == FlagList && l.tags.role == TagList
    && l.developers.role == DeveloperList && l.publishers.role == PublisherList
  }

  /**
   * A GameDBEntry object.  `data` holds every field but the five lists
   * (its list components are not used); `lists` holds their references.
   */
  class GameDBEntry {
    var data: Entry
    var lists: Lists

    /** The entry as a value, as its getters show it. */
    function Contents(): Entry
      reads this, lists.genres, lists.flags, lists.tags, lists.developers, lists.publishers
    {
      data.(genres := lists.genres.items, flags := lists.flags.items, tags := lists.tags.items,
            developers := lists.developers.items, publishers := lists.publishers.items)
    }

    /** `new GameDBEntry()`: the field initialisers, with five fresh empty lists. */
    constructor ()
      ensures RolesHeld(lists) && Contents() == NewEntry(0)
      ensures fresh(lists.genres) && fresh(lists.flags) && fresh(lists.tags)
      ensures fresh(lists.developers) && fresh(lists.publishers)
    {
      data := NewEntry(0);
      var g := new StringList(GenreList, []);
      var f := new StringList(FlagList, []);
      var t := new StringList(TagList, []);
      var d := new StringList(DeveloperList, []);
      var p := new StringList(PublisherList, []);
      lists := Lists(g, f, t, d, p);
    }

    /** SetTypeFromStoreScrape. */
    method SetTypeFromStoreScrape(typeFromStore: AppType)
      modifies this
      ensures data == WithStoreType(old(data), typeFromStore) && lists == old(lists)
    {
      if data.appType == Unknown || (typeFromStore != Unknown && data.lastAppInfoUpdate == 0) {
        data := data.(appType := typeFromStore);
      }
    }

    /**
     * MergeIn: the same freshness rules as the Core record, but an incoming
     * genre, flag, tag, developer or publisher list is taken by reference.
     */
    method MergeIn(other: GameDBEntry)
      requires other != this && RolesHeld(lists) && RolesHeld(other.lists)
      modifies this
      ensures RolesHeld(lists)
      ensures lists == ListsTaken(old(lists), old(other.lists), old(other.Contents()),
                                  old(other.data.lastStoreScrape) >= old(data.lastStoreScrape))
      ensures Contents() == CoreEntry.Merge(old(Contents()), old(other.Contents()))
    {
      ghost var mine, theirs := Contents(), other.Contents();
      var incoming := other.data;
      var useAppInfoFields := incoming.lastAppInfoUpdate > data.lastAppInfoUpdate
        || (data.lastAppInfoUpdate == 0 && incoming.lastStoreScrape >= data.lastStoreScrape);
      var useScrapeOnlyFields := incoming.lastStoreScrape >= data.lastStoreScrape;
      MergeTypeAndPlatforms(incoming, useAppInfoFields);
      MergeNameAndParent(incoming, useAppInfoFields);
      if useScrapeOnlyFields {
        TakeLists(other.Contents(), other.lists);
        MergeScrapeScalars(incoming);
        MergeVrAndLanguages(incoming);
      }
      MergeStamps(incoming);
      assert lists.genres.items == CoreEntry.TakeList(mine.genres, theirs.genres, useScrapeOnlyFields);
      assert lists.flags.items == CoreEntry.TakeList(mine.flags, theirs.flags, useScrapeOnlyFields);
      assert lists.tags.items == CoreEntry.TakeList(mine.tags, theirs.tags, useScrapeOnlyFields);
      assert lists.developers.items == CoreEntry.TakeList(mine.developers, theirs.developers, useScrapeOnlyFields);
      assert lists.publishers.items == CoreEntry.TakeList(mine.publishers, theirs.publishers, useScrapeOnlyFields);
    }

    method MergeTypeAndPlatforms(other: Entry, useAppInfoFields: bool)
      modifies this
      ensures lists == old(lists)
      ensures data == old(data).(
        appType := if other.appType != Unknown && (old(data.appType) == Unknown || useAppInfoFields)
          then other.appType else old(data.appType),
        platforms :=
          if other.lastStoreScrape >= old(data.lastStoreScrape)
             || (old(data.lastStoreScrape) == 0 && other.lastAppInfoUpdate > old(data.lastAppInfoUpdate))
             || old(data.platforms) == AppPlatforms.None
          then other.platforms else old(data.platforms))
    {
      if other.appType != Unknown && (data.appType == Unknown || useAppInfoFields) {
        data := data.(appType := other.appType);
      }
      if other.lastStoreScrape >= data.lastStoreScrape
         || (data.lastStoreScrape == 0 && other.lastAppInfoUpdate > data.lastAppInfoUpdate)
         || data.platforms == AppPlatforms.None {
        data := data.(platforms := other.platforms);
      }
    }

    method MergeNameAndParent(other: Entry, useAppInfoFields: bool)
      modifies this
      ensures lists == old(lists)
      ensures data == old(data).(
        name := CoreEntry.TakeString(old(data.name), other.name, useAppInfoFields),
        parentId := if useAppInfoFields && other.parentId > 0 then other.parentId else old(data.parentId))
    {
      if useAppInfoFields {
        if !IsNullOrEmpty(other.name) {
          data := data.(name := other.name);
        }
        if other.parentId > 0 {
          data := data.(parentId := other.parentId);
        }
      }
    }

    /** `Genres = other.Genres` and the like, for the other entry's lists `refs` holding `other`: references, not copies. */
    method TakeLists(other: Entry, refs: Lists)
      modifies this
      ensures data == old(data)
      ensures lists == ListsTaken(old(lists), refs, other, true)
    {
      if |other.genres| > 0 {
        lists := lists.(genres := refs.genres);
      }
      if |other.flags| > 0 {
        lists := lists.(flags := refs.flags);
      }
      if |other.tags| > 0 {
        lists := lists.(tags := refs.tags);
      }
      if |other.developers| > 0 {
        lists := lists.(developers := refs.developers);
      }
      if |other.publishers| > 0 {
        lists := lists.(publishers := refs.publishers);
      }
    }

    method MergeScrapeScalars(other: Entry)
      modifies this
      ensures lists == old(lists)
      ensures data == old(data).(
        steamReleaseDate := CoreEntry.TakeString(old(data.steamReleaseDate), other.steamReleaseDate, true),
        totalAchievements := CoreEntry.TakeCount(old(data.totalAchievements), other.totalAchievements, true),
        reviewTotal := if other.reviewTotal != 0 then other.reviewTotal else old(data.reviewTotal),
        reviewPositivePercentage :=
          if other.reviewTotal != 0 then other.reviewPositivePercentage else old(data.reviewPositivePercentage),
        metacriticUrl := CoreEntry.TakeString(old(data.metacriticUrl), other.metacriticUrl, true))
    {
      if !IsNullOrEmpty(other.steamReleaseDate) {
        data := data.(steamReleaseDate := other.steamReleaseDate);
      }
      if other.totalAchievements != 0 {
        data := data.(totalAchievements := other.totalAchievements);
      }
      if other.reviewTotal != 0 {
        data := data.(reviewTotal := other.reviewTotal, reviewPositivePercentage := other.reviewPositivePercentage);
      }
      if !IsNullOrEmpty(other.metacriticUrl) {
        data := data.(metacriticUrl := other.metacriticUrl);
      }
    }

    /** The VR and language lists are copied with Clear and AddRange. */
    method MergeVrAndLanguages(other: Entry)
      modifies this
      ensures lists == old(lists)
      ensures data == old(data).(
        vrSupport := VrSupport(
          CoreEntry.TakeList(old(data.vrSupport.headsets), other.vrSupport.headsets, true),
          CoreEntry.TakeList(old(data.vrSupport.input), other.vrSupport.input, true),
          CoreEntry.TakeList(old(data.vrSupport.playArea), other.vrSupport.playArea, true)),
        languageSupport := LanguageSupport(
          CoreEntry.TakeList(old(data.languageSupport.fullAudio), other.languageSupport.fullAudio, true),
          CoreEntry.TakeList(old(data.languageSupport.interface), other.languageSupport.interface, true),
          CoreEntry.TakeList(old(data.languageSupport.subtitles), other.languageSupport.subtitles, true)))
    {
      var vr := data.vrSupport;
      if |other.vrSupport.headsets| > 0 {
        vr := vr.(headsets := other.vrSupport.headsets);
      }
      if |other.vrSupport.input| > 0 {
        vr := vr.(input := other.vrSupport.input);
      }
      if |other.vrSupport.playArea| > 0 {
        vr := vr.(playArea := other.vrSupport.playArea);
      }
      var ls := data.languageSupport;
      if |other.languageSupport.fullAudio| > 0 {
        ls := ls.(fullAudio := other.languageSupport.fullAudio);
      }
      if |other.languageSupport.interface| > 0 {
        ls := ls.(interface := other.languageSupport.interface);
      }
      if |other.languageSupport.subtitles| > 0 {
        ls := ls.(subtitles := other.languageSupport.subtitles);
      }
      data := data.(vrSupport := vr, languageSupport := ls);
    }

    method MergeStamps(other: Entry)
      modifies this
      ensures lists == old(lists)
      ensures data == old(data).(
        lastStoreScrape := CoreEntry.Max(old(data.lastStoreScrape), other.lastStoreScrape),
        lastAppInfoUpdate := CoreEntry.Max(old(data.lastAppInfoUpdate), other.lastAppInfoUpdate))
    {
      if other.lastStoreScrape > data.lastStoreScrape {
        data := data.(lastStoreScrape := other.lastStoreScrape);
      }
      if other.lastAppInfoUpdate > data.lastAppInfoUpdate {
        data := data.(lastAppInfoUpdate := other.lastAppInfoUpdate);
      }
    }

    /** ScrapeStore: the helper, then the type update with its result. */
    method ScrapeStore(chain: seq<Response>, scan: string -> PageScan, storeRoot: string, ops: TextOps, now: int)
      returns (result: AppType)
      requires RolesHeld(lists)
      modifies this, lists.flags
      ensures RolesHeld(lists)
      ensures Contents() == LegacyScraped(old(Contents()), chain, scan, storeRoot, ops, now).entry
      ensures result == LegacyScraped(old(Contents()), chain, scan, storeRoot, ops, now).result
    {
      result := ScrapeStoreHelper(chain, scan, storeRoot, ops, now);
      SetTypeFromStoreScrape(result);
    }

    /**
     * ScrapeStoreHelper: stamp the scrape time, follow the redirects, read
     * the page when the final URI is this app's page, classify it.
     */
    method ScrapeStoreHelper(chain: seq<Response>, scan: string -> PageScan, storeRoot: string, ops: TextOps, now: int)
      returns (result: AppType)
      requires RolesHeld(lists)
      modifies this, lists.flags
      ensures RolesHeld(lists)
      ensures Contents() == ScrapeHelper(old(Contents()), chain, scan, storeRoot, ops, now).entry
      ensures result == ScrapeHelper(old(Contents()), chain, scan, storeRoot, ops, now).result
    {
      var oldTime := data.lastStoreScrape;
      data := data.(lastStoreScrape := now);
      var fetched := ReadLegacyStorePage(data.id, chain, storeRoot, ops);
      match fetched
      case Failed =>
        data := data.(lastStoreScrape := oldTime);
        result := Unknown;
      case Early(t, storeFront) =>
        if storeFront {
          SetTypeFromStoreScrape(Unknown);
        }
        result := t;
      case PageRead(page, target) =>
        result := Unknown;
        if !Contains(page, SiteError) && (CoreEntry.IsGamePage(page) || LegacySoftwarePage(page)) {
          GetAllDataFromPage(page, scan(page), ops);
          if LegacyDlcPage(page) {
            result := DLC;
          } else {
            result := if LegacySoftwarePage(page) then Application else Game;
          }
        }
        if target != -1 {
          data := data.(parentId := target);
          result := Unknown;
        }
    }

    /**
     * GetAllDataFromPage: a matched list pattern installs a new list object;
     * the achievement rule appends to the current flag object in place.
     */
    method GetAllDataFromPage(page: string, scan: PageScan, ops: TextOps)
      requires RolesHeld(lists)
      modifies this, lists.flags
      ensures RolesHeld(lists)
      ensures Contents() == LegacyPageData(old(Contents()), page, scan, ops)
      ensures |scan.flags| == 0 ==> lists.flags == old(lists.flags)
      ensures |scan.flags| > 0 ==> fresh(lists.flags)
    {
      ContentsInParts(this);
      PageDataInParts(data, ItemsOf(lists), page, scan, ops);
      var installed := ReadLists(lists, scan, ops);
      var scalars := ReadPageScalars(data, page, scan, ops);
      data, lists := scalars, installed;
      ContentsInParts(this);
    }
  }

  /**
   * The consequence of MergeIn taking lists by reference: once `b` holds `a`'s
   * flag list, the achievement rule of a later scrape of `b` appends
   * "Steam Achievements" to `a`'s flags as well.
   */
  method SharedFlagsSeeAchievements(a: GameDBEntry, b: GameDBEntry, page: string, scan: PageScan, ops: TextOps)
    requires a != b && RolesHeld(a.lists) && RolesHeld(b.lists)
    requires a.data.lastStoreScrape >= b.data.lastStoreScrape && |a.lists.flags.items| > 0
    requires scan.flags == [] && scan.achievements.Some? && AchievementsFlag !in a.lists.flags.items
    modifies b, a.lists.flags
    ensures a.lists == old(a.lists) && b.lists.flags == a.lists.flags
    ensures a.lists.flags.items == old(a.lists.flags.items) + [AchievementsFlag]
  {
    b.MergeIn(a);
    b.GetAllDataFromPage(page, scan, ops);
  }

  /** An object's contents are its scalar record with the items of its five list objects. */
  lemma ContentsInParts(e: GameDBEntry)
    ensures e.Contents() == WithItems(e.data, ItemsOf(e.lists))
  {
  }

  /**
   * The list statements of GetAllDataFromPage: new list objects for the
   * matched patterns, then the achievement rule on the current flag object.
   */
  method ReadLists(l: Lists, scan: PageScan, ops: TextOps) returns (r: Lists)
    requires RolesHeld(l)
    modifies l.flags
    ensures RolesHeld(r)
    ensures ItemsOf(r) == LegacyItems(old(ItemsOf(l)), scan, ops)
    ensures |scan.flags| == 0 ==> r.flags == l.flags
    ensures |scan.flags| > 0 ==> fresh(r.flags)
  {
    r := InstallLists(l, scan, ops);
    AppendAchievementFlag(r.flags, scan);
  }

  /**
   * The list patterns of GetAllDataFromPage: genres are stored raw, flags raw
   * without the blank ones, tags decoded, trimmed and without blanks,
   * developers and publishers decoded; each match gets a new list object.
   */
  method InstallLists(l: Lists, scan: PageScan, ops: TextOps) returns (r: Lists)
    requires RolesHeld(l)
    ensures RolesHeld(r)
    ensures r.genres.items == if scan.genres.Some? then scan.genres.value else l.genres.items
    ensures r.flags.items == if |scan.flags| > 0 then NonBlank(scan.flags) else l.flags.items
    ensures r.tags.items == if |scan.tags| > 0 then CoreEntry.Cleaned(scan.tags, ops) else l.tags.items
    ensures r.developers.items == if scan.developers.Some? then Decoded(scan.developers.value, ops) else l.developers.items
    ensures r.publishers.items == if scan.publishers.Some? then Decoded(scan.publishers.value, ops) else l.publishers.items
    ensures scan.genres.Some? ==> fresh(r.genres)
    ensures |scan.flags| > 0 ==> fresh(r.flags)
    ensures |scan.flags| == 0 ==> r.flags == l.flags
  {
    r := l;
    if scan.genres.Some? {
      var genres := new StringList(GenreList, scan.genres.value);
      r := r.(genres := genres);
    }
    if |scan.flags| > 0 {
      var items := KeepNonBlank(scan.flags);
      var flags := new StringList(FlagList, items);
      r := r.(flags := flags);
    }
    if |scan.tags| > 0 {
      var items := CoreEntry.CleanCaptures(scan.tags, ops);
      var tags := new StringList(TagList, items);
      r := r.(tags := tags);
    }
    if scan.developers.Some? {
      var items := DecodeCaptures(scan.developers.value, ops);
      var developers := new StringList(DeveloperList, items);
      r := r.(developers := developers);
    }
    if scan.publishers.Some? {
      var items := DecodeCaptures(scan.publishers.value, ops);
      var publishers := new StringList(PublisherList, items);
      r := r.(publishers := publishers);
    }
  }

  /** A matched achievement block appends "Steam Achievements" to the current flag object unless present. */
  method AppendAchievementFlag(flags: StringList, scan: PageScan)
    modifies flags
    ensures flags.items ==
      if scan.achievements.Some? && AchievementsFlag !in old(flags.items)
      then old(flags.items) + [AchievementsFlag] else old(flags.items)
  {
    if scan.achievements.Some? && AchievementsFlag !in flags.items {
      flags.items := flags.items + [AchievementsFlag];
    }
  }

  /** The statements of GetAllDataFromPage that set a field other than the five lists. */
  method ReadPageScalars(e: Entry, page: string, scan: PageScan, ops: TextOps) returns (r: Entry)
    ensures r == LegacyScalars(e, page, scan, ops)
  {
    var vr := ReadVr(e.vrSupport, scan, ops);
    var ls := ReadLanguages(e.languageSupport, scan, ops);
    var achievements := ReadAchievementCount(e.totalAchievements, scan, ops);
    var percent, total := ReadReviews(e.reviewPositivePercentage, e.reviewTotal, scan, ops);
    var releaseDate := if scan.releaseDate.Some? then scan.releaseDate else e.steamReleaseDate;
    var metacritic := if scan.metacritic.Some? then scan.metacritic else e.metacriticUrl;
    var platforms := CoreEntry.ShowPlatforms(e.platforms,
      Contains(page, WindowsMarker), Contains(page, MacMarker), Contains(page, LinuxMarker));
    r := e.(vrSupport := vr, languageSupport := ls, totalAchievements := achievements,
            steamReleaseDate := releaseDate, reviewPositivePercentage := percent, reviewTotal := total,
            metacriticUrl := metacritic, platforms := platforms);
  }

  /** A matched language table installs a fresh triple. */
  method ReadLanguages(current: LanguageSupport, scan: PageScan, ops: TextOps) returns (ls: LanguageSupport)
    ensures ls == if |scan.languages| > 0 then LegacyLanguagesFrom(scan.languages, ops) else current
  {
    ls := current;
    if |scan.languages| > 0 {
      ls := ReadLegacyLanguageRows(scan.languages, ops);
    }
  }

  /** A matched achievement block sets the count where it parses. */
  method ReadAchievementCount(current: int, scan: PageScan, ops: TextOps) returns (count: int)
    ensures count ==
      if scan.achievements.Some? then CoreEntry.ParsedOr(current, ops.tryParseInt(scan.achievements.value))
      else current
  {
    count := current;
    if scan.achievements.Some? {
      var parsed := ops.tryParseInt(scan.achievements.value);
      if parsed.Some? {
        count := parsed.value;
      }
    }
  }

  /** The VR lists are cleared and refilled when their section matched. */
  method ReadVr(current: VrSupport, scan: PageScan, ops: TextOps) returns (vr: VrSupport)
    ensures vr == VrSupport(
      CoreEntry.RefillIfMatched(current.headsets, scan.vrHeadsets, ops),
      CoreEntry.RefillIfMatched(current.input, scan.vrInput, ops),
      CoreEntry.RefillIfMatched(current.playArea, scan.vrPlayArea, ops))
  {
    vr := current;
    if scan.vrHeadsets.Some? {
      var headsets := CoreEntry.CleanCaptures(scan.vrHeadsets.value, ops);
      vr := vr.(headsets := headsets);
    }
    if scan.vrInput.Some? {
      var input := CoreEntry.CleanCaptures(scan.vrInput.value, ops);
      vr := vr.(input := input);
    }
    if scan.vrPlayArea.Some? {
      var playArea := CoreEntry.CleanCaptures(scan.vrPlayArea.value, ops);
      vr := vr.(playArea := playArea);
    }
  }

  /** The review pair: each number is set where it parses. */
  method ReadReviews(currentPercent: int, currentTotal: int, scan: PageScan, ops: TextOps)
    returns (percent: int, total: int)
    ensures percent ==
      if scan.reviews.Some? then CoreEntry.ParsedOr(currentPercent, ops.tryParseInt(scan.reviews.value.percent))
      else currentPercent
    ensures total ==
      if scan.reviews.Some? then CoreEntry.ParsedOr(currentTotal, ops.tryParseThousands(scan.reviews.value.total))
      else currentTotal
  {
    percent, total := currentPercent, currentTotal;
    if scan.reviews.Some? {
      var p := ops.tryParseInt(scan.reviews.value.percent);
      if p.Some? {
        percent := p.value;
      }
      var t := ops.tryParseThousands(scan.reviews.value.total);
      if t.Some? {
        total := t.value;
      }
    }
  }

  /**
   * The try block of ScrapeStoreHelper: the redirect loop over the chain of
   * responses, then the checks on the final response's URI segments.
   */
  method ReadLegacyStorePage(id: int, chain: seq<Response>, storeRoot: string, ops: TextOps) returns (f: Fetch)
    ensures f == LegacyFetch(id, chain, storeRoot, ops)
  {
    if |chain| == 0 {
      return Failed;
    }
    var count := 0;
    while chain[count].status == Found && count < 5
      invariant 0 <= count <= 5 && count < |chain|
      invariant LegacyFollowFrom(chain, count, storeRoot) == LegacyFollowFrom(chain, 0, storeRoot)
      decreases 5 - count
    {
      var resp := chain[count];
      if resp.location == Some(storeRoot) {
        return Early(Unknown, true);
      }
      if resp.location == Some(resp.uri) {
        return Early(Unknown, false);
      }
      if resp.location.None? || count + 1 == |chain| {
        return Failed;
      }
      count := count + 1;
    }
    var resp := chain[count];
    if count == 5 && resp.status == Found {
      return Early(Unknown, false);
    }
    match LegacyClassify(id, resp.segments, ops)
    case Give(t, storeFront) =>
      f := Early(t, storeFront);
    case Proceed(target) =>
      f := if resp.body.Some? then PageRead(resp.body.value, target) else Failed;
  }

  /** The foreach over flag matches: raw captures, blank ones dropped. */
  method KeepNonBlank(captures: seq<string>) returns (items: seq<string>)
    ensures items == NonBlank(captures)
  {
    items := [];
    var i := 0;
    while i < |captures|
      invariant 0 <= i <= |captures|
      invariant items == NonBlank(captures[..i])
    {
      assert captures[..i + 1][..i] == captures[..i];
      if !IsBlank(captures[i]) {
        items := items + [captures[i]];
      }
      i := i + 1;
    }
    assert captures[..|captures|] == captures;
  }

  /** The foreach over developer or publisher captures: each one HTML-decoded. */
  method DecodeCaptures(captures: seq<string>, ops: TextOps) returns (items: seq<string>)
    ensures items == Decoded(captures, ops)
  {
    items := [];
    var i := 0;
    while i < |captures|
      invariant 0 <= i <= |captures|
      invariant items == Decoded(captures[..i], ops)
    {
      assert captures[..i + 1][..i] == captures[..i];
      items := items + [ops.htmlDecode(captures[i])];
      i := i + 1;
    }
    assert captures[..|captures|] == captures;
  }

  /** The foreach over language rows of the legacy scraper, starting from a fresh LanguageSupport. */
  method ReadLegacyLanguageRows(rows: seq<LanguageRow>, ops: TextOps) returns (ls: LanguageSupport)
    ensures ls == LegacyLanguagesFrom(rows, ops)
  {
    ls := EmptyLanguages;
    var i := 0;
    while i < |rows|
      invariant 0 <= i <= |rows|
      invariant ls == LegacyLanguagesFrom(rows[..i], ops)
    {
      var row := rows[i];
      assert rows[..i + 1][..i] == rows[..i];
      var language := ops.htmlDecode(ops.trim(row.language));
      if !CoreEntry.SkippedLanguage(language) {
        if ops.htmlDecode(ops.trim(row.interface)) != "" {
          ls := ls.(interface := ls.interface + [language]);
        }
        if ops.htmlDecode(ops.trim(row.fullAudio)) != "" {
          ls := ls.(fullAudio := ls.fullAudio + [language]);
        }
        if ops.htmlDecode(ops.trim(row.subtitles)) != "" {
          ls := ls.(subtitles := ls.subtitles + [language]);
        }
      }
      i := i + 1;
    }
    assert rows[..|rows|] == rows;
  }
}
