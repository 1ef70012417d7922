/**
 * Depressurizer.Core.Models.DatabaseEntry: the freshness-driven merge of two
 * records, the decision logic of a store scrape and the extraction rules
 * applied to a scraped page.
 */
module CoreEntry {
  import opened Wrappers
  import opened Text
  import opened Records
  import AppPlatforms
  import opened StorePage

  function Max(a: int, b: int): int
  {
    if a >= b then a else b
  }

  // ---------------------------------------------------------------------
  // MergeIn

  /** The AppInfo-sourced fields of `other` are used. */
  predicate UseAppInfoFields(e: Entry, other: Entry)
  {
    other.lastAppInfoUpdate > e.lastAppInfoUpdate
    || (e.lastAppInfoUpdate == 0 && other.lastStoreScrape >= e.lastStoreScrape)
  }

  /** The fields that only a store scrape provides are taken from `other`. */
  predicate UseScrapeOnlyFields(e: Entry, other: Entry)
  {
    other.lastStoreScrape >= e.lastStoreScrape
  }

  /** A list of `other` replaces the current one only when it is used and not empty. */
  function TakeList(current: seq<string>, incoming: seq<string>, use: bool): seq<string>
  {
    if use && |incoming| > 0 then incoming else current
  }

  function TakeString(current: Option<string>, incoming: Option<string>, use: bool): Option<string>
  {
    if use && !IsNullOrEmpty(incoming) then incoming else current
  }

  function TakeCount(current: int, incoming: int, use: bool): int
  {
    if use && incoming != 0 then incoming else current
  }

  /** MergeIn of two distinct entries: `other` folded into `e`. */
  function Merge(e: Entry, other: Entry): (r: Entry)
    ensures r.lastStoreScrape == Max(e.lastStoreScrape, other.lastStoreScrape)
    ensures r.lastAppInfoUpdate == Max(e.lastAppInfoUpdate, other.lastAppInfoUpdate)
    ensures r.id == e.id && r.banner == e.banner
    ensures r.hltbMain == e.hltbMain && r.hltbExtras == e.hltbExtras && r.hltbCompletionist == e.hltbCompletionist
  {
    var app := UseAppInfoFields(e, other);
    var scrape := UseScrapeOnlyFields(e, other);
    var takeReviews := scrape && other.reviewTotal != 0;
    Entry(
      id := e.id,
      appType := if other.appType != Unknown && (e.appType == Unknown || app) then other.appType else e.appType,
      banner := e.banner,
      name := TakeString(e.name, other.name, app),
      parentId := if app && other.parentId > 0 then other.parentId else e.parentId,
      platforms :=
        if other.lastStoreScrape >= e.lastStoreScrape
           || (e.lastStoreScrape == 0 && other.lastAppInfoUpdate > e.lastAppInfoUpdate)
           || e.platforms == AppPlatforms.None
        then other.platforms else e.platforms,
      developers := TakeList(e.developers, other.developers, scrape),
      publishers := TakeList(e.publishers, other.publishers, scrape),
      genres := TakeList(e.genres, other.genres, scrape),
      flags := TakeList(e.flags, other.flags, scrape),
      tags := TakeList(e.tags, other.tags, scrape),
      steamReleaseDate := TakeString(e.steamReleaseDate, other.steamReleaseDate, scrape),
      metacriticUrl := TakeString(e.metacriticUrl, other.metacriticUrl, scrape),
      reviewPositivePercentage := if takeReviews then other.reviewPositivePercentage else e.reviewPositivePercentage,
      reviewTotal := if takeReviews then other.reviewTotal else e.reviewTotal,
      totalAchievements := TakeCount(e.totalAchievements, other.totalAchievements, scrape),
      hltbMain := e.hltbMain,
      hltbExtras := e.hltbExtras,
      hltbCompletionist := e.hltbCompletionist,
      lastAppInfoUpdate := Max(e.lastAppInfoUpdate, other.lastAppInfoUpdate),
      lastStoreScrape := Max(e.lastStoreScrape, other.lastStoreScrape),
      vrSupport := VrSupport(
        TakeList(e.vrSupport.headsets, other.vrSupport.headsets, scrape),
        TakeList(e.vrSupport.input, other.vrSupport.input, scrape),
        TakeList(e.vrSupport.playArea, other.vrSupport.playArea, scrape)),
      languageSupport := LanguageSupport(
        TakeList(e.languageSupport.fullAudio, other.languageSupport.fullAudio, scrape),
        TakeList(e.languageSupport.interface, other.languageSupport.interface, scrape),
        TakeList(e.languageSupport.subtitles, other.languageSupport.subtitles, scrape)))
  }

  /**
   * MergeIn of an entry with itself: every list is cleared before it is
   * refilled from itself, so every list ends up empty; every other field
   * is what a merge of an equal copy leaves.
   */
  function SelfMerged(e: Entry): (r: Entry)
    ensures r.genres == [] && r.flags == [] && r.tags == [] && r.developers == [] && r.publishers == []
    ensures r.vrSupport == EmptyVr && r.languageSupport == EmptyLanguages
    ensures r.(developers := e.developers, publishers := e.publishers, genres := e.genres, flags := e.flags,
               tags := e.tags, vrSupport := e.vrSupport, languageSupport := e.languageSupport) == Merge(e, e)
  {
    e.(developers := [], publishers := [], genres := [], flags := [], tags := [],
       vrSupport := EmptyVr, languageSupport := EmptyLanguages)
  }

  // The four stages MergeIn runs, in order; MergeBySteps shows that they compose to Merge.

  function TypeAndPlatformsStep(e: Entry, other: Entry, useAppInfoFields: bool): Entry
  {
    e.(appType := if other.appType != Unknown && (e.appType == Unknown || useAppInfoFields) then other.appType else e.appType,
       platforms :=
         if other.lastStoreScrape >= e.lastStoreScrape
            || (e.lastStoreScrape == 0 && other.lastAppInfoUpdate > e.lastAppInfoUpdate)
            || e.platforms == AppPlatforms.None
         then other.platforms else e.platforms)
  }

  function NameAndParentStep(e: Entry, other: Entry, useAppInfoFields: bool): Entry
  {
    e.(name := TakeString(e.name, other.name, useAppInfoFields),
       parentId := if useAppInfoFields && other.parentId > 0 then other.parentId else e.parentId)
  }

  function ScrapeOnlyStep(e: Entry, other: Entry): Entry
  {
    e.(genres := TakeList(e.genres, other.genres, true),
       flags := TakeList(e.flags, other.flags, true),
       tags := TakeList(e.tags, other.tags, true),
       developers := TakeList(e.developers, other.developers, true),
       publishers := TakeList(e.publishers, other.publishers, true),
       steamReleaseDate := TakeString(e.steamReleaseDate, other.steamReleaseDate, true),
       totalAchievements := TakeCount(e.totalAchievements, other.totalAchievements, true),
       vrSupport := VrSupport(
         TakeList(e.vrSupport.headsets, other.vrSupport.headsets, true),
         TakeList(e.vrSupport.input, other.vrSupport.input, true),
         TakeList(e.vrSupport.playArea, other.vrSupport.playArea, true)),
       languageSupport := LanguageSupport(
         TakeList(e.languageSupport.fullAudio, other.languageSupport.fullAudio, true),
         TakeList(e.languageSupport.interface, other.languageSupport.interface, true),
         TakeList(e.languageSupport.subtitles, other.languageSupport.subtitles, true)),
       reviewTotal := TakeCount(e.reviewTotal, other.reviewTotal, true),
       reviewPositivePercentage := if other.reviewTotal != 0 then other.reviewPositivePercentage else e.reviewPositivePercentage,
       metacriticUrl := TakeString(e.metacriticUrl, other.metacriticUrl, true))
  }

  function StampsStep(e: Entry, other: Entry): Entry
  {
    e.(lastStoreScrape := Max(e.lastStoreScrape, other.lastStoreScrape),
       lastAppInfoUpdate := Max(e.lastAppInfoUpdate, other.lastAppInfoUpdate))
  }

  /** The stages of MergeIn, run on two distinct entries, give Merge. */
  lemma MergeBySteps(e: Entry, other: Entry)
    ensures var app := UseAppInfoFields(e, other);
      var named := NameAndParentStep(TypeAndPlatformsStep(e, other, app), other, app);
      Merge(e, other) == StampsStep(if UseScrapeOnlyFields(e, other) then ScrapeOnlyStep(named, other) else named, other)
  {
  }

  /** Merging an equal but distinct entry changes nothing. */
  lemma MergeEqualValue(e: Entry)
    ensures Merge(e, e) == e
  {
  }

  /** A self-merge loses the lists that a merge of an equal copy keeps. */
  lemma SelfMergeLosesLists(e: Entry)
    requires e.genres != []
    ensures SelfMerged(e) != Merge(e, e)
  {
    MergeEqualValue(e);
  }

  /** For distinct entries, merging the same `other` a second time changes nothing. */
  lemma MergeIdempotent(e: Entry, other: Entry)
    ensures Merge(Merge(e, other), other) == Merge(e, other)
  {
    var m := Merge(e, other);
    assert UseScrapeOnlyFields(m, other) == UseScrapeOnlyFields(e, other);
    assert UseAppInfoFields(m, other) ==> UseAppInfoFields(e, other);
  }

  /** An incoming scrape never clears a list, a date, a URL or the achievements. */
  lemma MergeNeverClears(e: Entry, other: Entry)
    ensures var r := Merge(e, other);
      (e.genres != [] ==> r.genres != []) && (e.flags != [] ==> r.flags != [])
      && (e.tags != [] ==> r.tags != []) && (e.developers != [] ==> r.developers != [])
      && (e.publishers != [] ==> r.publishers != [])
      && (e.vrSupport.headsets != [] ==> r.vrSupport.headsets != [])
      && (e.vrSupport.input != [] ==> r.vrSupport.input != [])
      && (e.vrSupport.playArea != [] ==> r.vrSupport.playArea != [])
      && (e.languageSupport.fullAudio != [] ==> r.languageSupport.fullAudio != [])
      && (e.languageSupport.interface != [] ==> r.languageSupport.interface != [])
      && (e.languageSupport.subtitles != [] ==> r.languageSupport.subtitles != [])
      && (!IsNullOrEmpty(e.steamReleaseDate) ==> !IsNullOrEmpty(r.steamReleaseDate))
      && (!IsNullOrEmpty(e.metacriticUrl) ==> !IsNullOrEmpty(r.metacriticUrl))
      && (!IsNullOrEmpty(e.name) ==> !IsNullOrEmpty(r.name))
      && (e.totalAchievements != 0 ==> r.totalAchievements != 0)
      && (e.reviewTotal != 0 ==> r.reviewTotal != 0)
  {
  }

  /** A known type never reverts to Unknown, and an Unknown one adopts any known incoming type. */
  lemma MergeTypeMonotone(e: Entry, other: Entry)
    ensures e.appType != Unknown ==> Merge(e, other).appType != Unknown
    ensures e.appType == Unknown ==> Merge(e, other).appType == other.appType
  {
  }

  /** An older scrape leaves every scrape-only field as it was. */
  lemma MergeOlderScrapeKeepsScrapeFields(e: Entry, other: Entry)
    requires other.lastStoreScrape < e.lastStoreScrape
    ensures var r := Merge(e, other);
      r.genres == e.genres && r.flags == e.flags && r.tags == e.tags
      && r.developers == e.developers && r.publishers == e.publishers
      && r.vrSupport == e.vrSupport && r.languageSupport == e.languageSupport
      && r.steamReleaseDate == e.steamReleaseDate && r.metacriticUrl == e.metacriticUrl
      && r.totalAchievements == e.totalAchievements
      && r.reviewTotal == e.reviewTotal && r.reviewPositivePercentage == e.reviewPositivePercentage
  {
  }

  /** A scrape at least as new as ours wins wherever it brings data. */
  lemma MergeNewerScrapeWins(e: Entry, other: Entry)
    requires other.lastStoreScrape >= e.lastStoreScrape
    ensures var r := Merge(e, other);
      (other.genres != [] ==> r.genres == other.genres)
      && (other.tags != [] ==> r.tags == other.tags)
      && (other.flags != [] ==> r.flags == other.flags)
      && (other.developers != [] ==> r.developers == other.developers)
      && (other.publishers != [] ==> r.publishers == other.publishers)
      && r.platforms == other.platforms
    ensures var r := Merge(e, other);
      (other.vrSupport.headsets != [] ==> r.vrSupport.headsets == other.vrSupport.headsets)
      && (other.vrSupport.input != [] ==> r.vrSupport.input == other.vrSupport.input)
      && (other.vrSupport.playArea != [] ==> r.vrSupport.playArea == other.vrSupport.playArea)
      && (other.languageSupport.fullAudio != [] ==> r.languageSupport.fullAudio == other.languageSupport.fullAudio)
      && (other.languageSupport.interface != [] ==> r.languageSupport.interface == other.languageSupport.interface)
      && (other.languageSupport.subtitles != [] ==> r.languageSupport.subtitles == other.languageSupport.subtitles)
    ensures var r := Merge(e, other);
      (!IsNullOrEmpty(other.steamReleaseDate) ==> r.steamReleaseDate == other.steamReleaseDate)
      && (other.totalAchievements != 0 ==> r.totalAchievements == other.totalAchievements)
      && (!IsNullOrEmpty(other.metacriticUrl) ==> r.metacriticUrl == other.metacriticUrl)
      && (other.reviewTotal != 0 ==>
            r.reviewTotal == other.reviewTotal && r.reviewPositivePercentage == other.reviewPositivePercentage)
  {
  }

  /** The review pair moves together: both old values or both incoming values. */
  lemma MergeReviewsTogether(e: Entry, other: Entry)
    ensures var r := Merge(e, other);
      (r.reviewTotal == e.reviewTotal && r.reviewPositivePercentage == e.reviewPositivePercentage)
      || (r.reviewTotal == other.reviewTotal && r.reviewPositivePercentage == other.reviewPositivePercentage)
  {
  }

  /** Name and ParentId change only under the AppInfo rule, and only to a non-empty name or a positive id. */
  lemma MergeAppInfoFields(e: Entry, other: Entry)
    ensures var r := Merge(e, other);
      (r.name != e.name ==> UseAppInfoFields(e, other) && r.name == other.name && !IsNullOrEmpty(other.name))
      && (r.parentId != e.parentId ==> UseAppInfoFields(e, other) && r.parentId == other.parentId > 0)
  {
  }

  // ---------------------------------------------------------------------
  // GetAllDataFromPage

  /** The item kept from one capture: HTML-decoded after trimming. */
  function CleanItem(capture: string, ops: TextOps): string
  {
    ops.htmlDecode(ops.trim(capture))
  }

  /** The cleaned captures, in order, with the blank ones dropped. */
  function Cleaned(captures: seq<string>, ops: TextOps): (r: seq<string>)
    ensures |r| <= |captures|
    ensures forall i :: 0 <= i < |r| ==> !IsBlank(r[i])
    ensures forall x :: x in r ==> exists i :: 0 <= i < |captures| && x == CleanItem(captures[i], ops)
    ensures forall i :: 0 <= i < |captures| && !IsBlank(CleanItem(captures[i], ops)) ==> CleanItem(captures[i], ops) in r
  {
    if captures == [] then []
    else
      var init := Cleaned(captures[..|captures| - 1], ops);
      var item := CleanItem(captures[|captures| - 1], ops);
      assert forall i :: 0 <= i < |captures| - 1 ==> captures[..|captures| - 1][i] == captures[i];
      if IsBlank(item) then init else init + [item]
  }

  /** One capture is kept, cleaned, exactly when its cleaned text is not blank. */
  lemma CleanedSingle(capture: string, ops: TextOps)
    ensures Cleaned([capture], ops) == if IsBlank(CleanItem(capture, ops)) then [] else [CleanItem(capture, ops)]
  {
    assert [capture][..0] == [];
  }

  /**
   * Cleaning works capture by capture: the items of two runs of captures are
   * those of the first run followed by those of the second, so the capture
   * order and every repeated capture are kept.
   */
  lemma {:induction false} CleanedAppend(a: seq<string>, b: seq<string>, ops: TextOps)
    ensures Cleaned(a + b, ops) == Cleaned(a, ops) + Cleaned(b, ops)
    decreases |b|
  {
    if b == [] {
      assert a + b == a;
    } else {
      var init := b[..|b| - 1];
      assert (a + b)[..|a + b| - 1] == a + init;
      assert (a + b)[|a + b| - 1] == b[|b| - 1];
      CleanedAppend(a, init, ops);
    }
  }

  /** The language name of a row is a store bug marker when it starts with "#lang" or "(". */
  predicate SkippedLanguage(language: string)
  {
    StartsWith(language, "#lang") || StartsWith(language, "(")
  }

  /** The cell marks support when its decoded, trimmed text is not blank. */
  predicate Checked(cell: string, ops: TextOps)
  {
    !IsBlank(ops.htmlDecode(ops.trim(cell)))
  }

  /** The language triple built from the rows of the language table, starting from a fresh one. */
  function LanguagesFrom(rows: seq<LanguageRow>, ops: TextOps): LanguageSupport
  {
    if rows == [] then EmptyLanguages
    else
      var acc := LanguagesFrom(rows[..|rows| - 1], ops);
      var row := rows[|rows| - 1];
      var language := ops.htmlDecode(ops.trim(row.language));
      if SkippedLanguage(language) then acc
      else LanguageSupport(
        acc.fullAudio + (if Checked(row.fullAudio, ops) then [language] else []),
        acc.interface + (if Checked(row.interface, ops) then [language] else []),
        acc.subtitles + (if Checked(row.subtitles, ops) then [language] else []))
  }

  /** The row names language `l` and checks the interface column. */
  predicate InterfaceRow(row: LanguageRow, ops: TextOps, l: string)
  {
    l == ops.htmlDecode(ops.trim(row.language)) && !SkippedLanguage(l) && Checked(row.interface, ops)
  }

  /** No bugged language marker ever reaches a column. */
  lemma {:induction false} LanguagesNeverSkipped(rows: seq<LanguageRow>, ops: TextOps)
    ensures var r := LanguagesFrom(rows, ops);
      (forall l :: l in r.interface ==> !SkippedLanguage(l))
      && (forall l :: l in r.fullAudio ==> !SkippedLanguage(l))
      && (forall l :: l in r.subtitles ==> !SkippedLanguage(l))
  {
    if rows != [] {
      LanguagesNeverSkipped(rows[..|rows| - 1], ops);
    }
  }

  /** A language is listed for the interface exactly when some kept row checks that column. */
  lemma {:induction false} LanguagesFromInterface(rows: seq<LanguageRow>, ops: TextOps, l: string)
    ensures l in LanguagesFrom(rows, ops).interface <==> exists i :: 0 <= i < |rows| && InterfaceRow(rows[i], ops, l)
  {
    if rows != [] {
      var init := rows[..|rows| - 1];
      var last := rows[|rows| - 1];
      LanguagesFromInterface(init, ops, l);
      if l in LanguagesFrom(rows, ops).interface {
        if l in LanguagesFrom(init, ops).interface {
          var i :| 0 <= i < |init| && InterfaceRow(init[i], ops, l);
          assert rows[i] == init[i];
        } else {
          assert InterfaceRow(rows[|rows| - 1], ops, l);
        }
      }
      if exists i :: 0 <= i < |rows| && InterfaceRow(rows[i], ops, l) {
        var i :| 0 <= i < |rows| && InterfaceRow(rows[i], ops, l);
        if i < |init| {
          assert InterfaceRow(init[i], ops, l);
        }
      }
    }
  }

  /** The flag list after the flag captures and the achievement rule. */
  function FlagsFromPage(current: seq<string>, scan: PageScan, ops: TextOps): seq<string>
  {
    var refilled := if |scan.flags| > 0 then Cleaned(scan.flags, ops) else current;
    if scan.achievements.Some? && AchievementsFlag !in refilled then refilled + [AchievementsFlag] else refilled
  }

  /** The platform bits the page shows, OR'd into the current ones. */
  function PlatformsFromPage(current: AppPlatforms.Platforms, page: string): AppPlatforms.Platforms
  {
    PlatformsShown(current, Contains(page, WindowsMarker), Contains(page, MacMarker), Contains(page, LinuxMarker))
  }

  /** `Platforms |= Windows`, then Mac, then Linux, each when its marker is shown. */
  function PlatformsShown(current: AppPlatforms.Platforms, windows: bool, mac: bool, linux: bool): AppPlatforms.Platforms
  {
    var w := if windows then current | AppPlatforms.Windows else current;
    var m := if mac then w | AppPlatforms.Mac else w;
    if linux then m | AppPlatforms.Linux else m
  }

  /** The three conditional `|=` statements of the platform block, in source order. */
  method ShowPlatforms(current: AppPlatforms.Platforms, windows: bool, mac: bool, linux: bool)
    returns (platforms: AppPlatforms.Platforms)
    ensures platforms == PlatformsShown(current, windows, mac, linux)
  {
    platforms := current;
    if windows {
      platforms := platforms | AppPlatforms.Windows;
    }
    if mac {
      platforms := platforms | AppPlatforms.Mac;
    }
    if linux {
      platforms := platforms | AppPlatforms.Linux;
    }
  }

  function RefillIfMatched(current: seq<string>, captures: Option<seq<string>>, ops: TextOps): seq<string>
  {
    match captures
    case Some(c) => Cleaned(c, ops)
    case None => current
  }

  function ParsedOr(current: int, parsed: Option<int>): int
  {
    match parsed
    case Some(n) => n
    case None => current
  }

  /** The entry after GetAllDataFromPage, for a page and its captures. */
  function WithPageData(e: Entry, page: string, scan: PageScan, ops: TextOps): Entry
  {
    var metacritic :=
      match scan.metacritic
      case Some(u) => if IsBlank(CleanItem(u, ops)) then e.metacriticUrl else Some(CleanItem(u, ops))
      case None => e.metacriticUrl;
    e.(
      genres := RefillIfMatched(e.genres, scan.genres, ops),
      flags := FlagsFromPage(e.flags, scan, ops),
      tags := if |scan.tags| > 0 then Cleaned(scan.tags, ops) else e.tags,
      developers := RefillIfMatched(e.developers, scan.developers, ops),
      publishers := RefillIfMatched(e.publishers, scan.publishers, ops),
      metacriticUrl := metacritic,
      platforms := PlatformsFromPage(e.platforms, page),
      reviewPositivePercentage :=
        if scan.reviews.Some? then ParsedOr(e.reviewPositivePercentage, ops.tryParseInt(scan.reviews.value.percent))
        else e.reviewPositivePercentage,
      reviewTotal :=
        if scan.reviews.Some? then ParsedOr(e.reviewTotal, ops.tryParseThousands(scan.reviews.value.total))
        else e.reviewTotal,
      totalAchievements :=
        if scan.achievements.Some? then ParsedOr(e.totalAchievements, ops.tryParseInt(scan.achievements.value))
        else e.totalAchievements,
      vrSupport := VrSupport(
        RefillIfMatched(e.vrSupport.headsets, scan.vrHeadsets, ops),
        RefillIfMatched(e.vrSupport.input, scan.vrInput, ops),
        RefillIfMatched(e.vrSupport.playArea, scan.vrPlayArea, ops)),
      languageSupport := if |scan.languages| > 0 then LanguagesFrom(scan.languages, ops) else e.languageSupport,
      steamReleaseDate := if scan.releaseDate.Some? then scan.releaseDate else e.steamReleaseDate)
  }

  /** Platform bits are only ever added, never removed, and none outside All appears. */
  lemma PlatformsOnlyGrow(current: AppPlatforms.Platforms, windows: bool, mac: bool, linux: bool)
    ensures PlatformsShown(current, windows, mac, linux) & current == current
    ensures AppPlatforms.WithinAll(current) ==> AppPlatforms.WithinAll(PlatformsShown(current, windows, mac, linux))
  {
  }

  /** "Steam Achievements" is present after a matched achievement block and is never added twice. */
  lemma AchievementsFlagOnce(current: seq<string>, scan: PageScan, ops: TextOps)
    requires scan.achievements.Some?
    ensures var before := if |scan.flags| > 0 then Cleaned(scan.flags, ops) else current;
      var after := FlagsFromPage(current, scan, ops);
      AchievementsFlag in after
      && multiset(after)[AchievementsFlag] == Max(1, multiset(before)[AchievementsFlag])
  {
  }

  /** Extraction refills only the lists whose pattern matched, and a refilled list holds no blank item. */
  lemma ExtractionRefillRules(e: Entry, page: string, scan: PageScan, ops: TextOps)
    ensures var r := WithPageData(e, page, scan, ops);
      (scan.genres.None? ==> r.genres == e.genres)
      && (scan.genres.Some? ==> forall i :: 0 <= i < |r.genres| ==> !IsBlank(r.genres[i]))
      && (scan.tags == [] ==> r.tags == e.tags)
      && (scan.tags != [] ==> forall i :: 0 <= i < |r.tags| ==> !IsBlank(r.tags[i]))
      && (scan.developers.None? ==> r.developers == e.developers)
      && (scan.developers.Some? ==> forall i :: 0 <= i < |r.developers| ==> !IsBlank(r.developers[i]))
      && (scan.publishers.None? ==> r.publishers == e.publishers)
      && (scan.publishers.Some? ==> forall i :: 0 <= i < |r.publishers| ==> !IsBlank(r.publishers[i]))
      && (scan.languages == [] ==> r.languageSupport == e.languageSupport)
      && r.name == e.name && r.id == e.id && r.parentId == e.parentId && r.appType == e.appType
      && r.lastStoreScrape == e.lastStoreScrape && r.lastAppInfoUpdate == e.lastAppInfoUpdate
  {
  }

  /**
   * The flags are refilled only when flag captures matched, and gain only the
   * achievements flag otherwise; a refilled list holds no blank item.
   */
  lemma ExtractionFlagsRefillRules(e: Entry, page: string, scan: PageScan, ops: TextOps)
    ensures var r := WithPageData(e, page, scan, ops);
      (|scan.flags| == 0 && scan.achievements.None? ==> r.flags == e.flags)
      && (|scan.flags| == 0 && scan.achievements.Some? ==> r.flags == e.flags || r.flags == e.flags + [AchievementsFlag])
      && (|scan.flags| > 0 ==> forall i :: 0 <= i < |r.flags| ==> !IsBlank(r.flags[i]))
  {
    assert !IsWhiteSpace(AchievementsFlag[0]);
  }

  /** Each VR column is refilled only when its pattern matched, and a refilled column holds no blank item. */
  lemma ExtractionVrRefillRules(e: Entry, page: string, scan: PageScan, ops: TextOps)
    ensures var r := WithPageData(e, page, scan, ops);
      (scan.vrHeadsets.None? ==> r.vrSupport.headsets == e.vrSupport.headsets)
      && (scan.vrHeadsets.Some? ==> forall i :: 0 <= i < |r.vrSupport.headsets| ==> !IsBlank(r.vrSupport.headsets[i]))
      && (scan.vrInput.None? ==> r.vrSupport.input == e.vrSupport.input)
      && (scan.vrInput.Some? ==> forall i :: 0 <= i < |r.vrSupport.input| ==> !IsBlank(r.vrSupport.input[i]))
      && (scan.vrPlayArea.None? ==> r.vrSupport.playArea == e.vrSupport.playArea)
      && (scan.vrPlayArea.Some? ==> forall i :: 0 <= i < |r.vrSupport.playArea| ==> !IsBlank(r.vrSupport.playArea[i]))
  {
  }

  // ---------------------------------------------------------------------
  // ScrapeStore

  /**
   * The redirect loop, from the response to request `count`: the index of
   * the response it stops on, or None when it returns early or a request
   * throws (a missing Location header makes the pattern match throw; a
   * request past the end of the chain throws).
   */
  function FollowFrom(chain: seq<Response>, count: nat): (r: Option<nat>)
    requires count <= 5
    ensures r.Some? ==> count <= r.value <= 5 && r.value < |chain|
    ensures r.Some? ==> chain[r.value].status != Found || r.value == 5
    ensures r.Some? ==> forall j :: count <= j < r.value ==> chain[j].status == Found
    decreases 5 - count
  {
    if count >= |chain| then None
    else if chain[count].status != Found || count == 5 then Some(count)
    else match chain[count].location
      case None => None
      case Some(location) =>
        if MatchesSteamStore(location) then None
        else if chain[count].uri == location then None
        else FollowFrom(chain, count + 1)
  }

  /**
   * The checks on the final URI's segments: None when the scrape aborts,
   * otherwise the redirect target (-1 when the page is the app's own).  The
   * age-check branch of the source is omitted: it is reached only when
   * segment 1 is "agecheck/", and that case has already returned (see
   * AgeCheckBranchIsDead).
   */
  function ClassifyCore(id: int, segments: seq<string>, ops: TextOps): Option<int>
  {
    if |segments| < 2 then None
    else if segments[1] != "app/" then None
    else if |segments| < 3 then None
    else if TrimEnd(segments[2], '/') != IntToString(id) then
      ops.tryParseInt(TrimEnd(segments[2], '/'))
    else Some(-1)
  }

  lemma AgeCheckBranchIsDead(id: int, segments: seq<string>, ops: TextOps)
    requires |segments| >= 2 && segments[1] == "agecheck/"
    ensures ClassifyCore(id, segments, ops) == None
  {
  }

  /** A page that was read, and the redirect target found on the way. */
  datatype Fetched = Fetched(page: string, redirectTarget: int)

  /** The part of ScrapeStore up to reading the page. */
  function FetchStorePage(id: int, chain: seq<Response>, ops: TextOps): Option<Fetched>
  {
    match FollowFrom(chain, 0)
    case None => None
    case Some(k) =>
      if k == 5 && chain[k].status == Found then None
      else match ClassifyCore(id, chain[k].segments, ops)
        case None => None
        case Some(target) =>
          match chain[k].body
          case None => None
          case Some(page) => Some(Fetched(page, target))
  }

  predicate IsGamePage(page: string) { Contains(page, GameMarker) }

  predicate IsSoftwarePage(page: string)
  {
    Contains(page, SoftwareMarkerHttp) || Contains(page, SoftwareMarkerHttps)
  }

  predicate IsDlcPage(page: string)
  {
    Contains(page, DlcMarkerHttp) || Contains(page, DlcMarkerHttps)
  }

  /** The type the Core scraper gives a page: DLC, then Game, then Application. */
  function CoreType(page: string, current: AppType): AppType
  {
    if IsDlcPage(page) then DLC
    else if IsGamePage(page) then Game
    else if IsSoftwarePage(page) then Application
    else current
  }

  /** The entry after ScrapeStore, given the responses, the capture function and the clock. */
  function Scraped(e: Entry, chain: seq<Response>, scan: string -> PageScan, ops: TextOps, now: int): Entry
  {
    match FetchStorePage(e.id, chain, ops)
    case None => e
    case Some(f) =>
      if Contains(f.page, SiteError) then e
      else if !IsGamePage(f.page) && !IsSoftwarePage(f.page) then e
      else
        var d := WithPageData(e.(lastStoreScrape := now), f.page, scan(f.page), ops);
        var p := if f.redirectTarget != -1 then d.(parentId := f.redirectTarget) else d;
        p.(appType := CoreType(f.page, p.appType))
  }

  /** A scrape either leaves the entry untouched or stamps it with now and classifies it as DLC, Game or Application. */
  lemma ScrapeUntouchedOrStamped(e: Entry, chain: seq<Response>, scan: string -> PageScan, ops: TextOps, now: int)
    ensures var r := Scraped(e, chain, scan, ops, now);
      r == e || (r.lastStoreScrape == now && r.appType in {DLC, Game, Application} && r.id == e.id)
  {
  }

  /** Any redirect to a URL on the store host aborts, also one to another app's page. */
  lemma StoreHostRedirectAborts(e: Entry, chain: seq<Response>, scan: string -> PageScan, ops: TextOps, now: int, k: nat)
    requires k < 5 && k < |chain| && FollowFrom(chain, 0) == FollowFrom(chain, k)
    requires chain[k].status == Found && chain[k].location.Some? && MatchesSteamStore(chain[k].location.value)
    ensures Scraped(e, chain, scan, ops, now) == e
  {
  }

  /** A redirect back to the response's own URI aborts, at whichever hop the loop meets it. */
  lemma SelfRedirectAborts(e: Entry, chain: seq<Response>, scan: string -> PageScan, ops: TextOps, now: int, k: nat)
    requires k < 5 && k < |chain| && FollowFrom(chain, 0) == FollowFrom(chain, k)
    requires chain[k].status == Found && chain[k].location == Some(chain[k].uri) && !MatchesSteamStore(chain[k].uri)
    ensures Scraped(e, chain, scan, ops, now) == e
  {
  }

  /** A null response body makes the fetch fail, and the entry stays as it was. */
  lemma NullBodyAborts(e: Entry, chain: seq<Response>, scan: string -> PageScan, ops: TextOps, now: int, k: nat)
    requires FollowFrom(chain, 0) == Some(k) && !(k == 5 && chain[k].status == Found)
    requires ClassifyCore(e.id, chain[k].segments, ops).Some? && chain[k].body.None?
    ensures FetchStorePage(e.id, chain, ops).None?
    ensures Scraped(e, chain, scan, ops, now) == e
  {
  }

  /**
   * The checks after the page is read: a failed fetch, a "Site Error" page
   * and a page with neither the game nor the software marker all leave
   * the entry untouched.
   */
  lemma PageChecksAbort(e: Entry, chain: seq<Response>, scan: string -> PageScan, ops: TextOps, now: int)
    ensures var fetched := FetchStorePage(e.id, chain, ops);
      var r := Scraped(e, chain, scan, ops, now);
      (fetched.None? ==> r == e)
      && (fetched.Some? && Contains(fetched.value.page, SiteError) ==> r == e)
      && (fetched.Some? && !IsGamePage(fetched.value.page) && !IsSoftwarePage(fetched.value.page) ==> r == e)
  {
  }

  /**
   * A page that passes the checks: the entry is stamped, filled from the
   * page, takes the redirect target as its parent when there is one, and is
   * typed DLC when the DLC marker is present, otherwise Game when the game
   * marker is present, otherwise Application.
   */
  lemma ScrapeSucceeds(e: Entry, chain: seq<Response>, scan: string -> PageScan, ops: TextOps, now: int)
    requires FetchStorePage(e.id, chain, ops).Some?
    requires !Contains(FetchStorePage(e.id, chain, ops).value.page, SiteError)
    requires IsGamePage(FetchStorePage(e.id, chain, ops).value.page)
             || IsSoftwarePage(FetchStorePage(e.id, chain, ops).value.page)
    ensures var f := FetchStorePage(e.id, chain, ops).value;
      var r := Scraped(e, chain, scan, ops, now);
      r.lastStoreScrape == now
      && r.(parentId := e.parentId, appType := e.appType) == WithPageData(e.(lastStoreScrape := now), f.page, scan(f.page), ops)
      && (f.redirectTarget != -1 ==> r.parentId == f.redirectTarget)
      && (f.redirectTarget == -1 ==> r.parentId == e.parentId)
      && (IsDlcPage(f.page) ==> r.appType == DLC)
      && (!IsDlcPage(f.page) && IsGamePage(f.page) ==> r.appType == Game)
      && (!IsDlcPage(f.page) && !IsGamePage(f.page) ==> r.appType == Application)
  {
  }

  /** Every redirect the loop follows is a 302 with a fresh, non-store Location. */
  lemma {:induction false} FollowedHops(chain: seq<Response>, count: nat, j: nat)
    requires count <= j < 5 && FollowFrom(chain, count).Some? && j < FollowFrom(chain, count).value
    ensures chain[j].status == Found && chain[j].location.Some?
    ensures !MatchesSteamStore(chain[j].location.value) && chain[j].uri != chain[j].location.value
    decreases 5 - count
  {
    if j > count {
      FollowedHops(chain, count + 1, j);
    }
  }

  /** Still a redirect after five hops: the scrape aborts. */
  lemma SixthRedirectAborts(e: Entry, chain: seq<Response>, scan: string -> PageScan, ops: TextOps, now: int)
    requires FollowFrom(chain, 0) == Some(5) && chain[5].status == Found
    ensures Scraped(e, chain, scan, ops, now) == e
  {
  }

  /** A page that is not the app route aborts: fewer than three segments or segment 1 other than "app/". */
  lemma OutsideAppRouteAborts(id: int, segments: seq<string>, ops: TextOps)
    requires |segments| < 3 || segments[1] != "app/"
    ensures ClassifyCore(id, segments, ops) == None
  {
  }

  /** The app's own page has no redirect target; another numeric id becomes the target. */
  lemma RedirectTargets(id: int, segments: seq<string>, ops: TextOps)
    requires |segments| >= 3 && segments[1] == "app/"
    ensures TrimEnd(segments[2], '/') == IntToString(id) ==> ClassifyCore(id, segments, ops) == Some(-1)
    ensures TrimEnd(segments[2], '/') != IntToString(id) ==>
      ClassifyCore(id, segments, ops) == ops.tryParseInt(TrimEnd(segments[2], '/'))
  {
  }

  /** A successful scrape of a page with both markers and no DLC marker yields Game. */
  lemma GameBeatsApplication(page: string, current: AppType)
    requires IsGamePage(page) && IsSoftwarePage(page) && !IsDlcPage(page)
    ensures CoreType(page, current) == Game
  {
  }

  // ---------------------------------------------------------------------
  // The record as an object


  /**
   * A DatabaseEntry object.  Its properties are held as one record value,
   * `data`; a setter or a list rewrite replaces the matching component.
   */
  class DatabaseEntry {
    var data: Entry

    /** `new DatabaseEntry(appId)`. */
    constructor (appId: int)
      ensures data == NewEntry(appId)
    {
      data := NewEntry(appId);
    }

    /**
     * Folds `other` into this entry.  Both flags are computed from the
     * stamps before the merge.  A list is cleared and refilled from the
     * other entry's list: for two distinct entries that is a copy, and for
     * a merge of an entry into itself the refill reads the list just
     * cleared, so every non-empty list ends up empty.
     */
    method MergeIn(other: DatabaseEntry)
      modifies this
      ensures other != this ==> data == Merge(old(data), old(other.data))
      ensures other == this ==> data == SelfMerged(old(data))
    {
      var useAppInfoFields := other.data.lastAppInfoUpdate > data.lastAppInfoUpdate
        || (data.lastAppInfoUpdate == 0 && other.data.lastStoreScrape >= data.lastStoreScrape);
      var useScrapeOnlyFields := other.data.lastStoreScrape >= data.lastStoreScrape;
      ghost var e, o := data, other.data;
      MergeBySteps(e, o);
      MergeTypeAndPlatforms(other, useAppInfoFields);
      MergeNameAndParent(other, useAppInfoFields);
      assert other == this ==> data == e;
      if useScrapeOnlyFields {
        MergeScrapeOnlyFields(other);
      }
      assert other == this ==> data == SelfMerged(e);
      MergeStamps(other);
    }

    /** The block run under a scrape at least as new as ours: lists, date, achievements, VR, languages, reviews, URL. */
    method MergeScrapeOnlyFields(other: DatabaseEntry)
      modifies this
      ensures other != this ==> data == ScrapeOnlyStep(old(data), old(other.data))
      ensures other == this ==> data == old(data).(genres := [], flags := [], tags := [], developers := [], publishers := [],
        vrSupport := EmptyVr, languageSupport := EmptyLanguages)
    {
      MergeLists(other);
      MergeReleaseAndAchievements(other);
      MergeVrSupport(other);
      MergeLanguageSupport(other);
      MergeReviewsAndMetacritic(other);
    }

    method MergeTypeAndPlatforms(other: DatabaseEntry, useAppInfoFields: bool)
      modifies this
      ensures data == TypeAndPlatformsStep(old(data), old(other.data), useAppInfoFields)
    {
      if other.data.appType != Unknown && (data.appType == Unknown || useAppInfoFields) {
        data := data.(appType := other.data.appType);
      }
      if other.data.lastStoreScrape >= data.lastStoreScrape
         || (data.lastStoreScrape == 0 && other.data.lastAppInfoUpdate > data.lastAppInfoUpdate)
         || data.platforms == AppPlatforms.None {
        data := data.(platforms := other.data.platforms);
      }
    }

    method MergeNameAndParent(other: DatabaseEntry, useAppInfoFields: bool)
      modifies this
      ensures data == NameAndParentStep(old(data), old(other.data), useAppInfoFields)
    {
      if useAppInfoFields {
        if !IsNullOrEmpty(other.data.name) {
          data := data.(name := other.data.name);
        }
        if other.data.parentId > 0 {
          data := data.(parentId := other.data.parentId);
        }
      }
    }

    /**
     * Genres, flags, tags, developers and publishers: each non-empty list of
     * `other` is copied by clearing ours and then adding theirs.
     */
    method MergeLists(other: DatabaseEntry)
      modifies this
      ensures other != this ==> data == old(data).(
        genres := TakeList(old(data.genres), old(other.data.genres), true),
        flags := TakeList(old(data.flags), old(other.data.flags), true),
        tags := TakeList(old(data.tags), old(other.data.tags), true),
        developers := TakeList(old(data.developers), old(other.data.developers), true),
        publishers := TakeList(old(data.publishers), old(other.data.publishers), true))
      ensures other == this ==> data == old(data).(genres := [], flags := [], tags := [], developers := [], publishers := [])
    {
      if |other.data.genres| > 0 {
        data := data.(genres := []);
        data := data.(genres := other.data.genres);
      }
      if |other.data.flags| > 0 {
        data := data.(flags := []);
        data := data.(flags := other.data.flags);
      }
      if |other.data.tags| > 0 {
        data := data.(tags := []);
        data := data.(tags := other.data.tags);
      }
      if |other.data.developers| > 0 {
        data := data.(developers := []);
        data := data.(developers := other.data.developers);
      }
      if |other.data.publishers| > 0 {
        data := data.(publishers := []);
        data := data.(publishers := other.data.publishers);
      }
    }

    method MergeReleaseAndAchievements(other: DatabaseEntry)
      modifies this
      ensures data == old(data).(
        steamReleaseDate := TakeString(old(data.steamReleaseDate), old(other.data.steamReleaseDate), true),
        totalAchievements := TakeCount(old(data.totalAchievements), old(other.data.totalAchievements), true))
    {
      if !IsNullOrEmpty(other.data.steamReleaseDate) {
        data := data.(steamReleaseDate := other.data.steamReleaseDate);
      }
      if other.data.totalAchievements != 0 {
        data := data.(totalAchievements := other.data.totalAchievements);
      }
    }

    /** The three VR lists, each cleared and refilled when the incoming one is not empty. */
    method MergeVrSupport(other: DatabaseEntry)
      modifies this
      ensures other != this ==> data == old(data).(vrSupport := VrSupport(
        TakeList(old(data.vrSupport.headsets), old(other.data.vrSupport.headsets), true),
        TakeList(old(data.vrSupport.input), old(other.data.vrSupport.input), true),
        TakeList(old(data.vrSupport.playArea), old(other.data.vrSupport.playArea), true)))
      ensures other == this ==> data == old(data).(vrSupport := EmptyVr)
    {
      if |other.data.vrSupport.headsets| > 0 {
        data := data.(vrSupport := data.vrSupport.(headsets := []));
        data := data.(vrSupport := data.vrSupport.(headsets := other.data.vrSupport.headsets));
      }
      if |other.data.vrSupport.input| > 0 {
        data := data.(vrSupport := data.vrSupport.(input := []));
        data := data.(vrSupport := data.vrSupport.(input := other.data.vrSupport.input));
      }
      if |other.data.vrSupport.playArea| > 0 {
        data := data.(vrSupport := data.vrSupport.(playArea := []));
        data := data.(vrSupport := data.vrSupport.(playArea := other.data.vrSupport.playArea));
      }
    }

    /** The three language lists, each cleared and refilled when the incoming one is not empty. */
    method MergeLanguageSupport(other: DatabaseEntry)
      modifies this
      ensures other != this ==> data == old(data).(languageSupport := LanguageSupport(
        TakeList(old(data.languageSupport.fullAudio), old(other.data.languageSupport.fullAudio), true),
        TakeList(old(data.languageSupport.interface), old(other.data.languageSupport.interface), true),
        TakeList(old(data.languageSupport.subtitles), old(other.data.languageSupport.subtitles), true)))
      ensures other == this ==> data == old(data).(languageSupport := EmptyLanguages)
    {
      if |other.data.languageSupport.fullAudio| > 0 {
        data := data.(languageSupport := data.languageSupport.(fullAudio := []));
        data := data.(languageSupport := data.languageSupport.(fullAudio := other.data.languageSupport.fullAudio));
      }
      if |other.data.languageSupport.interface| > 0 {
        data := data.(languageSupport := data.languageSupport.(interface := []));
        data := data.(languageSupport := data.languageSupport.(interface := other.data.languageSupport.interface));
      }
      if |other.data.languageSupport.subtitles| > 0 {
        data := data.(languageSupport := data.languageSupport.(subtitles := []));
        data := data.(languageSupport := data.languageSupport.(subtitles := other.data.languageSupport.subtitles));
      }
    }

    method MergeReviewsAndMetacritic(other: DatabaseEntry)
      modifies this
      ensures data == old(data).(
        reviewTotal := TakeCount(old(data.reviewTotal), old(other.data.reviewTotal), true),
        reviewPositivePercentage :=
          if old(other.data.reviewTotal) != 0 then old(other.data.reviewPositivePercentage) else old(data.reviewPositivePercentage),
        metacriticUrl := TakeString(old(data.metacriticUrl), old(other.data.metacriticUrl), true))
    {
      if other.data.reviewTotal != 0 {
        data := data.(reviewTotal := other.data.reviewTotal,
                      reviewPositivePercentage := other.data.reviewPositivePercentage);
      }
      if !IsNullOrEmpty(other.data.metacriticUrl) {
        data := data.(metacriticUrl := other.data.metacriticUrl);
      }
    }

    /** Each stamp rises to the other entry's when that one is newer. */
    method MergeStamps(other: DatabaseEntry)
      modifies this
      ensures data == StampsStep(old(data), old(other.data))
    {
      if other.data.lastStoreScrape > data.lastStoreScrape {
        data := data.(lastStoreScrape := other.data.lastStoreScrape);
      }
      if other.data.lastAppInfoUpdate > data.lastAppInfoUpdate {
        data := data.(lastAppInfoUpdate := other.data.lastAppInfoUpdate);
      }
    }

    /** Applies the captures of a page to this entry, section by section. */
    method GetAllDataFromPage(page: string, scan: PageScan, ops: TextOps)
      modifies this
      ensures data == WithPageData(old(data), page, scan, ops)
    {
      ReadGenresFlagsTags(scan, ops);
      ReadDevelopersPublishers(scan, ops);
      ReadMetacritic(scan, ops);
      ReadPlatforms(page);
      ReadReviewsAndAchievements(scan, ops);
      ReadVrSupport(scan, ops);
      ReadLanguagesAndReleaseDate(scan, ops);
    }

    /** Genres, flags and tags: a matched pattern clears the list and refills it. */
    method ReadGenresFlagsTags(scan: PageScan, ops: TextOps)
      modifies this
      ensures data == old(data).(
        genres := RefillIfMatched(old(data.genres), scan.genres, ops),
        flags := if |scan.flags| > 0 then Cleaned(scan.flags, ops) else old(data.flags),
        tags := if |scan.tags| > 0 then Cleaned(scan.tags, ops) else old(data.tags))
    {
      if scan.genres.Some? {
        var genres := CleanCaptures(scan.genres.value, ops);
        data := data.(genres := genres);
      }
      if |scan.flags| > 0 {
        var flags := CleanCaptures(scan.flags, ops);
        data := data.(flags := flags);
      }
      if |scan.tags| > 0 {
        var tags := CleanCaptures(scan.tags, ops);
        data := data.(tags := tags);
      }
    }

    /** Developers and publishers: a matched pattern clears the list and refills it. */
    method ReadDevelopersPublishers(scan: PageScan, ops: TextOps)
      modifies this
      ensures data == old(data).(
        developers := RefillIfMatched(old(data.developers), scan.developers, ops),
        publishers := RefillIfMatched(old(data.publishers), scan.publishers, ops))
    {
      if scan.developers.Some? {
        var developers := CleanCaptures(scan.developers.value, ops);
        data := data.(developers := developers);
      }
      if scan.publishers.Some? {
        var publishers := CleanCaptures(scan.publishers.value, ops);
        data := data.(publishers := publishers);
      }
    }

    /** The Metacritic URL, when it is not blank. */
    method ReadMetacritic(scan: PageScan, ops: TextOps)
      modifies this
      ensures data == old(data).(
        metacriticUrl :=
          if scan.metacritic.Some? && !IsBlank(CleanItem(scan.metacritic.value, ops))
          then Some(CleanItem(scan.metacritic.value, ops)) else old(data.metacriticUrl))
    {
      if scan.metacritic.Some? {
        var url := ops.htmlDecode(ops.trim(scan.metacritic.value));
        if !IsBlank(url) {
          data := data.(metacriticUrl := Some(url));
        }
      }
    }

    /** Each platform marker on the page ORs its bit in. */
    method ReadPlatforms(page: string)
      modifies this
      ensures data == old(data).(platforms := PlatformsFromPage(old(data.platforms), page))
    {
      var platforms := ShowPlatforms(data.platforms, Contains(page, WindowsMarker), Contains(page, MacMarker), Contains(page, LinuxMarker));
      data := data.(platforms := platforms);
    }

    /** The review pair and the achievements: each value is set only when it parses. */
    method ReadReviewsAndAchievements(scan: PageScan, ops: TextOps)
      modifies this
      ensures data == old(data).(
        reviewPositivePercentage :=
          if scan.reviews.Some? then ParsedOr(old(data.reviewPositivePercentage), ops.tryParseInt(scan.reviews.value.percent))
          else old(data.reviewPositivePercentage),
        reviewTotal :=
          if scan.reviews.Some? then ParsedOr(old(data.reviewTotal), ops.tryParseThousands(scan.reviews.value.total))
          else old(data.reviewTotal),
        flags :=
          if scan.achievements.Some? && AchievementsFlag !in old(data.flags) then old(data.flags) + [AchievementsFlag]
          else old(data.flags),
        totalAchievements :=
          if scan.achievements.Some? then ParsedOr(old(data.totalAchievements), ops.tryParseInt(scan.achievements.value))
          else old(data.totalAchievements))
    {
      if scan.reviews.Some? {
        var percent := ops.tryParseInt(scan.reviews.value.percent);
        if percent.Some? {
          data := data.(reviewPositivePercentage := percent.value);
        }
        var total := ops.tryParseThousands(scan.reviews.value.total);
        if total.Some? {
          data := data.(reviewTotal := total.value);
        }
      }
      if scan.achievements.Some? {
        if AchievementsFlag !in data.flags {
          data := data.(flags := data.flags + [AchievementsFlag]);
        }
        var count := ops.tryParseInt(scan.achievements.value);
        if count.Some? {
          data := data.(totalAchievements := count.value);
        }
      }
    }

    /** Each matched VR section clears its list and refills it from the section's flags. */
    method ReadVrSupport(scan: PageScan, ops: TextOps)
      modifies this
      ensures data == old(data).(vrSupport := VrSupport(
        RefillIfMatched(old(data.vrSupport.headsets), scan.vrHeadsets, ops),
        RefillIfMatched(old(data.vrSupport.input), scan.vrInput, ops),
        RefillIfMatched(old(data.vrSupport.playArea), scan.vrPlayArea, ops)))
    {
      var vr := data.vrSupport;
      if scan.vrHeadsets.Some? {
        var headsets := CleanCaptures(scan.vrHeadsets.value, ops);
        vr := vr.(headsets := headsets);
      }
      if scan.vrInput.Some? {
        var input := CleanCaptures(scan.vrInput.value, ops);
        vr := vr.(input := input);
      }
      if scan.vrPlayArea.Some? {
        var playArea := CleanCaptures(scan.vrPlayArea.value, ops);
        vr := vr.(playArea := playArea);
      }
      data := data.(vrSupport := vr);
    }

    /** A matched language table replaces LanguageSupport; a matched release date is stored as captured. */
    method ReadLanguagesAndReleaseDate(scan: PageScan, ops: TextOps)
      modifies this
      ensures data == old(data).(
        languageSupport := if |scan.languages| > 0 then LanguagesFrom(scan.languages, ops) else old(data.languageSupport),
        steamReleaseDate := if scan.releaseDate.Some? then scan.releaseDate else old(data.steamReleaseDate))
    {
      if |scan.languages| > 0 {
        var languages := ReadLanguageRows(scan.languages, ops);
        data := data.(languageSupport := languages);
      }
      if scan.releaseDate.Some? {
        data := data.(steamReleaseDate := scan.releaseDate);
      }
    }

    /**
     * Scrapes the store page: `chain[k]` is the response to the k-th
     * request, `scan` gives the captures of a body, `now` is the clock.
     */
    method ScrapeStore(chain: seq<Response>, scan: string -> PageScan, ops: TextOps, now: int)
      modifies this
      ensures data == Scraped(old(data), chain, scan, ops, now)
    {
      var fetched := ReadStorePage(data.id, chain, ops);
      if fetched.None? {
        return;
      }
      var page := fetched.value.page;
      if Contains(page, SiteError) {
        return;
      }
      if !IsGamePage(page) && !IsSoftwarePage(page) {
        return;
      }
      data := data.(lastStoreScrape := now);
      GetAllDataFromPage(page, scan(page), ops);
      if fetched.value.redirectTarget != -1 {
        data := data.(parentId := fetched.value.redirectTarget);
      }
      if IsDlcPage(page) {
        data := data.(appType := DLC);
        return;
      }
      if IsSoftwarePage(page) {
        data := data.(appType := Application);
      }
      if IsGamePage(page) {
        data := data.(appType := Game);
      }
    }
  }

  /**
   * The request part of ScrapeStore: the redirect loop, the checks on the
   * final URI and the read of the body.  None stands for every early
   * return and every exception the source catches.
   */
  method ReadStorePage(id: int, chain: seq<Response>, ops: TextOps) returns (f: Option<Fetched>)
    ensures f == FetchStorePage(id, chain, ops)
  {
    if |chain| == 0 {
      return None;
    }
    var resp := chain[0];
    var count := 0;
    while resp.status == Found && count < 5
      invariant 0 <= count <= 5 && count < |chain| && resp == chain[count]
      invariant FollowFrom(chain, 0) == FollowFrom(chain, count)
      decreases 5 - count
    {
      if resp.location.None? {
        return None;
      }
      var location := resp.location.value;
      if MatchesSteamStore(location) {
        return None;
      }
      if resp.uri == location {
        return None;
      }
      if count + 1 >= |chain| {
        return None;
      }
      resp := chain[count + 1];
      count := count + 1;
    }
    if count == 5 && resp.status == Found {
      return None;
    }
    var segments := resp.segments;
    if |segments| < 2 {
      return None;
    }
    if segments[1] != "app/" {
      return None;
    }
    if |segments| < 3 {
      return None;
    }
    var redirectTarget := -1;
    var segment := TrimEnd(segments[2], '/');
    if segment != IntToString(id) {
      var parsed := ops.tryParseInt(segment);
      if parsed.None? {
        return None;
      }
      redirectTarget := parsed.value;
    }
    if resp.body.None? {
      return None;
    }
    return Some(Fetched(resp.body.value, redirectTarget));
  }

  /** The foreach over captures: decode(trim(c)) for each capture, blank ones dropped. */
  method CleanCaptures(captures: seq<string>, ops: TextOps) returns (items: seq<string>)
    ensures items == Cleaned(captures, ops)
  {
    items := [];
    var i := 0;
    while i < |captures|
      invariant 0 <= i <= |captures|
      invariant items == Cleaned(captures[..i], ops)
    {
      var item := ops.htmlDecode(ops.trim(captures[i]));
      assert captures[..i + 1][..i] == captures[..i];
      if !IsBlank(item) {
        items := items + [item];
      }
      i := i + 1;
    }
    assert captures[..|captures|] == captures;
  }

  /** The foreach over language rows, starting from a fresh LanguageSupport. */
  method ReadLanguageRows(rows: seq<LanguageRow>, ops: TextOps) returns (ls: LanguageSupport)
    ensures ls == LanguagesFrom(rows, ops)
  {
    ls := EmptyLanguages;
    var i := 0;
    while i < |rows|
      invariant 0 <= i <= |rows|
      invariant ls == LanguagesFrom(rows[..i], ops)
    {
      var row := rows[i];
      assert rows[..i + 1][..i] == rows[..i];
      var language := ops.htmlDecode(ops.trim(row.language));
      if !SkippedLanguage(language) {
        if Checked(row.interface, ops) {
          ls := ls.(interface := ls.interface + [language]);
        }
        if Checked(row.fullAudio, ops) {
          ls := ls.(fullAudio := ls.fullAudio + [language]);
        }
        if Checked(row.subtitles, ops) {
          ls := ls.(subtitles := ls.subtitles + [language]);
        }
      }
      i := i + 1;
    }
    assert rows[..|rows|] == rows;
  }
}
