# Depressurizer app database — a Dafny model

Depressurizer keeps a local database of Steam store metadata: one record per app id (type,
name, parent, platforms, genres, flags, tags, developers, publishers, VR and language support,
reviews, achievements, release date, and two freshness stamps). This project models the parts of
that database that make decisions, and proves what they promise:

- `CoreEntry` (`database_entry.dfy`): the `DatabaseEntry` record of the core library.
  - Its freshness-driven `MergeIn`, proved equal to the pure `Merge` for two distinct entries and to `SelfMerged` for an entry merged into itself.
  - The redirect loop, path-segment classifier and type precedence of `ScrapeStore`.
  - The extraction rules of `GetAllDataFromPage`.
- `LegacyEntry` (`game_db_entry.dfy`): the older `GameDBEntry`.
  - Its list-by-reference merge, `SetTypeFromStoreScrape` and `ScrapeStoreHelper`.
  - Where its extraction differs from the core version.
- `DatabaseQueries` and `GameDatabase` (`database_queries.dfy`, `database.dfy`): the `Database`
  collection.
  - The lazy, case-insensitive aggregate caches.
  - The depth-bounded parent-fallback lookups and the tag-to-genre fallback.
  - `IntegrateAppList`, `UpdateFromAppInfo` and the language-change reset.
  - The developer/publisher counts and the tag scores.
- `ScrapeBatch` (`scrape_dialog.dfy`): the scrape dialog.
  - Job de-duplication.
  - `RunJob` under the Stopped flag.
  - The upsert commit in `Finish`.
- `VrAutoCat` (`auto_cat_vr_support.dfy`): the VR-support auto-categoriser.
- `AppSettings` (`settings.dfy`): the settings object, with its self-correcting getters and
  32-bit arithmetic.
- `Filters` (`filter.dfy`): a saved filter, its ordering and the element order it writes.
- `CuratorRecommendations` (`curator_recommendations.dfy`): curator-recommendation
  classification and paging.
- `AppPlatforms` (`app_platforms.dfy`): the platform bit set.

Supporting modules:
- `Records` holds the entry record and its initial value.
- `StorePage` holds responses and page scans.
- `Text` holds the string helpers of .NET that the code relies on, written out: `char.IsWhiteSpace`,
  `IsNullOrWhiteSpace`, `IsNullOrEmpty`, `TrimEnd('/')`, `Contains`, `StartsWith`, `ToString` of an
  int, and ordinal upper-case folding. `Trim` is not written out; it is a field of `TextOps`.
- `Wrappers` holds `Option` and `Result`.

Network responses, regular-expression matches, `string.Trim()`, `HtmlDecode` and both forms of
`int.TryParse` enter the model as inputs:
- a redirect chain of abstract responses;
- a `PageScan` of captures and booleans per page;
- `TextOps` function values.

Classes whose fields the source updates in place are Dafny classes with `modifies`
clauses. Each state-changing method is proved against a pure function of the old state, and the
properties are lemmas about those functions.

## Model

| member | source | states |
|---|---|---|
| AppPlatforms.Flag | Source/Depressurizer.Core/Enums/AppPlatforms.cs:32-35 | each platform is exactly one of the Windows, Mac and Linux bits |
| AppPlatforms.Members | Source/Depressurizer.Core/Enums/AppPlatforms.cs:29-36 | a platform is in the decoded set exactly when its bit is set |
| AppPlatforms.Values | Source/Depressurizer.Core/Enums/AppPlatforms.cs:32-36 | None = 0, Windows = 1, Mac = 2, Linux = 4, All = 7 |
| AppPlatforms.FlagsWithinAll | Source/Depressurizer.Core/Enums/AppPlatforms.cs:33-36 | each single platform lies within All |
| AppPlatforms.Disjoint | Source/Depressurizer.Core/Enums/AppPlatforms.cs:33-35 | the three platform bits are pairwise disjoint |
| AppPlatforms.OrIsUnionLike | Source/Depressurizer.Core/Enums/AppPlatforms.cs:29-36 | OR on platform sets is commutative, associative and idempotent, with None as unit |
| AppPlatforms.OrIsUnion | Source/Depressurizer.Core/Enums/AppPlatforms.cs:29-36 | the members of `a \| b` are the union of the members of a and b |
| AppPlatforms.OrAllWithinAll | Source/Depressurizer.Core/Enums/AppPlatforms.cs:29-36 | any OR of platform flags stays within All and contains every flag ORed in |
| AppPlatforms.OrKeepsWithinAll | Source/Depressurizer.Core/Enums/AppPlatforms.cs:36 | OR of two values within All stays within All |
| Records.NewEntry | Source/Depressurizer.Core/Models/DatabaseEntry.cs:97-149 | a new entry has the given id, type Unknown, parent -1, no platforms, no name, zero stamps and empty lists |
| StorePage.MatchesSteamStore | Source/Depressurizer.Core/Models/DatabaseEntry.cs:73 | the store-host test `RegexSteamStore.IsMatch` as containment of the host; AnyStoreUrlMatches and StoreHostRedirectAborts state what it decides |
| StorePage.AnyStoreUrlMatches | Source/Depressurizer.Core/Models/DatabaseEntry.cs:73 | the unanchored store-host pattern matches every store app URL, so such a redirect aborts the scrape |
| CoreEntry.Merge | Source/Depressurizer.Core/Models/DatabaseEntry.cs:155-284 | after a merge both stamps are the maximum of old and incoming; id, banner and HowLongToBeat times are untouched |
| CoreEntry.SelfMerged | Source/Depressurizer.Core/Models/DatabaseEntry.cs:185-261 | the value a merge of an entry into itself leaves: every list and both support triples empty, and every other field as a merge of an equal copy leaves it |
| CoreEntry.MergeEqualValue | Source/Depressurizer.Core/Models/DatabaseEntry.cs:155-284 | merging an equal but distinct entry changes nothing |
| CoreEntry.SelfMergeLosesLists | Source/Depressurizer.Core/Models/DatabaseEntry.cs:185-189 | with genres present, a self-merge differs from merging an equal copy: data is lost |
| CoreEntry.MergeIdempotent | Source/Depressurizer.Core/Models/DatabaseEntry.cs:155-284 | merging the same other entry a second time changes nothing |
| CoreEntry.MergeNeverClears | Source/Depressurizer.Core/Models/DatabaseEntry.cs:183-272 | no non-empty list, string or non-zero count becomes empty through a merge |
| CoreEntry.MergeTypeMonotone | Source/Depressurizer.Core/Models/DatabaseEntry.cs:160-163 | a known type stays known; an Unknown type takes the incoming type |
| CoreEntry.MergeOlderScrapeKeepsScrapeFields | Source/Depressurizer.Core/Models/DatabaseEntry.cs:158-273 | an older incoming scrape changes none of the scrape-only fields |
| CoreEntry.MergeNewerScrapeWins | Source/Depressurizer.Core/Models/DatabaseEntry.cs:158-273 | under a newer or equal incoming scrape each of its non-empty lists (genres, tags, flags, developers, publishers, the three VR and the three language columns), a non-empty release date or Metacritic URL, a non-zero achievement count and the review pair of a non-zero total replace ours, and the platforms are replaced wholesale |
| CoreEntry.MergeReviewsTogether | Source/Depressurizer.Core/Models/DatabaseEntry.cs:263-267 | review total and percentage always come from the same side |
| CoreEntry.MergeAppInfoFields | Source/Depressurizer.Core/Models/DatabaseEntry.cs:157-181 | name and parent change only under the AppInfo rule, and only to a non-empty name or a positive parent |
| CoreEntry.Cleaned | Source/Depressurizer.Core/Models/DatabaseEntry.cs:487-494 | the cleaned list holds exactly the decoded, trimmed captures that are not blank |
| CoreEntry.CleanedSingle | Source/Depressurizer.Core/Models/DatabaseEntry.cs:487-494 | one capture yields its trimmed, decoded text when that is not blank, and nothing otherwise |
| CoreEntry.CleanedAppend | Source/Depressurizer.Core/Models/DatabaseEntry.cs:487-494 | the items of two runs of captures are those of the first followed by those of the second, so capture order and repeated captures are kept, as the `Add` loop keeps them |
| CoreEntry.LanguagesNeverSkipped | Source/Depressurizer.Core/Models/DatabaseEntry.cs:677-684 | no language starting with "#lang" or "(" enters any language column |
| CoreEntry.LanguagesFromInterface | Source/Depressurizer.Core/Models/DatabaseEntry.cs:672-690 | a language is in the interface column exactly when some row names it with a checked interface cell |
| CoreEntry.ShowPlatforms | Source/Depressurizer.Core/Models/DatabaseEntry.cs:568-587 | the platform loop ORs in the bit of each platform the page shows |
| CoreEntry.PlatformsOnlyGrow | Source/Depressurizer.Core/Models/DatabaseEntry.cs:568-587 | reading platforms only adds bits and stays within All |
| CoreEntry.AchievementsFlagOnce | Source/Depressurizer.Core/Models/DatabaseEntry.cs:605-612 | when achievements match, "Steam Achievements" is present afterwards and is never added a second time |
| CoreEntry.ExtractionRefillRules | Source/Depressurizer.Core/Models/DatabaseEntry.cs:480-712 | genres, tags, developers, publishers and languages are refilled only when their pattern matched, each refilled list holds no blank item, and identity, type and stamps are untouched |
| CoreEntry.ExtractionFlagsRefillRules | Source/Depressurizer.Core/Models/DatabaseEntry.cs:497-509 | without flag captures the flags stay, gaining at most the achievements flag when achievements matched; refilled flags hold no blank item (also lines 607-612) |
| CoreEntry.ExtractionVrRefillRules | Source/Depressurizer.Core/Models/DatabaseEntry.cs:620-671 | each VR column is refilled only when its section matched, and a refilled column holds no blank item |
| CoreEntry.ClassifyCore | Source/Depressurizer.Core/Models/DatabaseEntry.cs:335-387 | the segment checks: too few segments, a segment 1 other than "app/", or an unparsable other id abort; the own id gives -1 and another id is the redirect target; OutsideAppRouteAborts, RedirectTargets and AgeCheckBranchIsDead state these cases |
| CoreEntry.FetchStorePage | Source/Depressurizer.Core/Models/DatabaseEntry.cs:296-417 | the part of ScrapeStore up to reading the page: the redirect loop, the sixth-redirect abort, the segment checks and a missing body; CoreEntry.ReadStorePage is proved equal to it and the abort lemmas state its cases |
| CoreEntry.Scraped | Source/Depressurizer.Core/Models/DatabaseEntry.cs:286-461 | the entry after ScrapeStore: the old entry on every abort, otherwise stamped, extracted and typed; ScrapeUntouchedOrStamped, the abort lemmas and ScrapeSucceeds state its cases |
| CoreEntry.FollowFrom | Source/Depressurizer.Core/Models/DatabaseEntry.cs:303-325 | the redirect loop stops within 5 hops on a non-302 response or at hop 5, having passed only 302 responses |
| CoreEntry.AgeCheckBranchIsDead | Source/Depressurizer.Core/Models/DatabaseEntry.cs:341-373 | an "agecheck/" URI aborts at the app-route check, so the age-check branch after it never runs |
| CoreEntry.ScrapeUntouchedOrStamped | Source/Depressurizer.Core/Models/DatabaseEntry.cs:286-461 | a scrape either leaves the entry untouched or stamps it with now and sets a DLC, Game or Application type |
| CoreEntry.StoreHostRedirectAborts | Source/Depressurizer.Core/Models/DatabaseEntry.cs:308-313 | a followed redirect whose Location matches the store host leaves the entry untouched |
| CoreEntry.SelfRedirectAborts | Source/Depressurizer.Core/Models/DatabaseEntry.cs:315-320 | a redirect to the current URI, at any hop the loop reaches, leaves the entry untouched |
| CoreEntry.NullBodyAborts | Source/Depressurizer.Core/Models/DatabaseEntry.cs:389-393 | a null response stream after the URI checks makes the fetch fail and leaves the entry untouched |
| CoreEntry.PageChecksAbort | Source/Depressurizer.Core/Models/DatabaseEntry.cs:419-431 | a failed fetch, a "Site Error" page, and a page with neither the game nor the software marker all leave the entry untouched |
| CoreEntry.ScrapeSucceeds | Source/Depressurizer.Core/Models/DatabaseEntry.cs:433-460 | a page that passes the checks stamps the entry with now and fills it from the page; a redirect target other than -1 becomes the parent; the type is DLC with the DLC marker, otherwise Game with the game marker, otherwise Application |
| CoreEntry.FollowedHops | Source/Depressurizer.Core/Models/DatabaseEntry.cs:304-325 | every hop the loop passed was a 302 with a Location that is neither the store host nor the current URI |
| CoreEntry.SixthRedirectAborts | Source/Depressurizer.Core/Models/DatabaseEntry.cs:327-332 | a redirect still pending after 5 hops leaves the entry untouched |
| CoreEntry.OutsideAppRouteAborts | Source/Depressurizer.Core/Models/DatabaseEntry.cs:334-353 | fewer than 3 segments, or segment 1 other than "app/", aborts the scrape |
| CoreEntry.RedirectTargets | Source/Depressurizer.Core/Models/DatabaseEntry.cs:375-386 | segment 2 equal to the id gives no redirect target; otherwise the target is its parsed number, or the scrape aborts |
| CoreEntry.GameBeatsApplication | Source/Depressurizer.Core/Models/DatabaseEntry.cs:442-460 | a page matching both the game and software markers but not DLC is typed Game |
| CoreEntry.DatabaseEntry.constructor | Source/Depressurizer.Core/Models/DatabaseEntry.cs:97-149 | a new entry object holds the initial record for its id |
| CoreEntry.DatabaseEntry.MergeIn | Source/Depressurizer.Core/Models/DatabaseEntry.cs:155-284 | merging another entry object leaves this entry equal to `Merge` of the two old records; merging the entry into itself, where each refill reads the list just cleared, leaves `SelfMerged` of the old record |
| CoreEntry.DatabaseEntry.MergeScrapeOnlyFields | Source/Depressurizer.Core/Models/DatabaseEntry.cs:183-273 | for another entry, every scrape-only field takes the incoming value under the non-empty and non-zero rules; for the entry itself, every list is emptied and nothing else changes |
| CoreEntry.DatabaseEntry.MergeTypeAndPlatforms | Source/Depressurizer.Core/Models/DatabaseEntry.cs:160-168 | the type is taken when known and (own Unknown or the AppInfo rule); the platforms are replaced under the three listed conditions |
| CoreEntry.DatabaseEntry.MergeNameAndParent | Source/Depressurizer.Core/Models/DatabaseEntry.cs:170-181 | under the AppInfo rule, a non-empty name and a positive parent are taken |
| CoreEntry.DatabaseEntry.MergeLists | Source/Depressurizer.Core/Models/DatabaseEntry.cs:183-213 | each of the five lists is replaced by a copy only when the incoming list is non-empty; in a self-merge all five end empty |
| CoreEntry.DatabaseEntry.MergeReleaseAndAchievements | Source/Depressurizer.Core/Models/DatabaseEntry.cs:215-223 | a non-empty release date and a non-zero achievement count are taken |
| CoreEntry.DatabaseEntry.MergeVrSupport | Source/Depressurizer.Core/Models/DatabaseEntry.cs:225-242 | each VR column is replaced only by a non-empty incoming column; in a self-merge all three end empty |
| CoreEntry.DatabaseEntry.MergeLanguageSupport | Source/Depressurizer.Core/Models/DatabaseEntry.cs:244-261 | each language column is replaced only by a non-empty incoming column; in a self-merge all three end empty |
| CoreEntry.DatabaseEntry.MergeReviewsAndMetacritic | Source/Depressurizer.Core/Models/DatabaseEntry.cs:263-272 | the review pair changes only for a non-zero incoming total; a non-empty Metacritic URL is taken |
| CoreEntry.DatabaseEntry.MergeStamps | Source/Depressurizer.Core/Models/DatabaseEntry.cs:275-283 | both stamps become the maximum of old and incoming |
| CoreEntry.WithPageData | Source/Depressurizer.Core/Models/DatabaseEntry.cs:480-712 | the record after GetAllDataFromPage; ExtractionRefillRules, ExtractionFlagsRefillRules, ExtractionVrRefillRules and AchievementsFlagOnce state its rules |
| CoreEntry.DatabaseEntry.GetAllDataFromPage | Source/Depressurizer.Core/Models/DatabaseEntry.cs:480-712 | the entry becomes the page extraction `WithPageData` of its old record |
| CoreEntry.DatabaseEntry.ReadGenresFlagsTags | Source/Depressurizer.Core/Models/DatabaseEntry.cs:482-525 | genres, flags and tags are refilled with cleaned captures only when their pattern matched |
| CoreEntry.DatabaseEntry.ReadDevelopersPublishers | Source/Depressurizer.Core/Models/DatabaseEntry.cs:527-555 | developers and publishers are refilled with cleaned captures only when their pattern matched |
| CoreEntry.DatabaseEntry.ReadMetacritic | Source/Depressurizer.Core/Models/DatabaseEntry.cs:557-566 | a matched, non-blank Metacritic capture replaces the URL |
| CoreEntry.DatabaseEntry.ReadPlatforms | Source/Depressurizer.Core/Models/DatabaseEntry.cs:568-587 | the platforms the page shows are ORed into the stored platforms |
| CoreEntry.DatabaseEntry.ReadReviewsAndAchievements | Source/Depressurizer.Core/Models/DatabaseEntry.cs:589-618 | parsed review and achievement numbers replace the stored ones; the achievements flag is appended if missing |
| CoreEntry.DatabaseEntry.ReadVrSupport | Source/Depressurizer.Core/Models/DatabaseEntry.cs:620-669 | each VR column is refilled only when its pattern matched |
| CoreEntry.DatabaseEntry.ReadLanguagesAndReleaseDate | Source/Depressurizer.Core/Models/DatabaseEntry.cs:671-711 | a fresh language triple replaces the old one when any row matched; a matched release date is stored |
| CoreEntry.DatabaseEntry.ScrapeStore | Source/Depressurizer.Core/Models/DatabaseEntry.cs:286-461 | the entry becomes `Scraped` of its old record for the given response chain and clock value |
| CoreEntry.ReadStorePage | Source/Depressurizer.Core/Models/DatabaseEntry.cs:296-417 | the redirect loop and segment checks yield exactly the page and redirect target that `FetchStorePage` defines |
| CoreEntry.CleanCaptures | Source/Depressurizer.Core/Models/DatabaseEntry.cs:487-494 | the capture loop yields the `Cleaned` list |
| CoreEntry.ReadLanguageRows | Source/Depressurizer.Core/Models/DatabaseEntry.cs:675-703 | the row loop yields the language triple `LanguagesFrom` defines |
| LegacyEntry.StoreTypeWins | Source/Depressurizer/GameDBEntry.cs:747-753 | the condition under which SetTypeFromStoreScrape adopts the store type; StoreTypeAdopted states that it decides the result |
| LegacyEntry.StoreTypeAdopted | Source/Depressurizer/GameDBEntry.cs:747-753 | the scraped type is adopted exactly when the current type is Unknown, or the scraped type is known and no AppInfo was seen; nothing else changes |
| LegacyEntry.UnknownStoreTypeIsNoOp | Source/Depressurizer/GameDBEntry.cs:747-753 | setting an Unknown scraped type changes nothing |
| LegacyEntry.AppInfoTypeKept | Source/Depressurizer/GameDBEntry.cs:747-753 | a known type from AppInfo is never overwritten by the store |
| LegacyEntry.NonBlank | Source/Depressurizer/GameDBEntry.cs:336-348 | the kept flags are exactly the non-blank raw captures |
| LegacyEntry.NonBlankSingle | Source/Depressurizer/GameDBEntry.cs:336-348 | one flag capture is kept as it is exactly when it is not blank |
| LegacyEntry.NonBlankAppend | Source/Depressurizer/GameDBEntry.cs:336-348 | two runs of captures give the flags of the first followed by those of the second, so capture order and repeats are kept |
| LegacyEntry.Decoded | Source/Depressurizer/GameDBEntry.cs:468-487 | developers and publishers are the decoded captures, one for one, neither trimmed nor filtered |
| LegacyEntry.LegacyLanguagesBounded | Source/Depressurizer/GameDBEntry.cs:416-448 | each language column has at most one entry per row, and skipped rows never enter the interface column |
| LegacyEntry.CheckedIsMarked | Source/Depressurizer/GameDBEntry.cs:430-446 | a cell the core version counts as checked also counts in the legacy version |
| LegacyEntry.WithItems | Source/Depressurizer/GameDBEntry.cs:322-363 | installing the five list contents into an entry is read back unchanged |
| LegacyEntry.LegacyPageData | Source/Depressurizer/GameDBEntry.cs:322-537 | the record after the legacy GetAllDataFromPage; PageDataInParts, GenresKeptRaw, DevelopersNotTrimmed and BlankCellCountsInLegacyOnly state how it differs from the core extraction |
| LegacyEntry.PageDataInParts | Source/Depressurizer/GameDBEntry.cs:322-537 | legacy extraction is the scalar part applied to the fields and the list part applied to the lists |
| LegacyEntry.GenresKeptRaw | Source/Depressurizer/GameDBEntry.cs:325-333 | a blank genre capture is stored raw by the legacy version and dropped by the core version |
| LegacyEntry.DevelopersNotTrimmed | Source/Depressurizer/GameDBEntry.cs:467-476 | developer names keep their surrounding spaces in the legacy version |
| LegacyEntry.BlankCellCountsInLegacyOnly | Source/Depressurizer/GameDBEntry.cs:430-434 | a language cell holding only a space counts as supported in the legacy version but not in the core version |
| LegacyEntry.LegacyFollowFrom | Source/Depressurizer/GameDBEntry.cs:601-623 | the legacy redirect loop stops within 5 hops on a non-302 response or at hop 5 |
| LegacyEntry.LegacyFollowedHops | Source/Depressurizer/GameDBEntry.cs:601-623 | every hop passed was a 302 whose Location is neither the store root nor the current URI |
| LegacyEntry.LegacyClassify | Source/Depressurizer/GameDBEntry.cs:631-680 | the legacy segment checks: too short, age check, non-app route, then the app id; SegmentOrder states the order |
| LegacyEntry.SegmentOrder | Source/Depressurizer/GameDBEntry.cs:625-680 | the segment checks run in source order: too short gives Unknown, then age check, then Other, then the app id |
| LegacyEntry.PrecedenceDiffers | Source/Depressurizer/GameDBEntry.cs:714-724 | a page with game and software markers is Application in the legacy version and Game in the core version |
| LegacyEntry.ScrapeHelper | Source/Depressurizer/GameDBEntry.cs:558-740 | ScrapeStoreHelper: stamp, follow redirects, check segments, read and classify the page; StampRules, ResultKinds and StoreRootRedirect state its outcomes |
| LegacyEntry.StampRules | Source/Depressurizer/GameDBEntry.cs:566-568 | a caught fetch error restores the old stamp; every other early return keeps the new stamp (also line 686-692) |
| LegacyEntry.RedirectTargetForcesUnknown | Source/Depressurizer/GameDBEntry.cs:733-737 | a redirect target sets the parent and forces the result to Unknown |
| LegacyEntry.ResultKinds | Source/Depressurizer/GameDBEntry.cs:701-739 | a read page with a game or software marker yields DLC, Application or Game; an early return yields Unknown or Other |
| LegacyEntry.StoreRootRedirect | Source/Depressurizer/GameDBEntry.cs:605-611 | a redirect to the store root gives Unknown, keeping the new stamp |
| LegacyEntry.StringList.constructor | Source/Depressurizer/GameDBEntry.cs:102-150 | a list object holds the given items |
| LegacyEntry.GameDBEntry.constructor | Source/Depressurizer/GameDBEntry.cs:97-154 | a new legacy entry holds the initial record and five fresh, distinct lists |
| LegacyEntry.GameDBEntry.SetTypeFromStoreScrape | Source/Depressurizer/GameDBEntry.cs:747-753 | the type becomes `WithStoreType` of the old record; the list references are untouched |
| LegacyEntry.GameDBEntry.MergeIn | Source/Depressurizer/GameDBEntry.cs:177-301 | the merged contents equal the core `Merge`; under a newer scrape the five list references are taken from the other entry |
| LegacyEntry.GameDBEntry.MergeTypeAndPlatforms | Source/Depressurizer/GameDBEntry.cs:182-190 | the same type and platform rules as the core merge |
| LegacyEntry.GameDBEntry.MergeNameAndParent | Source/Depressurizer/GameDBEntry.cs:192-203 | the same name and parent rules as the core merge |
| LegacyEntry.GameDBEntry.TakeLists | Source/Depressurizer/GameDBEntry.cs:207-230 | each non-empty incoming list is taken by reference, not copied |
| LegacyEntry.GameDBEntry.MergeScrapeScalars | Source/Depressurizer/GameDBEntry.cs:232-240 | release date, achievements, review pair and Metacritic URL follow the core rules (also line 280-289) |
| LegacyEntry.GameDBEntry.MergeVrAndLanguages | Source/Depressurizer/GameDBEntry.cs:242-278 | the VR and language columns are copied only from non-empty incoming columns |
| LegacyEntry.GameDBEntry.MergeStamps | Source/Depressurizer/GameDBEntry.cs:292-300 | both stamps become the maximum of old and incoming |
| LegacyEntry.GameDBEntry.ScrapeStore | Source/Depressurizer/GameDBEntry.cs:307-312 | the contents and result are `LegacyScraped`: the helper's result, with a redirect target forcing Unknown |
| LegacyEntry.GameDBEntry.ScrapeStoreHelper | Source/Depressurizer/GameDBEntry.cs:558-740 | the contents and result are those of `ScrapeHelper` for the given response chain and clock value |
| LegacyEntry.GameDBEntry.GetAllDataFromPage | Source/Depressurizer/GameDBEntry.cs:322-537 | the contents become `LegacyPageData`; a new flags list is allocated only when flags matched |
| LegacyEntry.SharedFlagsSeeAchievements | Source/Depressurizer/GameDBEntry.cs:212-215 | after a by-reference merge, appending the achievements flag to one entry's flags shows in the other's (also line 451-458) |
| LegacyEntry.ReadLists | Source/Depressurizer/GameDBEntry.cs:325-363 | the list part of the extraction yields the `LegacyItems` contents (also line 451-487) |
| LegacyEntry.InstallLists | Source/Depressurizer/GameDBEntry.cs:325-363 | genres raw, flags non-blank, tags cleaned, developers and publishers decoded, each only when matched (also line 467-487) |
| LegacyEntry.AppendAchievementFlag | Source/Depressurizer/GameDBEntry.cs:455-458 | the achievements flag is appended once when achievements match |
| LegacyEntry.ReadPageScalars | Source/Depressurizer/GameDBEntry.cs:365-537 | the scalar part of the extraction yields `LegacyScalars` |
| LegacyEntry.ReadLanguages | Source/Depressurizer/GameDBEntry.cs:417-448 | the language triple is rebuilt only when some row matched |
| LegacyEntry.ReadAchievementCount | Source/Depressurizer/GameDBEntry.cs:451-465 | a parsed achievement count replaces the stored one |
| LegacyEntry.ReadVr | Source/Depressurizer/GameDBEntry.cs:365-414 | each VR column is refilled only when its pattern matched |
| LegacyEntry.ReadReviews | Source/Depressurizer/GameDBEntry.cs:496-510 | parsed review numbers replace the stored ones |
| LegacyEntry.ReadLegacyStorePage | Source/Depressurizer/GameDBEntry.cs:571-685 | the redirect loop and segment checks yield `LegacyFetch` |
| LegacyEntry.KeepNonBlank | Source/Depressurizer/GameDBEntry.cs:340-347 | the flag loop keeps exactly the non-blank captures |
| LegacyEntry.DecodeCaptures | Source/Depressurizer/GameDBEntry.cs:472-475 | the developer loop decodes each capture |
| LegacyEntry.ReadLegacyLanguageRows | Source/Depressurizer/GameDBEntry.cs:420-447 | the row loop yields the legacy language triple |
| DatabaseQueries.Add | Source/Depressurizer/Database.cs:140 | adding to the case-insensitive set adds the folded key and keeps existing spellings |
| DatabaseQueries.UnionWith | Source/Depressurizer/Database.cs:151 | union adds the folded keys of all items and keeps existing spellings |
| DatabaseQueries.UnionWithKeepsFirstSpelling | Source/Depressurizer/Database.cs:140-151 | a new key keeps the spelling of the first item with that fold |
| DatabaseQueries.Lookup | Source/Depressurizer/Database.cs:629-659 | an unknown id gives null; the own list is returned when non-empty, at depth 0 or without a positive parent (also line 727-741) |
| DatabaseQueries.Ancestor | Source/Depressurizer/Database.cs:634-636 | a found ancestor is in the database |
| DatabaseQueries.LookupVisitsAtMostDepthPlusOne | Source/Depressurizer/Database.cs:629-659 | a found list belongs to an ancestor at most depth + 1 steps up |
| DatabaseQueries.LookupEndsOnParentCycle | Source/Depressurizer/Database.cs:634-636 | two entries that are each other's parent still give a result |
| DatabaseQueries.Intersect | Source/Depressurizer/Database.cs:671 | the intersection holds exactly the items in both, without duplicates |
| DatabaseQueries.IntersectKeepsOrder | Source/Depressurizer/Database.cs:671 | the intersection keeps the order of the first sequence |
| DatabaseQueries.GenreList | Source/Depressurizer/Database.cs:661-684 | an unknown id gives null |
| DatabaseQueries.GenreListWithoutFallback | Source/Depressurizer/Database.cs:661-684 | without tag fallback the genre list is the plain parent-fallback lookup |
| DatabaseQueries.GenreListIgnoresUnconsultedCache | Source/Depressurizer/Database.cs:666-672 | the genre cache matters only when the tag fallback reaches it |
| DatabaseQueries.TagFallbackIsCaseSensitive | Source/Depressurizer/Database.cs:671 | tag "action" is not matched by genre "Action": the fallback compares case-sensitively |
| DatabaseQueries.TagFallbackTakesCachedTags | Source/Depressurizer/Database.cs:666-672 | with empty genres and a tag in the genre set, the result is the tags intersected with the genres |
| DatabaseQueries.SupportsVrAsWritten | Source/Depressurizer/Database.cs:868-880 | SupportsVR as written, where `&&` binds tighter than `||`; PlayAreaOnlyGameMissed shows the entry it misses |
| DatabaseQueries.SupportsVr | Source/Depressurizer/Database.cs:868-880 | SupportsVR as evidently intended; SupportsVrMatchesVrLookup proves it true exactly when the VR lookup is non-empty |
| DatabaseQueries.VrLookup | Source/Depressurizer/Database.cs:743-757 | an unknown id gives an empty triple; the parent is consulted only when all three columns are empty |
| DatabaseQueries.SupportsVrMatchesVrLookup | Source/Depressurizer/Database.cs:868-885 | the corrected test is true exactly when the VR lookup is non-empty |
| DatabaseQueries.SupportsVrAsWrittenIsSound | Source/Depressurizer/Database.cs:868-885 | the test as written never claims support the lookup lacks |
| DatabaseQueries.PlayAreaOnlyGameMissed | Source/Depressurizer/Database.cs:873 | a parentless entry with only a play area fails the test as written but has VR support |
| DatabaseQueries.Contains | Source/Depressurizer/Database.cs:534-537 | Contains: the id has an entry |
| DatabaseQueries.IncludeItemInGameList | Source/Depressurizer/Database.cs:759-768 | an id is listed exactly when it has an entry typed Application or Game; RenamedAppLeftOutOfGameList uses it |
| DatabaseQueries.GetName | Source/Depressurizer/Database.cs:686-694 | an unknown id has no name |
| GameDatabase.UnionStep | Source/Depressurizer/Database.cs:147-153 | folding one more entry into the union keeps it the union of the entries done |
| GameDatabase.UnionOver | Source/Depressurizer/Database.cs:136-156 | the loop yields the case-insensitive union of the column over all entries |
| GameDatabase.UnionOver3 | Source/Depressurizer/Database.cs:196-212 | the loop yields the union of each of three columns (also line 291-307) |
| GameDatabase.IntegrateNode | Source/Depressurizer/Database.cs:773-796 | a listed id is present afterwards with the listed name; other entries are untouched |
| GameDatabase.IntegrateAddsListedIds | Source/Depressurizer/Database.cs:773-796 | after integration the ids are the old ids plus the listed ones |
| GameDatabase.IntegrateCountsNewIds | Source/Depressurizer/Database.cs:789-800 | the returned count is the number of listed ids not already present |
| GameDatabase.IntegrateKeepsUnlisted | Source/Depressurizer/Database.cs:773-796 | unlisted entries are untouched |
| GameDatabase.IntegrateTakesLastName | Source/Depressurizer/Database.cs:773-796 | an id's name is that of its last listing |
| GameDatabase.IntegratedNameIsListed | Source/Depressurizer/Database.cs:686-694 | after integration the name lookup returns the listed name (also line 773-796) |
| GameDatabase.RenamedAppLeftOutOfGameList | Source/Depressurizer/Database.cs:759-786 | a renamed app has type Unknown and so is left out of the game list |
| GameDatabase.ApplyAppInfo | Source/Depressurizer/Database.cs:919-938 | one AppInfo record applied to an entry; AppInfoTouchesFiveFields, AppInfoIdempotent and ScrapedPlatformsKept state its rules |
| GameDatabase.ApplyRecord | Source/Depressurizer/Database.cs:919-938 | applying one AppInfo record yields `ApplyAppInfo` |
| GameDatabase.UpdateEntries | Source/Depressurizer/Database.cs:905-943 | the loop applies every record and returns their count |
| GameDatabase.AppInfoTouchesFiveFields | Source/Depressurizer/Database.cs:919-938 | AppInfo changes only stamp, type, name, platforms and parent; a known type or a name is never lost |
| GameDatabase.AppInfoIdempotent | Source/Depressurizer/Database.cs:919-938 | applying the same AppInfo twice equals applying it once |
| GameDatabase.ScrapedPlatformsKept | Source/Depressurizer/Database.cs:930-933 | scraped, non-empty platforms are not replaced by AppInfo |
| GameDatabase.UpdateAllKeys | Source/Depressurizer/Database.cs:908-913 | the ids afterwards are the old ids plus those of the records |
| GameDatabase.UpdateAllStamps | Source/Depressurizer/Database.cs:919 | every listed entry carries the update timestamp |
| GameDatabase.UpdateAllKeepsUnlisted | Source/Depressurizer/Database.cs:905-943 | unlisted entries are untouched |
| GameDatabase.ResetEntry | Source/Depressurizer/Database.cs:491-505 | the per-entry reset of ChangeLanguage; LanguageResetKeeps states what it clears and keeps |
| GameDatabase.LanguageResetKeeps | Source/Depressurizer/Database.cs:491-505 | the reset clears tags, flags and genres and sets the stamp to 1 for ids > 0, keeps developers, publishers, name, reviews and type, and is idempotent |
| GameDatabase.ResetLanguage | Source/Depressurizer/Database.cs:491-505 | the loop resets every entry and keeps the ids |
| GameDatabase.CountedIds | Source/Depressurizer/Database.cs:337-353 | only ids in the database are counted |
| GameDatabase.AtLeast | Source/Depressurizer/Database.cs:355 | exactly the items counted at least the minimum are kept, with their counts |
| GameDatabase.CountItems | Source/Depressurizer/Database.cs:1017-1061 | each occurrence adds 1 to the count |
| GameDatabase.CountColumn | Source/Depressurizer/Database.cs:337-353 | the loop yields the multiset of the column over the counted ids |
| GameDatabase.TagsToLoad | Source/Depressurizer/Database.cs:1079 | the number of tags loaded is at most the tag count, and all of them for 0 |
| GameDatabase.TagScore | Source/Depressurizer/Database.cs:1083-1095 | the score of the i-th loaded tag; TagScoreEndpoints and TagScoreBetween state its values |
| GameDatabase.TagScoreEndpoints | Source/Depressurizer/Database.cs:1083-1095 | with weighting the first tag scores the weight factor and the last scores 1 |
| GameDatabase.TagScoreBetween | Source/Depressurizer/Database.cs:1083-1095 | without weighting every tag scores 1; with weighting scores lie between 1 and the factor and fall strictly |
| GameDatabase.EntryScoreCountsOccurrences | Source/Depressurizer/Database.cs:1080-1106 | a tag scores at least its number of occurrences |
| GameDatabase.ScoredAddsEntryScores | Source/Depressurizer/Database.cs:1080-1106 | scoring one entry adds its tag scores to the running totals |
| GameDatabase.AddTagScores | Source/Depressurizer/Database.cs:1075-1108 | the per-entry loop yields `Scored` over the loaded tags |
| GameDatabase.ScoreTags | Source/Depressurizer/Database.cs:419-435 | the totals cover exactly the loaded tags, each with its total score |
| GameDatabase.SelectTags | Source/Depressurizer/Database.cs:437-445 | exactly the tags not excluded and scoring at least the minimum are kept |
| GameDatabase.Database.constructor | Source/Depressurizer/Database.cs:68-84 | a new database has no entries and no caches, the language and VR caches included |
| GameDatabase.Database.CalculateAll | Source/Depressurizer/Database.cs:136-156 | the cache becomes the case-insensitive union of the column; nothing else changes (also lines 163-183, 231-251 and 258-278) |
| GameDatabase.Database.GetAll | Source/Depressurizer/Database.cs:544-567 | a present cache is returned unchanged; a missing one is computed and stored (also line 589-612) |
| GameDatabase.Database.ClearAggregates | Source/Depressurizer/Database.cs:1110-1116 | only the genre, flag, developer and publisher caches are cleared |
| GameDatabase.Database.CalculateAllLanguages | Source/Depressurizer/Database.cs:190-224 | with the cache never created it fails with a null reference; otherwise it holds the union of the three columns |
| GameDatabase.Database.CalculateAllVrSupportFlags | Source/Depressurizer/Database.cs:285-319 | the same for the three VR columns |
| GameDatabase.Database.GetAllLanguages | Source/Depressurizer/Database.cs:574-582 | a missing language cache gives a null reference |
| GameDatabase.Database.GetAllVrSupportFlags | Source/Depressurizer/Database.cs:619-627 | a missing VR cache gives a null reference |
| GameDatabase.Database.CalculateAllLanguagesInitialised | Source/Depressurizer/Database.cs:190-224 | with the cache created first, it holds the union of the three language columns |
| GameDatabase.Database.CalculateAllVrSupportFlagsInitialised | Source/Depressurizer/Database.cs:285-319 | with the cache created first, it holds the union of the three VR columns |
| GameDatabase.Database.GetGenreList | Source/Depressurizer/Database.cs:661-684 | the result is `GenreList`; the genre cache is built only when the tag fallback consults it |
| GameDatabase.Database.IntegrateAppList | Source/Depressurizer/Database.cs:770-801 | the entries become `IntegrateAll` and the count is the number of new ids |
| GameDatabase.Database.UpdateFromAppInfo | Source/Depressurizer/Database.cs:898-944 | the entries become `UpdateAll` and the count is the number of records |
| GameDatabase.Database.ChangeLanguage | Source/Depressurizer/Database.cs:450-505 | the same language changes nothing; otherwise every entry is reset |
| GameDatabase.Database.CalculateSortedCounts | Source/Depressurizer/Database.cs:333-395 | the result counts the column over the counted ids and keeps counts of at least the minimum |
| GameDatabase.Database.CalculateSortedTagList | Source/Depressurizer/Database.cs:415-448 | the result holds the loaded tags, optionally minus genres, scoring at least the minimum, with their total scores |
| GameDatabase.FreshDatabaseCannotListLanguages | Source/Depressurizer/Database.cs:70 | on a fresh database both the language and VR aggregates fail with a null reference (also lines 78, 214 and 309) |
| AppSettings.Wrap32 | Source/Depressurizer.Core/Settings.cs:468 | int32 arithmetic agrees with the exact result when in range and is congruent modulo 2^32 (also line 533) |
| AppSettings.Sub32 | Source/Depressurizer.Core/Settings.cs:468 | unchecked Int32 subtraction, wrapping modulo 2^32 through Wrap32; SubtractionWraps shows the wrap |
| AppSettings.SubtractionWraps | Source/Depressurizer.Core/Settings.cs:468 | a minimal container width wraps to a large positive split |
| AppSettings.HeightRule | Source/Depressurizer.Core/Settings.cs:204-215 | the height read is always above 350, and a stored value above 350 is kept |
| AppSettings.WidthRule | Source/Depressurizer.Core/Settings.cs:682-693 | the width read is always above 600, and a stored value above 600 is kept |
| AppSettings.SplitContainerRule | Source/Depressurizer.Core/Settings.cs:504-515 | the split read is always above 100, and a stored value above 100 is kept |
| AppSettings.SplitRule | Source/Depressurizer.Core/Settings.cs:462-473 | a stored split above 100 is kept; otherwise it becomes container minus margin in int32 (also line 527-538) |
| AppSettings.DefaultingRulesSettle | Source/Depressurizer.Core/Settings.cs:202-223 | applying a defaulting rule to its own result changes nothing (also lines 460-546 and 680-701) |
| AppSettings.DefaultSplits | Source/Depressurizer.Core/Settings.cs:78 | from the defaults the browser split becomes 422 and the game split 360 (also lines 82, 468 and 533) |
| AppSettings.SplitDefaultMayStaySmall | Source/Depressurizer.Core/Settings.cs:462-473 | a defaulted split can itself be at most 100, so it is recomputed on every read |
| AppSettings.Settings.constructor | Source/Depressurizer.Core/Settings.cs:48-97 | the defaults: 3 backups, 30 prompt days, container sizes 722 and 510, store language windows, startup CreateProfile, list source XmlPreferred |
| AppSettings.Settings.Height | Source/Depressurizer.Core/Settings.cs:202-223 | returns the defaulted height and writes it back; nothing else changes |
| AppSettings.Settings.Width | Source/Depressurizer.Core/Settings.cs:680-701 | returns the defaulted width and writes it back |
| AppSettings.Settings.SplitContainer | Source/Depressurizer.Core/Settings.cs:502-523 | returns the defaulted split and writes it back |
| AppSettings.Settings.SplitBrowser | Source/Depressurizer.Core/Settings.cs:460-481 | returns the stored split or container width minus 300, and writes it back |
| AppSettings.Settings.SplitGame | Source/Depressurizer.Core/Settings.cs:525-546 | returns the stored split or container height minus 150, and writes it back |
| AppSettings.Settings.ReadHeightTwice | Source/Depressurizer.Core/Settings.cs:202-223 | two consecutive reads of Height agree |
| AppSettings.Settings.AutoSaveDatabase | Source/Depressurizer.Core/Settings.cs:138-144 | the plain getter: returns the stored value, which its setter SetAutoSaveDatabase is proved to store |
| AppSettings.Settings.CheckForUpdates | Source/Depressurizer.Core/Settings.cs:160-166 | the plain getter: returns the stored value, which its setter SetCheckForUpdates is proved to store |
| AppSettings.Settings.ConfigBackupCount | Source/Depressurizer.Core/Settings.cs:182-188 | the plain getter: returns the stored value, which its setter SetConfigBackupCount is proved to store |
| AppSettings.Settings.IncludeImputedTimes | Source/Depressurizer.Core/Settings.cs:230-236 | the plain getter: returns the stored value, which its setter SetIncludeImputedTimes is proved to store |
| AppSettings.Settings.InterfaceLanguage | Source/Depressurizer.Core/Settings.cs:252-258 | the plain getter: returns the stored value, which its setter SetInterfaceLanguage is proved to store |
| AppSettings.Settings.ListSource | Source/Depressurizer.Core/Settings.cs:272-278 | the plain getter: returns the stored value, which its setter SetListSource is proved to store |
| AppSettings.Settings.LstGamesState | Source/Depressurizer.Core/Settings.cs:294-300 | the plain getter: returns the stored value, which its setter SetLstGamesState is proved to store |
| AppSettings.Settings.ProfileToLoad | Source/Depressurizer.Core/Settings.cs:315-321 | the plain getter: returns the stored value, which its setter SetProfileToLoad is proved to store |
| AppSettings.Settings.RemoveExtraEntries | Source/Depressurizer.Core/Settings.cs:334-340 | the plain getter: returns the stored value, which its setter SetRemoveExtraEntries is proved to store |
| AppSettings.Settings.ScrapePromptDays | Source/Depressurizer.Core/Settings.cs:356-362 | the plain getter: returns the stored value, which its setter SetScrapePromptDays is proved to store |
| AppSettings.Settings.SelectedAutoCats | Source/Depressurizer.Core/Settings.cs:378-384 | the plain getter: returns the stored value, which its setter SetSelectedAutoCats is proved to store |
| AppSettings.Settings.SelectedCategory | Source/Depressurizer.Core/Settings.cs:400-406 | the plain getter: returns the stored value, which its setter SetSelectedCategory is proved to store |
| AppSettings.Settings.SelectedFilter | Source/Depressurizer.Core/Settings.cs:422-428 | the plain getter: returns the stored value, which its setter SetSelectedFilter is proved to store |
| AppSettings.Settings.SingleCatMode | Source/Depressurizer.Core/Settings.cs:444-450 | the plain getter: returns the stored value, which its setter SetSingleCatMode is proved to store |
| AppSettings.Settings.SplitBrowserContainerWidth | Source/Depressurizer.Core/Settings.cs:485-491 | the plain getter: returns the stored value, which its setter SetSplitBrowserContainerWidth is proved to store |
| AppSettings.Settings.SplitGameContainerHeight | Source/Depressurizer.Core/Settings.cs:550-556 | the plain getter: returns the stored value, which its setter SetSplitGameContainerHeight is proved to store |
| AppSettings.Settings.StartupAction | Source/Depressurizer.Core/Settings.cs:572-578 | the plain getter: returns the stored value, which its setter SetStartupAction is proved to store |
| AppSettings.Settings.SteamPath | Source/Depressurizer.Core/Settings.cs:594-600 | the plain getter: returns the stored value, which its setter SetSteamPath is proved to store |
| AppSettings.Settings.StoreLanguage | Source/Depressurizer.Core/Settings.cs:616-622 | the plain getter: returns the stored value, which its setter SetStoreLanguage is proved to store |
| AppSettings.Settings.UpdateAppInfoOnStart | Source/Depressurizer.Core/Settings.cs:638-644 | the plain getter: returns the stored value, which its setter SetUpdateAppInfoOnStart is proved to store |
| AppSettings.Settings.UpdateHltbOnStart | Source/Depressurizer.Core/Settings.cs:660-666 | the plain getter: returns the stored value, which its setter SetUpdateHltbOnStart is proved to store |
| AppSettings.Settings.X | Source/Depressurizer.Core/Settings.cs:708-714 | the plain getter: returns the stored value, which its setter SetX is proved to store |
| AppSettings.Settings.Y | Source/Depressurizer.Core/Settings.cs:729-735 | the plain getter: returns the stored value, which its setter SetY is proved to store |
| AppSettings.Settings.ReadSplitBrowserTwice | Source/Depressurizer.Core/Settings.cs:460-481 | two consecutive reads of SplitBrowser agree |
| AppSettings.Settings.SetAutoSaveDatabase | Source/Depressurizer.Core/Settings.cs:146-152 | stores the value, read back by the getter; no other field changes |
| AppSettings.Settings.SetCheckForUpdates | Source/Depressurizer.Core/Settings.cs:168-174 | stores the value, read back by the getter; no other field changes |
| AppSettings.Settings.SetConfigBackupCount | Source/Depressurizer.Core/Settings.cs:190-196 | stores the value, read back by the getter; no other field changes |
| AppSettings.Settings.SetHeight | Source/Depressurizer.Core/Settings.cs:216-222 | stores the raw height; no other field changes |
| AppSettings.Settings.SetIncludeImputedTimes | Source/Depressurizer.Core/Settings.cs:238-244 | stores the value, read back by the getter; no other field changes |
| AppSettings.Settings.SetInterfaceLanguage | Source/Depressurizer.Core/Settings.cs:260-267 | stores the value, read back by the getter; no other field changes |
| AppSettings.Settings.SetListSource | Source/Depressurizer.Core/Settings.cs:280-286 | stores the value, read back by the getter; no other field changes |
| AppSettings.Settings.SetLstGamesState | Source/Depressurizer.Core/Settings.cs:301-307 | stores the value, read back by the getter; no other field changes |
| AppSettings.Settings.SetProfileToLoad | Source/Depressurizer.Core/Settings.cs:323-329 | stores the value, read back by the getter; no other field changes |
| AppSettings.Settings.SetRemoveExtraEntries | Source/Depressurizer.Core/Settings.cs:342-348 | stores the value, read back by the getter; no other field changes |
| AppSettings.Settings.SetScrapePromptDays | Source/Depressurizer.Core/Settings.cs:364-370 | stores the value, read back by the getter; no other field changes |
| AppSettings.Settings.SetSelectedAutoCats | Source/Depressurizer.Core/Settings.cs:386-392 | stores the value, read back by the getter; no other field changes |
| AppSettings.Settings.SetSelectedCategory | Source/Depressurizer.Core/Settings.cs:408-414 | stores the value, read back by the getter; no other field changes |
| AppSettings.Settings.SetSelectedFilter | Source/Depressurizer.Core/Settings.cs:430-436 | stores the value, read back by the getter; no other field changes |
| AppSettings.Settings.SetSingleCatMode | Source/Depressurizer.Core/Settings.cs:451-457 | stores the value, read back by the getter; no other field changes |
| AppSettings.Settings.SetSplitBrowser | Source/Depressurizer.Core/Settings.cs:474-480 | stores the raw split; no other field changes |
| AppSettings.Settings.SetSplitBrowserContainerWidth | Source/Depressurizer.Core/Settings.cs:493-499 | stores the value, read back by the getter; no other field changes |
| AppSettings.Settings.SetSplitContainer | Source/Depressurizer.Core/Settings.cs:516-522 | stores the raw split; no other field changes |
| AppSettings.Settings.SetSplitGame | Source/Depressurizer.Core/Settings.cs:539-545 | stores the raw split; no other field changes |
| AppSettings.Settings.SetSplitGameContainerHeight | Source/Depressurizer.Core/Settings.cs:558-564 | stores the value, read back by the getter; no other field changes |
| AppSettings.Settings.SetStartupAction | Source/Depressurizer.Core/Settings.cs:580-586 | stores the value, read back by the getter; no other field changes |
| AppSettings.Settings.SetSteamPath | Source/Depressurizer.Core/Settings.cs:602-608 | stores the value, read back by the getter; no other field changes |
| AppSettings.Settings.SetStoreLanguage | Source/Depressurizer.Core/Settings.cs:624-630 | stores the value, read back by the getter; no other field changes |
| AppSettings.Settings.SetUpdateAppInfoOnStart | Source/Depressurizer.Core/Settings.cs:646-652 | stores the value, read back by the getter; no other field changes |
| AppSettings.Settings.SetUpdateHltbOnStart | Source/Depressurizer.Core/Settings.cs:668-674 | stores the value, read back by the getter; no other field changes |
| AppSettings.Settings.SetWidth | Source/Depressurizer.Core/Settings.cs:694-700 | stores the raw width; no other field changes |
| AppSettings.Settings.SetX | Source/Depressurizer.Core/Settings.cs:715-721 | stores the value, read back by the getter; no other field changes |
| AppSettings.Settings.SetY | Source/Depressurizer.Core/Settings.cs:736-742 | stores the value, read back by the getter; no other field changes |
| ScrapeBatch.Distinct | Source/Depressurizer/Dialogs/ScrapeDialog.cs:54-55 | the job list holds each requested id exactly once |
| ScrapeBatch.DistinctLength | Source/Depressurizer/Dialogs/ScrapeDialog.cs:54-55 | a duplicate-free list is as long as its set of ids |
| ScrapeBatch.JobCountIsDistinctIds | Source/Depressurizer/Dialogs/ScrapeDialog.cs:54-55 | the total job count is the number of distinct requested ids |
| ScrapeBatch.DistinctOfDistinct | Source/Depressurizer/Dialogs/ScrapeDialog.cs:54-55 | de-duplicating a duplicate-free list changes nothing |
| ScrapeBatch.FirstStop | Source/Depressurizer/Dialogs/ScrapeDialog.cs:131-139 | the index of the first job during which Stop was pressed |
| ScrapeBatch.ScrapedJobs | Source/Depressurizer/Dialogs/ScrapeDialog.cs:93-97 | one result per completed job, in job order, each for its job's id (also line 129-153) |
| ScrapeBatch.ScrapedJobsDistinct | Source/Depressurizer/Dialogs/ScrapeDialog.cs:54-55 | results of distinct jobs have distinct ids (also line 129-153) |
| ScrapeBatch.Upsert | Source/Depressurizer/Dialogs/ScrapeDialog.cs:81-88 | an existing id is merged, a new id is inserted, other entries are untouched |
| ScrapeBatch.Commit | Source/Depressurizer/Dialogs/ScrapeDialog.cs:79-89 | the upsert of every result in order; CommitKeys, CommitKeepsOthers and CommitUpsertsEach state its effect |
| ScrapeBatch.CommitKeys | Source/Depressurizer/Dialogs/ScrapeDialog.cs:79-89 | the ids afterwards are the old ids plus the result ids |
| ScrapeBatch.CommitKeepsOthers | Source/Depressurizer/Dialogs/ScrapeDialog.cs:85-88 | entries whose ids are not among the results are untouched |
| ScrapeBatch.CommitUpsertsEach | Source/Depressurizer/Dialogs/ScrapeDialog.cs:79-88 | each result is merged into its existing entry or inserted |
| ScrapeBatch.ScrapeDialog.constructor | Source/Depressurizer/Dialogs/ScrapeDialog.cs:52-56 | the jobs are the distinct ids and the total is their count; nothing is done or stopped yet |
| ScrapeBatch.ScrapeDialog.Stop | Source/Depressurizer/Dialogs/CancelableDialog.cs:195-209 | Stop sets Stopped only |
| ScrapeBatch.ScrapeDialog.Cancel | Source/Depressurizer/Dialogs/CancelableDialog.cs:185-193 | Cancel sets Stopped and Canceled |
| ScrapeBatch.ScrapeDialog.RunJob | Source/Depressurizer/Dialogs/ScrapeDialog.cs:129-153 | when stopped, nothing happens; a stop during the scrape discards the entry; otherwise the entry is appended and the completed count rises by 1 |
| ScrapeBatch.ScrapeDialog.Start | Source/Depressurizer/Dialogs/ScrapeDialog.cs:93-97 | the jobs run in order until a stop, appending one result per completed job |
| ScrapeBatch.ScrapeDialog.Finish | Source/Depressurizer/Dialogs/ScrapeDialog.cs:68-91 | when canceled, the database is untouched; otherwise the results are committed by upsert |
| VrAutoCat.VrFlags.constructor | Source/Depressurizer.Core/Models/VRSupport.cs:32-41 | a new VR support object has three empty lists |
| VrAutoCat.Processed | Source/Depressurizer/AutoCat/AutoCatVrSupport.cs:274-282 | a null or empty prefix leaves the string unchanged; otherwise the prefix is prepended |
| VrAutoCat.ProcessedIsInjective | Source/Depressurizer/AutoCat/AutoCatVrSupport.cs:274-282 | distinct flags give distinct category names |
| VrAutoCat.CommonFlags | Source/Depressurizer/AutoCat/AutoCatVrSupport.cs:195-198 | a flag is common exactly when the game and the included set have it in the same column |
| VrAutoCat.VrCategoriesWithoutPrefix | Source/Depressurizer/AutoCat/AutoCatVrSupport.cs:195-216 | without a prefix the categories added are exactly the common flags |
| VrAutoCat.VrCategoriesArePrefixedFlags | Source/Depressurizer/AutoCat/AutoCatVrSupport.cs:195-216 | with a prefix each category added is the prefix followed by a common flag |
| VrAutoCat.NothingIncludedNothingAdded | Source/Depressurizer/AutoCat/AutoCatVrSupport.cs:195-216 | with no included flags no category is added |
| VrAutoCat.Outcome | Source/Depressurizer/AutoCat/AutoCatVrSupport.cs:165-219 | the result cases in source order: throws, Failure, NotInDatabase, Filtered, then Success or a null reference |
| VrAutoCat.AddCategories | Source/Depressurizer/AutoCat/AutoCatVrSupport.cs:200-216 | the loop adds the processed name of each flag to the game's categories |
| VrAutoCat.AutoCatVrSupport.Bare | Source/Depressurizer/AutoCat/AutoCatVrSupport.cs:60-83 | the constructor with all-null lists sets name, filter, prefix and selection and leaves the flags null |
| VrAutoCat.AutoCatVrSupport.Copy | Source/Depressurizer/AutoCat/AutoCatVrSupport.cs:86-92 | the copy constructor shares the original's flags object |
| VrAutoCat.AutoCatVrSupport.CategorizeGame | Source/Depressurizer/AutoCat/AutoCatVrSupport.cs:165-219 | returns `Outcome`; on Success adds the prefixed common flags of the fallback VR lookup, and otherwise leaves the categories unchanged |
| VrAutoCat.NewAutoCatVrSupport | Source/Depressurizer/AutoCat/AutoCatVrSupport.cs:60-84 | the constructor fails with a null reference exactly when some list is given |
| VrAutoCat.LoadedAutoCatThrows | Source/Depressurizer/AutoCat/AutoCatVrSupport.cs:65-81 | loading from XML always passes three lists, so it always fails (also line 162) |
| VrAutoCat.NewAutoCatVrSupportInitialised | Source/Depressurizer/AutoCat/AutoCatVrSupport.cs:60-84 | with the flags object created first, the given lists are copied in and absent ones stay empty |
| VrAutoCat.CloneSharesFlags | Source/Depressurizer/AutoCat/AutoCatVrSupport.cs:86-92 | a change to a clone's flags shows in the original (also line 221-224) |
| Filters.OrdinalDiff | Source/Depressurizer.Core/Models/Filter.cs:123 | string.CompareOrdinal on two names; OrdinalDiffZero, OrdinalDiffAntisymmetric and OrdinalDiffTransitive state its order |
| Filters.CompareOrdinal | Source/Depressurizer.Core/Models/Filter.cs:123 | CompareOrdinal with null names, null first; CompareTo and its lemmas rest on it |
| Filters.OrdinalDiffZero | Source/Depressurizer.Core/Models/Filter.cs:123 | the ordinal comparison is zero exactly for equal names |
| Filters.OrdinalDiffAntisymmetric | Source/Depressurizer.Core/Models/Filter.cs:123 | swapping the names negates the ordinal comparison |
| Filters.OrdinalDiffTransitive | Source/Depressurizer.Core/Models/Filter.cs:123 | the ordinal order is transitive |
| Filters.CompareTo | Source/Depressurizer.Core/Models/Filter.cs:111-124 | null gives 1, a non-filter raises ArgumentException, and a filter gives 0 exactly for equal names |
| Filters.CompareToSelf | Source/Depressurizer.Core/Models/Filter.cs:123 | a filter compares equal to itself |
| Filters.CompareToAntisymmetric | Source/Depressurizer.Core/Models/Filter.cs:123 | comparing the other way negates the result |
| Filters.CompareToTransitive | Source/Depressurizer.Core/Models/Filter.cs:123 | the filter order is transitive |
| Filters.TagNamesDistinct | Source/Depressurizer.Core/Models/Filter.cs:38-45 | the seven XML element names are distinct |
| Filters.Elements | Source/Depressurizer.Core/Models/Filter.cs:141-154 | one element per category, in order |
| Filters.FilterXml | Source/Depressurizer.Core/Models/Filter.cs:132-157 | a single Filter element enclosing four header elements and one element per category |
| Filters.HeadValues | Source/Depressurizer.Core/Models/Filter.cs:134-139 | the header carries the name, Uncategorized, Hidden and VR |
| Filters.XmlParts | Source/Depressurizer.Core/Models/Filter.cs:132-157 | the output is the header, then the Allow, Require and Exclude elements |
| Filters.ReadBackScalar | Source/Depressurizer.Core/Models/Filter.cs:135-138 | reading the Name, Uncategorized, Hidden or VR elements back gives the single value written for it |
| Filters.ReadBackAllow | Source/Depressurizer.Core/Models/Filter.cs:140-143 | reading the Allow elements back gives the allowed categories in order |
| Filters.ReadBackRequire | Source/Depressurizer.Core/Models/Filter.cs:145-148 | reading the Require elements back gives the required categories in order |
| Filters.ReadBackExclude | Source/Depressurizer.Core/Models/Filter.cs:150-153 | reading the Exclude elements back gives the excluded categories in order |
| Filters.WrittenXmlRecoversFilter | Source/Depressurizer.Core/Models/Filter.cs:132-157 | reading the written XML back recovers the name, the three numbers and the three category lists in order |
| Filters.Filter.constructor | Source/Depressurizer.Core/Models/Filter.cs:65-104 | the name is set, the three sets are fresh and empty, and Hidden, Uncategorized and VR are -1 |
| Filters.Filter.ToString | Source/Depressurizer.Core/Models/Filter.cs:127-130 | returns the name |
| Filters.Filter.SetAllow | Source/Depressurizer.Core/Models/Filter.cs:77-81 | a non-null argument is stored as a fresh copy of its categories; a null argument throws and stores nothing; no other field changes |
| Filters.Filter.SetRequire | Source/Depressurizer.Core/Models/Filter.cs:96-100 | a non-null argument is stored as a fresh copy of its categories; a null argument throws and stores nothing; no other field changes |
| Filters.Filter.SetExclude | Source/Depressurizer.Core/Models/Filter.cs:83-87 | a non-null argument is stored as a fresh copy of its categories; a null argument throws and stores nothing; no other field changes |
| Filters.Filter.WriteToXml | Source/Depressurizer.Core/Models/Filter.cs:132-157 | the writer calls produce `FilterXml` of the filter's fields |
| Filters.SetterCopies | Source/Depressurizer.Core/Models/Filter.cs:80 | a later change to the argument set is not seen by the filter |
| CuratorRecommendations.ClassName | Source/Depressurizer/Dialogs/GetCuratorRecommendationsDialog.cs:134-147 | the class name of each recommendation; ClassifyRecoversClassName proves Classify inverts it |
| CuratorRecommendations.Classify | Source/Depressurizer/Dialogs/GetCuratorRecommendationsDialog.cs:134-147 | the three class names map to their recommendations, each exactly; anything else is Error |
| CuratorRecommendations.ClassifyRecoversClassName | Source/Depressurizer/Dialogs/GetCuratorRecommendationsDialog.cs:134-147 | classifying a recommendation's own class name gives it back |
| CuratorRecommendations.ParseAppId | Source/Depressurizer/Dialogs/GetCuratorRecommendationsDialog.cs:150 | a capture parses exactly when it is a non-empty digit string within int32 |
| CuratorRecommendations.AcceptedIds | Source/Depressurizer/Dialogs/GetCuratorRecommendationsDialog.cs:150-154 | exactly the ids of matches with a numeric id and a non-Error class |
| CuratorRecommendations.NoMatchesNoRecommendations | Source/Depressurizer/Dialogs/GetCuratorRecommendationsDialog.cs:126-129 | no matches give an empty dictionary |
| CuratorRecommendations.PageKeys | Source/Depressurizer/Dialogs/GetCuratorRecommendationsDialog.cs:150-154 | a successful page holds exactly the accepted ids |
| CuratorRecommendations.PageFailsOnDuplicate | Source/Depressurizer/Dialogs/GetCuratorRecommendationsDialog.cs:152 | a page fails with a duplicate key exactly when an accepted id repeats |
| CuratorRecommendations.PageRecordsMatch | Source/Depressurizer/Dialogs/GetCuratorRecommendationsDialog.cs:150-154 | each accepted match is recorded with its classification |
| CuratorRecommendations.RecommendationsFromPage | Source/Depressurizer/Dialogs/GetCuratorRecommendationsDialog.cs:121-163 | the match loop yields `PageRecommendations` |
| CuratorRecommendations.PageStaysFailed | Source/Depressurizer/Dialogs/GetCuratorRecommendationsDialog.cs:152 | once a prefix of the matches fails, the whole page fails the same way |
| CuratorRecommendations.PageRecommendations | Source/Depressurizer/Dialogs/GetCuratorRecommendationsDialog.cs:121-163 | GetCuratorRecommendationsFromPage: each accepted match added in turn; PageKeys, PageFailsOnDuplicate and PageRecordsMatch state its result |
| CuratorRecommendations.Offsets | Source/Depressurizer/Dialogs/GetCuratorRecommendationsDialog.cs:90 | the offsets of the paging loop, from the first one in steps of 50 while below the total; OffsetsShape states their shape |
| CuratorRecommendations.OffsetsShape | Source/Depressurizer/Dialogs/GetCuratorRecommendationsDialog.cs:90 | the offsets step by 50, each below the total, as many as fit |
| CuratorRecommendations.Url | Source/Depressurizer/Dialogs/GetCuratorRecommendationsDialog.cs:165-168 | the request URL for a curator and an offset; UrlDistinguishesOffsets proves it injective in the offset |
| CuratorRecommendations.UrlDistinguishesOffsets | Source/Depressurizer/Dialogs/GetCuratorRecommendationsDialog.cs:165-168 | different offsets give different request URLs |
| CuratorRecommendations.UnionPage | Source/Depressurizer/Dialogs/GetCuratorRecommendationsDialog.cs:89-101 | the union with a page succeeds exactly when they agree on shared ids, and then holds both |
| CuratorRecommendations.Gather | Source/Depressurizer/Dialogs/GetCuratorRecommendationsDialog.cs:88-102 | the pages requested and unioned in turn until one throws; the Gather lemmas state what it requests and keeps |
| CuratorRecommendations.GatherRequestsEveryOffset | Source/Depressurizer/Dialogs/GetCuratorRecommendationsDialog.cs:88-102 | without an error one URL is requested per offset, in order |
| CuratorRecommendations.GatherKeepsCollected | Source/Depressurizer/Dialogs/GetCuratorRecommendationsDialog.cs:88-102 | recommendations already collected stay |
| CuratorRecommendations.GatherRequestsPrefix | Source/Depressurizer/Dialogs/GetCuratorRecommendationsDialog.cs:88-102 | the URLs requested are those of a prefix of the offsets, in order |
| CuratorRecommendations.GatherStopsAtError | Source/Depressurizer/Dialogs/GetCuratorRecommendationsDialog.cs:88-102 | an exception ends the paging at the page whose step raised it: the last URL requested is that of an offset, within the offsets, whose step fails with that exception, so no later page is requested |
| CuratorRecommendations.FetchPage | Source/Depressurizer/Dialogs/GetCuratorRecommendationsDialog.cs:93-101 | one page request yields `Step` |
| CuratorRecommendations.Collect | Source/Depressurizer/Dialogs/GetCuratorRecommendationsDialog.cs:72-102 | the first page and the paging loop yield `Gather` over offset 0 and the later offsets |
| CuratorRecommendations.PagingLoop | Source/Depressurizer/Dialogs/GetCuratorRecommendationsDialog.cs:90-102 | the loop yields `Gather` over the remaining offsets |
| CuratorRecommendations.CuratorDialog.constructor | Source/Depressurizer/Dialogs/GetCuratorRecommendationsDialog.cs:51-56 | a new dialog has the curator id and nothing collected |
| CuratorRecommendations.CuratorDialog.Start | Source/Depressurizer/Dialogs/GetCuratorRecommendationsDialog.cs:70-119 | an unparsed total requests only the first URL and collects nothing; otherwise it pages through every offset; the dialog closes unless an error escapes |
| CuratorRecommendations.CuratorDialog.Finish | Source/Depressurizer/Dialogs/GetCuratorRecommendationsDialog.cs:62-68 | a completion is recorded only when not canceled, with results and no error |

## Left out

- HTTP is not modelled: `GetSteamRequest`, cookies, streams, `WebClient`, `FetchAppListFromWeb`,
  `UpdateAppListFromWeb` and the download in `UpdateFromHltb`. Responses are a given chain and
  page bodies are given scans.
- The regular-expression engine is not modelled. Each pattern is a boolean or a sequence of
  captures in `PageScan`.
- `string.Trim()`, `HtmlDecode`, `int.TryParse` and `int.TryParse` with `NumberStyles.AllowThousands`
  are the four function values of `TextOps`, with no properties assumed.
- Persistence is not modelled: XML and JSON reading and writing (`Save`, `Load`,
  `LoadGamelistVersion1`, `AutoCatVrSupport.WriteToXml`, `Settings.Load` and `Save`).
  `LoadFromXmlElement` is modelled only as passing its three lists to the constructor.
  `Filter.WriteToXml` is modelled as a token sequence.
- Concurrency and UI are not modelled: `Parallel.ForEach`, `lock`, `Invoke`, `SetText`,
  `UpdateText` and logging. The jobs run in sequence, and a Stop pressed during a scrape is an
  input. The singletons of `Instance` and `Program` are not modelled.
- Tag scores use reals instead of single-precision floats (`float`), and the `orderby` of the sorted result lists is not
  modelled: the results are maps.
- Dictionary and SortedSet enumeration order is not modelled; a loop may take entries in any
  order. The case-insensitive folding is ASCII upper-casing.
- `ChangeLanguage`: culture resolution and the store-language lookup are inputs (the resolved
  language). The `Save` and re-scrape that follow are not modelled.
- `GetReleaseYear` (date parsing) and `UpdateFromHltb` (JSON) are not modelled.
- `GameList`, `Category` and `GameInfo.IncludeGame` are represented by category names and a
  `passesFilter` input.
- Filters.CompareTo: states only the sign of `string.CompareOrdinal`, not its magnitude.
- CuratorRecommendations.CuratorDialog.Start: does not model int32 wrap-around of the paging
  offset for totals above 2147483597.
- CuratorRecommendations.CuratorDialog.Start: an exception escaping `Start` ends the background job, so
  `Error` stays null; the model records the exception separately.
- Filters.Filter.WriteToXml: a null name is written as an empty Name element.
- AppSettings.Settings.SetInterfaceLanguage: the switch of the UI culture is not modelled.
- CoreEntry.SkippedLanguage: the source's `StartsWith("#lang")` and `StartsWith("(")` compare with the
  current culture, which ignores characters such as the soft hyphen U+00AD; the model tests an
  ordinal prefix, so a row such as "\u00AD(x)" is skipped by the source and kept by the model. The
  legacy language reader uses the same predicate and has the same gap.
- Filters.OrdinalDiff: compares Unicode scalar values, while `string.CompareOrdinal` compares UTF-16
  code units; the two orders differ when a character above U+FFFF meets one in U+E000-U+FFFF (for
  "\uFF21" against "\U0001F600" the source gives a positive sign, the model a negative one). The
  lemmas about `Filters.CompareTo` hold for the model's order only.
- Text.IntToString: stands for `int.ToString()` with the invariant culture. `Filter.WriteToXml`
  (Filter.cs:136-138) and the legacy segment test (GameDBEntry.cs:641, 671) format with the current
  culture, whose negative sign may differ from "-".
- `LastStoreScrape` is a `long` in the source and an unbounded integer here; no arithmetic is
  done on it.
- LegacyEntry.GameDBEntry.MergeIn: requires `other != this` and five distinct list objects per
  entry.
- CoreEntry.DatabaseEntry.ScrapeStore: the unreachable age-check branch is not modelled.
  `CoreEntry.AgeCheckBranchIsDead` shows that it cannot be reached.

## Findings

| source | as written | input that shows it | evidently intended | confidence | as-written member | corrected member |
|---|---|---|---|---|---|---|
| Source/Depressurizer/Database.cs:873 | `\|\| Games[id].VRSupport.PlayArea.Count > 0 && depth > 0 && ParentId > 0`: `&&` binds tighter, so a play area alone counts only with a parent | an entry with no parent whose only VR data is a play area | an entry with any VR column counts; the parent is consulted only when all are empty | not executed | DatabaseQueries.SupportsVrAsWritten (shown by DatabaseQueries.PlayAreaOnlyGameMissed) | DatabaseQueries.SupportsVr (DatabaseQueries.SupportsVrMatchesVrLookup) |
| Source/Depressurizer/Database.cs:70 | `_allLanguages` (line 70) and `_allVrSupportFlags` (line 78) are never created, yet their lists are cleared and filled (lines 214 and 309) | any fresh `Database` asked for its languages or VR flags | create both aggregates before filling them | not executed | GameDatabase.Database.CalculateAllLanguages (shown by GameDatabase.FreshDatabaseCannotListLanguages) | GameDatabase.Database.CalculateAllLanguagesInitialised and GameDatabase.Database.CalculateAllVrSupportFlagsInitialised |
| Source/Depressurizer/AutoCat/AutoCatVrSupport.cs:54 | `IncludedVrSupportFlags` (line 54) is never created, yet the constructor at lines 65-81 copies every non-null list argument into it | any autocat loaded from XML, which passes three non-null lists | create the flags object before copying the lists | not executed | VrAutoCat.NewAutoCatVrSupport (shown by VrAutoCat.LoadedAutoCatThrows) | VrAutoCat.NewAutoCatVrSupportInitialised |
