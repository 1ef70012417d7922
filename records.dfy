/**
 * The per-app metadata record as a value: the fields of DatabaseEntry (and of
 * the legacy GameDBEntry, which has the same fields), with VRSupport and
 * LanguageSupport as triples of string lists.
 */
module Records {
  import opened Wrappers
  import AppPlatforms

  /**
   * The classification of an app.  `Other` stands for every further member of
   * the enumerations (the legacy scraper returns it for pages outside the app
   * route; AppInfo may report other kinds).
   */
  datatype AppType = Unknown | Application | Game | DLC | Other

  /** VRSupport: headsets, input devices and play areas. */
  datatype VrSupport = VrSupport(headsets: seq<string>, input: seq<string>, playArea: seq<string>)

  /** LanguageSupport: languages with full audio, interface and subtitles. */
  datatype LanguageSupport = LanguageSupport(fullAudio: seq<string>, interface: seq<string>, subtitles: seq<string>)

  const EmptyVr := VrSupport([], [], [])
  const EmptyLanguages := LanguageSupport([], [], [])

  /** One store app; a `None` string is a C# null. */
  datatype Entry = Entry(
    id: int,
    appType: AppType,
    banner: Option<string>,
    name: Option<string>,
    parentId: int,
    platforms: AppPlatforms.Platforms,
    developers: seq<string>,
    publishers: seq<string>,
    genres: seq<string>,
    flags: seq<string>,
    tags: seq<string>,
    steamReleaseDate: Option<string>,
    metacriticUrl: Option<string>,
    reviewPositivePercentage: int,
    reviewTotal: int,
    totalAchievements: int,
    hltbMain: int,
    hltbExtras: int,
    hltbCompletionist: int,
    lastAppInfoUpdate: int,
    lastStoreScrape: int,
    vrSupport: VrSupport,
    languageSupport: LanguageSupport)

  /** A new entry for an app id, with the field initialisers' values. */
  function NewEntry(id: int): (e: Entry)
    ensures e.id == id && e.appType == Unknown && e.parentId == -1
    ensures e.platforms == AppPlatforms.None && e.name == None
    ensures e.lastAppInfoUpdate == 0 && e.lastStoreScrape == 0
    ensures e.genres == [] && e.flags == [] && e.tags == [] && e.developers == [] && e.publishers == []
  {
    Entry(id, Unknown, None, None, -1, AppPlatforms.None, [], [], [], [], [],
          None, None, 0, 0, 0, 0, 0, 0, 0, 0, EmptyVr, EmptyLanguages)
  }
}
