/**
 * Depressurizer.Core.Settings: the settings controller.  Every property is a
 * field with a getter and a setter; the window-geometry getters (Height,
 * Width and the three Split* getters) replace an implausibly small stored
 * value by a default, write it back and return it.  The int fields are
 * 32-bit, so `SplitBrowserContainerWidth - 300` and
 * `SplitGameContainerHeight - 150` wrap around on overflow.
 */
module AppSettings {
  import opened Wrappers

  // ---------------------------------------------------------------------
  // 32-bit integers

  const MinInt32 := -0x8000_0000
  const MaxInt32 := 0x7FFF_FFFF

  type Int32 = x: int | MinInt32 <= x <= MaxInt32

  /** The two's-complement wrap-around of unchecked C# int arithmetic. */
  function Wrap32(x: int): (r: Int32)
    ensures MinInt32 <= x <= MaxInt32 ==> r == x
    ensures (r - x) % 0x1_0000_0000 == 0
  {
    var m := x % 0x1_0000_0000;
    if m > MaxInt32 then m - 0x1_0000_0000 else m
  }

  /** An Int32 subtraction, as C# computes it. */
  function Sub32(a: Int32, b: Int32): Int32
  {
    Wrap32(a - b)
  }

  /** The smallest container width wraps around to a large positive split position. */
  lemma SubtractionWraps()
    ensures Sub32(MinInt32, 300) == MaxInt32 - 299
  {
  }

  // ---------------------------------------------------------------------
  // Enumerations used by the settings

  /**
   * StoreLanguage: `windows` (follow the operating system) or a store
   * language code such as "en", "de" or "zh_Hans".
   */
  datatype StoreLanguage = Windows | Named(code: string)

  const English := Named("en")

  /** InterfaceLanguage: the named members, and any other value of the enumeration. */
  datatype InterfaceLanguage = EnglishInterface | Dutch | Russian | Spanish | Ukranian | OtherInterface(value: int)

  /** StartupAction: CreateProfile, and any other value of the enumeration. */
  datatype StartupAction = CreateProfile | OtherStartupAction(value: int)

  /** GameListSource: XmlPreferred, and any other value of the enumeration. */
  datatype GameListSource = XmlPreferred | OtherListSource(value: int)

  // ---------------------------------------------------------------------
  // The fields

  /** The private fields of Settings; a `None` string is a C# null. */
  datatype Fields = Fields(
    autoSaveDatabase: bool,
    checkForUpdates: bool,
    configBackupCount: Int32,
    height: Int32,
    includeImputedTimes: bool,
    interfaceLanguage: InterfaceLanguage,
    listSource: GameListSource,
    lstGamesState: Option<string>,
    profileToLoad: Option<string>,
    removeExtraEntries: bool,
    scrapePromptDays: Int32,
    selectedAutoCats: Option<string>,
    selectedCategory: Option<string>,
    selectedFilter: Option<string>,
    singleCatMode: bool,
    splitBrowser: Int32,
    splitBrowserContainerWidth: Int32,
    splitContainer: Int32,
    splitGame: Int32,
    splitGameContainerHeight: Int32,
    startupAction: StartupAction,
    steamPath: Option<string>,
    storeLanguage: StoreLanguage,
    updateAppInfoOnStart: bool,
    updateHltbOnStart: bool,
    width: Int32,
    x: Int32,
    y: Int32)

  /** The field initialisers; fields without one start at 0, false or null. */
  const Defaults := Fields(
    true, true, 3, 0, true, EnglishInterface, XmlPreferred, Some(""), None, true, 30,
    None, None, None, false, 0, 722, 0, 0, 510, CreateProfile, None, Windows, true, true, 0, 0, 0)

  // ---------------------------------------------------------------------
  // The defaulting rules, on the stored value

  /** Height: a stored height of at most 350 becomes 600. */
  function HeightRule(stored: Int32): (r: Int32)
    ensures r > 350
    ensures stored > 350 ==> r == stored
  {
    if stored <= 350 then 600 else stored
  }

  /** Width: a stored width of at most 600 becomes 1000. */
  function WidthRule(stored: Int32): (r: Int32)
    ensures r > 600
    ensures stored > 600 ==> r == stored
  {
    if stored <= 600 then 1000 else stored
  }

  /** SplitContainer: a stored position of at most 100 becomes 250. */
  function SplitContainerRule(stored: Int32): (r: Int32)
    ensures r > 100
    ensures stored > 100 ==> r == stored
  {
    if stored <= 100 then 250 else stored
  }

  /** SplitBrowser and SplitGame: a stored position of at most 100 becomes the container size less a margin. */
  function SplitRule(stored: Int32, container: Int32, margin: Int32): (r: Int32)
    ensures stored > 100 ==> r == stored
    ensures stored <= 100 ==> r == Sub32(container, margin)
  {
    if stored <= 100 then Sub32(container, margin) else stored
  }

  /** After one read has written its default back, a second read finds nothing to replace. */
  lemma DefaultingRulesSettle(stored: Int32, container: Int32, margin: Int32)
    ensures HeightRule(HeightRule(stored)) == HeightRule(stored)
    ensures WidthRule(WidthRule(stored)) == WidthRule(stored)
    ensures SplitContainerRule(SplitContainerRule(stored)) == SplitContainerRule(stored)
    ensures SplitRule(SplitRule(stored, container, margin), container, margin) == SplitRule(stored, container, margin)
  {
  }

  /** With the default container sizes the split getters yield 422 and 360. */
  lemma DefaultSplits()
    ensures SplitRule(Defaults.splitBrowser, Defaults.splitBrowserContainerWidth, 300) == 422
    ensures SplitRule(Defaults.splitGame, Defaults.splitGameContainerHeight, 150) == 360
  {
  }

  /** A container narrower than its margin leaves a small or negative split position, which is returned as it is. */
  lemma SplitDefaultMayStaySmall()
    ensures SplitRule(0, 350, 300) == 50
  {
  }

  // ---------------------------------------------------------------------
  // The controller

  class Settings {
    var fields: Fields

    /** A new controller holds the field initialisers. */
    constructor ()
      ensures fields == Defaults
      ensures fields.configBackupCount == 3 && fields.scrapePromptDays == 30
      ensures fields.splitBrowserContainerWidth == 722 && fields.splitGameContainerHeight == 510
      ensures fields.storeLanguage == Windows && fields.startupAction == CreateProfile
      ensures fields.listSource == XmlPreferred
    {
      fields := Defaults;
    }

    // The defaulting getters.

    method Height() returns (h: Int32)
      modifies this
      ensures h == HeightRule(old(fields.height))
      ensures fields == old(fields).(height := h)
    {
      if fields.height <= 350 {
        fields := fields.(height := 600);
      }
      h := fields.height;
    }

    method Width() returns (w: Int32)
      modifies this
      ensures w == WidthRule(old(fields.width))
      ensures fields == old(fields).(width := w)
    {
      if fields.width <= 600 {
        fields := fields.(width := 1000);
      }
      w := fields.width;
    }

    method SplitContainer() returns (p: Int32)
      modifies this
      ensures p == SplitContainerRule(old(fields.splitContainer))
      ensures fields == old(fields).(splitContainer := p)
    {
      if fields.splitContainer <= 100 {
        SetSplitContainer(250);
      }
      p := fields.splitContainer;
    }

    method SplitBrowser() returns (p: Int32)
      modifies this
      ensures p == SplitRule(old(fields.splitBrowser), old(fields.splitBrowserContainerWidth), 300)
      ensures fields == old(fields).(splitBrowser := p)
    {
      if fields.splitBrowser <= 100 {
        SetSplitBrowser(Sub32(SplitBrowserContainerWidth(), 300));
      }
      p := fields.splitBrowser;
    }

    method SplitGame() returns (p: Int32)
      modifies this
      ensures p == SplitRule(old(fields.splitGame), old(fields.splitGameContainerHeight), 150)
      ensures fields == old(fields).(splitGame := p)
    {
      if fields.splitGame <= 100 {
        SetSplitGame(Sub32(SplitGameContainerHeight(), 150));
      }
      p := fields.splitGame;
    }

    /** Two reads of a defaulting getter with no set between them return the same value. */
    method ReadHeightTwice() returns (first: Int32, second: Int32)
      modifies this
      ensures first == second == HeightRule(old(fields.height))
      ensures fields == old(fields).(height := first)
    {
      first := Height();
      second := Height();
    }

    method ReadSplitBrowserTwice() returns (first: Int32, second: Int32)
      modifies this
      ensures first == second
      ensures fields == old(fields).(splitBrowser := first)
    {
      first := SplitBrowser();
      second := SplitBrowser();
    }

    // The plain getters.

    function AutoSaveDatabase(): bool reads this { fields.autoSaveDatabase }
    function CheckForUpdates(): bool reads this { fields.checkForUpdates }
    function ConfigBackupCount(): Int32 reads this { fields.configBackupCount }
    function IncludeImputedTimes(): bool reads this { fields.includeImputedTimes }
    function InterfaceLanguage(): InterfaceLanguage reads this { fields.interfaceLanguage }
    function ListSource(): GameListSource reads this { fields.listSource }
    function LstGamesState(): Option<string> reads this { fields.lstGamesState }
    function ProfileToLoad(): Option<string> reads this { fields.profileToLoad }
    function RemoveExtraEntries(): bool reads this { fields.removeExtraEntries }
    function ScrapePromptDays(): Int32 reads this { fields.scrapePromptDays }
    function SelectedAutoCats(): Option<string> reads this { fields.selectedAutoCats }
    function SelectedCategory(): Option<string> reads this { fields.selectedCategory }
    function SelectedFilter(): Option<string> reads this { fields.selectedFilter }
    function SingleCatMode(): bool reads this { fields.singleCatMode }
    function SplitBrowserContainerWidth(): Int32 reads this { fields.splitBrowserContainerWidth }
    function SplitGameContainerHeight(): Int32 reads this { fields.splitGameContainerHeight }
    function StartupAction(): StartupAction reads this { fields.startupAction }
    function SteamPath(): Option<string> reads this { fields.steamPath }
    function StoreLanguage(): StoreLanguage reads this { fields.storeLanguage }
    function UpdateAppInfoOnStart(): bool reads this { fields.updateAppInfoOnStart }
    function UpdateHltbOnStart(): bool reads this { fields.updateHltbOnStart }
    function X(): Int32 reads this { fields.x }
    function Y(): Int32 reads this { fields.y }

    // The setters: each stores its value and changes no other field.

    method SetAutoSaveDatabase(v: bool)
      modifies this
      ensures fields == old(fields).(autoSaveDatabase := v) && AutoSaveDatabase() == v
    {
      fields := fields.(autoSaveDatabase := v);
    }

    method SetCheckForUpdates(v: bool)
      modifies this
      ensures fields == old(fields).(checkForUpdates := v) && CheckForUpdates() == v
    {
      fields := fields.(checkForUpdates := v);
    }

    method SetConfigBackupCount(v: Int32)
      modifies this
      ensures fields == old(fields).(configBackupCount := v) && ConfigBackupCount() == v
    {
      fields := fields.(configBackupCount := v);
    }

    method SetHeight(v: Int32)
      modifies this
      ensures fields == old(fields).(height := v)
    {
      fields := fields.(height := v);
    }

    method SetIncludeImputedTimes(v: bool)
      modifies this
      ensures fields == old(fields).(includeImputedTimes := v) && IncludeImputedTimes() == v
    {
      fields := fields.(includeImputedTimes := v);
    }

    /** Also switches the UI culture of the current thread, which is not modelled. */
    method SetInterfaceLanguage(v: InterfaceLanguage)
      modifies this
      ensures fields == old(fields).(interfaceLanguage := v) && InterfaceLanguage() == v
    {
      fields := fields.(interfaceLanguage := v);
    }

    method SetListSource(v: GameListSource)
      modifies this
      ensures fields == old(fields).(listSource := v) && ListSource() == v
    {
      fields := fields.(listSource := v);
    }

    method SetLstGamesState(v: Option<string>)
      modifies this
      ensures fields == old(fields).(lstGamesState := v) && LstGamesState() == v
    {
      fields := fields.(lstGamesState := v);
    }

    method SetProfileToLoad(v: Option<string>)
      modifies this
      ensures fields == old(fields).(profileToLoad := v) && ProfileToLoad() == v
    {
      fields := fields.(profileToLoad := v);
    }

    method SetRemoveExtraEntries(v: bool)
      modifies this
      ensures fields == old(fields).(removeExtraEntries := v) && RemoveExtraEntries() == v
    {
      fields := fields.(removeExtraEntries := v);
    }

    method SetScrapePromptDays(v: Int32)
      modifies this
      ensures fields == old(fields).(scrapePromptDays := v) && ScrapePromptDays() == v
    {
      fields := fields.(scrapePromptDays := v);
    }

    method SetSelectedAutoCats(v: Option<string>)
      modifies this
      ensures fields == old(fields).(selectedAutoCats := v) && SelectedAutoCats() == v
    {
      fields := fields.(selectedAutoCats := v);
    }

    method SetSelectedCategory(v: Option<string>)
      modifies this
      ensures fields == old(fields).(selectedCategory := v) && SelectedCategory() == v
    {
      fields := fields.(selectedCategory := v);
    }

    method SetSelectedFilter(v: Option<string>)
      modifies this
      ensures fields == old(fields).(selectedFilter := v) && SelectedFilter() == v
    {
      fields := fields.(selectedFilter := v);
    }

    method SetSingleCatMode(v: bool)
      modifies this
      ensures fields == old(fields).(singleCatMode := v) && SingleCatMode() == v
    {
      fields := fields.(singleCatMode := v);
    }

    method SetSplitBrowser(v: Int32)
      modifies this
      ensures fields == old(fields).(splitBrowser := v)
    {
      fields := fields.(splitBrowser := v);
    }

    method SetSplitBrowserContainerWidth(v: Int32)
      modifies this
      ensures fields == old(fields).(splitBrowserContainerWidth := v) && SplitBrowserContainerWidth() == v
    {
      fields := fields.(splitBrowserContainerWidth := v);
    }

    method SetSplitContainer(v: Int32)
      modifies this
      ensures fields == old(fields).(splitContainer := v)
    {
      fields := fields.(splitContainer := v);
    }

    method SetSplitGame(v: Int32)
      modifies this
      ensures fields == old(fields).(splitGame := v)
    {
      fields := fields.(splitGame := v);
    }

    method SetSplitGameContainerHeight(v: Int32)
      modifies this
      ensures fields == old(fields).(splitGameContainerHeight := v) && SplitGameContainerHeight() == v
    {
      fields := fields.(splitGameContainerHeight := v);
    }

    method SetStartupAction(v: StartupAction)
      modifies this
      ensures fields == old(fields).(startupAction := v) && StartupAction() == v
    {
      fields := fields.(startupAction := v);
    }

    method SetSteamPath(v: Option<string>)
      modifies this
      ensures fields == old(fields).(steamPath := v) && SteamPath() == v
    {
      fields := fields.(steamPath := v);
    }

    method SetStoreLanguage(v: StoreLanguage)
      modifies this
      ensures fields == old(fields).(storeLanguage := v) && StoreLanguage() == v
    {
      fields := fields.(storeLanguage := v);
    }

    method SetUpdateAppInfoOnStart(v: bool)
      modifies this
      ensures fields == old(fields).(updateAppInfoOnStart := v) && UpdateAppInfoOnStart() == v
    {
      fields := fields.(updateAppInfoOnStart := v);
    }

    method SetUpdateHltbOnStart(v: bool)
      modifies this
      ensures fields == old(fields).(updateHltbOnStart := v) && UpdateHltbOnStart() == v
    {
      fields := fields.(updateHltbOnStart := v);
    }

    method SetWidth(v: Int32)
      modifies this
      ensures fields == old(fields).(width := v)
    {
      fields := fields.(width := v);
    }

    method SetX(v: Int32)
      modifies this
      ensures fields == old(fields).(x := v) && X() == v
    {
      fields := fields.(x := v);
    }

    method SetY(v: Int32)
      modifies this
      ensures fields == old(fields).(y := v) && Y() == v
    {
      fields := fields.(y := v);
    }
  }
}
