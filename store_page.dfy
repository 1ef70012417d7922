/**
 * What the store scrapers see of the web: a chain of HTTP responses and, for
 * a page body, the captures of the regular expressions.  The capture
 * patterns are not interpreted; the marker patterns without any quantifier
 * are plain substrings and are written out.
 */
module StorePage {
  import opened Wrappers
  import opened Text

  /** HttpStatusCode.Found. */
  const Found := 302

  /**
   * One HTTP response: status code, Location header (None when absent), the
   * response URI as a string and as Uri.Segments, and the body (None when
   * GetResponseStream returned null).
   */
  datatype Response = Response(
    status: int,
    location: Option<string>,
    uri: string,
    segments: seq<string>,
    body: Option<string>)

  /** Group 1 and group 2 of the review pattern. */
  datatype ReviewCapture = ReviewCapture(percent: string, total: string)

  /** Groups 1 to 4 of one match of the language-table pattern. */
  datatype LanguageRow = LanguageRow(language: string, interface: string, fullAudio: string, subtitles: string)

  /**
   * The captures of the capture patterns on one page.  A field that is an
   * Option is None when its pattern did not match; a sequence field holds
   * one capture per match (empty when nothing matched).
   */
  datatype PageScan = PageScan(
    genres: Option<seq<string>>,
    flags: seq<string>,
    tags: seq<string>,
    developers: Option<seq<string>>,
    publishers: Option<seq<string>>,
    metacritic: Option<string>,
    reviews: Option<ReviewCapture>,
    achievements: Option<string>,
    vrHeadsets: Option<seq<string>>,
    vrInput: Option<seq<string>>,
    vrPlayArea: Option<seq<string>>,
    languages: seq<LanguageRow>,
    releaseDate: Option<string>)

  const SiteError := "<title>Site Error</title>"
  const GameMarker := "<a href=\"http://store.steampowered.com/search/?term=&snr="
  const SoftwareMarkerHttp := "<a href=\"http://store.steampowered.com/search/?category1=994&snr="
  const SoftwareMarkerHttps := "<a href=\"https://store.steampowered.com/search/?category1=994&snr="
  const DlcMarkerHttp := "<img class=\"category_icon\" src=\"http://store.akamai.steamstatic.com/public/images/v6/ico/ico_dlc.png\">"
  const DlcMarkerHttps := "<img class=\"category_icon\" src=\"https://store.akamai.steamstatic.com/public/images/v6/ico/ico_dlc.png\">"
  const WindowsMarker := "<span class=\"platform_img win\"></span>"
  const MacMarker := "<span class=\"platform_img mac\"></span>"
  const LinuxMarker := "<span class=\"platform_img linux\"></span>"
  const StoreHostHttp := "http://store.steampowered.com"
  const StoreHostHttps := "https://store.steampowered.com"
  const AchievementsFlag := "Steam Achievements"

  /**
   * RegexSteamStore.IsMatch: the pattern `https?://store\.steampowered\.com/?`
   * has no anchors, so it matches every string that contains the store host
   * with either scheme (the optional slash adds nothing).
   */
  predicate MatchesSteamStore(location: string)
  {
    Contains(location, StoreHostHttp) || Contains(location, StoreHostHttps)
  }

  lemma AnyStoreUrlMatches(id: int)
    ensures MatchesSteamStore(StoreHostHttps + "/app/" + IntToString(id) + "/")
  {
    var s := StoreHostHttps + "/app/" + IntToString(id) + "/";
    assert s[0..|StoreHostHttps|] == StoreHostHttps;
    assert OccursAt(s, StoreHostHttps, 0);
  }
}
