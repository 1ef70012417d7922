/**
 * Fetching a Steam curator's recommendations: the store answers, fifty at
 * a time, with an HTML fragment whose matches pair an app id with a
 * recommendation class; the dialog requests one page per offset below the
 * reported total and unions the pages into one dictionary.  The pattern
 * matches of a page are inputs, as are the parsed total and the pages the
 * store returns for each offset.
 */
module CuratorRecommendations {
  import opened Wrappers
  import opened Text

  /** The recommendation states of a curator; `Error` marks an unrecognised class. */
  datatype CuratorRecommendation = Error | Recommended | NotRecommended | Informational

  /** The recommendation a `color_` class name stands for. */
  function Classify(className: string): (r: CuratorRecommendation)
    ensures r == Recommended <==> className == "recommended"
    ensures r == NotRecommended <==> className == "not_recommended"
    ensures r == Informational <==> className == "informational"
  {
    if className == "recommended" then Recommended
    else if className == "not_recommended" then NotRecommended
    else if className == "informational" then Informational
    else Error
  }

  /** The class name the store writes for each recognised recommendation. */
  function ClassName(r: CuratorRecommendation): string
  {
    match r
    case Recommended => "recommended"
    case NotRecommended => "not_recommended"
    case Informational => "informational"
    case Error => ""
  }

  /** Classifying the store's own class names recovers every recognised recommendation. */
  lemma ClassifyRecoversClassName(r: CuratorRecommendation)
    requires r != Error
    ensures Classify(ClassName(r)) == r
  {
  }

  // ---------------------------------------------------------------------
  // One page

  /** One match of the page: the captured app id digits and the captured class name. */
  datatype CuratorMatch = CuratorMatch(appIdText: string, className: string)

  predicate IsDigits(s: string)
  {
    forall i :: 0 <= i < |s| ==> '0' <= s[i] <= '9'
  }

  /** int.TryParse of the captured digits: fails on anything but ASCII digits and on values past Int32.MaxValue. */
  function ParseAppId(s: string): (r: Option<int>)
    ensures r.Some? ==> 0 <= r.value <= 0x7FFF_FFFF && IsDigits(s) && r.value == DigitsValue(s)
    ensures r.None? <==> s == [] || !IsDigits(s) || DigitsValue(s) > 0x7FFF_FFFF
  {
    if s != [] && IsDigits(s) && DigitsValue(s) <= 0x7FFF_FFFF then Some(DigitsValue(s)) else None
  }

  /** A match enters the dictionary when its id parses and its class is recognised. */
  predicate Accepted(m: CuratorMatch)
  {
    ParseAppId(m.appIdText).Some? && Classify(m.className) != Error
  }

  /** The ids of the accepted matches, in page order. */
  function AcceptedIds(ms: seq<CuratorMatch>): (r: seq<int>)
    ensures forall m :: m in ms && Accepted(m) ==> ParseAppId(m.appIdText).value in r
    ensures forall k :: k in r ==> exists m :: m in ms && Accepted(m) && ParseAppId(m.appIdText) == Some(k)
  {
    if ms == [] then []
    else
      var init := AcceptedIds(ms[..|ms| - 1]);
      var m := ms[|ms| - 1];
      assert forall x :: x in ms[..|ms| - 1] ==> x in ms;
      assert forall x :: x in ms ==> x in ms[..|ms| - 1] || x == m;
      if Accepted(m) then init + [ParseAppId(m.appIdText).value] else init
  }

  predicate DistinctIds(s: seq<int>)
  {
    forall i, j :: 0 <= i < j < |s| ==> s[i] != s[j]
  }

  /** Dictionary.Add of one match: skipped when not accepted, a DuplicateKey error when its id is already present. */
  function AddMatch(acc: Result<map<int, CuratorRecommendation>>, m: CuratorMatch): Result<map<int, CuratorRecommendation>>
  {
    if acc.Err? || !Accepted(m) then acc
    else
      var id := ParseAppId(m.appIdText).value;
      if id in acc.value then Err(DuplicateKey) else Ok(acc.value[id := Classify(m.className)])
  }

  /** GetCuratorRecommendationsFromPage: every match added in turn. */
  function PageRecommendations(ms: seq<CuratorMatch>): Result<map<int, CuratorRecommendation>>
  {
    if ms == [] then Ok(map[]) else AddMatch(PageRecommendations(ms[..|ms| - 1]), ms[|ms| - 1])
  }

  /** A page without matches gives an empty dictionary. */
  lemma NoMatchesNoRecommendations()
    ensures PageRecommendations([]) == Ok(map[])
  {
  }

  /** The page's dictionary holds exactly the accepted ids. */
  lemma {:induction false} PageKeys(ms: seq<CuratorMatch>)
    requires PageRecommendations(ms).Ok?
    ensures PageRecommendations(ms).value.Keys == set k | k in AcceptedIds(ms)
  {
    if ms != [] {
      var init := ms[..|ms| - 1];
      assert PageRecommendations(init).Ok?;
      PageKeys(init);
    }
  }

  /** A page fails exactly when two accepted matches carry the same id. */
  lemma {:induction false} PageFailsOnDuplicate(ms: seq<CuratorMatch>)
    ensures PageRecommendations(ms).Ok? <==> DistinctIds(AcceptedIds(ms))
    ensures PageRecommendations(ms).Err? ==> PageRecommendations(ms).error == DuplicateKey
  {
    if ms != [] {
      var init := ms[..|ms| - 1];
      var m := ms[|ms| - 1];
      PageFailsOnDuplicate(init);
      var ids := AcceptedIds(init);
      var all := AcceptedIds(ms);
      assert all == if Accepted(m) then ids + [ParseAppId(m.appIdText).value] else ids;
      assert forall i :: 0 <= i < |ids| ==> all[i] == ids[i];
      if PageRecommendations(init).Err? {
        assert !DistinctIds(ids);
        var i, j :| 0 <= i < j < |ids| && ids[i] == ids[j];
        assert all[i] == all[j];
      } else if Accepted(m) {
        PageKeys(init);
        var id := ParseAppId(m.appIdText).value;
        if id in ids {
          var j :| 0 <= j < |ids| && ids[j] == id;
          assert all[j] == all[|ids|];
        } else {
          assert PageRecommendations(ms) == Ok(PageRecommendations(init).value[id := Classify(m.className)]);
          assert forall i :: 0 <= i < |ids| ==> all[i] != all[|ids|];
        }
      }
    }
  }

  /** Each accepted match of a page that succeeds is recorded with its classified recommendation. */
  lemma {:induction false} PageRecordsMatch(ms: seq<CuratorMatch>, i: int)
    requires PageRecommendations(ms).Ok? && 0 <= i < |ms| && Accepted(ms[i])
    ensures var id := ParseAppId(ms[i].appIdText).value;
      id in PageRecommendations(ms).value && PageRecommendations(ms).value[id] == Classify(ms[i].className)
  {
    var init := ms[..|ms| - 1];
    var m := ms[|ms| - 1];
    assert PageRecommendations(init).Ok?;
    if i < |ms| - 1 {
      assert init[i] == ms[i];
      PageRecordsMatch(init, i);
      if Accepted(m) {
        var id := ParseAppId(ms[i].appIdText).value;
        assert id in PageRecommendations(init).value;
      }
    }
  }

  /** GetCuratorRecommendationsFromPage, as the loop over the matches. */
  method RecommendationsFromPage(matches: seq<CuratorMatch>) returns (r: Result<map<int, CuratorRecommendation>>)
    ensures r == PageRecommendations(matches)
  {
    var recommendations: map<int, CuratorRecommendation> := map[];
    if |matches| <= 0 {
      return Ok(recommendations);
    }
    for i := 0 to |matches|
      invariant PageRecommendations(matches[..i]) == Ok(recommendations)
    {
      assert matches[..i + 1][..i] == matches[..i];
      var recommendation := Classify(matches[i].className);
      var id := ParseAppId(matches[i].appIdText);
      if id.Some? && recommendation != Error {
        if id.value in recommendations {
          assert PageRecommendations(matches[..i + 1]) == Err(DuplicateKey);
          PageStaysFailed(matches, i + 1);
          return Err(DuplicateKey);
        }
        recommendations := recommendations[id.value := recommendation];
      }
    }
    assert matches[..|matches|] == matches;
    return Ok(recommendations);
  }

  /** Once a match fails, the page's result stays that failure. */
  lemma {:induction false} PageStaysFailed(ms: seq<CuratorMatch>, k: int)
    requires 0 <= k <= |ms| && PageRecommendations(ms[..k]).Err?
    ensures PageRecommendations(ms) == PageRecommendations(ms[..k])
    decreases |ms| - k
  {
    if k < |ms| {
      assert ms[..k + 1][..k] == ms[..k];
      PageStaysFailed(ms, k + 1);
    } else {
      assert ms[..k] == ms;
    }
  }

  // ---------------------------------------------------------------------
  // Paging

  /** The page size the store is asked for. */
  const PageSize := 50

  /** The offsets of the paging loop: from, from + 50, ... while below the total. */
  function Offsets(from: int, total: int): seq<int>
    decreases total - from
  {
    if from >= total then [] else [from] + Offsets(from + PageSize, total)
  }

  /** The offsets step by the page size from the first one, all below the total, as many as the pages needed. */
  lemma {:induction false} OffsetsShape(from: int, total: int)
    ensures var r := Offsets(from, total);
      forall i :: 0 <= i < |r| ==> r[i] == from + PageSize * i && r[i] < total
    ensures |Offsets(from, total)| == if from >= total then 0 else (total - from + PageSize - 1) / PageSize
    decreases total - from
  {
    if from < total {
      OffsetsShape(from + PageSize, total);
      var r := Offsets(from, total);
      var rest := Offsets(from + PageSize, total);
      assert r == [from] + rest;
      forall i | 0 < i < |r|
        ensures r[i] == from + PageSize * i
      {
        assert r[i] == rest[i - 1];
      }
    }
  }

  /** The fixed parts of the request URL. */
  const UrlHead := "http://store.steampowered.com/curators/ajaxgetcuratorrecommendations/"
  const UrlMid := "/?query=&amp;start="
  const UrlTail := "&amp;count=50"

  /** The request URL; the curator id and start offset are written in invariant-culture decimal. */
  function Url(curatorId: int, start: int): string
  {
    UrlHead + IntToString(curatorId) + UrlMid + IntToString(start) + UrlTail
  }

  /** Different offsets give different URLs, so no page is requested twice. */
  lemma UrlDistinguishesOffsets(curatorId: int, a: nat, b: nat)
    requires Url(curatorId, a) == Url(curatorId, b)
    ensures a == b
  {
    var head := UrlHead + IntToString(curatorId) + UrlMid;
    var tail := UrlTail;
    var u := Url(curatorId, a);
    assert u == head + NatToString(a) + tail;
    assert Url(curatorId, b) == head + NatToString(b) + tail;
    assert |NatToString(a)| == |NatToString(b)|;
    assert NatToString(a) == u[|head|..|u| - |tail|];
    assert NatToString(b) == u[|head|..|u| - |tail|];
    NatToStringRoundTrip(a);
    NatToStringRoundTrip(b);
  }

  /** The dialog's state after paging: the dictionary, the URLs requested, and the exception that stopped it, if any. */
  datatype Fetch = Fetch(recommendations: map<int, CuratorRecommendation>, urls: seq<string>, error: Option<Exception>)

  /** `Union(...).ToDictionary(...)`: a DuplicateKey error when an id already present gets a different recommendation. */
  function UnionPage(acc: map<int, CuratorRecommendation>, page: map<int, CuratorRecommendation>): (r: Result<map<int, CuratorRecommendation>>)
    ensures r.Ok? <==> forall k :: k in acc && k in page ==> acc[k] == page[k]
    ensures r.Ok? ==> r.value.Keys == acc.Keys + page.Keys
    ensures r.Ok? ==> forall k :: k in acc ==> r.value[k] == acc[k]
    ensures r.Ok? ==> forall k :: k in page ==> r.value[k] == page[k]
  {
    if exists k :: k in acc && k in page && acc[k] != page[k] then Err(DuplicateKey) else Ok(acc + page)
  }

  /** One request: the page at the offset, unioned into what was collected. */
  function Step(acc: map<int, CuratorRecommendation>, offset: int, page: int -> seq<CuratorMatch>): Result<map<int, CuratorRecommendation>>
  {
    match PageRecommendations(page(offset))
    case Err(e) => Err(e)
    case Ok(p) => UnionPage(acc, p)
  }

  /** The pages at the given offsets, requested and unioned in turn until one throws. */
  function Gather(curatorId: int, acc: map<int, CuratorRecommendation>, offsets: seq<int>,
                  page: int -> seq<CuratorMatch>): Fetch
    decreases |offsets|
  {
    if offsets == [] then Fetch(acc, [], None)
    else
      var url := Url(curatorId, offsets[0]);
      match Step(acc, offsets[0], page)
      case Err(e) => Fetch(acc, [url], Some(e))
      case Ok(next) =>
        var rest := Gather(curatorId, next, offsets[1..], page);
        Fetch(rest.recommendations, [url] + rest.urls, rest.error)
  }

  /** Without an exception, the pages are requested at exactly the given offsets, in order. */
  lemma {:induction false} GatherRequestsEveryOffset(curatorId: int, acc: map<int, CuratorRecommendation>,
                                                      offsets: seq<int>, page: int -> seq<CuratorMatch>)
    requires Gather(curatorId, acc, offsets, page).error.None?
    ensures var f := Gather(curatorId, acc, offsets, page);
      |f.urls| == |offsets| && forall i :: 0 <= i < |offsets| ==> f.urls[i] == Url(curatorId, offsets[i])
    decreases |offsets|
  {
    if offsets != [] {
      var next := Step(acc, offsets[0], page).value;
      var rest := Gather(curatorId, next, offsets[1..], page);
      GatherRequestsEveryOffset(curatorId, next, offsets[1..], page);
      var f := Gather(curatorId, acc, offsets, page);
      assert f.urls == [Url(curatorId, offsets[0])] + rest.urls;
      forall i | 0 < i < |offsets|
        ensures f.urls[i] == Url(curatorId, offsets[i])
      {
        assert f.urls[i] == rest.urls[i - 1];
        assert offsets[i] == offsets[1..][i - 1];
      }
    }
  }

  /** A recommendation once collected is never replaced or dropped. */
  lemma {:induction false} GatherKeepsCollected(curatorId: int, acc: map<int, CuratorRecommendation>,
                                                 offsets: seq<int>, page: int -> seq<CuratorMatch>, k: int)
    requires k in acc
    ensures var f := Gather(curatorId, acc, offsets, page);
      k in f.recommendations && f.recommendations[k] == acc[k]
    decreases |offsets|
  {
    if offsets != [] && Step(acc, offsets[0], page).Ok? {
      var p := PageRecommendations(page(offsets[0])).value;
      assert k in UnionPage(acc, p).value;
      GatherKeepsCollected(curatorId, Step(acc, offsets[0], page).value, offsets[1..], page, k);
    }
  }

  /** The URLs requested are those of a prefix of the offsets, in order. */
  lemma {:induction false} GatherRequestsPrefix(curatorId: int, acc: map<int, CuratorRecommendation>,
                                                 offsets: seq<int>, page: int -> seq<CuratorMatch>)
    ensures var f := Gather(curatorId, acc, offsets, page);
      |f.urls| <= |offsets| && forall i :: 0 <= i < |f.urls| ==> f.urls[i] == Url(curatorId, offsets[i])
    decreases |offsets|
  {
    if offsets != [] && Step(acc, offsets[0], page).Ok? {
      var next := Step(acc, offsets[0], page).value;
      var rest := Gather(curatorId, next, offsets[1..], page);
      GatherRequestsPrefix(curatorId, next, offsets[1..], page);
      var f := Gather(curatorId, acc, offsets, page);
      assert f.urls == [Url(curatorId, offsets[0])] + rest.urls;
      forall i | 0 < i < |f.urls|
        ensures f.urls[i] == Url(curatorId, offsets[i])
      {
        assert f.urls[i] == rest.urls[i - 1];
        assert offsets[i] == offsets[1..][i - 1];
      }
    }
  }

  /**
   * The paging ended by an exception stopped at the page that raised it:
   * the last URL requested is that of a page whose step failed with that
   * exception.
   */
  predicate StoppedAtError(f: Fetch, offsets: seq<int>, page: int -> seq<CuratorMatch>)
  {
    f.error.Some? ==>
      1 <= |f.urls| <= |offsets| && Step(f.recommendations, offsets[|f.urls| - 1], page) == Err(f.error.value)
  }

  /**
   * An exception stops the paging at the page that raised it, so no later
   * page is requested (GatherRequestsEveryOffset is the case without an
   * exception).
   */
  lemma {:induction false} GatherStopsAtError(curatorId: int, acc: map<int, CuratorRecommendation>,
                                               offsets: seq<int>, page: int -> seq<CuratorMatch>)
    ensures StoppedAtError(Gather(curatorId, acc, offsets, page), offsets, page)
    decreases |offsets|
  {
    if offsets != [] && Step(acc, offsets[0], page).Ok? {
      var rest := Gather(curatorId, Step(acc, offsets[0], page).value, offsets[1..], page);
      GatherStopsAtError(curatorId, Step(acc, offsets[0], page).value, offsets[1..], page);
      ErrorCarriesOver(Url(curatorId, offsets[0]), offsets, rest, page);
    }
  }

  /** Prepending the URL of a successful first step keeps the failing step last. */
  lemma ErrorCarriesOver(url: string, offsets: seq<int>, rest: Fetch, page: int -> seq<CuratorMatch>)
    requires |offsets| >= 1 && StoppedAtError(rest, offsets[1..], page)
    ensures StoppedAtError(After([url], rest), offsets, page)
  {
  }

  /** The fetch with the first few URLs already recorded. */
  function After(urls: seq<string>, f: Fetch): Fetch
  {
    Fetch(f.recommendations, urls + f.urls, f.error)
  }

  /** Requesting the page at one offset and unioning it: the step the paging loop repeats. */
  method FetchPage(acc: map<int, CuratorRecommendation>, offset: int, page: int -> seq<CuratorMatch>)
    returns (next: Result<map<int, CuratorRecommendation>>)
    ensures next == Step(acc, offset, page)
  {
    var p := RecommendationsFromPage(page(offset));
    if p.Err? {
      return Err(p.error);
    }
    next := UnionPage(acc, p.value);
  }

  /** Gather over a non-empty list of offsets, one step unfolded. */
  lemma GatherUnfold(curatorId: int, acc: map<int, CuratorRecommendation>, offset: int, rest: seq<int>,
                     page: int -> seq<CuratorMatch>)
    ensures Step(acc, offset, page).Err? ==>
      Gather(curatorId, acc, [offset] + rest, page) == Fetch(acc, [Url(curatorId, offset)], Some(Step(acc, offset, page).error))
    ensures Step(acc, offset, page).Ok? ==>
      Gather(curatorId, acc, [offset] + rest, page) == After([Url(curatorId, offset)], Gather(curatorId, Step(acc, offset, page).value, rest, page))
  {
    assert ([offset] + rest)[0] == offset && ([offset] + rest)[1..] == rest;
  }

  /**
   * The body of Start after the first download: the first page, then the
   * paging loop while the offset is below the total.
   */
  method Collect(curatorId: int, acc: map<int, CuratorRecommendation>, total: int, page: int -> seq<CuratorMatch>)
    returns (f: Fetch)
    ensures f == Gather(curatorId, acc, [0] + Offsets(PageSize, total), page)
  {
    var first := FetchPage(acc, 0, page);
    FirstPageStep(curatorId, acc, total, page);
    if first.Err? {
      return Fetch(acc, [Url(curatorId, 0)], Some(first.error));
    }
    f := PagingLoop(curatorId, first.value, [Url(curatorId, 0)], PageSize, total, page);
  }

  /** The paging loop: every offset from the current one, by fifty, while below the total. */
  method PagingLoop(curatorId: int, acc: map<int, CuratorRecommendation>, requested: seq<string>, from: int, total: int,
                    page: int -> seq<CuratorMatch>)
    returns (f: Fetch)
    ensures f == After(requested, Gather(curatorId, acc, Offsets(from, total), page))
  {
    var collected := acc;
    var urls := requested;
    var currentPosition := from;
    while currentPosition < total
      invariant After(requested, Gather(curatorId, acc, Offsets(from, total), page))
        == After(urls, Gather(curatorId, collected, Offsets(currentPosition, total), page))
      decreases total - currentPosition
    {
      var next := FetchPage(collected, currentPosition, page);
      PagingStep(curatorId, collected, currentPosition, total, urls, page);
      if next.Err? {
        return Fetch(collected, urls + [Url(curatorId, currentPosition)], Some(next.error));
      }
      urls := urls + [Url(curatorId, currentPosition)];
      collected := next.value;
      currentPosition := currentPosition + PageSize;
    }
    PagingDone(curatorId, collected, currentPosition, total, urls, page);
    return Fetch(collected, urls, None);
  }

  /** One turn of the paging loop, on the fetch still to come after the URLs already requested. */
  lemma PagingStep(curatorId: int, acc: map<int, CuratorRecommendation>, offset: int, total: int, urls: seq<string>,
                   page: int -> seq<CuratorMatch>)
    requires offset < total
    ensures Step(acc, offset, page).Err? ==>
      After(urls, Gather(curatorId, acc, Offsets(offset, total), page))
      == Fetch(acc, urls + [Url(curatorId, offset)], Some(Step(acc, offset, page).error))
    ensures Step(acc, offset, page).Ok? ==>
      After(urls, Gather(curatorId, acc, Offsets(offset, total), page))
      == After(urls + [Url(curatorId, offset)], Gather(curatorId, Step(acc, offset, page).value, Offsets(offset + PageSize, total), page))
  {
    var rest := Offsets(offset + PageSize, total);
    assert Offsets(offset, total) == [offset] + rest;
    GatherUnfold(curatorId, acc, offset, rest, page);
    if Step(acc, offset, page).Ok? {
      var g := Gather(curatorId, Step(acc, offset, page).value, rest, page);
      assert urls + ([Url(curatorId, offset)] + g.urls) == urls + [Url(curatorId, offset)] + g.urls;
    }
  }

  /** The first request, at offset 0, made before the paging loop whatever the total. */
  lemma FirstPageStep(curatorId: int, acc: map<int, CuratorRecommendation>, total: int, page: int -> seq<CuratorMatch>)
    ensures Step(acc, 0, page).Err? ==>
      Gather(curatorId, acc, [0] + Offsets(PageSize, total), page) == Fetch(acc, [Url(curatorId, 0)], Some(Step(acc, 0, page).error))
    ensures Step(acc, 0, page).Ok? ==>
      Gather(curatorId, acc, [0] + Offsets(PageSize, total), page)
      == After([Url(curatorId, 0)], Gather(curatorId, Step(acc, 0, page).value, Offsets(PageSize, total), page))
  {
    GatherUnfold(curatorId, acc, 0, Offsets(PageSize, total), page);
  }

  /** When the offset reaches the total, nothing more is requested. */
  lemma PagingDone(curatorId: int, acc: map<int, CuratorRecommendation>, offset: int, total: int, urls: seq<string>,
                   page: int -> seq<CuratorMatch>)
    requires offset >= total
    ensures After(urls, Gather(curatorId, acc, Offsets(offset, total), page)) == Fetch(acc, urls, None)
  {
    assert urls + [] == urls;
  }

  // ---------------------------------------------------------------------
  // The dialog

  class CuratorDialog {
    const curatorId: int
    var recommendations: map<int, CuratorRecommendation>
    var totalCount: int
    /** The URLs requested so far, in order. */
    var requested: seq<string>
    /** The exception that ended the background Start, if any; it does not reach `error`. */
    var thrown: Option<Exception>
    var closed: bool
    var canceled: bool
    /** `Error`, which only a failure to launch the background task sets. */
    var error: Option<Exception>
    var completedJobs: int

    constructor (curatorId: int)
      ensures this.curatorId == curatorId && recommendations == map[] && totalCount == 0 && requested == []
      ensures thrown == None && !closed && !canceled && error == None && completedJobs == 0
    {
      this.curatorId := curatorId;
      recommendations := map[];
      totalCount := 0;
      requested := [];
      thrown := None;
      closed, canceled := false, false;
      error := None;
      completedJobs := 0;
    }

    /**
     * Start: the first page is always downloaded; when its total parses, it
     * and every page at 50, 100, ... below the total are unioned in; an
     * unparsable total leaves the count 0 and nothing collected.  The dialog
     * closes unless an exception ended the background job.
     */
    method Start(parsedTotal: Option<int>, page: int -> seq<CuratorMatch>)
      modifies this
      ensures parsedTotal.None? ==> totalCount == 0 && thrown == None
      ensures parsedTotal.None? ==> recommendations == old(recommendations) && requested == old(requested) + [Url(curatorId, 0)]
      ensures parsedTotal.Some? ==> totalCount == parsedTotal.value
      ensures parsedTotal.Some? ==>
        var g := Gather(curatorId, old(recommendations), [0] + Offsets(PageSize, parsedTotal.value), page);
        recommendations == g.recommendations && requested == old(requested) + g.urls && thrown == g.error
      ensures closed <==> old(closed) || thrown.None?
      ensures canceled == old(canceled) && error == old(error) && completedJobs == old(completedJobs)
    {
      if parsedTotal.None? {
        requested, totalCount, thrown, closed := requested + [Url(curatorId, 0)], 0, None, true;
        return;
      }
      var f := Collect(curatorId, recommendations, parsedTotal.value, page);
      requested, totalCount, recommendations, thrown := requested + f.urls, parsedTotal.value, f.recommendations, f.error;
      closed := closed || f.error.None?;
    }

    /** Finish: one completed job, only when not canceled, something was collected and `Error` is null. */
    method Finish()
      modifies this
      ensures completedJobs == old(completedJobs) + if !canceled && |recommendations| > 0 && error == None then 1 else 0
      ensures recommendations == old(recommendations) && canceled == old(canceled) && error == old(error)
    {
      if !canceled && |recommendations| > 0 && error == None {
        completedJobs := completedJobs + 1;
      }
    }
  }
}
