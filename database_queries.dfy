/**
 * The read-only side of the Database collection: the case-insensitive sets
 * behind the aggregate caches, the depth-bounded parent-fallback lookups,
 * the tag-to-genre fallback of GetGenreList, the VR lookups and the
 * game-list filter.  Every query takes the Games dictionary as a map from
 * app id to entry.
 */
module DatabaseQueries {
  import opened Wrappers
  import opened Text
  import opened Records

  // ---------------------------------------------------------------------
  // Columns of an entry

  /** The string lists of an entry that the collection aggregates or looks up. */
  datatype Column =
    | Developers | Publishers | Genres | Flags | Tags
    | FullAudio | Interface | Subtitles
    | Headsets | Input | PlayArea

  function ColumnOf(e: Entry, c: Column): seq<string>
  {
    match c
    case Developers => e.developers
    case Publishers => e.publishers
    case Genres => e.genres
    case Flags => e.flags
    case Tags => e.tags
    case FullAudio => e.languageSupport.fullAudio
    case Interface => e.languageSupport.interface
    case Subtitles => e.languageSupport.subtitles
    case Headsets => e.vrSupport.headsets
    case Input => e.vrSupport.input
    case PlayArea => e.vrSupport.playArea
  }

  // ---------------------------------------------------------------------
  // SortedSet<string> with StringComparer.OrdinalIgnoreCase

  /**
   * A case-insensitive set: every folded spelling present maps to the member
   * the set holds for it, the first spelling that was added.
   */
  type CaseSet = map<string, string>

  predicate IsCaseSet(s: CaseSet)
  {
    forall k :: k in s ==> Fold(s[k]) == k
  }

  /** The folded spellings of a list. */
  function FoldsOf(items: seq<string>): set<string>
  {
    set x | x in items :: Fold(x)
  }

  /** The first position of items whose folded spelling is k. */
  predicate FirstWithFold(items: seq<string>, k: string, i: int)
  {
    0 <= i < |items| && Fold(items[i]) == k && forall j :: 0 <= j < i ==> Fold(items[j]) != k
  }

  /** SortedSet.Add: the item goes in unless a member already equals it ignoring case. */
  function Add(s: CaseSet, x: string): (r: CaseSet)
    requires IsCaseSet(s)
    ensures IsCaseSet(r)
    ensures r.Keys == s.Keys + {Fold(x)}
    ensures forall k :: k in s ==> r[k] == s[k]
  {
    if Fold(x) in s then s else s[Fold(x) := x]
  }

  lemma FoldsOfSnoc(items: seq<string>)
    requires items != []
    ensures FoldsOf(items) == FoldsOf(items[..|items| - 1]) + {Fold(items[|items| - 1])}
  {
    var init := items[..|items| - 1];
    forall y | y in FoldsOf(items) ensures y in FoldsOf(init) + {Fold(items[|items| - 1])} {
      var x :| x in items && Fold(x) == y;
      if x != items[|items| - 1] {
        var i :| 0 <= i < |items| && items[i] == x;
        assert init[i] == x;
      }
    }
    assert forall x :: x in init ==> x in items;
  }

  /**
   * SortedSet.UnionWith: the items are added in order, so members are never
   * replaced and the set gains exactly the folded spellings of the items.
   */
  function UnionWith(s: CaseSet, items: seq<string>): (r: CaseSet)
    requires IsCaseSet(s)
    ensures IsCaseSet(r)
    ensures r.Keys == s.Keys + FoldsOf(items)
    ensures forall k :: k in s ==> r[k] == s[k]
  {
    if items == [] then s
    else
      FoldsOfSnoc(items);
      Add(UnionWith(s, items[..|items| - 1]), items[|items| - 1])
  }

  lemma FirstWithFoldExtends(items: seq<string>, k: string, i: int)
    requires items != [] && FirstWithFold(items[..|items| - 1], k, i)
    ensures FirstWithFold(items, k, i)
  {
    var init := items[..|items| - 1];
    forall j | 0 <= j < i ensures Fold(items[j]) != k {
      assert init[j] == items[j];
    }
  }

  lemma NewFoldIsLast(s: CaseSet, items: seq<string>, k: string)
    requires IsCaseSet(s) && items != []
    requires k in UnionWith(s, items) && k !in UnionWith(s, items[..|items| - 1]) && k !in s
    ensures FirstWithFold(items, k, |items| - 1) && UnionWith(s, items)[k] == items[|items| - 1]
  {
    var init := items[..|items| - 1];
    assert k !in FoldsOf(init);
    forall j | 0 <= j < |items| - 1 ensures Fold(items[j]) != k {
      assert init[j] == items[j];
      assert Fold(init[j]) in FoldsOf(init);
    }
  }

  /** A spelling new to the set is held as the first item that has it. */
  lemma {:induction false} UnionWithKeepsFirstSpelling(s: CaseSet, items: seq<string>, k: string)
    requires IsCaseSet(s) && k in UnionWith(s, items) && k !in s
    ensures exists i :: FirstWithFold(items, k, i) && UnionWith(s, items)[k] == items[i]
  {
    var n := |items|;
    assert items != [];
    var init := items[..n - 1];
    var before := UnionWith(s, init);
    if k in before {
      assert UnionWith(s, items)[k] == before[k];
      UnionWithKeepsFirstSpelling(s, init, k);
      var i :| FirstWithFold(init, k, i) && before[k] == init[i];
      FirstWithFoldExtends(items, k, i);
      assert init[i] == items[i];
    } else {
      NewFoldIsLast(s, items, k);
    }
  }

  /** The members of a case-insensitive set, as the strings it holds. */
  function Members(s: CaseSet): set<string>
  {
    s.Values
  }

  // ---------------------------------------------------------------------
  // Depth-bounded parent fallback: GetDevelopers, GetFlagList,
  // GetPublishers and GetTagList

  /** The depth argument as a number of hops the recursion may still take. */
  function Hops(depth: int): nat
  {
    if depth > 0 then depth else 0
  }

  /** The lookup of column c falls through to the parent of this entry. */
  predicate FallsThrough(e: Entry, own: seq<string>, depth: int)
  {
    |own| == 0 && depth > 0 && e.parentId > 0
  }

  /**
   * Get<Column>(id, depth): null for an unknown id, the entry's own list when
   * it is not empty, when the depth is used up or when there is no parent,
   * and otherwise the parent's result one level shallower.
   */
  function Lookup(games: map<int, Entry>, c: Column, id: int, depth: int): (r: Option<seq<string>>)
    ensures id !in games ==> r == None
    ensures id in games && !FallsThrough(games[id], ColumnOf(games[id], c), depth) ==>
      r == Some(ColumnOf(games[id], c))
    decreases Hops(depth)
  {
    if id !in games then None
    else if FallsThrough(games[id], ColumnOf(games[id], c), depth) then
      Lookup(games, c, games[id].parentId, depth - 1)
    else Some(ColumnOf(games[id], c))
  }

  /** The entry reached from id by following k parent links, if every link exists. */
  function Ancestor(games: map<int, Entry>, id: int, k: nat): (r: Option<int>)
    ensures r.Some? ==> r.value in games
    decreases k
  {
    if id !in games then None
    else if k == 0 then Some(id)
    else Ancestor(games, games[id].parentId, k - 1)
  }

  /**
   * A lookup that returns a list returns the list of an entry at most depth
   * parent links away: it visits at most depth + 1 entries, cycles included.
   */
  lemma {:induction false} LookupVisitsAtMostDepthPlusOne(games: map<int, Entry>, c: Column, id: int, depth: int)
    ensures Lookup(games, c, id, depth).Some? ==>
      exists k :: 0 <= k <= Hops(depth) && Ancestor(games, id, k).Some?
        && Lookup(games, c, id, depth) == Some(ColumnOf(games[Ancestor(games, id, k).value], c))
    decreases Hops(depth)
  {
    if id in games {
      if FallsThrough(games[id], ColumnOf(games[id], c), depth) {
        var p := games[id].parentId;
        LookupVisitsAtMostDepthPlusOne(games, c, p, depth - 1);
        if Lookup(games, c, p, depth - 1).Some? {
          var k :| 0 <= k <= Hops(depth - 1) && Ancestor(games, p, k).Some?
            && Lookup(games, c, p, depth - 1) == Some(ColumnOf(games[Ancestor(games, p, k).value], c));
          assert Ancestor(games, id, k + 1) == Ancestor(games, p, k);
        }
      } else {
        assert Ancestor(games, id, 0) == Some(id);
      }
    }
  }

  /** Two entries that name each other as parent: the lookup still ends, with an empty list. */
  lemma LookupEndsOnParentCycle(a: Entry, b: Entry)
    requires a.id == 1 && a.parentId == 2 && b.id == 2 && b.parentId == 1
    requires a.developers == [] && b.developers == []
    ensures Lookup(map[1 := a, 2 := b], Developers, 1, 3) == Some([])
  {
    var games := map[1 := a, 2 := b];
    assert Lookup(games, Developers, 1, 0) == Some([]);
  }

  // ---------------------------------------------------------------------
  // GetGenreList

  /** The first position of x in s. */
  function IndexOf(s: seq<string>, x: string): (i: nat)
    requires x in s
    ensures i < |s| && s[i] == x && forall j :: 0 <= j < i ==> s[j] != x
  {
    if s[0] == x then 0 else 1 + IndexOf(s[1..], x)
  }

  predicate NoDuplicates(s: seq<string>)
  {
    forall i, j :: 0 <= i < j < |s| ==> s[i] != s[j]
  }

  /**
   * Enumerable.Intersect(first, second) with the default (ordinal,
   * case-sensitive) comparer: the items of first that second holds, each
   * once, in the order of their first occurrence in first.
   */
  function Intersect(first: seq<string>, second: set<string>): (r: seq<string>)
    ensures forall x :: x in r <==> x in first && x in second
    ensures NoDuplicates(r)
  {
    if first == [] then []
    else
      var rest := Intersect(first[1..], second - {first[0]});
      if first[0] in second then [first[0]] + rest else rest
  }

  /** The items of r, all of them in s, appear in r in the order of their first occurrence in s. */
  predicate InOrderOf(s: seq<string>, r: seq<string>)
    requires forall x :: x in r ==> x in s
  {
    forall i, j :: 0 <= i < j < |r| ==> IndexOf(s, r[i]) < IndexOf(s, r[j])
  }

  /** Items of r taken from the tail of s keep their order when the head of s is added back. */
  lemma TailOrder(s: seq<string>, r: seq<string>)
    requires s != [] && forall x :: x in r ==> x in s[1..] && x != s[0]
    requires InOrderOf(s[1..], r)
    ensures forall x :: x in r ==> x in s
    ensures InOrderOf(s, r)
  {
    forall x | x in r ensures x in s {
      assert x in s[1..];
    }
    forall i, j | 0 <= i < j < |r| ensures IndexOf(s, r[i]) < IndexOf(s, r[j]) {
      assert r[i] in r && r[j] in r;
      assert IndexOf(s[1..], r[i]) < IndexOf(s[1..], r[j]);
    }
  }

  /** The head of s comes before every item taken from its tail. */
  lemma ConsOrder(s: seq<string>, r: seq<string>)
    requires s != [] && forall x :: x in r ==> x in s[1..] && x != s[0]
    requires InOrderOf(s, r)
    ensures forall x :: x in [s[0]] + r ==> x in s
    ensures InOrderOf(s, [s[0]] + r)
  {
    var c := [s[0]] + r;
    forall x | x in c ensures x in s {
      if x != s[0] {
        assert x in r && x in s[1..];
      }
    }
    forall i, j | 0 <= i < j < |c| ensures IndexOf(s, c[i]) < IndexOf(s, c[j]) {
      assert c[j] == r[j - 1] && r[j - 1] in r;
      if i > 0 {
        assert c[i] == r[i - 1];
      }
    }
  }

  /** The intersection lists its items in the order of their first occurrence in first. */
  lemma {:induction false} IntersectKeepsOrder(first: seq<string>, second: set<string>)
    ensures InOrderOf(first, Intersect(first, second))
  {
    if first != [] {
      var rest := Intersect(first[1..], second - {first[0]});
      IntersectKeepsOrder(first[1..], second - {first[0]});
      TailOrder(first, rest);
      if first[0] in second {
        ConsOrder(first, rest);
      }
    }
  }

  /** The genres of entry id after the tag fallback, before any parent fallback. */
  function GenresOrTags(games: map<int, Entry>, genreSet: set<string>, id: int, tagFallback: bool): seq<string>
    requires id in games
  {
    var own := games[id].genres;
    if tagFallback && |own| == 0 then
      var tags := Lookup(games, Tags, id, 0);
      if tags.Some? && |tags.value| > 0 then Intersect(tags.value, genreSet) else own
    else own
  }

  /**
   * GetGenreList(id, depth, tagFallback), given the members of the genre
   * cache: empty genres are replaced by the entry's own tags that the cache
   * holds, and a list still empty falls back to the parent.
   */
  function GenreList(games: map<int, Entry>, genreSet: set<string>, id: int, depth: int, tagFallback: bool): (r: Option<seq<string>>)
    ensures id !in games ==> r == None
    decreases Hops(depth)
  {
    if id !in games then None
    else
      var res := GenresOrTags(games, genreSet, id, tagFallback);
      if FallsThrough(games[id], res, depth) then GenreList(games, genreSet, games[id].parentId, depth - 1, tagFallback)
      else Some(res)
  }

  /** At this entry GetGenreList asks for the genre cache: no genres, but tags. */
  predicate UsesGenreCache(e: Entry, tagFallback: bool)
  {
    tagFallback && |e.genres| == 0 && |e.tags| > 0
  }

  /** The genre cache is consulted somewhere on the fallback path from id. */
  predicate GenreCacheConsulted(games: map<int, Entry>, id: int, depth: int, tagFallback: bool)
    decreases Hops(depth)
  {
    id in games &&
    (UsesGenreCache(games[id], tagFallback)
     || (FallsThrough(games[id], games[id].genres, depth)
         && GenreCacheConsulted(games, games[id].parentId, depth - 1, tagFallback)))
  }

  /** An entry with genres gets its own genres; the tag fallback is only for an entry without. */
  lemma {:induction false} GenreListWithoutFallback(games: map<int, Entry>, genreSet: set<string>, id: int, depth: int)
    ensures GenreList(games, genreSet, id, depth, false) == Lookup(games, Genres, id, depth)
    decreases Hops(depth)
  {
    if id in games && FallsThrough(games[id], games[id].genres, depth) {
      GenreListWithoutFallback(games, genreSet, games[id].parentId, depth - 1);
    }
  }

  /** When the genre cache is not consulted, its contents do not matter. */
  lemma {:induction false} GenreListIgnoresUnconsultedCache(games: map<int, Entry>, g1: set<string>, g2: set<string>, id: int, depth: int, tagFallback: bool)
    requires !GenreCacheConsulted(games, id, depth, tagFallback)
    ensures GenreList(games, g1, id, depth, tagFallback) == GenreList(games, g2, id, depth, tagFallback)
    decreases Hops(depth)
  {
    if id in games {
      assert GenresOrTags(games, g1, id, tagFallback) == GenresOrTags(games, g2, id, tagFallback);
      if FallsThrough(games[id], GenresOrTags(games, g1, id, tagFallback), depth) {
        GenreListIgnoresUnconsultedCache(games, g1, g2, games[id].parentId, depth - 1, tagFallback);
      }
    }
  }

  /**
   * The fallback compares tags with the cached genres case-sensitively: a tag
   * "action" is not taken when the cache holds the genre as "Action".
   */
  lemma TagFallbackIsCaseSensitive(e: Entry)
    requires e.genres == [] && e.tags == ["action"] && e.parentId <= 0
    ensures GenreList(map[e.id := e], Members(map["ACTION" := "Action"]), e.id, 3, true) == Some([])
  {
    var games := map[e.id := e];
    var genreSet := Members(map["ACTION" := "Action"]);
    assert "action" !in genreSet;
    assert Intersect(["action"], genreSet) == [];
  }

  /** With the fallback, a genre-less entry lists exactly its tags that the cache holds, each once. */
  lemma TagFallbackTakesCachedTags(games: map<int, Entry>, genreSet: set<string>, id: int, depth: int)
    requires id in games && games[id].genres == [] && |games[id].tags| > 0
    requires exists t :: t in games[id].tags && t in genreSet
    ensures GenreList(games, genreSet, id, depth, true) == Some(Intersect(games[id].tags, genreSet))
  {
    var t :| t in games[id].tags && t in genreSet;
    var fallback := Intersect(games[id].tags, genreSet);
    assert t in fallback;
    assert Lookup(games, Tags, id, 0) == Some(games[id].tags);
    assert GenresOrTags(games, genreSet, id, true) == fallback;
    assert !FallsThrough(games[id], fallback, depth);
  }

  // ---------------------------------------------------------------------
  // GetVRSupport and SupportsVr

  predicate NoVr(vr: VrSupport)
  {
    |vr.headsets| == 0 && |vr.input| == 0 && |vr.playArea| == 0
  }

  /**
   * GetVRSupport(id, depth): an empty VRSupport for an unknown id; the
   * parent's triple only when all three of the entry's lists are empty.
   */
  function VrLookup(games: map<int, Entry>, id: int, depth: int): (r: VrSupport)
    ensures id !in games ==> r == EmptyVr
    ensures id in games && !(NoVr(games[id].vrSupport) && depth > 0 && games[id].parentId > 0) ==>
      r == games[id].vrSupport
    decreases Hops(depth)
  {
    if id !in games then EmptyVr
    else if NoVr(games[id].vrSupport) && depth > 0 && games[id].parentId > 0 then
      VrLookup(games, games[id].parentId, depth - 1)
    else games[id].vrSupport
  }

  /**
   * SupportsVr(id, depth) as written: because && binds tighter than ||, a
   * play area counts only when depth > 0 and the entry has a parent.
   */
  function SupportsVrAsWritten(games: map<int, Entry>, id: int, depth: int): bool
    decreases Hops(depth)
  {
    if id !in games then false
    else
      var vr := games[id].vrSupport;
      if |vr.headsets| > 0 || |vr.input| > 0 || (|vr.playArea| > 0 && depth > 0 && games[id].parentId > 0) then true
      else if depth > 0 && games[id].parentId > 0 then SupportsVrAsWritten(games, games[id].parentId, depth - 1)
      else false
  }

  /** SupportsVr with the evidently intended grouping: any of the three lists counts. */
  function SupportsVr(games: map<int, Entry>, id: int, depth: int): bool
    decreases Hops(depth)
  {
    if id !in games then false
    else
      var vr := games[id].vrSupport;
      if |vr.headsets| > 0 || |vr.input| > 0 || |vr.playArea| > 0 then true
      else if depth > 0 && games[id].parentId > 0 then SupportsVr(games, games[id].parentId, depth - 1)
      else false
  }

  /** The corrected SupportsVr holds exactly when GetVRSupport finds a non-empty triple. */
  lemma {:induction false} SupportsVrMatchesVrLookup(games: map<int, Entry>, id: int, depth: int)
    ensures SupportsVr(games, id, depth) <==> !NoVr(VrLookup(games, id, depth))
    decreases Hops(depth)
  {
    if id in games && NoVr(games[id].vrSupport) && depth > 0 && games[id].parentId > 0 {
      SupportsVrMatchesVrLookup(games, games[id].parentId, depth - 1);
    }
  }

  /** The code as written never claims VR support that is not there. */
  lemma {:induction false} SupportsVrAsWrittenIsSound(games: map<int, Entry>, id: int, depth: int)
    ensures SupportsVrAsWritten(games, id, depth) ==> SupportsVr(games, id, depth)
    decreases Hops(depth)
  {
    if id in games {
      var vr := games[id].vrSupport;
      if !(|vr.headsets| > 0 || |vr.input| > 0 || (|vr.playArea| > 0 && depth > 0 && games[id].parentId > 0))
         && depth > 0 && games[id].parentId > 0 {
        SupportsVrAsWrittenIsSound(games, games[id].parentId, depth - 1);
      }
    }
  }

  /** A game whose only VR data is a play area, and that has no parent, is reported as not supporting VR. */
  lemma PlayAreaOnlyGameMissed(e: Entry)
    requires e.vrSupport == VrSupport([], [], ["Standing"]) && e.parentId <= 0
    ensures !SupportsVrAsWritten(map[e.id := e], e.id, 3)
    ensures SupportsVr(map[e.id := e], e.id, 3)
    ensures !NoVr(VrLookup(map[e.id := e], e.id, 3))
  {
  }

  // ---------------------------------------------------------------------
  // IncludeItemInGameList

  /** IncludeItemInGameList: the id is known and is an application or a game. */
  predicate IncludeItemInGameList(games: map<int, Entry>, appId: int)
  {
    Contains(games, appId) && (games[appId].appType == Application || games[appId].appType == Game)
  }

  /** Contains: the id has an entry. */
  predicate Contains(games: map<int, Entry>, id: int)
  {
    id in games
  }

  /** GetName: the entry's name, or null for an unknown id. */
  function GetName(games: map<int, Entry>, id: int): (r: Option<string>)
    ensures !Contains(games, id) ==> r == None
  {
    if Contains(games, id) then games[id].name else None
  }
}
