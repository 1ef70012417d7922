/**
 * The VR-support autocat: it files a game under one category per VR flag
 * (headset, input device, play area) that the game supports and the autocat
 * is configured to include, optionally prefixed.  The set of included flags
 * is a reference to a shared `VrFlags` object, which may be null.
 */
module VrAutoCat {
  import opened Wrappers
  import opened Records
  import opened DatabaseQueries
  import GameDatabase

  /** The outcomes an autocat reports for one game. */
  datatype AutoCatResult = Success | Failure | NotInDatabase | Filtered

  /** The depth `GetVRSupport` follows parent links to by default. */
  const VrLookupDepth := 3

  /** A `VRSupport` object: three lists of flag names, empty when created. */
  class VrFlags {
    var headsets: seq<string>
    var input: seq<string>
    var playArea: seq<string>

    constructor ()
      ensures headsets == [] && input == [] && playArea == []
    {
      headsets, input, playArea := [], [], [];
    }
  }

  /** The part of a game of the game list that the autocat reads and changes. */
  class GameInfo {
    const id: int
    /** The names of the categories the game is filed under. */
    var categories: set<string>

    constructor (id: int, categories: set<string>)
      ensures this.id == id && this.categories == categories
    {
      this.id := id;
      this.categories := categories;
    }
  }

  // ---------------------------------------------------------------------
  // Pure parts

  /** GetProcessedString: the prefix, when it is neither null nor empty, before the flag name. */
  function Processed(prefix: Option<string>, baseString: string): (r: string)
    ensures prefix == None || prefix == Some("") ==> r == baseString
    ensures prefix.Some? ==> r == prefix.value + baseString
    ensures |r| >= |baseString| && r[|r| - |baseString|..] == baseString
  {
    if prefix == None || prefix.value == "" then baseString else prefix.value + baseString
  }

  /** Two flags give the same category name only if they are the same flag. */
  lemma ProcessedIsInjective(prefix: Option<string>, a: string, b: string)
    requires Processed(prefix, a) == Processed(prefix, b)
    ensures a == b
  {
    var ra, rb := Processed(prefix, a), Processed(prefix, b);
    assert |a| == |b|;
    assert a == ra[|ra| - |a|..];
  }

  /** The flags the game supports and the autocat includes: headsets, then input, then play area. */
  function CommonFlags(vr: VrSupport, included: VrSupport): (r: seq<string>)
    ensures forall f :: f in r <==>
      (f in vr.headsets && f in included.headsets)
      || (f in vr.input && f in included.input)
      || (f in vr.playArea && f in included.playArea)
  {
    Intersect(vr.headsets, set f | f in included.headsets)
      + Intersect(vr.input, set f | f in included.input)
      + Intersect(vr.playArea, set f | f in included.playArea)
  }

  /** The categories added for a game: one processed name per common flag. */
  function VrCategories(vr: VrSupport, included: VrSupport, prefix: Option<string>): set<string>
  {
    set f | f in CommonFlags(vr, included) :: Processed(prefix, f)
  }

  /** Without a prefix the categories are exactly the common flags. */
  lemma VrCategoriesWithoutPrefix(vr: VrSupport, included: VrSupport, prefix: Option<string>)
    requires prefix == None || prefix == Some("")
    ensures forall t :: t in VrCategories(vr, included, prefix) <==> t in CommonFlags(vr, included)
  {
  }

  /** With a prefix, every category is the prefix before a flag both sides list. */
  lemma VrCategoriesArePrefixedFlags(vr: VrSupport, included: VrSupport, prefix: string, t: string)
    requires t in VrCategories(vr, included, Some(prefix))
    ensures |prefix| <= |t| && t[..|prefix|] == prefix && t[|prefix|..] in CommonFlags(vr, included)
  {
    var f :| f in CommonFlags(vr, included) && t == Processed(Some(prefix), f);
    assert t == prefix + f;
    assert t[|prefix|..] == f;
  }

  /** A game the autocat includes no flag for gets no category. */
  lemma NothingIncludedNothingAdded(vr: VrSupport, prefix: Option<string>)
    ensures VrCategories(vr, EmptyVr, prefix) == {}
  {
  }

  /** The value of a `VRSupport` object. */
  function FlagsOf(flags: VrFlags): VrSupport
    reads flags
  {
    VrSupport(flags.headsets, flags.input, flags.playArea)
  }

  /**
   * What CategorizeGame returns or throws.  It throws without a game list or
   * a database and fails for a null game; an id missing from the database or
   * never scraped is NotInDatabase before the filter is consulted; then the
   * filter; then the included flags are dereferenced.
   */
  function Outcome(gameListLoaded: bool, hasDb: bool, games: map<int, Entry>, hasGame: bool, id: int,
                   passesFilter: bool, hasIncluded: bool): (r: Result<AutoCatResult>)
    ensures !gameListLoaded || !hasDb ==> r.Err? && r.error.ApplicationException?
    ensures gameListLoaded && hasDb && !hasGame ==> r == Ok(Failure)
    ensures gameListLoaded && hasDb && hasGame && (id !in games || games[id].lastStoreScrape == 0) ==> r == Ok(NotInDatabase)
    ensures r == Ok(Filtered) ==> !passesFilter && id in games && games[id].lastStoreScrape != 0
    ensures r == Ok(Success) <==>
      (gameListLoaded && hasDb && hasGame && id in games && games[id].lastStoreScrape != 0 && passesFilter && hasIncluded)
    ensures r == Err(NullReference) <==>
      (gameListLoaded && hasDb && hasGame && id in games && games[id].lastStoreScrape != 0 && passesFilter && !hasIncluded)
  {
    if !gameListLoaded then Err(ApplicationException("AutoCatGenre_Exception_NoGameList"))
    else if !hasDb then Err(ApplicationException("AutoCatGenre_Exception_NoGameDB"))
    else if !hasGame then Ok(Failure)
    else if !Contains(games, id) || games[id].lastStoreScrape == 0 then Ok(NotInDatabase)
    else if !passesFilter then Ok(Filtered)
    else if !hasIncluded then Err(NullReference)
    else Ok(Success)
  }

  /** Files the game under the processed name of every flag of the list. */
  method AddCategories(game: GameInfo, flags: seq<string>, prefix: Option<string>)
    modifies game
    ensures game.categories == old(game.categories) + set f | f in flags :: Processed(prefix, f)
  {
    for i := 0 to |flags|
      invariant game.categories == old(game.categories) + set f | f in flags[..i] :: Processed(prefix, f)
    {
      assert flags[..i + 1] == flags[..i] + [flags[i]];
      game.categories := game.categories + {Processed(prefix, flags[i])};
    }
    assert flags[..|flags|] == flags;
  }

  // ---------------------------------------------------------------------
  // The autocat

  class AutoCatVrSupport {
    var name: string
    var filter: Option<string>
    var prefix: Option<string>
    /** `IncludedVrSupportFlags`: a reference, possibly null and possibly shared. */
    var included: VrFlags?
    var selected: bool

    /** The part of the constructor that runs before the included flags are touched. */
    constructor Bare(name: string, filter: Option<string>, prefix: Option<string>, selected: bool)
      ensures this.name == name && this.filter == filter && this.prefix == prefix
      ensures this.selected == selected && included == null
    {
      this.name, this.filter, this.prefix, this.selected := name, filter, prefix, selected;
      included := null;
    }

    /** The copy constructor behind Clone: the included flags are shared, not copied. */
    constructor Copy(other: AutoCatVrSupport)
      ensures name == other.name && filter == other.filter && prefix == other.prefix
      ensures selected == other.selected && included == other.included
    {
      name, filter, prefix, selected := other.name, other.filter, other.prefix, other.selected;
      included := other.included;
    }

    /** CategorizeGame: on Success the game gains one category per common flag; otherwise it is unchanged. */
    method CategorizeGame(db: GameDatabase.Database?, game: GameInfo?, gameListLoaded: bool, passesFilter: bool)
      returns (r: Result<AutoCatResult>)
      modifies game
      ensures r == Outcome(gameListLoaded, db != null, if db == null then map[] else db.games, game != null,
        if game == null then 0 else game.id, passesFilter, included != null)
      ensures r == Ok(Success) ==> game != null && db != null && included != null
      ensures r == Ok(Success) && game != null && db != null && included != null ==>
        game.categories == old(game.categories) + VrCategories(VrLookup(db.games, game.id, VrLookupDepth), FlagsOf(included), prefix)
      ensures r != Ok(Success) && game != null ==> game.categories == old(game.categories)
    {
      if !gameListLoaded {
        return Err(ApplicationException("AutoCatGenre_Exception_NoGameList"));
      }
      if db == null {
        return Err(ApplicationException("AutoCatGenre_Exception_NoGameDB"));
      }
      if game == null {
        return Ok(Failure);
      }
      if !Contains(db.games, game.id) || db.games[game.id].lastStoreScrape == 0 {
        return Ok(NotInDatabase);
      }
      if !passesFilter {
        return Ok(Filtered);
      }
      if included == null {
        return Err(NullReference);
      }
      var vr := VrLookup(db.games, game.id, VrLookupDepth);
      var inc := FlagsOf(included);
      var headsets := Intersect(vr.headsets, set f | f in inc.headsets);
      var input := Intersect(vr.input, set f | f in inc.input);
      var playArea := Intersect(vr.playArea, set f | f in inc.playArea);
      AddCategories(game, headsets, prefix);
      AddCategories(game, input, prefix);
      AddCategories(game, playArea, prefix);
      assert CommonFlags(vr, inc) == headsets + input + playArea;
      r := Ok(Success);
    }
  }

  /**
   * The constructor as written: `IncludedVrSupportFlags` is never assigned,
   * so passing any list dereferences null.
   */
  method NewAutoCatVrSupport(name: string, filter: Option<string>, prefix: Option<string>,
                             headsets: Option<seq<string>>, input: Option<seq<string>>, playArea: Option<seq<string>>,
                             selected: bool)
    returns (r: Result<AutoCatVrSupport>)
    ensures r.Err? <==> headsets.Some? || input.Some? || playArea.Some?
    ensures r.Err? ==> r.error == NullReference
    ensures r.Ok? ==> fresh(r.value) && r.value.included == null
    ensures r.Ok? ==> r.value.name == name && r.value.filter == filter && r.value.prefix == prefix && r.value.selected == selected
  {
    var a := new AutoCatVrSupport.Bare(name, filter, prefix, selected);
    if headsets.Some? || input.Some? || playArea.Some? {
      return Err(NullReference);
    }
    return Ok(a);
  }

  /** LoadFromXmlElement always passes three lists, so every autocat read back from a profile throws. */
  method LoadedAutoCatThrows(name: string, headsets: seq<string>, input: seq<string>, playArea: seq<string>)
    returns (r: Result<AutoCatVrSupport>)
    ensures r == Err(NullReference)
  {
    r := NewAutoCatVrSupport(name, None, None, Some(headsets), Some(input), Some(playArea), false);
  }

  /**
   * The constructor as intended: a fresh flags object, each list copied from
   * the argument when one is given and left empty otherwise.
   */
  method NewAutoCatVrSupportInitialised(name: string, filter: Option<string>, prefix: Option<string>,
                                        headsets: Option<seq<string>>, input: Option<seq<string>>, playArea: Option<seq<string>>,
                                        selected: bool)
    returns (r: AutoCatVrSupport)
    ensures fresh(r) && r.included != null && fresh(r.included)
    ensures FlagsOf(r.included) == VrSupport(headsets.GetOr([]), input.GetOr([]), playArea.GetOr([]))
    ensures r.name == name && r.filter == filter && r.prefix == prefix && r.selected == selected
  {
    r := new AutoCatVrSupport.Bare(name, filter, prefix, selected);
    var flags := new VrFlags();
    if headsets.Some? {
      flags.headsets := headsets.value;
    }
    if input.Some? {
      flags.input := input.value;
    }
    if playArea.Some? {
      flags.playArea := playArea.value;
    }
    r.included := flags;
  }

  /** Because Clone shares the flags object, editing the clone's flags edits the original's. */
  method CloneSharesFlags(original: AutoCatVrSupport, headsets: seq<string>) returns (clone: AutoCatVrSupport)
    requires original.included != null
    modifies original.included
    ensures fresh(clone) && clone.included == original.included
    ensures original.included.headsets == headsets
  {
    clone := new AutoCatVrSupport.Copy(original);
    clone.included.headsets := headsets;
  }
}
