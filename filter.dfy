/**
 * A game-list filter: a name, three sets of categories (allow, require,
 * exclude) and three tri-state settings (hidden, uncategorized, VR) whose
 * "unset" value is -1.  Filters are ordered by the ordinal comparison of
 * their names and are saved as a flat sequence of XML elements.
 */
module Filters {
  import opened Wrappers
  import opened Text

  // ---------------------------------------------------------------------
  // Category sets

  /**
   * A `SortedSet<Category>` object; `names` lists its categories in the
   * set's enumeration order.
   */
  class CategorySet {
    var names: seq<string>

    constructor (names: seq<string>)
      ensures this.names == names
    {
      this.names := names;
    }
  }

  // ---------------------------------------------------------------------
  // Ordinal comparison

  /** string.CompareOrdinal on two non-null strings: the first differing characters, else the lengths. */
  function OrdinalDiff(a: string, b: string): int
  {
    if a == [] || b == [] then |a| - |b|
    else if a[0] != b[0] then a[0] as int - b[0] as int
    else OrdinalDiff(a[1..], b[1..])
  }

  /** string.CompareOrdinal: null sorts before every string. */
  function CompareOrdinal(a: Option<string>, b: Option<string>): int
  {
    match (a, b)
    case (None, None) => 0
    case (None, Some(_)) => -1
    case (Some(_), None) => 1
    case (Some(x), Some(y)) => OrdinalDiff(x, y)
  }

  /** Two strings compare equal exactly when they are equal. */
  lemma {:induction false} OrdinalDiffZero(a: string, b: string)
    ensures OrdinalDiff(a, b) == 0 <==> a == b
  {
    if a != [] && b != [] && a[0] == b[0] {
      OrdinalDiffZero(a[1..], b[1..]);
      assert a == [a[0]] + a[1..] && b == [b[0]] + b[1..];
    }
  }

  /** Swapping the strings negates the comparison. */
  lemma {:induction false} OrdinalDiffAntisymmetric(a: string, b: string)
    ensures OrdinalDiff(b, a) == -OrdinalDiff(a, b)
  {
    if a != [] && b != [] && a[0] == b[0] {
      OrdinalDiffAntisymmetric(a[1..], b[1..]);
    }
  }

  /** The ordering is transitive. */
  lemma {:induction false} OrdinalDiffTransitive(a: string, b: string, c: string)
    requires OrdinalDiff(a, b) < 0 && OrdinalDiff(b, c) < 0
    ensures OrdinalDiff(a, c) < 0
  {
    if a != [] && b != [] && c != [] && a[0] == b[0] && b[0] == c[0] {
      OrdinalDiffTransitive(a[1..], b[1..], c[1..]);
    }
  }

  /** The argument of CompareTo: null, a filter with the given name, or an object of another type. */
  datatype Comparand = NullObject | FilterNamed(name: Option<string>) | NotAFilter

  /** Filter.CompareTo: 1 against null, an ArgumentException against a non-filter, else the names compared ordinally. */
  function CompareTo(name: Option<string>, obj: Comparand): (r: Result<int>)
    ensures obj == NullObject ==> r == Ok(1)
    ensures obj == NotAFilter ==> r == Err(ArgumentException("Object is not a Filter"))
    ensures obj.FilterNamed? ==> r.Ok? && (r.value == 0 <==> name == obj.name)
  {
    match obj
    case NullObject => Ok(1)
    case NotAFilter => Err(ArgumentException("Object is not a Filter"))
    case FilterNamed(other) =>
      if name.Some? && other.Some? then OrdinalDiffZero(name.value, other.value); Ok(CompareOrdinal(name, other))
      else Ok(CompareOrdinal(name, other))
  }

  /** A filter compares equal to itself. */
  lemma CompareToSelf(name: Option<string>)
    ensures CompareTo(name, FilterNamed(name)) == Ok(0)
  {
  }

  /** Comparing the other way round gives the opposite sign. */
  lemma CompareToAntisymmetric(a: Option<string>, b: Option<string>)
    ensures CompareTo(a, FilterNamed(b)).value == -CompareTo(b, FilterNamed(a)).value
  {
    if a.Some? && b.Some? {
      OrdinalDiffAntisymmetric(a.value, b.value);
    }
  }

  /** Filters sorted by CompareTo are sorted transitively. */
  lemma CompareToTransitive(a: Option<string>, b: Option<string>, c: Option<string>)
    requires CompareTo(a, FilterNamed(b)).value < 0 && CompareTo(b, FilterNamed(c)).value < 0
    ensures CompareTo(a, FilterNamed(c)).value < 0
  {
    if a.Some? && b.Some? && c.Some? {
      OrdinalDiffTransitive(a.value, b.value, c.value);
    }
  }

  // ---------------------------------------------------------------------
  // The XML form

  /** The element names a filter is written with. */
  datatype Tag = FilterTag | NameTag | UncategorizedTag | HiddenTag | VrTag | AllowTag | RequireTag | ExcludeTag

  /** The XML name of each tag. */
  function TagName(t: Tag): string
  {
    match t
    case FilterTag => "Filter"
    case NameTag => "Name"
    case UncategorizedTag => "Uncategorized"
    case HiddenTag => "Hidden"
    case VrTag => "VR"
    case AllowTag => "Allow"
    case RequireTag => "Require"
    case ExcludeTag => "Exclude"
  }

  /** Different tags are written with different names, so reading by tag is reading by name. */
  lemma TagNamesDistinct(t: Tag, u: Tag)
    requires t != u
    ensures TagName(t) != TagName(u)
  {
  }

  /** The calls an XmlWriter receives; an element is named by `TagName(tag)`. */
  datatype XmlToken = Start(tag: Tag) | Element(tag: Tag, value: string) | End

  /** One element per name, all with the same tag, in order. */
  function Elements(tag: Tag, names: seq<string>): (r: seq<XmlToken>)
    ensures |r| == |names| && forall i :: 0 <= i < |r| ==> r[i] == Element(tag, names[i])
  {
    if names == [] then [] else Elements(tag, names[..|names| - 1]) + [Element(tag, names[|names| - 1])]
  }

  /** The values of the elements with the given tag, in order: what a reader of that tag sees. */
  function ValuesTagged(tokens: seq<XmlToken>, tag: Tag): seq<string>
  {
    if tokens == [] then [] else Shown(tokens[0], tag) + ValuesTagged(tokens[1..], tag)
  }

  /** The value one token shows to a reader of the given tag. */
  function Shown(t: XmlToken, tag: Tag): seq<string>
  {
    if t.Element? && t.tag == tag then [t.value] else []
  }

  /** Reading a token followed by more tokens is reading the token, then the rest. */
  lemma ValuesTaggedCons(t: XmlToken, rest: seq<XmlToken>, tag: Tag)
    ensures ValuesTagged([t] + rest, tag) == Shown(t, tag) + ValuesTagged(rest, tag)
  {
    assert ([t] + rest)[0] == t && ([t] + rest)[1..] == rest;
  }

  lemma {:induction false} ValuesTaggedAppend(a: seq<XmlToken>, b: seq<XmlToken>, tag: Tag)
    ensures ValuesTagged(a + b, tag) == ValuesTagged(a, tag) + ValuesTagged(b, tag)
  {
    if a == [] {
      assert a + b == b;
    } else {
      var t, rest := a[0], a[1..];
      assert a == [t] + rest;
      assert a + b == [t] + (rest + b);
      ValuesTaggedCons(t, rest + b, tag);
      ValuesTaggedCons(t, rest, tag);
      ValuesTaggedAppend(rest, b, tag);
    }
  }

  /** A single token is read as itself. */
  lemma ValuesTaggedSingle(t: XmlToken, tag: Tag)
    ensures ValuesTagged([t], tag) == Shown(t, tag)
  {
    assert [t][1..] == [];
  }

  /** A run of elements shows its names under its own tag. */
  lemma {:induction false} ValuesOfOwnElements(tag: Tag, names: seq<string>)
    ensures ValuesTagged(Elements(tag, names), tag) == names
  {
    if names != [] {
      var n := |names| - 1;
      var init := names[..n];
      calc {
        ValuesTagged(Elements(tag, names), tag);
        ValuesTagged(Elements(tag, init) + [Element(tag, names[n])], tag);
        { ValuesTaggedAppend(Elements(tag, init), [Element(tag, names[n])], tag); }
        ValuesTagged(Elements(tag, init), tag) + ValuesTagged([Element(tag, names[n])], tag);
        { ValuesOfOwnElements(tag, init); ValuesTaggedSingle(Element(tag, names[n]), tag); }
        init + [names[n]];
        { assert init + [names[n]] == names; }
        names;
      }
    }
  }

  /** A run of elements shows nothing under any other tag. */
  lemma {:induction false} ValuesOfOtherElements(tag: Tag, names: seq<string>, other: Tag)
    requires tag != other
    ensures ValuesTagged(Elements(tag, names), other) == []
  {
    if names != [] {
      var n := |names| - 1;
      var init := names[..n];
      calc {
        ValuesTagged(Elements(tag, names), other);
        ValuesTagged(Elements(tag, init) + [Element(tag, names[n])], other);
        { ValuesTaggedAppend(Elements(tag, init), [Element(tag, names[n])], other); }
        ValuesTagged(Elements(tag, init), other) + ValuesTagged([Element(tag, names[n])], other);
        { ValuesOfOtherElements(tag, init, other); ValuesTaggedSingle(Element(tag, names[n]), other); }
        [];
      }
    }
  }

  /** The tokens WriteToXml emits: the scalar fields, then the allowed, required and excluded categories, in one Filter element. */
  function FilterXml(name: string, uncategorized: int, hidden: int, vr: int,
                     allow: seq<string>, require: seq<string>, exclude: seq<string>): (r: seq<XmlToken>)
    ensures |r| == 6 + |allow| + |require| + |exclude|
    ensures r[0] == Start(FilterTag) && r[|r| - 1] == End
    ensures forall i :: 0 < i < |r| - 1 ==> r[i].Element?
  {
    HeadXml(name, uncategorized, hidden, vr)
      + Elements(AllowTag, allow) + Elements(RequireTag, require) + Elements(ExcludeTag, exclude)
      + [End]
  }

  /** The scalar part of the XML: the Filter start tag and the four scalar elements. */
  function HeadXml(name: string, uncategorized: int, hidden: int, vr: int): seq<XmlToken>
  {
    [Start(FilterTag), Element(NameTag, name), Element(UncategorizedTag, IntToString(uncategorized)),
     Element(HiddenTag, IntToString(hidden)), Element(VrTag, IntToString(vr))]
  }

  /** What each tag of the scalar part holds. */
  function HeadValue(name: string, uncategorized: int, hidden: int, vr: int, tag: Tag): seq<string>
  {
    match tag
    case NameTag => [name]
    case UncategorizedTag => [IntToString(uncategorized)]
    case HiddenTag => [IntToString(hidden)]
    case VrTag => [IntToString(vr)]
    case _ => []
  }

  lemma HeadValues(name: string, uncategorized: int, hidden: int, vr: int, tag: Tag)
    ensures ValuesTagged(HeadXml(name, uncategorized, hidden, vr), tag) == HeadValue(name, uncategorized, hidden, vr, tag)
  {
    var h := HeadXml(name, uncategorized, hidden, vr);
    var vrs := if tag == VrTag then [IntToString(vr)] else [];
    var hid := if tag == HiddenTag then [IntToString(hidden)] else [];
    var unc := if tag == UncategorizedTag then [IntToString(uncategorized)] else [];
    var nam := if tag == NameTag then [name] else [];
    assert h[5..] == [];
    assert h[4..][1..] == h[5..];
    assert ValuesTagged(h[4..], tag) == vrs;
    assert h[3..][1..] == h[4..];
    assert ValuesTagged(h[3..], tag) == hid + vrs;
    assert h[2..][1..] == h[3..];
    assert ValuesTagged(h[2..], tag) == unc + hid + vrs;
    assert h[1..][1..] == h[2..];
    assert ValuesTagged(h[1..], tag) == nam + unc + hid + vrs;
    assert ValuesTagged(h, tag) == nam + unc + hid + vrs;
  }

  lemma Concat5(h: seq<XmlToken>, a: seq<XmlToken>, q: seq<XmlToken>, x: seq<XmlToken>, tag: Tag)
    ensures ValuesTagged(h + a + q + x + [End], tag)
      == ValuesTagged(h, tag) + ValuesTagged(a, tag) + ValuesTagged(q, tag) + ValuesTagged(x, tag)
  {
    ValuesTaggedAppend(h + a + q + x, [End], tag);
    ValuesTaggedAppend(h + a + q, x, tag);
    ValuesTaggedAppend(h + a, q, tag);
    ValuesTaggedAppend(h, a, tag);
    assert ValuesTagged([End], tag) == [];
  }

  /** The written XML read by tag is the scalar part read by tag followed by the three category runs read by tag. */
  lemma XmlParts(name: string, uncategorized: int, hidden: int, vr: int,
                 allow: seq<string>, require: seq<string>, exclude: seq<string>, tag: Tag)
    ensures ValuesTagged(FilterXml(name, uncategorized, hidden, vr, allow, require, exclude), tag)
      == ValuesTagged(HeadXml(name, uncategorized, hidden, vr), tag)
      + ValuesTagged(Elements(AllowTag, allow), tag)
      + ValuesTagged(Elements(RequireTag, require), tag)
      + ValuesTagged(Elements(ExcludeTag, exclude), tag)
  {
    Concat5(HeadXml(name, uncategorized, hidden, vr), Elements(AllowTag, allow), Elements(RequireTag, require),
      Elements(ExcludeTag, exclude), tag);
  }

  /** Reading a scalar tag of the written tokens gives back the one value it was written from. */
  lemma ReadBackScalar(name: string, uncategorized: int, hidden: int, vr: int,
                       allow: seq<string>, require: seq<string>, exclude: seq<string>, tag: Tag)
    requires tag != AllowTag && tag != RequireTag && tag != ExcludeTag
    ensures ValuesTagged(FilterXml(name, uncategorized, hidden, vr, allow, require, exclude), tag)
      == HeadValue(name, uncategorized, hidden, vr, tag)
  {
    XmlParts(name, uncategorized, hidden, vr, allow, require, exclude, tag);
    HeadValues(name, uncategorized, hidden, vr, tag);
    ValuesOfOtherElements(AllowTag, allow, tag);
    ValuesOfOtherElements(RequireTag, require, tag);
    ValuesOfOtherElements(ExcludeTag, exclude, tag);
  }

  /** Reading the Allow tag of the written tokens gives back the allowed categories in order. */
  lemma ReadBackAllow(name: string, uncategorized: int, hidden: int, vr: int,
                      allow: seq<string>, require: seq<string>, exclude: seq<string>)
    ensures ValuesTagged(FilterXml(name, uncategorized, hidden, vr, allow, require, exclude), AllowTag) == allow
  {
    XmlParts(name, uncategorized, hidden, vr, allow, require, exclude, AllowTag);
    HeadValues(name, uncategorized, hidden, vr, AllowTag);
    ValuesOfOwnElements(AllowTag, allow);
    ValuesOfOtherElements(RequireTag, require, AllowTag);
    ValuesOfOtherElements(ExcludeTag, exclude, AllowTag);
  }

  /** Reading the Require tag of the written tokens gives back the required categories in order. */
  lemma ReadBackRequire(name: string, uncategorized: int, hidden: int, vr: int,
                        allow: seq<string>, require: seq<string>, exclude: seq<string>)
    ensures ValuesTagged(FilterXml(name, uncategorized, hidden, vr, allow, require, exclude), RequireTag) == require
  {
    XmlParts(name, uncategorized, hidden, vr, allow, require, exclude, RequireTag);
    HeadValues(name, uncategorized, hidden, vr, RequireTag);
    ValuesOfOtherElements(AllowTag, allow, RequireTag);
    ValuesOfOwnElements(RequireTag, require);
    ValuesOfOtherElements(ExcludeTag, exclude, RequireTag);
  }

  /** Reading the Exclude tag of the written tokens gives back the excluded categories in order. */
  lemma ReadBackExclude(name: string, uncategorized: int, hidden: int, vr: int,
                        allow: seq<string>, require: seq<string>, exclude: seq<string>)
    ensures ValuesTagged(FilterXml(name, uncategorized, hidden, vr, allow, require, exclude), ExcludeTag) == exclude
  {
    XmlParts(name, uncategorized, hidden, vr, allow, require, exclude, ExcludeTag);
    HeadValues(name, uncategorized, hidden, vr, ExcludeTag);
    ValuesOfOtherElements(AllowTag, allow, ExcludeTag);
    ValuesOfOtherElements(RequireTag, require, ExcludeTag);
    ValuesOfOwnElements(ExcludeTag, exclude);
  }

  /** Every field of the filter can be read back from its XML under its own tag. */
  lemma WrittenXmlRecoversFilter(name: string, uncategorized: int, hidden: int, vr: int,
                                 allow: seq<string>, require: seq<string>, exclude: seq<string>)
    ensures var xml := FilterXml(name, uncategorized, hidden, vr, allow, require, exclude);
      ValuesTagged(xml, NameTag) == [name]
      && ValuesTagged(xml, UncategorizedTag) == [IntToString(uncategorized)]
      && ValuesTagged(xml, HiddenTag) == [IntToString(hidden)]
      && ValuesTagged(xml, VrTag) == [IntToString(vr)]
      && ValuesTagged(xml, AllowTag) == allow
      && ValuesTagged(xml, RequireTag) == require
      && ValuesTagged(xml, ExcludeTag) == exclude
  {
    ReadBackScalar(name, uncategorized, hidden, vr, allow, require, exclude, NameTag);
    ReadBackScalar(name, uncategorized, hidden, vr, allow, require, exclude, UncategorizedTag);
    ReadBackScalar(name, uncategorized, hidden, vr, allow, require, exclude, HiddenTag);
    ReadBackScalar(name, uncategorized, hidden, vr, allow, require, exclude, VrTag);
    ReadBackAllow(name, uncategorized, hidden, vr, allow, require, exclude);
    ReadBackRequire(name, uncategorized, hidden, vr, allow, require, exclude);
    ReadBackExclude(name, uncategorized, hidden, vr, allow, require, exclude);
  }

  // ---------------------------------------------------------------------
  // The filter

  class Filter {
    var name: Option<string>
    var allow: CategorySet
    var require: CategorySet
    var exclude: CategorySet
    var hidden: int
    var uncategorized: int
    var vr: int

    /** A named filter with three new empty category sets and every setting unset (-1). */
    constructor (name: Option<string>)
      ensures this.name == name
      ensures fresh(allow) && fresh(require) && fresh(exclude)
      ensures allow != require && require != exclude && allow != exclude
      ensures allow.names == [] && require.names == [] && exclude.names == []
      ensures hidden == -1 && uncategorized == -1 && vr == -1
    {
      this.name := name;
      allow := new CategorySet([]);
      require := new CategorySet([]);
      exclude := new CategorySet([]);
      hidden, uncategorized, vr := -1, -1, -1;
    }

    /** ToString: the filter's name. */
    function ToString(): (r: Option<string>)
      reads this
      ensures r == name
    {
      name
    }

    /**
     * The Allow setter stores a new set holding the argument's categories; a
     * null argument makes the SortedSet copy constructor throw an
     * ArgumentNullException, and nothing is stored.
     */
    method SetAllow(value: CategorySet?) returns (nullArgument: bool)
      modifies this
      ensures nullArgument <==> value == null
      ensures value == null ==> allow == old(allow)
      ensures value != null ==> fresh(allow) && allow.names == value.names
      ensures require == old(require) && exclude == old(exclude) && name == old(name)
      ensures hidden == old(hidden) && uncategorized == old(uncategorized) && vr == old(vr)
    {
      if value == null {
        return true;
      }
      allow := new CategorySet(value.names);
      return false;
    }

    /**
     * The Require setter stores a new set holding the argument's categories; a
     * null argument makes the SortedSet copy constructor throw an
     * ArgumentNullException, and nothing is stored.
     */
    method SetRequire(value: CategorySet?) returns (nullArgument: bool)
      modifies this
      ensures nullArgument <==> value == null
      ensures value == null ==> require == old(require)
      ensures value != null ==> fresh(require) && require.names == value.names
      ensures allow == old(allow) && exclude == old(exclude) && name == old(name)
      ensures hidden == old(hidden) && uncategorized == old(uncategorized) && vr == old(vr)
    {
      if value == null {
        return true;
      }
      require := new CategorySet(value.names);
      return false;
    }

    /**
     * The Exclude setter stores a new set holding the argument's categories; a
     * null argument makes the SortedSet copy constructor throw an
     * ArgumentNullException, and nothing is stored.
     */
    method SetExclude(value: CategorySet?) returns (nullArgument: bool)
      modifies this
      ensures nullArgument <==> value == null
      ensures value == null ==> exclude == old(exclude)
      ensures value != null ==> fresh(exclude) && exclude.names == value.names
      ensures allow == old(allow) && require == old(require) && name == old(name)
      ensures hidden == old(hidden) && uncategorized == old(uncategorized) && vr == old(vr)
    {
      if value == null {
        return true;
      }
      exclude := new CategorySet(value.names);
      return false;
    }

    /** WriteToXml: the tokens sent to the writer; a null name is written as an empty element. */
    method WriteToXml() returns (tokens: seq<XmlToken>)
      ensures tokens == FilterXml(name.GetOr(""), uncategorized, hidden, vr, allow.names, require.names, exclude.names)
    {
      tokens := [Start(FilterTag), Element(NameTag, name.GetOr("")), Element(UncategorizedTag, IntToString(uncategorized)),
                 Element(HiddenTag, IntToString(hidden)), Element(VrTag, IntToString(vr))];
      var head := tokens;
      for i := 0 to |allow.names|
        invariant tokens == head + Elements(AllowTag, allow.names[..i])
      {
        assert allow.names[..i + 1][..i] == allow.names[..i];
        tokens := tokens + [Element(AllowTag, allow.names[i])];
      }
      assert allow.names[..|allow.names|] == allow.names;
      head := tokens;
      for i := 0 to |require.names|
        invariant tokens == head + Elements(RequireTag, require.names[..i])
      {
        assert require.names[..i + 1][..i] == require.names[..i];
        tokens := tokens + [Element(RequireTag, require.names[i])];
      }
      assert require.names[..|require.names|] == require.names;
      head := tokens;
      for i := 0 to |exclude.names|
        invariant tokens == head + Elements(ExcludeTag, exclude.names[..i])
      {
        assert exclude.names[..i + 1][..i] == exclude.names[..i];
        tokens := tokens + [Element(ExcludeTag, exclude.names[i])];
      }
      assert exclude.names[..|exclude.names|] == exclude.names;
      tokens := tokens + [End];
    }
  }

  /** Because the setter copies, changing the argument afterwards leaves the filter's set as it was. */
  method SetterCopies(f: Filter, value: CategorySet, later: seq<string>)
    modifies f, value
    ensures f.allow.names == old(value.names) && value.names == later
  {
    var _ := f.SetAllow(value);
    value.names := later;
  }
}
