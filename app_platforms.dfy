/**
 * The [Flags] enumeration AppPlatforms: the platforms an app runs on, as the
 * bits of the enumeration's integer.  Only the low three bits are ever set,
 * so the low eight bits of the integer stand for all of it.
 */
module AppPlatforms {

  /** The low byte of the enumeration's underlying int, as a bit pattern. */
  type Platforms = bv8

  const None: Platforms := 0
  const Windows: Platforms := 1
  const Mac: Platforms := 1 << 1
  const Linux: Platforms := 1 << 2
  const All: Platforms := Windows | Mac | Linux

  /** The three named platforms. */
  datatype Platform = Win | MacOs | LinuxOs

  function Flag(p: Platform): (r: Platforms)
    ensures r == Windows || r == Mac || r == Linux
  {
    match p
    case Win => Windows
    case MacOs => Mac
    case LinuxOs => Linux
  }

  /** `p > AppPlatforms.None`: a value below 256 compares as a positive int exactly when it is not None. */
  predicate IsPositive(p: Platforms)
  {
    p as int > None as int
  }

  /** No bit outside Windows, Mac and Linux is set. */
  predicate WithinAll(p: Platforms)
  {
    p & !All == 0
  }

  /** The platforms whose bit is set. */
  function Members(p: Platforms): (r: set<Platform>)
    ensures forall q :: q in r <==> p & Flag(q) != 0
  {
    set q | q in {Win, MacOs, LinuxOs} && p & Flag(q) != 0
  }

  /** OR of a sequence of flags, starting from None. */
  function OrAll(fs: seq<Platform>): Platforms
  {
    if fs == [] then None else OrAll(fs[..|fs| - 1]) | Flag(fs[|fs| - 1])
  }

  lemma Values()
    ensures None == 0 && Windows == 1 && Mac == 2 && Linux == 4 && All == 7
  {
  }

  lemma FlagsWithinAll()
    ensures WithinAll(Windows) && WithinAll(Mac) && WithinAll(Linux)
  {
  }

  lemma Disjoint()
    ensures Windows & Mac == 0 && Windows & Linux == 0 && Mac & Linux == 0
  {
  }

  /** OR is commutative, associative and idempotent on flag values. */
  lemma OrIsUnionLike(a: Platforms, b: Platforms, c: Platforms)
    ensures a | b == b | a
    ensures (a | b) | c == a | (b | c)
    ensures a | a == a && a | None == a
  {
  }

  /** Seen as sets of platforms, OR is union. */
  lemma OrIsUnion(a: Platforms, b: Platforms)
    ensures Members(a | b) == Members(a) + Members(b)
  {
    forall q ensures q in Members(a | b) <==> q in Members(a) || q in Members(b) {
      FlagDistributes(a, b, q);
    }
  }

  lemma FlagDistributes(a: Platforms, b: Platforms, q: Platform)
    ensures (a | b) & Flag(q) != 0 <==> a & Flag(q) != 0 || b & Flag(q) != 0
  {
    match q
    case Win =>
    case MacOs =>
    case LinuxOs =>
  }

  /** Any OR of platform flags stays within All. */
  lemma {:induction false} OrAllWithinAll(fs: seq<Platform>)
    ensures WithinAll(OrAll(fs))
    ensures forall i :: 0 <= i < |fs| ==> fs[i] in Members(OrAll(fs))
  {
    if fs != [] {
      OrAllWithinAll(fs[..|fs| - 1]);
      var init := fs[..|fs| - 1];
      assert forall i :: 0 <= i < |init| ==> init[i] == fs[i];
    }
  }

  lemma OrKeepsWithinAll(a: Platforms, b: Platforms)
    requires WithinAll(a) && WithinAll(b)
    ensures WithinAll(a | b)
  {
  }
}
