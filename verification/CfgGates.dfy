/**
 * Deciding whether one `cfg` predicate implies another, by trying every
 * assignment of the atoms that occur.
 */
module CfgGates {

  datatype Gate = Atom(name: string) | Not(inner: Gate) | All(parts: seq<Gate>) | Any(parts: seq<Gate>)

  // ---- Meaning ----

  /** A configuration: the atoms that hold in it. */
  type Config = set<string>

  predicate Holds(g: Gate, w: Config) {
    match g
    case Atom(name) => name in w
    case Not(inner) => !Holds(inner, w)
    case All(parts) => forall i :: 0 <= i < |parts| ==> Holds(parts[i], w)
    case Any(parts) => exists i :: 0 <= i < |parts| && Holds(parts[i], w)
  }

  /** Every platform built for is of exactly one of the two families. */
  predicate Buildable(w: Config) {
    ("unix" in w) != ("windows" in w)
  }

  ghost predicate Entails(left: Gate, right: Gate) {
    forall w: Config :: Buildable(w) && Holds(left, w) ==> Holds(right, w)
  }

  // ---- The code ----

  function AddAtom(into: seq<string>, name: string): seq<string> {
    if name in into then into else into + [name]
  }

  /** The atoms of a gate, in order of first occurrence, after those already there. */
  function Atoms(g: Gate, into: seq<string>): seq<string>
    decreases g
  {
    match g
    case Atom(name) => AddAtom(into, name)
    case Not(inner) => Atoms(inner, into)
    case All(parts) => AtomsOf(parts, into)
    case Any(parts) => AtomsOf(parts, into)
  }

  function AtomsOf(parts: seq<Gate>, into: seq<string>): seq<string>
    decreases parts
  {
    if parts == [] then into else AtomsOf(parts[1..], Atoms(parts[0], into))
  }

  function Names(left: Gate, right: Gate): seq<string> {
    Atoms(left, Atoms(right, []))
  }

  predicate Evaluate(g: Gate, world: map<string, bool>) {
    match g
    case Atom(name) => if name in world then world[name] else false
    case Not(inner) => !Evaluate(inner, world)
    case All(parts) => forall i :: 0 <= i < |parts| ==> Evaluate(parts[i], world)
    case Any(parts) => exists i :: 0 <= i < |parts| && Evaluate(parts[i], world)
  }

  /** Bit `i` of a natural number. */
  predicate Bit(m: nat, i: nat) {
    if i == 0 then m % 2 == 1 else Bit(m / 2, i - 1)
  }

  /** `mask & (1 << bit)`: the shift count is taken modulo 32. */
  predicate MaskBit(mask: nat, bit: nat) {
    Bit(mask, bit % 32)
  }

  function Pow2(n: nat): nat {
    if n == 0 then 1 else 2 * Pow2(n - 1)
  }

  /** The assignment a mask stands for. */
  function WorldOf(names: seq<string>, mask: nat): map<string, bool> {
    if names == [] then map[]
    else
      var n := |names| - 1;
      WorldOf(names[..n], mask)[names[n] := MaskBit(mask, n)]
  }

  predicate Plausible(world: map<string, bool>) {
    "unix" !in world || "windows" !in world || world["unix"] != world["windows"]
  }

  predicate Refutes(left: Gate, right: Gate, mask: nat) {
    var world := WorldOf(Names(left, right), mask);
    Plausible(world) && Evaluate(left, world) && !Evaluate(right, world)
  }

  /** What the enumeration decides. */
  predicate Decided(left: Gate, right: Gate) {
    forall mask :: 0 <= mask < Pow2(|Names(left, right)|) ==> !Refutes(left, right, mask)
  }

  method Implies(left: Gate, right: Gate) returns (r: bool)
    ensures r == Decided(left, right)
  {
    var names := Names(left, right);
    var mask := 0;
    while mask < Pow2(|names|)
      invariant 0 <= mask <= Pow2(|names|)
      invariant forall m :: 0 <= m < mask ==> !Refutes(left, right, m)
    {
      var world := WorldOf(names, mask);
      if Plausible(world) && Evaluate(left, world) && !Evaluate(right, world) {
        assert Refutes(left, right, mask);
        return false;
      }
      mask := mask + 1;
    }
    r := true;
  }

  // ---- Atoms ----

  predicate Distinct(names: seq<string>) {
    forall i, j :: 0 <= i < j < |names| ==> names[i] != names[j]
  }

  /** The gate mentions no atom outside the list. */
  predicate Covers(names: seq<string>, g: Gate) {
    match g
    case Atom(name) => name in names
    case Not(inner) => Covers(names, inner)
    case All(parts) => forall i :: 0 <= i < |parts| ==> Covers(names, parts[i])
    case Any(parts) => forall i :: 0 <= i < |parts| ==> Covers(names, parts[i])
  }

  lemma {:induction false} CoversMore(names: seq<string>, more: seq<string>, g: Gate)
    requires Covers(names, g) && names <= more
    ensures Covers(more, g)
    decreases g
  {
    match g
    case Atom(name) => assert forall i :: 0 <= i < |names| ==> more[i] == names[i];
    case Not(inner) => CoversMore(names, more, inner);
    case All(parts) =>
      forall i | 0 <= i < |parts| ensures Covers(more, parts[i]) { CoversMore(names, more, parts[i]); }
    case Any(parts) =>
      forall i | 0 <= i < |parts| ensures Covers(more, parts[i]) { CoversMore(names, more, parts[i]); }
  }

  /** Collecting only appends, keeps the list without repeats, and covers the gate. */
  lemma {:induction false} AtomsCover(g: Gate, into: seq<string>)
    requires Distinct(into)
    ensures into <= Atoms(g, into) && Distinct(Atoms(g, into)) && Covers(Atoms(g, into), g)
    decreases g
  {
    match g
    case Atom(name) =>
    case Not(inner) => AtomsCover(inner, into);
    case All(parts) => AtomsOfCover(parts, into);
    case Any(parts) => AtomsOfCover(parts, into);
  }

  lemma {:induction false} AtomsOfCover(parts: seq<Gate>, into: seq<string>)
    requires Distinct(into)
    ensures into <= AtomsOf(parts, into) && Distinct(AtomsOf(parts, into))
    ensures forall i :: 0 <= i < |parts| ==> Covers(AtomsOf(parts, into), parts[i])
    decreases parts
  {
    if parts != [] {
      var first := Atoms(parts[0], into);
      AtomsCover(parts[0], into);
      AtomsOfCover(parts[1..], first);
      CoversMore(first, AtomsOf(parts, into), parts[0]);
      forall i | 0 <= i < |parts| ensures Covers(AtomsOf(parts, into), parts[i]) {
        if i > 0 { assert parts[1..][i - 1] == parts[i]; }
      }
    }
  }

  lemma NamesCover(left: Gate, right: Gate)
    ensures Distinct(Names(left, right)) && Covers(Names(left, right), left) && Covers(Names(left, right), right)
  {
    AtomsCover(right, []);
    AtomsCover(left, Atoms(right, []));
    CoversMore(Atoms(right, []), Names(left, right), right);
  }

  // ---- Worlds ----

  /** An assignment and a configuration that agree on the listed atoms. */
  predicate Agree(names: seq<string>, world: map<string, bool>, w: Config) {
    forall i :: 0 <= i < |names| ==> names[i] in world && world[names[i]] == (names[i] in w)
  }

  lemma {:induction false} EvaluateHolds(g: Gate, names: seq<string>, world: map<string, bool>, w: Config)
    requires Covers(names, g) && Agree(names, world, w)
    ensures Evaluate(g, world) == Holds(g, w)
    decreases g
  {
    match g
    case Atom(name) =>
    case Not(inner) => EvaluateHolds(inner, names, world, w);
    case All(parts) =>
      forall i | 0 <= i < |parts| ensures Evaluate(parts[i], world) == Holds(parts[i], w) {
        EvaluateHolds(parts[i], names, world, w);
      }
    case Any(parts) =>
      forall i | 0 <= i < |parts| ensures Evaluate(parts[i], world) == Holds(parts[i], w) {
        EvaluateHolds(parts[i], names, world, w);
      }
  }

  lemma {:induction false} WorldAt(names: seq<string>, mask: nat)
    requires Distinct(names)
    ensures forall i :: 0 <= i < |names| ==>
              names[i] in WorldOf(names, mask) && WorldOf(names, mask)[names[i]] == MaskBit(mask, i)
    ensures forall name :: name in WorldOf(names, mask) ==> name in names
  {
    if names != [] {
      var n := |names| - 1;
      WorldAt(names[..n], mask);
      assert names == names[..n] + [names[n]];
    }
  }

  function Encode(names: seq<string>, w: Config): nat {
    if names == [] then 0 else (if names[0] in w then 1 else 0) + 2 * Encode(names[1..], w)
  }

  lemma {:induction false} EncodeBits(names: seq<string>, w: Config, i: nat)
    requires i < |names|
    ensures Bit(Encode(names, w), i) == (names[i] in w)
  {
    var rest := Encode(names[1..], w);
    assert Encode(names, w) == (if names[0] in w then 1 else 0) + 2 * rest;
    if i > 0 {
      EncodeBits(names[1..], w, i - 1);
      assert Encode(names, w) / 2 == rest;
    }
  }

  lemma {:induction false} EncodeBound(names: seq<string>, w: Config)
    ensures Encode(names, w) < Pow2(|names|)
  {
    if names != [] {
      EncodeBound(names[1..], w);
    }
  }

  /** Every configuration is tried, as far as the atoms go, while there are at most 32 of them. */
  lemma EncodedAgrees(names: seq<string>, w: Config)
    requires Distinct(names) && |names| <= 32
    ensures Agree(names, WorldOf(names, Encode(names, w)), w)
  {
    hide Bit, WorldOf, Encode;
    WorldAt(names, Encode(names, w));
    forall i | 0 <= i < |names| ensures MaskBit(Encode(names, w), i) == (names[i] in w) {
      EncodeBits(names, w, i);
    }
  }

  /** The configuration a plausible assignment extends to. */
  function ConfigOf(names: seq<string>, world: map<string, bool>): Config {
    var held := set name | name in names && name in world && world[name];
    if "unix" in names then (if "windows" in names || "unix" in held then held else held + {"windows"})
    else if "windows" in names then (if "windows" in held then held else held + {"unix"})
    else held + {"unix"} - {"windows"}
  }

  lemma ConfigAgrees(names: seq<string>, world: map<string, bool>)
    requires Plausible(world)
    requires forall name :: name in names <==> name in world
    ensures Agree(names, world, ConfigOf(names, world)) && Buildable(ConfigOf(names, world))
  {
  }

  /**
   * With at most 32 atoms the enumeration decides exactly whether every
   * buildable configuration with `left` has `right`, though it never looks at
   * atoms that do not occur.
   */
  lemma DecidedIsEntails(left: Gate, right: Gate)
    requires |Names(left, right)| <= 32
    ensures Decided(left, right) <==> Entails(left, right)
  {
    hide Names, WorldOf, Encode, ConfigOf, Plausible;
    var names := Names(left, right);
    NamesCover(left, right);
    if Decided(left, right) {
      forall w: Config | Buildable(w) && Holds(left, w) ensures Holds(right, w) {
        TriedConfig(left, right, w);
      }
    } else {
      var mask :| 0 <= mask < Pow2(|names|) && Refutes(left, right, mask);
      FoundConfig(left, right, mask);
    }
  }

  lemma TriedConfig(left: Gate, right: Gate, w: Config)
    requires |Names(left, right)| <= 32 && Decided(left, right) && Buildable(w) && Holds(left, w)
    ensures Holds(right, w)
  {
    hide Names, WorldOf, Encode, Pow2;
    var names := Names(left, right);
    NamesCover(left, right);
    var mask := Encode(names, w);
    var world := WorldOf(names, mask);
    EncodedAgrees(names, w);
    EncodeBound(names, w);
    WorldAt(names, mask);
    EvaluateHolds(left, names, world, w);
    EvaluateHolds(right, names, world, w);
    PlausibleIfAgrees(names, world, w);
    assert !Refutes(left, right, mask);
  }

  lemma PlausibleIfAgrees(names: seq<string>, world: map<string, bool>, w: Config)
    requires Agree(names, world, w) && Buildable(w) && forall name :: name in world ==> name in names
    ensures Plausible(world)
  {
  }

  lemma FoundConfig(left: Gate, right: Gate, mask: nat)
    requires Refutes(left, right, mask)
    ensures !Entails(left, right)
  {
    hide Names, WorldOf, ConfigOf;
    var names := Names(left, right);
    NamesCover(left, right);
    var world := WorldOf(names, mask);
    WorldAt(names, mask);
    ConfigAgrees(names, world);
    var w := ConfigOf(names, world);
    EvaluateHolds(left, names, world, w);
    EvaluateHolds(right, names, world, w);
  }

  // ---- More than 32 atoms ----

  /** The `i`-th of a supply of atoms that are neither `unix` nor `windows`. */
  function Fresh(i: nat): string {
    seq(i + 1, _ => 'x')
  }

  function FreshNames(n: nat): seq<string> {
    seq(n, i requires 0 <= i < n => Fresh(i))
  }

  /** Fails only where atom 0 holds and atom 32 does not. */
  function Part(i: nat): Gate {
    if i == 0 then Not(Atom(Fresh(0)))
    else if i == 32 then Atom(Fresh(32))
    else All([Atom(Fresh(i)), Not(Atom(Fresh(i)))])
  }

  function Parts(n: nat): seq<Gate> {
    seq(n, i requires 0 <= i < n => Part(i))
  }

  lemma FreshDistinct(n: nat)
    ensures Distinct(FreshNames(n))
    ensures forall i: nat :: Fresh(i) != "unix" && Fresh(i) != "windows"
  {
    forall i, j | 0 <= i < j < n ensures FreshNames(n)[i] != FreshNames(n)[j] {
      assert |Fresh(i)| == i + 1 && |Fresh(j)| == j + 1;
    }
    forall i: nat ensures Fresh(i) != "unix" && Fresh(i) != "windows" {
      assert Fresh(i)[0] == 'x';
    }
  }

  lemma PartAtoms(i: nat, into: seq<string>)
    requires Fresh(i) !in into
    ensures Atoms(Part(i), into) == into + [Fresh(i)]
  {
    hide Fresh;
    if i != 0 && i != 32 {
      var a := Atom(Fresh(i));
      assert [a, Not(a)][1..] == [Not(a)] && [Not(a)][1..] == [];
      assert AtomsOf([a, Not(a)], into) == AtomsOf([Not(a)], into + [Fresh(i)]);
      assert AtomsOf([Not(a)], into + [Fresh(i)]) == AtomsOf([], Atoms(Not(a), into + [Fresh(i)]));
    }
  }

  lemma {:induction false} PartsAtoms(n: nat, i: nat)
    requires i <= n
    ensures AtomsOf(Parts(n)[i..], FreshNames(i)) == FreshNames(n)
    decreases n - i
  {
    hide Fresh, Part;
    if i < n {
      assert Parts(n)[i..][0] == Part(i) && Parts(n)[i..][1..] == Parts(n)[i + 1..];
      NotYetThere(i);
      PartAtoms(i, FreshNames(i));
      assert FreshNames(i) + [Fresh(i)] == FreshNames(i + 1);
      PartsAtoms(n, i + 1);
    } else {
      assert Parts(n)[n..] == [];
    }
  }

  lemma NotYetThere(i: nat)
    ensures Fresh(i) !in FreshNames(i)
  {
    forall j | 0 <= j < i ensures FreshNames(i)[j] != Fresh(i) {
      assert |Fresh(j)| == j + 1;
    }
  }

  lemma BigNames(n: nat)
    ensures Names(All([]), Any(Parts(n))) == FreshNames(n)
  {
    PartsAtoms(n, 0);
    assert Parts(n)[0..] == Parts(n) && FreshNames(0) == [];
  }

  lemma BigDecided(n: nat)
    requires n > 32
    ensures Decided(All([]), Any(Parts(n)))
  {
    hide Fresh, WorldOf, Names, Plausible, Bit;
    BigNames(n);
    FreshDistinct(n);
    forall mask | 0 <= mask < Pow2(n) ensures !Refutes(All([]), Any(Parts(n)), mask) {
      var world := WorldOf(FreshNames(n), mask);
      WorldAt(FreshNames(n), mask);
      assert FreshNames(n)[0] == Fresh(0) && FreshNames(n)[32] == Fresh(32);
      assert world[Fresh(0)] == MaskBit(mask, 0) && world[Fresh(32)] == MaskBit(mask, 32);
      if world[Fresh(0)] {
        assert Evaluate(Parts(n)[32], world);
      } else {
        assert Evaluate(Parts(n)[0], world);
      }
    }
  }

  lemma BigNotEntailed(n: nat)
    requires n > 32
    ensures !Entails(All([]), Any(Parts(n)))
  {
    FreshDistinct(n);
    var w: Config := {Fresh(0), "unix"};
    assert Fresh(32) !in w by { assert |Fresh(32)| == 33 && |Fresh(0)| == 1; }
    hide Fresh;
    forall i | 0 <= i < n ensures !Holds(Parts(n)[i], w) {
      if i != 0 && i != 32 { PartNeverHolds(i, w); }
    }
    assert Buildable(w) && Holds(All([]), w) && !Holds(Any(Parts(n)), w);
  }

  lemma PartNeverHolds(i: nat, w: Config)
    requires i != 0 && i != 32
    ensures !Holds(Part(i), w)
  {
    var a := Atom(Fresh(i));
    assert [a, Not(a)][0] == a && [a, Not(a)][1] == Not(a);
    assert !Holds([a, Not(a)][0], w) || !Holds([a, Not(a)][1], w);
  }

  /**
   * The decision is right for all gates over a given number of atoms exactly up
   * to 32: from the 33rd on, an atom is only ever tried together with an
   * earlier one.
   */
  lemma ExactUpTo32Atoms(n: nat)
    ensures (forall left, right :: |Names(left, right)| == n ==>
              (Decided(left, right) <==> Entails(left, right))) <==> n <= 32
  {
    hide Names, Decided, Entails;
    if n <= 32 {
      forall left, right | |Names(left, right)| == n ensures Decided(left, right) <==> Entails(left, right) {
        DecidedIsEntails(left, right);
      }
    } else {
      BigNames(n);
      BigDecided(n);
      BigNotEntailed(n);
      assert |Names(All([]), Any(Parts(n)))| == n;
    }
  }
}
