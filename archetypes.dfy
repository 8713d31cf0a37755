/**
 * Archetypes: the starting trait tables of the three archetypes, applying one
 * to a character, the primary-trait point budget, and folding modifiers into
 * base values at the end of character generation.
 */
module Archetypes {
  import opened Wrappers
  import opened Exceptions
  import opened Text
  import opened Traits
  import opened Characters

  const PrimaryTraits: seq<string> := ["AGL", "STR", "KNW", "MCH", "PER", "TCH"]
  const SecondaryTraits: seq<string> := ["WOUNDS", "FATE"]
  const OtherTraits: seq<string> := ["CP", "ENC"]
  const AllTraits: seq<string> := PrimaryTraits + SecondaryTraits + OtherTraits

  /** The points the six primary traits share. */
  const TotalPrimaryPoints: int := 54

  /**
   * One entry of the archetype table: a dictionary whose `name` and `desc`
   * keys and six primary-trait keys may each be present or missing.
   */
  datatype ArchetypeData = ArchetypeData(name: Option<string>, desc: Option<string>, primaries: map<string, int>)

  const ArchetypeTable: map<string, ArchetypeData> := map[
    "soldier" := ArchetypeData(
      Some("Soldier"),
      Some("|cSoldiers|n are highly skilled in many forms of combat.  They can be military veterans, mercinaries, security forces or anyone with professional military experience. "),
      map["AGL" := 12, "STR" := 12, "KNW" := 7, "MCH" := 8, "PER" := 8, "TCH" := 7]),
    "scout" := ArchetypeData(
      Some("Scout"),
      Some("|cScouts|n are explorers, independent pilots and all around survivalists."),
      map["AGL" := 8, "STR" := 7, "KNW" := 11, "MCH" := 11, "PER" := 8, "TCH" := 9]),
    "scoundrel" := ArchetypeData(
      Some("Scoundrels"),
      Some("|cScoundrels|n are con-men, gamblers, crime lords and fixers."),
      map["AGL" := 11, "STR" := 6, "KNW" := 9, "MCH" := 9, "PER" := 13, "TCH" := 6])
  ]

  /** A constructed archetype: display name, description and its trait table. */
  datatype Archetype = Archetype(name: string, desc: string, traits: map<string, Trait>)

  /** Whether an entry has every key the archetype constructor reads. */
  predicate HasRequiredKeys(data: ArchetypeData)
  {
    data.name.Some? && data.desc.Some? && forall k :: k in PrimaryTraits ==> k in data.primaries
  }

  /** The display name of a primary trait. */
  function PrimaryName(key: string): string
  {
    if key == "AGL" then "Agility"
    else if key == "STR" then "Strength"
    else if key == "KNW" then "Knowledge"
    else if key == "TCH" then "Technical"
    else if key == "PER" then "Perception"
    else "Mechanical"
  }

  /**
   * The trait the constructor lays out under a key that is not primary:
   * WOUNDS is bounded to 0..6, ENC is a counter bounded below by 0, and all
   * start at 0.
   */
  function OtherSpec(key: string): (t: Trait)
    ensures t.base == 0 && t.mod == 0
  {
    if key == "WOUNDS" then Trait("Wounds", Static, 0, 0, Some(0), Some(6))
    else if key == "FATE" then Trait("Fate", Static, 0, 0, None, None)
    else if key == "ENC" then Trait("Carry Weight", Counter, 0, 0, Some(0), None)
    else Trait("Character Points", Static, 0, 0, None, None)
  }

  /**
   * The trait the constructor lays out under `key`: primaries are static,
   * based at the data's value; everything starts without a modifier.
   */
  function TraitSpec(key: string, p: map<string, int>): Trait
    requires forall k :: k in PrimaryTraits ==> k in p
  {
    if key in PrimaryTraits then Trait(PrimaryName(key), Static, p[key], 0, None, None)
    else OtherSpec(key)
  }

  /**
   * The trait table of the constructor: all ten traits, the primaries at the
   * values `p` gives them and the rest at 0, none with a modifier.
   */
  function TraitTable(p: map<string, int>): (t: map<string, Trait>)
    requires forall k :: k in PrimaryTraits ==> k in p
    ensures forall k :: k in t <==> k in AllTraits
    ensures forall k :: k in PrimaryTraits ==> t[k].base == p[k] && t[k].mod == 0
    ensures forall k :: k in t && k !in PrimaryTraits ==> t[k].base == 0 && t[k].mod == 0
  {
    map k | k in AllTraits :: TraitSpec(k, p)
  }

  /**
   * `Archetype(data)`: the entry's name, description and trait table; a
   * missing key raises.
   */
  function NewArchetype(data: ArchetypeData): (r: Result<Archetype, Exception>)
    ensures r.Success? <==> HasRequiredKeys(data)
    ensures r.Failure? ==> r.error == ArchetypeException("Archetype data invalid.")
    ensures r.Success? ==> r.value == Archetype(data.name.value, data.desc.value, TraitTable(data.primaries))
  {
    if !HasRequiredKeys(data) then Failure(ArchetypeException("Archetype data invalid."))
    else Success(Archetype(data.name.value, data.desc.value, TraitTable(data.primaries)))
  }

  /** Every entry of the table constructs, and its six primaries use exactly the point budget. */
  lemma TableIsWellFormed()
    ensures forall k :: k in ArchetypeTable ==> HasRequiredKeys(ArchetypeTable[k])
    ensures forall k :: k in ArchetypeTable ==> PrimarySum(ArchetypeTable[k].primaries) == TotalPrimaryPoints
  {
    forall k | k in ArchetypeTable
      ensures HasRequiredKeys(ArchetypeTable[k]) && PrimarySum(ArchetypeTable[k].primaries) == TotalPrimaryPoints
    {
      var p := ArchetypeTable[k].primaries;
      assert forall t :: t in PrimaryTraits <==> t in {"AGL", "STR", "KNW", "MCH", "PER", "TCH"};
      assert p.Keys == {"AGL", "STR", "KNW", "MCH", "PER", "TCH"};
    }
  }

  /** The sum of the six primary values of a complete entry. */
  function PrimarySum(p: map<string, int>): int
    requires forall k :: k in PrimaryTraits ==> k in p
  {
    p["AGL"] + p["STR"] + p["KNW"] + p["MCH"] + p["PER"] + p["TCH"]
  }

  /** `load_archetype(name)`: the named archetype, case-insensitively; an unknown name raises. */
  function LoadArchetype(name: string): (r: Result<Archetype, Exception>)
    ensures r.Success? <==> Lower(name) in ArchetypeTable
    ensures r.Failure? ==> r.error == ArchetypeException("No data found for " + Lower(name))
    ensures r.Success? ==> Some(r.value.name) == ArchetypeTable[Lower(name)].name
  {
    var key := Lower(name);
    if key !in ArchetypeTable then Failure(ArchetypeException("No data found for " + key))
    else
      TableIsWellFormed();
      NewArchetype(ArchetypeTable[key])
  }

  /** Index of the first key the traits lack, or the number of keys when none is missing. */
  function FirstMissing(traits: map<string, Trait>, keys: seq<string>): (n: nat)
    ensures n <= |keys|
    ensures forall i :: 0 <= i < n ==> keys[i] in traits
    ensures n < |keys| ==> keys[n] !in traits
  {
    if keys == [] || keys[0] !in traits then 0 else 1 + FirstMissing(traits, keys[1..])
  }

  /** `sum(traits[t].actual for t in keys)`: raises at the first missing key. */
  function SumActuals(traits: map<string, Trait>, keys: seq<string>): (r: Result<int, Exception>)
    ensures r.Success? <==> FirstMissing(traits, keys) == |keys|
    ensures r.Failure? ==> r.error == KeyError(keys[FirstMissing(traits, keys)])
  {
    if keys == [] then Success(0)
    else if keys[0] !in traits then Failure(KeyError(keys[0]))
    else match SumActuals(traits, keys[1..])
      case Success(s) => Success(traits[keys[0]].Actual() + s)
      case Failure(e) => Failure(e)
  }

  /**
   * `get_remaining_allocation(traits)`: the budget less the primaries' actual
   * values; raises KeyError when a primary trait is missing.
   */
  function GetRemainingAllocation(traits: map<string, Trait>): (r: Result<int, Exception>)
    ensures r.Success? <==> forall k :: k in PrimaryTraits ==> k in traits
    ensures r.Failure? ==> r.error == KeyError(PrimaryTraits[FirstMissing(traits, PrimaryTraits)])
  {
    match SumActuals(traits, PrimaryTraits)
    case Success(spent) => Success(TotalPrimaryPoints - spent)
    case Failure(e) => Failure(e)
  }

  /**
   * `validate_primary_traits(traits)`: valid exactly when no points remain,
   * "Too many" when the budget is overspent, "Not enough" when points remain.
   */
  function ValidatePrimaryTraits(traits: map<string, Trait>): (r: Result<(bool, Option<string>), Exception>)
    ensures r.Success? <==> GetRemainingAllocation(traits).Success?
    ensures r.Success? ==> (r.value == (true, None) <==> GetRemainingAllocation(traits).value == 0)
    ensures r.Success? ==> (r.value == (false, Some("Too many trait points allocated.")) <==> GetRemainingAllocation(traits).value < 0)
    ensures r.Success? ==> (r.value == (false, Some("Not enough trait points allocated.")) <==> GetRemainingAllocation(traits).value > 0)
  {
    match SumActuals(traits, PrimaryTraits)
    case Failure(e) => Failure(e)
    case Success(total) =>
      if total > TotalPrimaryPoints then Success((false, Some("Too many trait points allocated.")))
      else if total < TotalPrimaryPoints then Success((false, Some("Not enough trait points allocated.")))
      else Success((true, None))
  }

  predicate Distinct(keys: seq<string>)
  {
    forall i, j :: 0 <= i < j < |keys| ==> keys[i] != keys[j]
  }

  /**
   * Replacing one trait moves the sum of the actual values of distinct keys by
   * the change in that trait's actual value when it is one of the keys, and
   * not at all otherwise.
   */
  lemma {:induction false} SumActualsUpdate(traits: map<string, Trait>, keys: seq<string>, key: string, t: Trait)
    requires key in traits && Distinct(keys) && SumActuals(traits, keys).Success?
    ensures SumActuals(traits[key := t], keys).Success?
    ensures SumActuals(traits[key := t], keys).value ==
      SumActuals(traits, keys).value + (if key in keys then t.Actual() - traits[key].Actual() else 0)
  {
    if keys != [] {
      SumActualsUpdate(traits, keys[1..], key, t);
      assert key in keys[1..] ==> key != keys[0];
      assert key in keys <==> key == keys[0] || key in keys[1..];
    }
  }

  /** The traits with the base of `key` lowered by `k`. */
  function LowerBase(traits: map<string, Trait>, key: string, k: int): (r: map<string, Trait>)
    requires key in traits
    ensures r.Keys == traits.Keys
  {
    traits[key := traits[key].(base := traits[key].base - k)]
  }

  /** Lowering a primary trait's base by `k` leaves `k` more points to allocate. */
  lemma LoweringRaisesRemaining(traits: map<string, Trait>, key: string, k: int)
    requires key in PrimaryTraits && GetRemainingAllocation(traits).Success?
    ensures key in traits
    ensures GetRemainingAllocation(LowerBase(traits, key, k)) == Success(GetRemainingAllocation(traits).value + k)
  {
    assert key in traits;
    SumActualsUpdate(traits, PrimaryTraits, key, traits[key].(base := traits[key].base - k));
  }

  /** Changing a trait that is not primary leaves the remaining allocation alone. */
  lemma OtherTraitsDoNotCount(traits: map<string, Trait>, key: string, t: Trait)
    requires key in traits && key !in PrimaryTraits && GetRemainingAllocation(traits).Success?
    ensures GetRemainingAllocation(traits[key := t]) == GetRemainingAllocation(traits)
  {
    SumActualsUpdate(traits, PrimaryTraits, key, t);
  }

  /** With every primary trait present, the remaining allocation is the budget less their six actual values. */
  lemma RemainingWhenComplete(traits: map<string, Trait>)
    requires forall k :: k in PrimaryTraits ==> k in traits
    ensures GetRemainingAllocation(traits) == Success(TotalPrimaryPoints - (
      traits["AGL"].Actual() + traits["STR"].Actual() + traits["KNW"].Actual() +
      traits["MCH"].Actual() + traits["PER"].Actual() + traits["TCH"].Actual()))
  {
    var a, b, c, d, e, f := traits["AGL"].Actual(), traits["STR"].Actual(), traits["KNW"].Actual(),
      traits["MCH"].Actual(), traits["PER"].Actual(), traits["TCH"].Actual();
    var ks := PrimaryTraits;
    assert ks[5..] == ["TCH"] && ks[5..][1..] == [];
    assert SumActuals(traits, ks[5..]) == Success(f);
    assert ks[4..][1..] == ks[5..];
    assert SumActuals(traits, ks[4..]) == Success(e + f);
    assert ks[3..][1..] == ks[4..];
    assert SumActuals(traits, ks[3..]) == Success(d + e + f);
    assert ks[2..][1..] == ks[3..];
    assert SumActuals(traits, ks[2..]) == Success(c + d + e + f);
    assert ks[1..][1..] == ks[2..];
    assert SumActuals(traits, ks[1..]) == Success(b + c + d + e + f);
    assert SumActuals(traits, ks) == Success(a + b + c + d + e + f);
  }

  /** Traits whose primaries have the actual values `p` leave the budget less their sum to allocate. */
  lemma RemainingFromActuals(traits: map<string, Trait>, p: map<string, int>)
    requires forall k :: k in PrimaryTraits ==> k in traits && k in p && traits[k].Actual() == p[k]
    ensures GetRemainingAllocation(traits) == Success(TotalPrimaryPoints - PrimarySum(p))
  {
    RemainingWhenComplete(traits);
  }

  /** A constructed archetype leaves the budget less its data's six primary values to allocate. */
  lemma NewArchetypeRemaining(data: ArchetypeData, a: Archetype)
    requires NewArchetype(data) == Success(a)
    ensures forall k :: k in PrimaryTraits ==> k in data.primaries
    ensures GetRemainingAllocation(a.traits) == Success(TotalPrimaryPoints - PrimarySum(data.primaries))
  {
    RemainingFromActuals(a.traits, data.primaries);
  }

  /** A freshly loaded archetype leaves no points to allocate and validates. */
  lemma LoadedArchetypeUsesBudget(name: string)
    requires Lower(name) in ArchetypeTable
    ensures GetRemainingAllocation(LoadArchetype(name).value.traits) == Success(0)
    ensures ValidatePrimaryTraits(LoadArchetype(name).value.traits) == Success((true, None))
  {
    TableIsWellFormed();
    var data := ArchetypeTable[Lower(name)];
    assert LoadArchetype(name) == NewArchetype(data);
    NewArchetypeRemaining(data, LoadArchetype(name).value);
  }

  /** The lowering of the allocation test: AGL and TCH by 2, the other four primaries by 1. */
  function LowerForTest(t0: map<string, Trait>): (r: map<string, Trait>)
    requires forall k :: k in PrimaryTraits ==> k in t0
    ensures r.Keys == t0.Keys
  {
    LowerBase(LowerBase(LowerBase(LowerBase(LowerBase(LowerBase(t0,
      "AGL", 2), "STR", 1), "KNW", 1), "MCH", 1), "PER", 1), "TCH", 2)
  }

  /** Lowering three primary traits in turn frees the sum of the three amounts. */
  lemma LoweringThreeRaisesRemaining(t0: map<string, Trait>, a: string, ka: int, b: string, kb: int, c: string, kc: int)
    requires a in PrimaryTraits && b in PrimaryTraits && c in PrimaryTraits
    requires a in t0 && b in t0 && c in t0
    requires GetRemainingAllocation(t0).Success?
    ensures GetRemainingAllocation(LowerBase(LowerBase(LowerBase(t0, a, ka), b, kb), c, kc))
      == Success(GetRemainingAllocation(t0).value + ka + kb + kc)
  {
    LoweringRaisesRemaining(t0, a, ka);
    var t1 := LowerBase(t0, a, ka);
    LoweringRaisesRemaining(t1, b, kb);
    var t2 := LowerBase(t1, b, kb);
    LoweringRaisesRemaining(t2, c, kc);
  }

  /** The lowering of the allocation test frees 8 points, whatever was left before. */
  lemma LowerForTestFreesEight(t0: map<string, Trait>)
    requires GetRemainingAllocation(t0).Success?
    ensures forall k :: k in PrimaryTraits ==> k in t0
    ensures GetRemainingAllocation(LowerForTest(t0)) == Success(GetRemainingAllocation(t0).value + 8)
  {
    assert forall i :: 0 <= i < |PrimaryTraits| ==> PrimaryTraits[i] in t0;
    LoweringThreeRaisesRemaining(t0, "AGL", 2, "STR", 1, "KNW", 1);
    var t3 := LowerBase(LowerBase(LowerBase(t0, "AGL", 2), "STR", 1), "KNW", 1);
    assert GetRemainingAllocation(t3) == Success(GetRemainingAllocation(t0).value + 4);
    LoweringThreeRaisesRemaining(t3, "MCH", 1, "PER", 1, "TCH", 2);
    assert LowerForTest(t0) == LowerBase(LowerBase(LowerBase(t3, "MCH", 1), "PER", 1), "TCH", 2);
  }

  /**
   * The allocation test: after loading an archetype, lowering AGL and TCH by
   * 2 and the other four primaries by 1 leaves 8 points to allocate.
   */
  lemma EightPointsAfterLowering(name: string)
    requires Lower(name) in ArchetypeTable
    ensures forall k :: k in PrimaryTraits ==> k in LoadArchetype(name).value.traits
    ensures GetRemainingAllocation(LowerForTest(LoadArchetype(name).value.traits)) == Success(8)
  {
    LoadedArchetypeUsesBudget(name);
    LowerForTestFreesEight(LoadArchetype(name).value.traits);
  }

  /** The traits `finalize_traits` folds: the primaries, then the secondaries. */
  const FinalizedTraits: seq<string> := PrimaryTraits + SecondaryTraits

  /**
   * One trait folded: it has no modifier, and its base and actual value are
   * its old actual value raised to at least 1; name, kind and bounds are kept.
   */
  function Finalize(t: Trait): (r: Trait)
    ensures r.mod == 0 && r.base == r.Actual()
    ensures r.Actual() >= 1 && r.Actual() >= t.Actual()
    ensures t.Actual() >= 1 ==> r.Actual() == t.Actual()
    ensures t.Actual() < 1 ==> r.Actual() == 1
    ensures r.name == t.name && r.kind == t.kind && r.lo == t.lo && r.hi == t.hi
  {
    t.(base := if t.Actual() >= 1 then t.Actual() else 1, mod := 0)
  }

  /** The traits after folding `keys` in order. */
  function FinalizeAll(traits: map<string, Trait>, keys: seq<string>): (r: map<string, Trait>)
    requires forall i :: 0 <= i < |keys| ==> keys[i] in traits
    ensures r.Keys == traits.Keys
  {
    if keys == [] then traits
    else
      var m := FinalizeAll(traits, keys[..|keys| - 1]);
      var k := keys[|keys| - 1];
      m[k := Finalize(m[k])]
  }

  /**
   * Folding distinct keys folds each of them once, from its value before the
   * fold, and leaves every other trait as it was.
   */
  lemma {:induction false} FinalizeAllEffect(traits: map<string, Trait>, keys: seq<string>, k: string)
    requires forall i :: 0 <= i < |keys| ==> keys[i] in traits
    requires Distinct(keys) && k in traits
    ensures k in keys ==> FinalizeAll(traits, keys)[k] == Finalize(traits[k])
    ensures k !in keys ==> FinalizeAll(traits, keys)[k] == traits[k]
  {
    if keys != [] {
      var init := keys[..|keys| - 1];
      assert Distinct(init);
      FinalizeAllEffect(traits, init, k);
      assert k in keys <==> k in init || k == keys[|keys| - 1];
    }
  }

  /**
   * The finalisation test: three points added to STR's modifier end up in its
   * base, and CP and ENC are not touched.
   */
  lemma RaisedModifierIsKept(traits: map<string, Trait>, original: int)
    requires forall k :: k in FinalizedTraits ==> k in traits
    requires traits["STR"].base == original && traits["STR"].mod == 3 && original + 3 >= 1
    ensures FinalizeAll(traits, FinalizedTraits)["STR"].Actual() == original + 3
    ensures FinalizeAll(traits, FinalizedTraits)["STR"].mod == 0
    ensures forall k :: k in OtherTraits && k in traits ==> FinalizeAll(traits, FinalizedTraits)[k] == traits[k]
  {
    FinalizeAllEffect(traits, FinalizedTraits, "STR");
    forall k | k in OtherTraits && k in traits ensures FinalizeAll(traits, FinalizedTraits)[k] == traits[k] {
      FinalizeAllEffect(traits, FinalizedTraits, k);
    }
  }

  /**
   * Folds the traits under `keys` in order; a missing trait raises after the
   * traits before it were folded.
   */
  method FinalizeKeys(ch: Character, keys: seq<string>) returns (r: Outcome<Exception>)
    modifies ch`traits
    ensures r.Pass? <==> FirstMissing(old(ch.traits), keys) == |keys|
    ensures r.Fail? ==> r.error == KeyError(keys[FirstMissing(old(ch.traits), keys)])
    ensures ch.traits == FinalizeAll(old(ch.traits), keys[..FirstMissing(old(ch.traits), keys)])
  {
    var n := FirstMissing(ch.traits, keys);
    var i := 0;
    while i < |keys|
      invariant 0 <= i <= n
      invariant ch.traits == FinalizeAll(old(ch.traits), keys[..i])
    {
      var key := keys[i];
      if key !in ch.traits {
        return Fail(KeyError(key));
      }
      assert keys[..i + 1][..i] == keys[..i];
      ch.traits := ch.traits[key := Finalize(ch.traits[key])];
      i := i + 1;
    }
    assert keys[..i] == keys[..n];
    r := Pass;
  }

  /**
   * `finalize_traits(traits)`: folds the primary and secondary traits in
   * order; a missing trait raises after the traits before it were folded.
   */
  method FinalizeTraits(ch: Character) returns (r: Outcome<Exception>)
    modifies ch`traits
    ensures r.Pass? <==> FirstMissing(old(ch.traits), FinalizedTraits) == |FinalizedTraits|
    ensures r.Fail? ==> r.error == KeyError(FinalizedTraits[FirstMissing(old(ch.traits), FinalizedTraits)])
    ensures ch.traits == FinalizeAll(old(ch.traits), FinalizedTraits[..FirstMissing(old(ch.traits), FinalizedTraits)])
  {
    r := FinalizeKeys(ch, FinalizedTraits);
  }

  /** The trait table `name` loads: every primary at the table's value and every other trait at 0. */
  lemma LoadedArchetypeTraits(name: string)
    requires Lower(name) in ArchetypeTable
    ensures forall k :: k in LoadArchetype(name).value.traits <==> k in AllTraits
    ensures forall k :: k in PrimaryTraits ==>
      k in ArchetypeTable[Lower(name)].primaries &&
      LoadArchetype(name).value.traits[k].Actual() == ArchetypeTable[Lower(name)].primaries[k]
    ensures forall k :: k in AllTraits && k !in PrimaryTraits ==> LoadArchetype(name).value.traits[k].Actual() == 0
  {
    var data, a := ArchetypeTable[Lower(name)], LoadArchetype(name).value;
    assert NewArchetype(data) == Success(a);
    NewArchetypeTraits(data, a);
  }

  /** The trait table of a constructed archetype, stated through its actual values. */
  lemma NewArchetypeTraits(data: ArchetypeData, a: Archetype)
    requires NewArchetype(data) == Success(a)
    ensures forall k :: k in a.traits <==> k in AllTraits
    ensures forall k :: k in PrimaryTraits ==> k in data.primaries && a.traits[k].Actual() == data.primaries[k]
    ensures forall k :: k in AllTraits && k !in PrimaryTraits ==> a.traits[k].Actual() == 0
  {
  }

  /**
   * Adds each entry of `table` to the character's traits, visiting the keys
   * in the order `keys` lists them; an existing trait under a key is replaced.
   */
  method AddTraits(ch: Character, table: map<string, Trait>, keys: seq<string>)
    requires forall k :: k in keys <==> k in table
    modifies ch`traits
    ensures ch.traits == old(ch.traits) + table
  {
    ghost var start := ch.traits;
    var i := 0;
    while i < |keys|
      invariant 0 <= i <= |keys|
      invariant forall k :: k in ch.traits <==> k in start || k in keys[..i]
      invariant forall k :: k in ch.traits ==> ch.traits[k] == if k in keys[..i] then table[k] else start[k]
    {
      var key := keys[i];
      assert keys[..i + 1] == keys[..i] + [key];
      ch.traits := ch.traits[key := table[key]];
      i := i + 1;
    }
    assert keys[..i] == keys;
    assert forall k :: k in ch.traits <==> k in start + table;
  }

  /**
   * `apply_archetype(char, name, reset=False)`: an unknown name raises, and
   * so does a character that already has an archetype unless `reset`. The
   * character then takes the archetype's display name and, its traits
   * cleared first when `reset`, the archetype's trait table on top.
   */
  method ApplyArchetype(ch: Character, name: string, reset: bool := false) returns (r: Outcome<Exception>)
    modifies ch`archetype, ch`traits
    ensures r.Fail? <==> Lower(name) !in ArchetypeTable || (old(ch.archetype).Some? && !reset)
    ensures Lower(name) !in ArchetypeTable ==> r == Fail(ArchetypeException("Invalid archetype."))
    ensures Lower(name) in ArchetypeTable && old(ch.archetype).Some? && !reset ==>
      r == Fail(ArchetypeException("Character is already a " + Lower(name)))
    ensures r.Fail? ==> ch.archetype == old(ch.archetype) && ch.traits == old(ch.traits)
    ensures r.Pass? ==> ch.archetype == ArchetypeTable[Lower(name)].name
    ensures r.Pass? ==> ch.traits == (if reset then map[] else old(ch.traits)) + LoadArchetype(name).value.traits
  {
    var key := Lower(name);
    if key !in ArchetypeTable {
      return Fail(ArchetypeException("Invalid archetype."));
    }
    if ch.archetype.Some? && !reset {
      return Fail(ArchetypeException("Character is already a " + key));
    }
    LowerIsLowerCase(name);
    var archetype := LoadArchetype(key).value;
    assert archetype == LoadArchetype(name).value;
    ch.archetype := Some(archetype.name);
    if reset {
      ch.traits := map[];
    }
    LoadedArchetypeTraits(name);
    AddTraits(ch, archetype.traits, AllTraits);
    r := Pass;
  }
}
