/**
 * Races: the named race a character belongs to, the equipment slots and
 * limbs it gives the character, the bonuses it adds to trait modifiers, and
 * the list formatter used in a race's description.
 */
module Races {
  import opened Wrappers
  import opened Exceptions
  import opened Text
  import opened Traits
  import opened Characters

  /** `ALL_RACES`: the only names `load_race` will instantiate. */
  const AllRaces: seq<string> := ["Human"]

  /**
   * A race. `bonuses` is the race's bonus dictionary listed in the order
   * its iteration visits the entries; `foci` are the names of its foci.
   */
  datatype Race = Race(
    name: string,
    plural: string,
    size: string,
    slots: map<string, Option<string>>,
    limbs: seq<Limb>,
    foci: seq<string>,
    bonuses: seq<(string, int)>)

  /** The slots every race starts with, all empty. */
  const BaseSlots: map<string, Option<string>> := map["wield1" := None, "wield2" := None, "armor" := None]

  /** The limbs every race starts with, each with the slots it operates. */
  const BaseLimbs: seq<Limb> := [("r_arm", ["wield1"]), ("l_arm", ["wield2"]), ("body", ["armor"])]

  /**
   * `Human()`: the one race `load_race` can instantiate, with the base
   * layout, no foci and no bonuses.
   */
  function Human(): (r: Race)
    ensures r.name in AllRaces && r.plural == "Humans" && r.size == "medium"
    ensures r.slots == BaseSlots && r.limbs == BaseLimbs && LimbsUseKnownSlots(r)
    ensures r.foci == [] && r.bonuses == []
  {
    Race("Human", "Humans", "medium", BaseSlots, BaseLimbs, [], [])
  }

  /** `Elf()`: defined, but not in `ALL_RACES`; three foci and no bonuses. */
  function Elf(): (r: Race)
    ensures r.name !in AllRaces && r.plural == "Elves" && r.size == "medium"
    ensures r.slots == BaseSlots && r.limbs == BaseLimbs && LimbsUseKnownSlots(r)
    ensures r.foci == ["agility", "spirit", "alertness"] && r.bonuses == []
  {
    Race("Elf", "Elves", "medium", BaseSlots, BaseLimbs, ["agility", "spirit", "alertness"], [])
  }

  /** `Dwarf()`: defined, but not in `ALL_RACES`; small, with a +1 bonus to WILL. */
  function Dwarf(): (r: Race)
    ensures r.name !in AllRaces && r.plural == "Dwarves" && r.size == "small"
    ensures r.slots == BaseSlots && r.limbs == BaseLimbs && LimbsUseKnownSlots(r)
    ensures r.foci == ["brawn", "resilience", "alertness"] && r.bonuses == [("WILL", 1)]
  {
    Race("Dwarf", "Dwarves", "small", BaseSlots, BaseLimbs, ["brawn", "resilience", "alertness"], [("WILL", 1)])
  }

  /** Every slot a limb operates is one of the race's slots. */
  predicate LimbsUseKnownSlots(r: Race)
  {
    forall l, s :: l in r.limbs && s in l.1 ==> s in r.slots
  }

  /**
   * The base race layout: exactly the slots wield1, wield2 and armor, all
   * empty; the limbs r_arm, l_arm and body; and each limb's slots are slots
   * of the race. Every race class keeps that layout.
   */
  lemma RaceLayout(r: Race)
    requires r in {Human(), Elf(), Dwarf()}
    ensures r.slots.Keys == {"wield1", "wield2", "armor"}
    ensures forall s :: s in r.slots ==> r.slots[s] == None
    ensures |r.limbs| == 3 && r.limbs[0].0 == "r_arm" && r.limbs[1].0 == "l_arm" && r.limbs[2].0 == "body"
    ensures LimbsUseKnownSlots(r)
  {
  }

  /** `load_race(name)`: capitalises the name and instantiates it when it is in `ALL_RACES`. */
  function LoadRace(name: string): (r: Result<Race, Exception>)
    ensures r.Success? <==> Capitalize(name) in AllRaces
    ensures r.Success? ==> r.value.name == Capitalize(name)
    ensures r.Failure? ==> r.error == RaceException("Invalid race specified.")
  {
    var key := Capitalize(name);
    if key in AllRaces then Success(Human()) else Failure(RaceException("Invalid race specified."))
  }

  /** The lookup ignores case: it succeeds exactly for the names that lower-case to "human". */
  lemma LoadRaceAcceptsHumanInAnyCase(name: string)
    ensures LoadRace(name).Success? <==> Lower(name) == "human"
    ensures LoadRace(name).Success? ==> LoadRace(name).value == Human()
  {
    HumanSpellings();
    CapitalizeAgreesWithLower(name, "Human");
    assert Capitalize(name) in AllRaces <==> Capitalize(name) == "Human";
  }

  lemma HumanSpellings()
    ensures Capitalize("Human") == "Human" && Lower("Human") == "human"
  {
    assert Capitalize("Human") == "Human";
  }

  /** "dwarf" names a race class, but not one in `ALL_RACES`, so it is refused. */
  lemma DwarfIsNotLoadable()
    ensures LoadRace("dwarf") == Failure(RaceException("Invalid race specified."))
  {
    LoadRaceAcceptsHumanInAnyCase("dwarf");
  }

  /** What `apply_race` is given: a race name, or a race object. */
  datatype RaceRef = ByName(name: string) | ByObject(race: Race)
  {
    /** The name `apply_race` reloads the race by. */
    function Name(): string
    {
      match this
      case ByName(n) => n
      case ByObject(r) => r.name
    }
  }

  /** Passing a race object reloads the race of that name, so any edits to the object are dropped. */
  lemma RaceObjectIsReloaded(r: Race)
    requires r.name == "Human"
    ensures LoadRace(ByObject(r).Name()) == Success(Human())
  {
    LoadRaceAcceptsHumanInAnyCase(r.name);
  }

  /** Index of the first bonus whose trait the character lacks, or the number of bonuses. */
  function FirstMissingTrait(traits: map<string, Trait>, bonuses: seq<(string, int)>): (n: nat)
    ensures n <= |bonuses|
    ensures forall i :: 0 <= i < n ==> bonuses[i].0 in traits
    ensures n < |bonuses| ==> bonuses[n].0 !in traits
  {
    if bonuses == [] || bonuses[0].0 !in traits then 0
    else 1 + FirstMissingTrait(traits, bonuses[1..])
  }

  /** The outcome of adding `bonuses`: the lookup of the first missing trait raises. */
  function BonusOutcome(traits: map<string, Trait>, bonuses: seq<(string, int)>): (r: Outcome<Exception>)
    ensures r.Pass? <==> forall b :: b in bonuses ==> b.0 in traits
    ensures r.Fail? ==> exists b :: b in bonuses && b.0 !in traits && r.error == KeyError(b.0)
  {
    var n := FirstMissingTrait(traits, bonuses);
    if n == |bonuses| then Pass else Fail(KeyError(bonuses[n].0))
  }

  /** The traits after adding each bonus in turn to its trait's modifier; a missing trait is skipped. */
  function AddBonuses(traits: map<string, Trait>, bonuses: seq<(string, int)>): (r: map<string, Trait>)
    ensures r.Keys == traits.Keys
  {
    if bonuses == [] then traits
    else
      var m := AddBonuses(traits, bonuses[..|bonuses| - 1]);
      var (key, bonus) := bonuses[|bonuses| - 1];
      if key in m then m[key := m[key].(mod := m[key].mod + bonus)] else m
  }

  /** The total bonus the list gives one trait. */
  function BonusFor(bonuses: seq<(string, int)>, key: string): int
  {
    if bonuses == [] then 0
    else
      var (t, b) := bonuses[|bonuses| - 1];
      BonusFor(bonuses[..|bonuses| - 1], key) + (if t == key then b else 0)
  }

  /**
   * Adding bonuses raises each trait's modifier by the total bonus for it
   * and changes nothing else about any trait: traits without a bonus are
   * left as they were.
   */
  lemma {:induction false} AddBonusesEffect(traits: map<string, Trait>, bonuses: seq<(string, int)>)
    ensures forall k :: k in traits ==>
      AddBonuses(traits, bonuses)[k] == traits[k].(mod := traits[k].mod + BonusFor(bonuses, k))
  {
    if bonuses != [] {
      AddBonusesEffect(traits, bonuses[..|bonuses| - 1]);
    }
  }

  /** A trait no bonus names keeps its total bonus of 0. */
  lemma {:induction false} BonusForUnnamed(bonuses: seq<(string, int)>, key: string)
    requires forall b :: b in bonuses ==> b.0 != key
    ensures BonusFor(bonuses, key) == 0
  {
    if bonuses != [] {
      var init := bonuses[..|bonuses| - 1];
      assert forall b :: b in init ==> b in bonuses;
      BonusForUnnamed(init, key);
    }
  }

  /**
   * The bonus loop of `apply_race`: for each bonus, in order, add it to the
   * modifier of the trait it names. A trait the character lacks raises at
   * its lookup, after the bonuses before it were added.
   */
  method AddRaceBonuses(ch: Character, bonuses: seq<(string, int)>) returns (r: Outcome<Exception>)
    modifies ch`traits
    ensures r == BonusOutcome(old(ch.traits), bonuses)
    ensures ch.traits == AddBonuses(old(ch.traits), bonuses[..FirstMissingTrait(old(ch.traits), bonuses)])
  {
    var n := FirstMissingTrait(ch.traits, bonuses);
    ghost var start := ch.traits;
    var i := 0;
    while i < |bonuses|
      invariant 0 <= i <= n
      invariant ch.traits == AddBonuses(start, bonuses[..i])
    {
      var key, bonus := bonuses[i].0, bonuses[i].1;
      if key !in ch.traits {
        assert key !in start;
        assert i == n;
        return Fail(KeyError(key));
      }
      assert key in start;
      assert i < n;
      assert bonuses[..i + 1][..i] == bonuses[..i];
      ch.traits := ch.traits[key := ch.traits[key].(mod := ch.traits[key].mod + bonus)];
      i := i + 1;
    }
    assert bonuses[..i] == bonuses[..n];
    r := Pass;
  }

  /**
   * `apply_race(char, race)`: reloads the race by name, then sets the
   * character's race name, slots and limbs, then adds the race's bonuses.
   * An unknown race raises before anything changes.
   */
  method ApplyRace(ch: Character, race: RaceRef) returns (r: Outcome<Exception>)
    modifies ch`race, ch`slots, ch`limbs, ch`traits
    ensures LoadRace(race.Name()).Failure? ==>
      r == Fail(RaceException("Invalid race specified.")) &&
      ch.race == old(ch.race) && ch.slots == old(ch.slots) && ch.limbs == old(ch.limbs) && ch.traits == old(ch.traits)
    ensures LoadRace(race.Name()).Success? ==> ch.race == Some(LoadRace(race.Name()).value.name)
    ensures LoadRace(race.Name()).Success? ==> ch.slots == LoadRace(race.Name()).value.slots
    ensures LoadRace(race.Name()).Success? ==> ch.limbs == LoadRace(race.Name()).value.limbs
    ensures LoadRace(race.Name()).Success? ==> r == BonusOutcome(old(ch.traits), LoadRace(race.Name()).value.bonuses)
    ensures LoadRace(race.Name()).Success? ==>
      var bonuses := LoadRace(race.Name()).value.bonuses;
      ch.traits == AddBonuses(old(ch.traits), bonuses[..FirstMissingTrait(old(ch.traits), bonuses)])
  {
    var loaded := LoadRace(race.Name());
    if loaded.Failure? {
      return Fail(loaded.error);
    }
    var rc := loaded.value;
    ch.race := Some(rc.name);
    ch.slots := rc.slots;
    ch.limbs := rc.limbs;
    r := AddRaceBonuses(ch, rc.bonuses);
  }

  /** A loaded race adds no bonus, so applying it always succeeds and leaves every trait as it was. */
  lemma LoadedRaceHasNoBonuses(name: string, traits: map<string, Trait>)
    requires LoadRace(name).Success?
    ensures BonusOutcome(traits, LoadRace(name).value.bonuses) == Pass
    ensures AddBonuses(traits, LoadRace(name).value.bonuses) == traits
  {
    LoadRaceAcceptsHumanInAnyCase(name);
  }

  /** An item's name in bold markup. */
  function Bold(name: string): string
  {
    "|b" + name + "|n"
  }

  function Bolded(names: seq<string>): (r: seq<string>)
    ensures |r| == |names|
    ensures forall i :: 0 <= i < |names| ==> r[i] == Bold(names[i])
  {
    seq(|names|, i requires 0 <= i < |names| => Bold(names[i]))
  }

  /**
   * `_format_focus_list(items)`, given the items' names: more than two are
   * separated by ", " with ", and " before the last, whose markup is the
   * brace form; two or fewer are joined with " and ".
   */
  function FormatFocusList(names: seq<string>): (r: string)
    ensures r == "" <==> names == []
  {
    if |names| > 2 then
      Join(", ", Bolded(names[..|names| - 1])) + ", and {b" + names[|names| - 1] + "{n"
    else
      Join(" and ", Bolded(names))
  }

  /** One item is just that item in bold; two are joined by " and ". */
  lemma FocusListOfOneOrTwo(a: string, b: string)
    ensures FormatFocusList([a]) == "|b" + a + "|n"
    ensures FormatFocusList([a, b]) == "|b" + a + "|n and |b" + b + "|n"
  {
    var x, y := Bold(a), Bold(b);
    assert Bolded([a, b]) == [x, y];
    assert Join(" and ", [x, y]) == x + " and " + y by {
      assert [x, y][1..] == [y];
    }
    assert x + " and " + y == "|b" + a + "|n and |b" + b + "|n" by {
      assert "|n" + " and " + "|b" == "|n and |b";
    }
  }

  /**
   * More than two items read as a comma-separated list whose last entry is
   * "and " followed by the last item.
   */
  lemma FocusListOfMany(names: seq<string>)
    requires |names| > 2
    ensures FormatFocusList(names) ==
      Join(", ", Bolded(names[..|names| - 1]) + ["and {b" + names[|names| - 1] + "{n"])
  {
    var last := "and {b" + names[|names| - 1] + "{n";
    JoinSnoc(", ", Bolded(names[..|names| - 1]), last);
  }

  /** The length of the formatted list: each name with its markup, and the separators between them. */
  lemma FocusListLength(names: seq<string>)
    requires |names| >= 1
    ensures |names| > 2 ==> |FormatFocusList(names)| == TotalLength(names) + 6 * |names| + 2
    ensures |names| <= 2 ==> |FormatFocusList(names)| == TotalLength(names) + 9 * |names| - 5
  {
    if |names| > 2 {
      ManyLength(names);
    } else {
      JoinLength(" and ", Bolded(names));
      BoldedLength(names);
    }
  }

  lemma ManyLength(names: seq<string>)
    requires |names| > 2
    ensures |FormatFocusList(names)| == TotalLength(names) + 6 * |names| + 2
  {
    var init, last := names[..|names| - 1], names[|names| - 1];
    var joined := Join(", ", Bolded(init));
    assert FormatFocusList(names) == joined + ", and {b" + last + "{n";
    JoinLength(", ", Bolded(init));
    BoldedLength(init);
    assert init + [last] == names;
    TotalLengthSnoc(init, last);
  }

  lemma {:induction false} BoldedLength(names: seq<string>)
    ensures TotalLength(Bolded(names)) == TotalLength(names) + 4 * |names|
  {
    if names != [] {
      assert Bolded(names)[1..] == Bolded(names[1..]);
      BoldedLength(names[1..]);
    }
  }

  lemma {:induction false} TotalLengthSnoc(parts: seq<string>, last: string)
    ensures TotalLength(parts + [last]) == TotalLength(parts) + |last|
  {
    if parts != [] {
      assert (parts + [last])[1..] == parts[1..] + [last];
      TotalLengthSnoc(parts[1..], last);
    }
  }
}
