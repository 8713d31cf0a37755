/**
 * Skills: the skill table, the sorted list of its keys and the six groups
 * of that list by governing trait, the case-insensitive lookup of a skill,
 * and giving a character its starting skills.
 */
module Skills {
  import opened Wrappers
  import opened Exceptions
  import opened Text
  import opened Sorting
  import opened Traits
  import opened Characters
  import opened Entries

  /** The primary trait that governs a skill. */
  datatype Governing = AGL | STR | KNW | MCH | PER | TCH
  {
    /** The trait's key among a character's traits. */
    function Key(): string
    {
      match this
      case AGL => "AGL"
      case STR => "STR"
      case KNW => "KNW"
      case MCH => "MCH"
      case PER => "PER"
      case TCH => "TCH"
    }
  }

  /** What the table records of a skill: its display name and its governing trait. */
  datatype SkillInfo = SkillInfo(name: string, governing: Governing)

  /** One entry of the skill table: the skill's key and its data. */
  datatype SkillEntry = SkillEntry(key: string, info: SkillInfo)

  /*
   * `_SKILL_DATA` is a dictionary, so the order of its entries carries no
   * meaning; they are listed here by key, in runs by initial letter.
   */

  const SkillsAB: seq<SkillEntry> := [
    SkillEntry("armor", SkillInfo("Armor", STR)),
    SkillEntry("armorer", SkillInfo("Armorer", TCH)),
    SkillEntry("astrography", SkillInfo("Astrography", KNW)),
    SkillEntry("bargain", SkillInfo("Bargain", PER)),
    SkillEntry("blunt_weapons", SkillInfo("Blunt Weapons", STR)),
    SkillEntry("bureaucracy", SkillInfo("Bureaucracy", KNW)),
    SkillEntry("business", SkillInfo("Business", KNW))
  ]

  const SkillsCD: seq<SkillEntry> := [
    SkillEntry("computers", SkillInfo("Computers", TCH)),
    SkillEntry("cultures", SkillInfo("Cultures", KNW)),
    SkillEntry("demolitions", SkillInfo("Demolitions", TCH)),
    SkillEntry("dodge", SkillInfo("Dodge", AGL))
  ]

  const SkillsEG: seq<SkillEntry> := [
    SkillEntry("energy_pistol", SkillInfo("Energy Pistol", AGL)),
    SkillEntry("energy_rifle", SkillInfo("Energy Rifle", AGL)),
    SkillEntry("gunnary_tech", SkillInfo("Gunnary Tech", TCH)),
    SkillEntry("gunnery", SkillInfo("Gunnery", MCH)),
    SkillEntry("gunsmith", SkillInfo("Gunsmith", TCH))
  ]

  const SkillsHM: seq<SkillEntry> := [
    SkillEntry("hand_to_hand", SkillInfo("Hand To Hand", STR)),
    SkillEntry("heavy_weapons", SkillInfo("Heavy Weapons", STR)),
    SkillEntry("intimidation", SkillInfo("Intimidation", KNW)),
    SkillEntry("knives", SkillInfo("Knives", STR)),
    SkillEntry("languages", SkillInfo("Languages", KNW)),
    SkillEntry("medicine", SkillInfo("Medicine", TCH)),
    SkillEntry("missile_launchers", SkillInfo("Missile Launchers", MCH))
  ]

  const SkillsNR: seq<SkillEntry> := [
    SkillEntry("navigation", SkillInfo("Navigation", MCH)),
    SkillEntry("persuasion", SkillInfo("Persuasion", PER)),
    SkillEntry("pistol", SkillInfo("Pistol", AGL)),
    SkillEntry("power_armor_tech", SkillInfo("Power Armor Tech", TCH)),
    SkillEntry("powered_armor", SkillInfo("Powered Armor", MCH)),
    SkillEntry("rifle", SkillInfo("Rifle", AGL)),
    SkillEntry("robotics", SkillInfo("Robotics", TCH))
  ]

  const SkillsScSh: seq<SkillEntry> := [
    SkillEntry("scholar", SkillInfo("Scholar", KNW)),
    SkillEntry("search", SkillInfo("Search", PER)),
    SkillEntry("security", SkillInfo("Security", TCH)),
    SkillEntry("sensors", SkillInfo("Sensors", MCH)),
    SkillEntry("shields", SkillInfo("Shields", MCH)),
    SkillEntry("shotgun", SkillInfo("Shotgun", AGL))
  ]

  const SkillsStT: seq<SkillEntry> := [
    SkillEntry("starship_engineering", SkillInfo("Starship Engineering", TCH)),
    SkillEntry("starship_pilot", SkillInfo("Starship Pilot", MCH)),
    SkillEntry("stealth", SkillInfo("Stealth", PER)),
    SkillEntry("streetwise", SkillInfo("Streetwise", KNW)),
    SkillEntry("survival", SkillInfo("Survival", KNW)),
    SkillEntry("swords", SkillInfo("Swords", STR)),
    SkillEntry("throwing", SkillInfo("Throwing", AGL))
  ]

  /** `_SKILL_DATA`: every skill's key, display name and governing trait. */
  const SkillTable: seq<SkillEntry> := SkillsAM + SkillsNT

  /** The entries from "armor" to "missile_launchers". */
  const SkillsAM: seq<SkillEntry> := SkillsAB + SkillsCD + SkillsEG + SkillsHM

  /** The entries from "navigation" to "throwing". */
  const SkillsNT: seq<SkillEntry> := SkillsNR + SkillsScSh + SkillsStT

  /** The keys of some entries, in the entries' order. */
  function KeysOf(entries: seq<SkillEntry>): (ks: seq<string>)
    ensures |ks| == |entries|
    ensures forall i :: 0 <= i < |entries| ==> ks[i] == entries[i].key
  {
    seq(|entries|, i requires 0 <= i < |entries| => entries[i].key)
  }

  lemma KeysOfConcat(a: seq<SkillEntry>, b: seq<SkillEntry>)
    ensures KeysOf(a + b) == KeysOf(a) + KeysOf(b)
  {
    assert forall i :: 0 <= i < |a + b| ==> KeysOf(a + b)[i] == (KeysOf(a) + KeysOf(b))[i];
  }

  /** `_SKILL_DATA.keys()`. */
  const SkillKeys: seq<string> := KeysOf(SkillTable)

  lemma SkillsABAscending()
    ensures StrictlySorted(KeysOf(SkillsAB))
  {
    var ks := KeysOf(SkillsAB);
    assert AdjacentLessFrom(ks, 6);
    assert AdjacentLessFrom(ks, 5) by {
      assert ks[5] == "bureaucracy" && ks[6] == "business";
      assert Less("bureaucracy", "business");
    }
    assert AdjacentLessFrom(ks, 4) by {
      assert ks[4] == "blunt_weapons" && ks[5] == "bureaucracy";
      assert Less("blunt_weapons", "bureaucracy");
    }
    assert AdjacentLessFrom(ks, 3) by {
      assert ks[3] == "bargain" && ks[4] == "blunt_weapons";
      assert Less("bargain", "blunt_weapons");
    }
    assert AdjacentLessFrom(ks, 2) by {
      assert ks[2] == "astrography" && ks[3] == "bargain";
      assert Less("astrography", "bargain");
    }
    assert AdjacentLessFrom(ks, 1) by {
      assert ks[1] == "armorer" && ks[2] == "astrography";
      assert Less("armorer", "astrography");
    }
    assert AdjacentLessFrom(ks, 0) by {
      assert ks[0] == "armor" && ks[1] == "armorer";
      assert Less("armor", "armorer");
    }
    AdjacentLessIsStrictlySorted(ks, 0);
    assert ks[0..] == ks;
  }

  lemma SkillsCDAscending()
    ensures StrictlySorted(KeysOf(SkillsCD))
  {
    var ks := KeysOf(SkillsCD);
    assert AdjacentLessFrom(ks, 3);
    assert AdjacentLessFrom(ks, 2) by {
      assert ks[2] == "demolitions" && ks[3] == "dodge";
      assert Less("demolitions", "dodge");
    }
    assert AdjacentLessFrom(ks, 1) by {
      assert ks[1] == "cultures" && ks[2] == "demolitions";
      assert Less("cultures", "demolitions");
    }
    assert AdjacentLessFrom(ks, 0) by {
      assert ks[0] == "computers" && ks[1] == "cultures";
      assert Less("computers", "cultures");
    }
    AdjacentLessIsStrictlySorted(ks, 0);
    assert ks[0..] == ks;
  }

  lemma SkillsEGAscending()
    ensures StrictlySorted(KeysOf(SkillsEG))
  {
    var ks := KeysOf(SkillsEG);
    assert AdjacentLessFrom(ks, 4);
    assert AdjacentLessFrom(ks, 3) by {
      assert ks[3] == "gunnery" && ks[4] == "gunsmith";
      assert Less("gunnery", "gunsmith");
    }
    assert AdjacentLessFrom(ks, 2) by {
      assert ks[2] == "gunnary_tech" && ks[3] == "gunnery";
      assert Less("gunnary_tech", "gunnery");
    }
    assert AdjacentLessFrom(ks, 1) by {
      assert ks[1] == "energy_rifle" && ks[2] == "gunnary_tech";
      assert Less("energy_rifle", "gunnary_tech");
    }
    assert AdjacentLessFrom(ks, 0) by {
      assert ks[0] == "energy_pistol" && ks[1] == "energy_rifle";
      LessAfterCommonPrefix("energy_pistol", "energy_rifle", 7);
    }
    AdjacentLessIsStrictlySorted(ks, 0);
    assert ks[0..] == ks;
  }

  lemma SkillsHMAscending()
    ensures StrictlySorted(KeysOf(SkillsHM))
  {
    var ks := KeysOf(SkillsHM);
    assert AdjacentLessFrom(ks, 6);
    assert AdjacentLessFrom(ks, 5) by {
      assert ks[5] == "medicine" && ks[6] == "missile_launchers";
      assert Less("medicine", "missile_launchers");
    }
    assert AdjacentLessFrom(ks, 4) by {
      assert ks[4] == "languages" && ks[5] == "medicine";
      assert Less("languages", "medicine");
    }
    assert AdjacentLessFrom(ks, 3) by {
      assert ks[3] == "knives" && ks[4] == "languages";
      assert Less("knives", "languages");
    }
    assert AdjacentLessFrom(ks, 2) by {
      assert ks[2] == "intimidation" && ks[3] == "knives";
      assert Less("intimidation", "knives");
    }
    assert AdjacentLessFrom(ks, 1) by {
      assert ks[1] == "heavy_weapons" && ks[2] == "intimidation";
      assert Less("heavy_weapons", "intimidation");
    }
    assert AdjacentLessFrom(ks, 0) by {
      assert ks[0] == "hand_to_hand" && ks[1] == "heavy_weapons";
      assert Less("hand_to_hand", "heavy_weapons");
    }
    AdjacentLessIsStrictlySorted(ks, 0);
    assert ks[0..] == ks;
  }

  lemma SkillsNRAscending()
    ensures StrictlySorted(KeysOf(SkillsNR))
  {
    var ks := KeysOf(SkillsNR);
    assert AdjacentLessFrom(ks, 6);
    assert AdjacentLessFrom(ks, 5) by {
      assert ks[5] == "rifle" && ks[6] == "robotics";
      assert Less("rifle", "robotics");
    }
    assert AdjacentLessFrom(ks, 4) by {
      assert ks[4] == "powered_armor" && ks[5] == "rifle";
      assert Less("powered_armor", "rifle");
    }
    assert AdjacentLessFrom(ks, 3) by {
      assert ks[3] == "power_armor_tech" && ks[4] == "powered_armor";
      LessAfterCommonPrefix("power_armor_tech", "powered_armor", 5);
    }
    assert AdjacentLessFrom(ks, 2) by {
      assert ks[2] == "pistol" && ks[3] == "power_armor_tech";
      assert Less("pistol", "power_armor_tech");
    }
    assert AdjacentLessFrom(ks, 1) by {
      assert ks[1] == "persuasion" && ks[2] == "pistol";
      assert Less("persuasion", "pistol");
    }
    assert AdjacentLessFrom(ks, 0) by {
      assert ks[0] == "navigation" && ks[1] == "persuasion";
      assert Less("navigation", "persuasion");
    }
    AdjacentLessIsStrictlySorted(ks, 0);
    assert ks[0..] == ks;
  }

  lemma SkillsScShAscending()
    ensures StrictlySorted(KeysOf(SkillsScSh))
  {
    var ks := KeysOf(SkillsScSh);
    assert AdjacentLessFrom(ks, 5);
    assert AdjacentLessFrom(ks, 4) by {
      assert ks[4] == "shields" && ks[5] == "shotgun";
      assert Less("shields", "shotgun");
    }
    assert AdjacentLessFrom(ks, 3) by {
      assert ks[3] == "sensors" && ks[4] == "shields";
      assert Less("sensors", "shields");
    }
    assert AdjacentLessFrom(ks, 2) by {
      assert ks[2] == "security" && ks[3] == "sensors";
      assert Less("security", "sensors");
    }
    assert AdjacentLessFrom(ks, 1) by {
      assert ks[1] == "search" && ks[2] == "security";
      assert Less("search", "security");
    }
    assert AdjacentLessFrom(ks, 0) by {
      assert ks[0] == "scholar" && ks[1] == "search";
      assert Less("scholar", "search");
    }
    AdjacentLessIsStrictlySorted(ks, 0);
    assert ks[0..] == ks;
  }

  lemma SkillsStTAscending()
    ensures StrictlySorted(KeysOf(SkillsStT))
  {
    var ks := KeysOf(SkillsStT);
    assert AdjacentLessFrom(ks, 6);
    assert AdjacentLessFrom(ks, 5) by {
      assert ks[5] == "swords" && ks[6] == "throwing";
      assert Less("swords", "throwing");
    }
    assert AdjacentLessFrom(ks, 4) by {
      assert ks[4] == "survival" && ks[5] == "swords";
      assert Less("survival", "swords");
    }
    assert AdjacentLessFrom(ks, 3) by {
      assert ks[3] == "streetwise" && ks[4] == "survival";
      assert Less("streetwise", "survival");
    }
    assert AdjacentLessFrom(ks, 2) by {
      assert ks[2] == "stealth" && ks[3] == "streetwise";
      assert Less("stealth", "streetwise");
    }
    assert AdjacentLessFrom(ks, 1) by {
      assert ks[1] == "starship_pilot" && ks[2] == "stealth";
      assert Less("starship_pilot", "stealth");
    }
    assert AdjacentLessFrom(ks, 0) by {
      assert ks[0] == "starship_engineering" && ks[1] == "starship_pilot";
      LessAfterCommonPrefix("starship_engineering", "starship_pilot", 9);
    }
    AdjacentLessIsStrictlySorted(ks, 0);
    assert ks[0..] == ks;
  }

  /**
   * Two runs of entries with strictly ascending keys, the first ending below
   * the start of the second, make one run with strictly ascending keys.
   */
  lemma JoinAscending(a: seq<SkillEntry>, b: seq<SkillEntry>, lastA: string, firstB: string)
    requires StrictlySorted(KeysOf(a)) && StrictlySorted(KeysOf(b))
    requires a != [] && b != [] && a[|a| - 1].key == lastA && b[0].key == firstB && Less(lastA, firstB)
    ensures StrictlySorted(KeysOf(a + b))
  {
    KeysOfConcat(a, b);
    StrictlySortedConcat(KeysOf(a), KeysOf(b));
  }

  /** The keys from "armor" to "missile_launchers" are strictly ascending. */
  lemma SkillsAMAscending()
    ensures StrictlySorted(KeysOf(SkillsAM))
  {
    SkillsABAscending();
    SkillsCDAscending();
    assert Less("business", "computers");
    JoinAscending(SkillsAB, SkillsCD, "business", "computers");
    SkillsEGAscending();
    assert Less("dodge", "energy_pistol");
    JoinAscending(SkillsAB + SkillsCD, SkillsEG, "dodge", "energy_pistol");
    SkillsHMAscending();
    assert Less("gunsmith", "hand_to_hand");
    JoinAscending(SkillsAB + SkillsCD + SkillsEG, SkillsHM, "gunsmith", "hand_to_hand");
  }

  /** The keys from "navigation" to "throwing" are strictly ascending. */
  lemma SkillsNTAscending()
    ensures StrictlySorted(KeysOf(SkillsNT))
  {
    SkillsNRAscending();
    SkillsScShAscending();
    assert Less("robotics", "scholar");
    JoinAscending(SkillsNR, SkillsScSh, "robotics", "scholar");
    SkillsStTAscending();
    assert Less("shotgun", "starship_engineering");
    JoinAscending(SkillsNR + SkillsScSh, SkillsStT, "shotgun", "starship_engineering");
  }

  /** The table's keys are strictly ascending, so no key occurs twice. */
  lemma SkillKeysStrictlySorted()
    ensures StrictlySorted(SkillKeys)
    ensures forall i, j :: 0 <= i < j < |SkillKeys| ==> SkillKeys[i] != SkillKeys[j]
  {
    SkillsAMAscending();
    SkillsNTAscending();
    assert Less("missile_launchers", "navigation");
    JoinAscending(SkillsAM, SkillsNT, "missile_launchers", "navigation");
    StrictlySortedIsDistinct(SkillKeys);
  }

  /** `ALL_SKILLS`: the table's keys, sorted. */
  const AllSkills: seq<string> := Sort(SkillKeys)

  /** `ALL_SKILLS` holds every key of the table exactly once, in ascending order. */
  lemma AllSkillsSortedKeys()
    ensures StrictlySorted(AllSkills)
    ensures forall i, j :: 0 <= i < j < |AllSkills| ==> AllSkills[i] != AllSkills[j]
    ensures forall k :: k in AllSkills <==> k in SkillKeys
    ensures |AllSkills| == |SkillTable|
  {
    SkillKeysStrictlySorted();
    SortOfStrictlySorted(SkillKeys);
  }

  /** The data stored under `key` among `entries`, the first entry with that key. */
  function Find(entries: seq<SkillEntry>, key: string): (r: Option<SkillInfo>)
    ensures r.Some? <==> key in KeysOf(entries)
    ensures r.Some? ==> exists i :: 0 <= i < |entries| && entries[i] == SkillEntry(key, r.value)
  {
    if entries == [] then None
    else if entries[0].key == key then Some(entries[0].info)
    else
      assert KeysOf(entries) == [entries[0].key] + KeysOf(entries[1..]);
      Find(entries[1..], key)
  }

  /** Whether the table holds the entry `key: info`. */
  predicate HasEntry(key: string, info: SkillInfo)
  {
    exists i :: 0 <= i < |SkillTable| && SkillTable[i] == SkillEntry(key, info)
  }

  /** `_SKILL_DATA.get(key)`. */
  function SkillData(key: string): (r: Option<SkillInfo>)
    ensures r.Some? <==> key in SkillKeys
    ensures r.Some? ==> HasEntry(key, r.value)
  {
    Find(SkillTable, key)
  }

  /** A key has one entry: the table maps each key to a single skill. */
  lemma SkillEntryUnique(key: string, a: SkillInfo, b: SkillInfo)
    requires HasEntry(key, a) && HasEntry(key, b)
    ensures a == b
  {
    SkillKeysStrictlySorted();
    var i :| 0 <= i < |SkillTable| && SkillTable[i] == SkillEntry(key, a);
    var j :| 0 <= j < |SkillTable| && SkillTable[j] == SkillEntry(key, b);
    assert SkillKeys[i] == key == SkillKeys[j];
  }

  /** Whether `key` is a skill whose governing trait is `t`. */
  predicate InGroup(t: string, key: string)
  {
    match SkillData(key)
    case Some(info) => info.governing.Key() == t
    case None => false
  }

  /** The skills of `ALL_SKILLS` governed by the trait `t`, in the order of `ALL_SKILLS`. */
  function SkillGroup(t: string): (r: seq<string>)
    ensures forall k :: k in r <==> k in AllSkills && InGroup(t, k)
  {
    Filter(AllSkills, k => InGroup(t, k))
  }

  /** `STR_SKILLS` */
  const StrSkills: seq<string> := SkillGroup("STR")
  /** `AGL_SKILLS` */
  const AglSkills: seq<string> := SkillGroup("AGL")
  /** `KNW_SKILLS` */
  const KnwSkills: seq<string> := SkillGroup("KNW")
  /** `MCH_SKILLS` */
  const MchSkills: seq<string> := SkillGroup("MCH")
  /** `PER_SKILLS` */
  const PerSkills: seq<string> := SkillGroup("PER")
  /** `TCH_SKILLS` */
  const TchSkills: seq<string> := SkillGroup("TCH")

  /** Every skill of `ALL_SKILLS` is in one of the six groups, and every member of a group is a skill. */
  lemma SkillGroupsCover(k: string)
    ensures k in AllSkills <==>
      k in StrSkills || k in AglSkills || k in KnwSkills || k in MchSkills || k in PerSkills || k in TchSkills
  {
    if k in AllSkills {
      AllSkillsSortedKeys();
      var g := SkillData(k).value.governing;
      assert InGroup(g.Key(), k);
      match g
      case STR => assert k in StrSkills;
      case AGL => assert k in AglSkills;
      case KNW => assert k in KnwSkills;
      case MCH => assert k in MchSkills;
      case PER => assert k in PerSkills;
      case TCH => assert k in TchSkills;
    }
  }

  /** No skill is in two groups, and each group is strictly ascending like `ALL_SKILLS`. */
  lemma SkillGroupsDisjointAndSorted(k: string, t: string, u: string)
    ensures k in SkillGroup(t) && k in SkillGroup(u) ==> t == u
    ensures StrictlySorted(SkillGroup(t))
  {
    AllSkillsSortedKeys();
    FilterKeepsOrder(AllSkills, k => InGroup(t, k));
  }

  /** `load_skill(skill)`: the table's data of the skill named, ignoring case; an unknown name raises. */
  function LoadSkill(name: string): (r: Result<SkillInfo, Exception>)
    ensures r.Success? <==> Lower(name) in AllSkills
    ensures r.Failure? ==> r.error == SkillException("Invalid skill name.")
    ensures r.Success? ==> HasEntry(Lower(name), r.value)
  {
    AllSkillsSortedKeys();
    var key := Lower(name);
    if key in AllSkills then Success(SkillData(key).value)
    else Failure(SkillException("Invalid skill name."))
  }

  /** Loading a skill by any spelling gives what loading its lower-case name gives. */
  lemma LoadSkillIgnoresCase(name: string)
    ensures LoadSkill(name) == LoadSkill(Lower(name))
  {
    LowerIsLowerCase(name);
  }

  /**
   * The skill `apply_skills` adds for one entry `name: value`, looked up by
   * the lower-case name its guard checks: a static D6 skill based at `value`,
   * with no modifier, under the table's display name and governing trait.
   */
  function NewSkill(name: string, value: int): (r: Result<Skill, Exception>)
    ensures r.Success? <==> Lower(name) in SkillKeys
    ensures r.Failure? ==> r.error == SkillException("Invalid skill " + Lower(name) + ".")
    ensures r.Success? ==> r.value.base == value && r.value.mod == 0 && r.value.isD6
    ensures r.Success? ==> SkillData(Lower(name)).Some?
    ensures r.Success? ==> r.value.name == SkillData(Lower(name)).value.name
    ensures r.Success? ==> r.value.governing == SkillData(Lower(name)).value.governing.Key()
  {
    match SkillData(Lower(name))
    case None => Failure(SkillException("Invalid skill " + Lower(name) + "."))
    case Some(info) => Success(Skill(info.name, value, 0, info.governing.Key(), true))
  }

  /**
   * One entry of `apply_skills` as written: the guard checks the lower-case
   * name, but the table is then indexed with the name as given.
   */
  function NewSkillAsWritten(name: string, value: int): (r: Result<Skill, Exception>)
    ensures Lower(name) !in SkillKeys ==> r == Failure(SkillException("Invalid skill " + Lower(name) + "."))
    ensures Lower(name) in SkillKeys && name !in SkillKeys ==> r == Failure(KeyError(name))
  {
    if Lower(name) !in SkillKeys then Failure(SkillException("Invalid skill " + Lower(name) + "."))
    else match SkillData(name)
      case None => Failure(KeyError(name))
      case Some(info) => Success(Skill(info.name, value, 0, info.governing.Key(), true))
  }

  /** A string that sorts before the first key, as every capitalised name does, is not a key. */
  lemma BelowFirstKeyIsNoKey(k: string)
    requires Less(k, "armor")
    ensures k !in SkillKeys
  {
    SkillKeysStrictlySorted();
    assert SkillKeys[0] == "armor";
    forall i | 0 <= i < |SkillKeys| ensures SkillKeys[i] != k {
      LessIsStrictTotalOrder(k, "armor", SkillKeys[i]);
      LessIsStrictTotalOrder(k, k, k);
    }
  }

  /**
   * A capitalised skill name passes the guard of `apply_skills` as written
   * and then raises KeyError, where the lookup by the lower-case name adds
   * the skill.
   */
  lemma CapitalisedSkillName()
    ensures NewSkillAsWritten("Dodge", 2) == Failure(KeyError("Dodge"))
    ensures NewSkill("Dodge", 2) == Success(Skill("Dodge", 2, 0, "AGL", true))
  {
    assert Lower("Dodge") == "dodge";
    assert SkillTable[10] == SkillEntry("dodge", SkillInfo("Dodge", AGL));
    assert "dodge" in SkillKeys by {
      assert SkillKeys[10] == "dodge";
    }
    assert Less("Dodge", "armor");
    BelowFirstKeyIsNoKey("Dodge");
    var info := SkillData("dodge").value;
    SkillEntryUnique("dodge", info, SkillInfo("Dodge", AGL));
  }

  /** Index of the first entry whose lower-case name is not a skill, or the number of entries. */
  function FirstUnknown(entries: seq<(string, int)>): (n: nat)
    ensures n <= |entries|
    ensures forall i :: 0 <= i < n ==> Lower(entries[i].0) in SkillKeys
    ensures n < |entries| ==> Lower(entries[n].0) !in SkillKeys
  {
    FirstRefused(NewSkill, entries)
  }

  /**
   * The skills after adding `entries` in order, each under its name as
   * given; an entry that is not a skill adds nothing.
   */
  function AddSkills(skills: map<string, Skill>, entries: seq<(string, int)>): map<string, Skill>
  {
    AddAll(NewSkill, skills, entries)
  }

  /**
   * `apply_skills(char, skills)`: clears the character's skills, then adds
   * one skill per entry; an entry whose lower-case name is not a skill
   * raises, keeping the skills added before it.
   */
  method ApplySkills(ch: Character, entries: seq<(string, int)>) returns (r: Outcome<Exception>)
    modifies ch`skills
    ensures r.Pass? <==> FirstUnknown(entries) == |entries|
    ensures r.Fail? ==> r.error == SkillException("Invalid skill " + Lower(entries[FirstUnknown(entries)].0) + ".")
    ensures ch.skills == AddSkills(map[], entries[..FirstUnknown(entries)])
  {
    var n := FirstRefused(NewSkill, entries);
    ch.skills := map[];
    var i := 0;
    while i < |entries|
      invariant 0 <= i <= n
      invariant ch.skills == AddSkills(map[], entries[..i])
    {
      var name, value := entries[i].0, entries[i].1;
      var skill := NewSkill(name, value);
      if skill.Failure? {
        assert i == n;
        return Fail(skill.error);
      }
      AddAllStep(NewSkill, map[], entries, i);
      ch.skills := ch.skills[name := skill.value];
      i := i + 1;
    }
    assert entries[..i] == entries[..n];
    r := Pass;
  }

  /** The key of an entry of the table is a key. */
  lemma EntryKeyIsKey(e: SkillEntry)
    requires e in SkillTable
    ensures e.key in SkillKeys
  {
    var i :| 0 <= i < |SkillTable| && SkillTable[i] == e;
    assert SkillKeys[i] == e.key;
  }

  lemma RiflesIsNoKey() ensures "rifles" !in SkillKeys {}

  lemma PoweredArmorIsNoKey() ensures "powered armor" !in SkillKeys {}

  lemma PilotingIsNoKey() ensures "piloting" !in SkillKeys {}

  lemma RiflesIsNoSkill()
    ensures Lower("rifles") !in SkillKeys
  {
    LowerOfLowerCase("rifles");
    RiflesIsNoKey();
  }

  lemma PoweredArmorIsNoSkill()
    ensures Lower("powered armor") !in SkillKeys
  {
    LowerOfLowerCase("powered armor");
    PoweredArmorIsNoKey();
  }

  lemma PilotingIsNoSkill()
    ensures Lower("piloting") !in SkillKeys
  {
    LowerOfLowerCase("piloting");
    PilotingIsNoKey();
  }

  /**
   * The skills the rulebook tests give their character: "rifles", "powered
   * armor" and "piloting" are not skills, so in whatever order the
   * dictionary is visited, `apply_skills` raises before the entries are all
   * added.
   */
  lemma RulebookFixtureRaises(entries: seq<(string, int)>)
    requires ("rifles", 0) in entries
    ensures Lower("rifles") !in SkillKeys
    ensures Lower("powered armor") !in SkillKeys
    ensures Lower("piloting") !in SkillKeys
    ensures FirstUnknown(entries) < |entries|
  {
    RiflesIsNoSkill();
    PoweredArmorIsNoSkill();
    PilotingIsNoSkill();
    var i :| 0 <= i < |entries| && entries[i] == ("rifles", 0);
  }

  /** An entry of one of the runs of the table is an entry of the table. */
  lemma RunEntryInTable(e: SkillEntry)
    requires e in SkillsCD || e in SkillsNR || e in SkillsStT
    ensures e in SkillTable
  {
  }

  /** Entries whose names are keys spelt in lower case are all accepted. */
  lemma LowerCaseKeysAreAdded(entries: seq<(string, int)>)
    requires forall e :: e in entries ==> IsLowerCase(e.0) && e.0 in SkillKeys
    ensures FirstUnknown(entries) == |entries|
  {
    var n := FirstUnknown(entries);
    if n < |entries| {
      assert entries[n] in entries;
      LowerOfLowerCase(entries[n].0);
    }
  }

  /**
   * The table's own names for the skills the rulebook tests mean are keys
   * spelt in lower case, so `apply_skills` accepts them all; the piloting
   * skill, rolled against MCH in those tests, is "starship_pilot".
   */
  lemma FixtureKeysLowerCase()
    ensures IsLowerCase("dodge") && IsLowerCase("rifle")
    ensures IsLowerCase("powered_armor") && IsLowerCase("starship_pilot")
  {
  }

  lemma RulebookFixtureCorrected()
    ensures IsLowerCase("dodge") && "dodge" in SkillKeys
    ensures IsLowerCase("rifle") && "rifle" in SkillKeys
    ensures IsLowerCase("powered_armor") && "powered_armor" in SkillKeys
    ensures IsLowerCase("starship_pilot") && "starship_pilot" in SkillKeys
    ensures SkillData("starship_pilot") == Some(SkillInfo("Starship Pilot", MCH))
  {
    var dodge := SkillEntry("dodge", SkillInfo("Dodge", AGL));
    var rifle := SkillEntry("rifle", SkillInfo("Rifle", AGL));
    var armor := SkillEntry("powered_armor", SkillInfo("Powered Armor", MCH));
    var pilot := SkillEntry("starship_pilot", SkillInfo("Starship Pilot", MCH));
    RunEntryInTable(dodge);
    RunEntryInTable(rifle);
    RunEntryInTable(armor);
    RunEntryInTable(pilot);
    EntryKeyIsKey(dodge);
    EntryKeyIsKey(rifle);
    EntryKeyIsKey(armor);
    EntryKeyIsKey(pilot);
    SkillEntryUnique("starship_pilot", SkillData("starship_pilot").value, pilot.info);
    FixtureKeysLowerCase();
  }
}
