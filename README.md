# Ainneve tabletop rules, modelled in Dafny

This project models the character rules of the Ainneve game world (a
tabletop-style rules set for a text game):

- D6 ratings: a rating `value` of 3 or more is a pool of `value / 3`
  six-sided dice plus `value % 3` pips. It is written as `"dD"` or `"dD+p"`
  and rolled by summing the dice and adding the pips.
- Skill rolls and checks: a skill is rolled at the rating "governing
  trait's actual plus the skill's actual". A check passes when the roll
  reaches the target, which is 5 by default.
- Credit transfers between two characters. A missing side creates or
  destroys the credits.
- Archetypes:
  - the three starting trait tables;
  - the primary-trait point budget of 54;
  - applying an archetype to a character;
  - folding trait modifiers into base values at the end of character
    generation.
- Skills:
  - the skill table;
  - `ALL_SKILLS`, its sorted list of keys;
  - the six groups of that list by governing trait;
  - the case-insensitive lookup;
  - giving a character its starting skills.
- Races:
  - the case-insensitive race lookup restricted to `ALL_RACES`;
  - applying a race, which copies its equipment slots and limbs and adds
    its trait bonuses;
  - the list formatter used in race descriptions.

Files (all verified together):

| file | module(s) | content |
|---|---|---|
| `wrappers.dfy` | `Wrappers`, `Exceptions` | `Option`, `Result` (a call that returns or raises), `Outcome` (a procedure that returns or raises), and the exceptions with their messages |
| `text.dfy` | `Text` | Python 2 `lower`, `capitalize`, decimal formatting and `join`, on ASCII |
| `sorting.dfy` | `Sorting` | Python string order, `sorted`, and list comprehensions that filter strings |
| `entries.dfy` | `Entries` | adding `(name, value)` entries to a collection one by one, skipping those that are refused |
| `traits.dfy` | `Traits`, `Characters` | a trait as `base` and `mod` with `actual = base + mod`; the `Character` class whose fields the rules update |
| `utils.dfy` | `Utils` | `d6str`, `d6roll` |
| `rulebook.dfy` | `Rulebook` | `skill_result`, `skill_check` |
| `economy.dfy` | `Economy` | `transfer_funds` |
| `archetypes.dfy` | `Archetypes` | `ARCHETYPE_DATA`, `Archetype`, `load_archetype`, `apply_archetype`, `get_remaining_allocation`, `validate_primary_traits`, `finalize_traits` |
| `skills.dfy` | `Skills` | `_SKILL_DATA`, `ALL_SKILLS`, the `*_SKILLS` groups, `load_skill`, `apply_skills` |
| `races.dfy` | `Races` | `ALL_RACES`, `Race` and its subclasses, `load_race`, `apply_race`, `_format_focus_list` |

Modelling choices:

- Randomness is an input. `d6roll` is given the faces the dice showed, one
  value in 1..6 per die rolled. The foreign dice roller is not part of this
  model.
- `world/rulebook.py:27-44` holds a copy of `d6roll` with the same body as `utils/utils.py:52-69`; `Utils.D6Roll` models both.
- Python 2 `/` on these non-negative operands is floor division, which is
  Dafny's `/`.
- Dictionaries whose iteration order matters only for a partial update are
  modelled as sequences of entries in the order the iteration visits them:
  - the skills passed to `apply_skills`;
  - a race's bonuses.

  The outcome is stated for any such order.
- A character's persistent attributes (`db.archetype`, `db.race`,
  `db.slots`, `db.limbs`, `db.credits`) and its trait and skill handlers
  are fields of the class `Characters.Character`. The operations that
  change them are methods whose `modifies` clauses name exactly the fields
  the source writes.
- A lookup in a trait handler of a key it does not hold raises `KeyError`.
  The trait handler is not part of this model.
- Where the documentation and tests describe behaviour the code does not
  have, the code as written is modelled as well, and the discrepancy is
  listed under Findings:
  - `skill_result` reads the misspelt `acutal`;
  - `skill_check` calls the undefined `std_roll`;
  - `apply_skills` indexes the table with the name as given rather than
    its lower-case form.

  The rest of the model uses the corrected members. The rulebook tests
  also call `rulebook.skill_value`, which does not exist; it is modelled as
  `Rulebook.SkillValue`. A skill whose governing trait the character lacks
  is rolled at rating 0, as the rulebook tests expect.

## Model

| member | source | states |
|---|---|---|
| Utils.D6Str | utils/utils.py:36-50 | the notation is empty exactly when the rating is below 3 |
| Utils.D6StrRoundTrip | utils/utils.py:47-49 | the die count and pip written in the notation of any rating of 3 or more read back as `3*d + p`, which is that rating |
| Utils.DecodeWholeDice | utils/utils.py:47-48 | the notation of d dice without pips reads back as the rating 3d |
| Utils.DecodeDiceWithPips | utils/utils.py:47-49 | the notation of d dice and 1 or 2 pips reads back as the rating 3d plus the pips |
| Utils.D6StrInjective | utils/utils.py:47-49 | distinct ratings of 3 or more have distinct notations |
| Utils.D6StrPips | utils/utils.py:48-49 | the notation ends in "D" exactly for multiples of 3; otherwise a single "+" is followed by the pip 1 or 2, so "+0" and "+3" never appear |
| Utils.D6StrTable | utils/test_utils.py:11-17 | 3→"1D", 4→"1D+1", 5→"1D+2", 6→"2D" … 11→"3D+2" |
| Utils.D6Roll | utils/utils.py:52-69 | below 3 no dice are rolled and the result is 0; otherwise the roll lies between the pool's lowest (all ones) and highest (all sixes) total plus the pips |
| Utils.RollMatchesNotation | utils/utils.py:47-48 | `d6str` and `d6roll` derive the same pool: the notation of a rating is the notation of the number of dice rolled and of the bonus, 0 to 2, added to their sum |
| Utils.RollRangeIsTight | utils/utils.py:64-69 | every total between `d + p` and `6*d + p` is the roll of some faces, so the range bounds cannot be narrowed |
| Utils.SumFaces | utils/utils.py:67-69 | the sum of n dice lies between n and 6n |
| Rulebook.TraitActual | world/rulebook.py:54 | the governing trait's actual value is found exactly when the character has that trait, and it is that trait's `base + mod` |
| Rulebook.SkillValue | world/rulebook.py:54 | the rating is the governing trait's actual plus the skill's actual, and 0 when the character lacks the governing trait |
| Rulebook.SkillResult | world/rulebook.py:46-55 | a skill whose governing trait is missing yields 0; otherwise the roll of "trait actual + skill actual" lies within that rating's roll range |
| Rulebook.SkillValueFollowsGoverningTrait | world/test_rulebook.py:29-37 | changing the governing trait moves the rating by the change in its actual value (a modifier of -3 lowers 13 to 10); changing any other trait leaves the rating alone |
| Rulebook.RatingThirteenBounds | world/test_rulebook.py:47-59 | a rating of 13 (4D+1) always rolls between 5 and 25 |
| Rulebook.SkillCheck | world/rulebook.py:57-69 | the check passes exactly when the skill's roll reaches the target; with the governing trait missing it passes exactly for targets at or below 0; otherwise a target at or below the lowest roll of the rating passes and one above the highest fails |
| Rulebook.SkillResultAsWritten | world/rulebook.py:46-55 | as written, every call raises: AttributeError `acutal` when the governing trait is present, KeyError naming it when it is missing |
| Rulebook.SkillCheckAsWritten | world/rulebook.py:57-69 | as written, every call raises NameError `std_roll` |
| Rulebook.CheckThresholds | world/rulebook.py:57-69 | a target at or below the lowest possible roll always passes; one above the highest never does |
| Rulebook.CheckMonotone | world/rulebook.py:57-69 | a check that passes at some target passes at every lower target |
| Rulebook.FourDPlusOneChecks | world/test_rulebook.py:69-75 | a 4D+1 skill (trait 8, skill 5) passes against 4 and fails against 26, whatever the dice show |
| Rulebook.MissingTraitFails | world/test_rulebook.py:63-67 | a missing governing trait rolls 0, fails the default check of 5, and passes exactly the targets at or below 0 |
| Rulebook.AsWrittenRaisesOnTestState | world/rulebook.py:54-69 | for any character whose governing trait is 8 and skill is 5 (a 4D+1 skill) the code as written raises (AttributeError `acutal`, NameError `std_roll`), where the documented behaviour rolls 5..25 and passes against 4 |
| Economy.TransferFunds | world/economy.py:14-36 | it raises "Insufficient funds." exactly when a present source holds less than the amount, and then changes no balance. Otherwise the source loses and the destination gains the amount, and the sum of two distinct accounts is conserved. With no source the credits are created; with no destination they are destroyed. A transfer of a non-negative amount never leaves the source negative. With source and destination the same account, the balance grows by the amount. Only the two accounts' balances can change |
| Archetypes.TraitTable | world/archetypes.py:205-219 | the constructor's table has exactly the ten traits: primaries based at the data's values, all others at 0, none with a modifier |
| Archetypes.NewArchetype | world/archetypes.py:199-221 | construction succeeds exactly when the entry has a name, a desc and all six primaries, and raises "Archetype data invalid." otherwise. The archetype built carries the entry's name, its description and the trait table of its primaries |
| Archetypes.NewArchetypeTraits | world/archetypes.py:201-219 | a constructed archetype's traits are exactly the ten traits, each primary at the actual value the data gives it, the others at actual 0 |
| Archetypes.TableIsWellFormed | world/archetypes.py:58-88 | every entry of `ARCHETYPE_DATA` constructs, and its six primary values sum to `TOTAL_PRIMARY_POINTS` = 54 |
| Archetypes.LoadArchetype | world/archetypes.py:178-194 | loading succeeds exactly for names whose lower-case form is in the table and yields the table's display name; otherwise it raises "No data found for <name>" |
| Archetypes.GetRemainingAllocation | world/archetypes.py:121-131 | the allocation is computed exactly when all six primaries are present; otherwise it raises KeyError naming the first missing primary |
| Archetypes.FirstMissing | world/archetypes.py:130 | the index of the first primary trait the handler lacks: all before it are present and it is absent |
| Archetypes.SumActuals | world/archetypes.py:130 | the sum of actual values raises KeyError on the first missing key, and succeeds exactly when no key is missing |
| Archetypes.ValidatePrimaryTraits | world/archetypes.py:134-151 | `(True, None)` exactly when no points remain; "Too many trait points allocated." exactly when overspent; "Not enough trait points allocated." exactly when points remain |
| Archetypes.SumActualsUpdate | world/archetypes.py:130 | replacing a trait moves the sum over distinct keys by the change in that trait's actual value when it is one of the keys, and not at all otherwise |
| Archetypes.LoweringRaisesRemaining | world/archetypes.py:121-131 | lowering a primary trait's base by k leaves k more points to allocate |
| Archetypes.OtherTraitsDoNotCount | world/archetypes.py:121-131 | changing a trait that is not primary leaves the remaining allocation unchanged |
| Archetypes.RemainingWhenComplete | world/archetypes.py:121-131 | with all six primaries present, the remaining allocation is 54 minus their actual values |
| Archetypes.RemainingFromActuals | world/archetypes.py:121-131 | traits whose primaries have the given actual values leave 54 minus their sum |
| Archetypes.NewArchetypeRemaining | world/archetypes.py:201-219 | a constructed archetype's traits leave 54 minus the data's six primary values to allocate |
| Archetypes.LoadedArchetypeUsesBudget | world/test_archetypes.py:62-77 | a freshly loaded archetype leaves 0 points and validates as `(True, None)` |
| Archetypes.LowerForTestFreesEight | world/test_archetypes.py:62-77 | lowering AGL and TCH by 2 and the other primaries by 1 frees 8 points, whatever was left before |
| Archetypes.LoweringThreeRaisesRemaining | world/archetypes.py:121-131 | lowering three primary traits in turn frees the sum of the three amounts |
| Archetypes.EightPointsAfterLowering | world/test_archetypes.py:62-77 | after loading any archetype, that lowering leaves 8 points to allocate |
| Archetypes.FinalizeAll | world/archetypes.py:173-175 | folding traits keeps the handler's set of keys |
| Archetypes.FinalizeAllEffect | world/archetypes.py:173-175 | folding distinct keys folds each of them once, from its value before the fold, and leaves every other trait as it was |
| Archetypes.Finalize | world/archetypes.py:173-175 | a folded trait has mod 0 and base = actual; its actual is the old actual when that is at least 1, and 1 otherwise, so never below 1 nor below the old actual; name, kind and bounds are kept |
| Archetypes.RaisedModifierIsKept | world/test_archetypes.py:85-91 | a +3 STR modifier ends up in the base after finalisation; CP and ENC are untouched |
| Archetypes.FinalizeKeys | world/archetypes.py:173-175 | folding a list of keys in order raises KeyError at the first missing one, after the traits before it were folded; the new trait table is the fold of exactly those traits |
| Archetypes.FinalizeTraits | world/archetypes.py:165-175 | it folds the primaries, then the secondaries, in order. A missing trait raises KeyError after the traits before it were folded. The new trait table is the fold of exactly those traits |
| Archetypes.LoadedArchetypeTraits | world/archetypes.py:201-219 | a loaded archetype's traits are exactly the ten traits: primaries at the table's values, WOUNDS, FATE, CP and ENC at 0 |
| Archetypes.AddTraits | world/archetypes.py:117-118 | adding every trait of a table, key by key, leaves the old traits overwritten by the table's |
| Archetypes.ApplyArchetype | world/archetypes.py:90-118 | an unknown lower-cased name raises "Invalid archetype."; an existing archetype without `reset` raises "Character is already a <name>"; neither failure changes anything. Otherwise the display name is set and the archetype's trait table is added on top of the old traits, or replaces them when `reset` |
| Sorting.LessIsStrictTotalOrder | world/skills.py:359 | Python's string order is irreflexive, transitive and total |
| Sorting.Insert | world/skills.py:359 | inserting adds exactly one copy of the element |
| Sorting.Sort | world/skills.py:359 | `sorted` returns a permutation of its input |
| Sorting.SortIsSortedPermutation | world/skills.py:359 | `sorted` returns an ascending permutation of its input |
| Sorting.InsertSorted | world/skills.py:359 | inserting into an ascending sequence keeps it ascending |
| Sorting.SortOfStrictlySorted | world/skills.py:359 | sorting a strictly ascending sequence returns it unchanged |
| Sorting.StrictlySortedIsDistinct | world/skills.py:359 | a strictly ascending sequence has no duplicates |
| Skills.SkillKeysStrictlySorted | world/skills.py:55-356 | the table's keys, listed by key, are strictly ascending and so distinct |
| Skills.AllSkillsSortedKeys | world/skills.py:359 | `ALL_SKILLS` is strictly ascending and duplicate-free, holds exactly the table's keys, and has one element per entry |
| Skills.Find | world/skills.py:55-356 | a lookup finds data exactly for keys present, and that data is stored under the key |
| Skills.SkillData | world/skills.py:55-356 | `_SKILL_DATA` has data exactly for its keys, and it is the table's entry for that key |
| Skills.SkillEntryUnique | world/skills.py:55-356 | each key has a single entry |
| Sorting.Filter | world/skills.py:361-366 | the comprehension keeps exactly the names the condition accepts |
| Sorting.FilterKeepsOrder | world/skills.py:361-366 | filtering a strictly ascending list keeps it strictly ascending |
| Skills.SkillGroup | world/skills.py:361-366 | a group holds exactly the skills of `ALL_SKILLS` governed by its trait |
| Skills.SkillGroupsCover | world/skills.py:359-366 | the union of the six groups is `ALL_SKILLS` |
| Skills.SkillGroupsDisjointAndSorted | world/skills.py:361-366 | no skill is in two groups, and each group is strictly ascending |
| Skills.LoadSkill | world/skills.py:390-403 | the lookup succeeds exactly when the lower-case name is in `ALL_SKILLS`, returning that key's entry; otherwise it raises "Invalid skill name." |
| Skills.LoadSkillIgnoresCase | world/skills.py:399 | loading by any spelling gives what loading the lower-case name gives |
| Skills.NewSkill | world/skills.py:378-387 | an entry is accepted exactly when its lower-case name is a key, and otherwise raises "Invalid skill <lower-case name>.". The skill added has base = the value, mod 0, `is_d6`, and the table's display name and governing trait |
| Skills.NewSkillAsWritten | world/skills.py:378-385 | as written, an unknown lower-case name raises SkillException, and a known lower-case name whose given spelling is not a key raises KeyError |
| Skills.BelowFirstKeyIsNoKey | world/skills.py:55-356 | a name that sorts before "armor", as every capitalised name does, is not a key |
| Skills.CapitalisedSkillName | world/skills.py:378-385 | "Dodge" passes the guard as written and then raises KeyError, while the lower-case lookup adds Dodge (AGL, base 2, D6) |
| Skills.FirstUnknown | world/skills.py:377-379 | the index of the first entry whose lower-case name is not a skill: every entry before it is known, and it is not |
| Entries.FirstRefused | world/skills.py:377-379 | the index of the first entry that is refused: every entry before it is accepted, and it is not |
| Entries.AddAllStep | world/skills.py:377-387 | adding one more entry stores the made item under its name when it is accepted, and changes nothing when it is refused |
| Entries.AddAllNames | world/skills.py:377-387 | every name in the collection built from an empty one is the name of some entry |
| Entries.AddAllContents | world/skills.py:377-387 | adding entries with distinct names to an empty collection holds every accepted name, each with the item made from its own entry |
| Skills.ApplySkills | world/skills.py:369-387 | the skills are cleared first. The call succeeds exactly when every lower-case name is a skill; otherwise it raises "Invalid skill <name>." at the first unknown entry. The collection then holds exactly the skills of the entries before it |
| Skills.RulebookFixtureRaises | world/test_rulebook.py:21-27 | "rifles", "powered armor" and "piloting" are not skill names, so a skill list holding "rifles" stops `apply_skills` at an unknown entry |
| Skills.LowerCaseKeysAreAdded | world/skills.py:377-387 | a skill list whose names are all lower-case keys is accepted in full |
| Skills.RulebookFixtureCorrected | world/skills.py:55-356 | the table's names "dodge", "rifle", "powered_armor" and "starship_pilot" are lower-case keys, and "starship_pilot" is governed by MCH |
| Text.Lower | world/archetypes.py:105 | `lower` keeps the length and lower-cases each character |
| Text.LowerIsLowerCase | world/archetypes.py:105 | `lower` yields a lower-case string and is idempotent |
| Text.LowerOfLowerCase | world/skills.py:399 | a lower-case string is its own `lower` |
| Text.Capitalize | world/races.py:46 | `capitalize` upper-cases the first character and lower-cases the rest |
| Text.CapitalizeAgreesWithLower | world/races.py:46 | two names capitalise alike exactly when they lower-case alike |
| Text.NatToString | utils/utils.py:49 | `"{}".format(n)` is a numeral without a leading zero |
| Text.ParseNatToString | utils/utils.py:49 | reading back a formatted number gives the number |
| Text.JoinSnoc | world/races.py:151-154 | joining one more part appends the separator and that part |
| Text.JoinLength | world/races.py:151-154 | a join is as long as its parts plus one separator between each two |
| Races.Human | world/races.py:157-169 | Human is in `ALL_RACES`, plural "Humans", medium, with the base slots and limbs, no foci and no bonuses |
| Races.Elf | world/races.py:172-188 | Elf is not in `ALL_RACES`; plural "Elves", medium, the base slots and limbs, foci agility, spirit and alertness, no bonuses |
| Races.Dwarf | world/races.py:191-208 | Dwarf is not in `ALL_RACES`; plural "Dwarves", small, the base slots and limbs, foci brawn, resilience and alertness, and a WILL bonus of 1 |
| Races.RaceLayout | world/races.py:95-113 | every race has exactly the slots wield1, wield2 and armor, all empty, and the limbs r_arm, l_arm and body. Every slot a limb names is a slot of the race |
| Races.LoadRace | world/races.py:37-50 | the capitalised name must be in `ALL_RACES`, and the race loaded carries that name; otherwise it raises "Invalid race specified." |
| Races.LoadRaceAcceptsHumanInAnyCase | world/races.py:35-50 | the lookup succeeds exactly for names that lower-case to "human" and then yields Human |
| Races.DwarfIsNotLoadable | world/test_races.py:14-16 | "dwarf" is refused with RaceException |
| Races.RaceObjectIsReloaded | world/races.py:61-64 | a race object is reloaded by its name, so the unmodified race is applied |
| Races.FirstMissingTrait | world/races.py:72-73 | the index of the first bonus whose trait the character lacks: every bonus before it names a present trait, and it does not |
| Races.BonusOutcome | world/races.py:72-73 | adding bonuses succeeds exactly when every bonus names a trait the character has; otherwise it raises KeyError for a missing one |
| Races.AddBonuses | world/races.py:72-73 | adding bonuses keeps the set of trait keys |
| Races.AddBonusesEffect | world/races.py:72-73 | each trait's modifier grows by the total bonus for it; nothing else about any trait changes |
| Races.BonusForUnnamed | world/races.py:72-73 | a trait no bonus names gets a total bonus of 0, so it is unchanged |
| Races.AddRaceBonuses | world/races.py:72-73 | the bonus loop raises KeyError at the first missing trait, keeping the bonuses before it. The traits are then those bonuses added in order |
| Races.ApplyRace | world/races.py:52-73 | the race is reloaded by name, and an unknown race raises before anything changes. Otherwise the race name, slots and limbs are set to the loaded race's, and its bonuses are added to the trait modifiers |
| Races.LoadedRaceHasNoBonuses | world/races.py:157-169 | the only loadable race, Human, has no bonuses, so applying it never raises KeyError and leaves every trait as it was |
| Races.FormatFocusList | world/races.py:148-155 | the list is empty exactly when there are no items |
| Races.FocusListOfOneOrTwo | world/races.py:153-154 | one item is that item in bold; two are "`a` and `b`", both in bold |
| Races.FocusListOfMany | world/races.py:150-152 | more than two items form a ", "-separated list whose last entry is "and " followed by the last item in brace markup |
| Races.FocusListLength | world/races.py:148-155 | the output's length is the items' lengths plus their markup and separators |

## Left out

- Randomness: `evennia.contrib.dice.roll_dice` is not part of this model. A roll is given the die faces as an input, each in 1..6, one per die.
- `format_credits` (world/economy.py:39-44) only formats through the process-wide locale, which has no counterpart here.
- Display builders are left out because they are text wrapping and colour markup with nothing to prove. This covers `Archetype.ldesc`, `Archetype._format_trait_3col`, `Race.desc` and `_format_bonuses`. `_format_bonuses` also refers to an undefined `_ARC`.
- The `fill` text wrapping of the soldier description is not applied. The table stores the unwrapped text.
- The trait and skill handlers are not part of this model. A trait is its `base` and `mod`, with `actual = base + mod`, plus the display name, kind and bounds the archetype table gives. A skill is its base, mod, governing trait and D6 flag.
- `load_skill` builds `Skill(**data)` from an entry with an `initial` key, which `Skill.__init__` does not accept. The model stops at the lookup and its exception.
- The `desc` and `initial` fields of the skill table are not modelled. No rule reads them.
- `validate_skills`, `finalize_skills` and `calculate_secondary_traits` do nothing, so they are not modelled.
- `DiceRollError` and `PSIONIC_TRAITS` are declared but never used.
- The redundant second guard of `apply_archetype` (world/archetypes.py:111-112) can never fire after the first, so it is not modelled.
- Races.FormatFocusList: takes the items' names, not objects with a `name` attribute. The Elf and Dwarf foci are plain strings, which would raise AttributeError there, but neither race can be loaded.
- A race's description text (`_desc`) is not modelled, because only the `desc` display reads it.
- Races.ApplyRace: the copies of `slots` and `limbs` are values, so the aliasing between the race object and the character is not captured.
- Archetypes.ApplyArchetype: `traits.add` is modelled as an insertion that overwrites an existing key. The handler's own behaviour on a duplicate key is not part of this model.
- Skills.ApplySkills: `skills.add` is modelled the same way.
- `world/archetypes.py:49` imports `roll_max` from `world.rulebook`, which does not define it, so importing the archetypes module as written raises ImportError. The model treats the module as importable; `roll_max` is never used.
- Text.Lower: maps ASCII letters only, as Python 2 `str.lower` does. A `unicode` argument would also map characters such as U+212A (Kelvin sign) to 'k' and U+0130 to 'i'; that case mapping is not modelled, and neither is its effect on Archetypes.LoadArchetype, Skills.LoadSkill and Skills.ApplySkills.
- Text.Capitalize: ASCII only in the same way, so Races.LoadRace does not capture Unicode case mapping.
- The static content files and the CSV conversion script are left out: they hold data with no logic, or do file I/O.

## Findings

| source | as written | input that shows it | evidently intended | confidence | as-written member | corrected member |
|---|---|---|---|---|---|---|
| world/rulebook.py:54 | reads `ch.traits[skill.trait].acutal`, an attribute no trait has | any character whose governing trait is 8 and skill is 5, e.g. a skill of actual 5 under MCH 8, raises AttributeError | the roll of the governing trait's `actual` plus the skill's, 0 for a missing trait | high, not executed | Rulebook.SkillResultAsWritten (shown by Rulebook.AsWrittenRaisesOnTestState) | Rulebook.SkillResult |
| world/rulebook.py:69 | returns `skill + std_roll() >= target`, and `std_roll` is not defined | any call, e.g. a 4D+1 skill against 4, raises NameError | whether the skill's roll reaches the target | high, not executed | Rulebook.SkillCheckAsWritten (shown by Rulebook.AsWrittenRaisesOnTestState) | Rulebook.SkillCheck |
| world/skills.py:378-385 | the guard checks `skill.lower()`, then the table is indexed with `skill` as given | `{'Dodge': 2}` passes the guard and raises KeyError | the lookup by the lower-case name the guard accepted | medium, not executed | Skills.NewSkillAsWritten (shown by Skills.CapitalisedSkillName) | Skills.NewSkill |
| world/test_rulebook.py:21-27 | the rulebook tests' set-up passes the skills 'rifles', 'powered armor' and 'piloting', none of which is a skill name | the set-up itself: `apply_skills` raises "Invalid skill rifles." or another of them before any test runs | the table's names 'rifle', 'powered_armor' and 'starship_pilot' (MCH), which are all accepted | medium, not executed | Skills.RulebookFixtureRaises | Skills.RulebookFixtureCorrected (with Skills.LowerCaseKeysAreAdded) |
