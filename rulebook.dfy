/**
 * The rulebook: rolling a skill and checking it against a target number.
 *
 * A skill is rolled at the rating "governing trait's actual plus the skill's
 * actual"; a skill whose governing trait the character lacks is rolled at 0,
 * which rolls no dice and yields 0. A check passes when the roll reaches the
 * target, 5 unless the caller says otherwise.
 *
 * As written, `skill_result` reads the attribute `acutal`, which no trait has,
 * and `skill_check` calls `std_roll`, which is not defined, so neither can
 * return. SkillResult and SkillCheck model what their documentation and tests
 * describe; SkillResultAsWritten and SkillCheckAsWritten record what the code
 * does.
 */
module Rulebook {
  import opened Wrappers
  import opened Exceptions
  import opened Traits
  import opened Utils

  /** The target number of a check when the caller gives none. */
  const DefaultTarget: int := 5

  /** Looks up the actual value of the trait `key`; None when the character has no such trait. */
  function TraitActual(traits: map<string, Trait>, key: string): (a: Option<int>)
    ensures a.Some? <==> key in traits
    ensures a.Some? ==> a.value == traits[key].Actual()
  {
    if key in traits then Some(traits[key].Actual()) else None
  }

  /**
   * The rating a skill is rolled at: the governing trait's actual value plus
   * the skill's, or 0 when the character lacks the governing trait.
   */
  function SkillValue(traits: map<string, Trait>, skill: Skill): (v: int)
    ensures skill.governing in traits ==> v == traits[skill.governing].Actual() + skill.Actual()
    ensures skill.governing !in traits ==> v == 0
  {
    match TraitActual(traits, skill.governing)
    case Some(a) => a + skill.Actual()
    case None => 0
  }

  /** `skill_result(ch, skill)`: the roll of the skill's rating, given the faces of the dice rolled. */
  function SkillResult(traits: map<string, Trait>, skill: Skill, faces: seq<int>): (r: int)
    requires ValidFaces(faces) && |faces| == DiceCount(SkillValue(traits, skill))
    ensures skill.governing !in traits ==> r == 0
    ensures skill.governing in traits ==>
      var rating := traits[skill.governing].Actual() + skill.Actual();
      MinRoll(rating) <= r <= MaxRoll(rating)
  {
    D6Roll(SkillValue(traits, skill), faces)
  }

  /** `skill_check(ch, skill, target=5)`: whether the skill's roll reaches the target. */
  function SkillCheck(traits: map<string, Trait>, skill: Skill, faces: seq<int>, target: int := DefaultTarget): (pass: bool)
    requires ValidFaces(faces) && |faces| == DiceCount(SkillValue(traits, skill))
    ensures pass <==> SkillResult(traits, skill, faces) >= target
    ensures skill.governing !in traits ==> (pass <==> target <= 0)
    ensures skill.governing in traits ==>
      var rating := traits[skill.governing].Actual() + skill.Actual();
      (target <= MinRoll(rating) ==> pass) && (target > MaxRoll(rating) ==> !pass)
  {
    SkillResult(traits, skill, faces) >= target
  }

  /**
   * The rating follows the governing trait: replacing that trait moves the
   * rating by the change in its actual value, and replacing any other trait
   * leaves the rating alone.
   */
  lemma SkillValueFollowsGoverningTrait(traits: map<string, Trait>, skill: Skill, key: string, t: Trait)
    requires skill.governing in traits
    ensures key == skill.governing ==>
      SkillValue(traits[key := t], skill) == SkillValue(traits, skill) + t.Actual() - traits[key].Actual()
    ensures key != skill.governing ==> SkillValue(traits[key := t], skill) == SkillValue(traits, skill)
  {
  }

  /** A rating of 13 (4D+1) always rolls between 5 and 25. */
  lemma RatingThirteenBounds(traits: map<string, Trait>, skill: Skill, faces: seq<int>)
    requires SkillValue(traits, skill) == 13
    requires ValidFaces(faces) && |faces| == 4
    ensures 5 <= SkillResult(traits, skill, faces) <= 25
  {
  }

  /**
   * A target at or below the lowest possible roll always passes, one above
   * the highest possible roll never does.
   */
  lemma CheckThresholds(traits: map<string, Trait>, skill: Skill, faces: seq<int>, target: int)
    requires ValidFaces(faces) && |faces| == DiceCount(SkillValue(traits, skill))
    ensures target <= MinRoll(SkillValue(traits, skill)) ==> SkillCheck(traits, skill, faces, target)
    ensures target > MaxRoll(SkillValue(traits, skill)) ==> !SkillCheck(traits, skill, faces, target)
  {
  }

  /** A check that passes at some target passes at every lower one. */
  lemma CheckMonotone(traits: map<string, Trait>, skill: Skill, faces: seq<int>, target: int, lower: int)
    requires ValidFaces(faces) && |faces| == DiceCount(SkillValue(traits, skill))
    requires lower <= target && SkillCheck(traits, skill, faces, target)
    ensures SkillCheck(traits, skill, faces, lower)
  {
  }

  /**
   * A 4D+1 skill (trait 8 plus skill 5) passes against 4 and fails against 26
   * whatever the dice show.
   */
  lemma FourDPlusOneChecks(traits: map<string, Trait>, skill: Skill, faces: seq<int>)
    requires skill.governing in traits && traits[skill.governing].Actual() == 8 && skill.Actual() == 5
    requires ValidFaces(faces) && |faces| == 4
    ensures SkillCheck(traits, skill, faces, 4)
    ensures !SkillCheck(traits, skill, faces, 26)
  {
  }

  /**
   * A skill whose governing trait is missing rolls 0 and so fails the
   * default check and every check with a positive target.
   */
  lemma MissingTraitFails(traits: map<string, Trait>, skill: Skill, target: int)
    requires skill.governing !in traits
    ensures SkillResult(traits, skill, []) == 0
    ensures SkillCheck(traits, skill, []) == false
    ensures SkillCheck(traits, skill, [], target) <==> target <= 0
  {
  }

  /** `skill_result` as written: the trait lookup, then the read of the misspelt attribute `acutal`. */
  function SkillResultAsWritten(traits: map<string, Trait>, skill: Skill): (r: Result<int, Exception>)
    ensures r.Failure?
    ensures r.error == (if skill.governing in traits then AttributeError("acutal") else KeyError(skill.governing))
  {
    if skill.governing !in traits then Failure(KeyError(skill.governing))
    else Failure(AttributeError("acutal"))
  }

  /** `skill_check` as written: evaluating `std_roll` fails before anything is compared. */
  function SkillCheckAsWritten(traits: map<string, Trait>, skill: Skill, target: int := DefaultTarget): (r: Result<bool, Exception>)
    ensures r.Failure? && r.error == NameError("std_roll")
  {
    Failure(NameError("std_roll"))
  }

  /**
   * For any character whose governing trait is 8 and skill is 5 (a 4D+1
   * skill), the code as written raises, where the documented behaviour rolls
   * between 5 and 25 and passes against 4.
   */
  lemma AsWrittenRaisesOnTestState(traits: map<string, Trait>, skill: Skill, faces: seq<int>)
    requires skill.governing in traits && traits[skill.governing].Actual() == 8 && skill.Actual() == 5
    requires ValidFaces(faces) && |faces| == 4
    ensures SkillResultAsWritten(traits, skill) == Failure(AttributeError("acutal"))
    ensures 5 <= SkillResult(traits, skill, faces) <= 25
    ensures SkillCheckAsWritten(traits, skill, 4) == Failure(NameError("std_roll"))
    ensures SkillCheck(traits, skill, faces, 4)
  {
  }
}
