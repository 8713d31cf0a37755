/**
 * Traits and skills as the rules modules see them. The trait handler itself
 * is not part of this model: a trait is its `base` and `mod`, and its
 * `actual` value is their sum.
 */
module Traits {
  import opened Wrappers

  datatype TraitKind = Static | Counter

  /** A character trait: display name, kind, base, modifier and optional bounds. */
  datatype Trait = Trait(name: string, kind: TraitKind, base: int, mod: int, lo: Option<int>, hi: Option<int>)
  {
    function Actual(): int { base + mod }
  }

  /**
   * A skill is a static trait whose extra data names its governing trait and
   * marks it as rolled in D6 notation.
   */
  datatype Skill = Skill(name: string, base: int, mod: int, governing: string, isD6: bool)
  {
    function Actual(): int { base + mod }
  }
}

/** The character attributes the rules read and write. */
module Characters {
  import opened Wrappers
  import opened Traits

  /** One limb and the equipment slots it operates. */
  type Limb = (string, seq<string>)

  class Character {
    /** `db.archetype`: display name of the character's archetype, if any. */
    var archetype: Option<string>
    /** `db.race`: name of the character's race, if any. */
    var race: Option<string>
    /** `db.slots`: equipment slot name to the item in it (None when empty). */
    var slots: map<string, Option<string>>
    /** `db.limbs`: the limbs and the slots each operates. */
    var limbs: seq<Limb>
    /** `traits`: the trait handler's entries by key. */
    var traits: map<string, Trait>
    /** `skills`: the skill handler's entries by key. */
    var skills: map<string, Skill>
    /** `db.credits`: the character's balance. */
    var credits: int

    constructor ()
      ensures archetype == None && race == None
      ensures slots == map[] && limbs == []
      ensures traits == map[] && skills == map[]
      ensures credits == 0
    {
      archetype, race := None, None;
      slots, limbs := map[], [];
      traits, skills := map[], map[];
      credits := 0;
    }
  }
}
