/**
 * `Attack` of main.py: the profiles of one attack and `resolve`, the cascade
 * hit -> wound -> save -> damage in which each stage rolls one die per
 * success of the stage before.
 */
module Combat {
  import opened Wrappers
  import opened Dice
  import opened Rules

  /** A weapon: attacks per model, strength, armour penetration, damage per wound. */
  datatype WeaponProfile = WeaponProfile(attacks: int, strength: int, armourPenetration: int, damage: int)

  /**
   * A unit: the attacker supplies `models` and `ballisticSkill`, the target
   * `toughness` and `save`.
   */
  datatype UnitProfile = UnitProfile(models: int, ballisticSkill: int, toughness: int, save: int)

  /** Every field `resolve` sets, with each list of dice given by the faces it shows. */
  datatype Resolution = Resolution(
    attacks: int, hitRolls: seq<int>, successfulAttacks: nat,
    wounds: int, woundRolls: seq<int>, successfulWounds: nat,
    saves: int, saveRolls: seq<int>, successfulSaves: nat,
    damage: int)

  /**
   * The damage dealt by the wounds that were not saved (main.py:76): nothing
   * when every wound is saved, the full damage of every wound when none is,
   * and never negative while saves do not outnumber wounds.
   */
  function Damage(successfulWounds: int, successfulSaves: int, perWound: int): (d: int)
    ensures successfulSaves == successfulWounds ==> d == 0
    ensures successfulSaves == 0 ==> d == successfulWounds * perWound
    ensures successfulSaves <= successfulWounds && 0 <= perWound ==> 0 <= d
  {
    (successfulWounds - successfulSaves) * perWound
  }

  predicate AllFaces(rolls: seq<int>)
  {
    forall i :: 0 <= i < |rolls| ==> 1 <= rolls[i] <= DefaultFaces
  }

  /**
   * What `resolve` establishes between its fields, whatever the dice show:
   * each stage rolls one six-sided die per success of the stage before and
   * counts the rolls its rule accepts.
   */
  predicate Consistent(r: Resolution, attacker: UnitProfile, target: UnitProfile, weapon: WeaponProfile): (c: bool)
    ensures c ==> DiceRolled(r) == RangeLen(r.attacks) + r.successfulAttacks + r.successfulWounds
  {
    && r.attacks == attacker.models * weapon.attacks
    && |r.hitRolls| == RangeLen(r.attacks) && AllFaces(r.hitRolls)
    && r.successfulAttacks == CountHits(r.hitRolls, attacker.ballisticSkill)
    && r.wounds == r.successfulAttacks
    && |r.woundRolls| == r.wounds && AllFaces(r.woundRolls)
    && r.successfulWounds == CountWounds(r.woundRolls, weapon.strength, target.toughness)
    && r.saves == r.successfulWounds
    && |r.saveRolls| == r.saves && AllFaces(r.saveRolls)
    && r.successfulSaves == CountSaves(r.saveRolls, weapon.armourPenetration, target.save)
    && r.damage == Damage(r.successfulWounds, r.successfulSaves, weapon.damage)
  }

  /**
   * The resolution of one attack when the generator's stream is `seeds` and
   * `start` draws have been taken already: hit dice, then wound dice, then
   * save dice, each batch taken from the stream where the last one stopped.
   */
  function Cascade(attacker: UnitProfile, target: UnitProfile, weapon: WeaponProfile,
                   seeds: nat -> nat, start: nat): (r: Resolution)
    ensures r.attacks == attacker.models * weapon.attacks
    ensures |r.hitRolls| == RangeLen(r.attacks)
    ensures |r.woundRolls| == r.wounds == r.successfulAttacks
    ensures |r.saveRolls| == r.saves == r.successfulWounds
    ensures 0 <= r.successfulSaves <= r.successfulWounds <= r.successfulAttacks <= RangeLen(r.attacks)
  {
    var attacks := attacker.models * weapon.attacks;
    var hitRolls := Draws(seeds, start, attacks);
    var hits := CountHits(hitRolls, attacker.ballisticSkill);
    var woundRolls := Draws(seeds, start + |hitRolls|, hits);
    var wounds := CountWounds(woundRolls, weapon.strength, target.toughness);
    var saveRolls := Draws(seeds, start + |hitRolls| + |woundRolls|, wounds);
    var saves := CountSaves(saveRolls, weapon.armourPenetration, target.save);
    Resolution(attacks, hitRolls, hits, hits, woundRolls, wounds, wounds, saveRolls, saves,
               Damage(wounds, saves, weapon.damage))
  }

  /** Whatever the stream, the cascade's fields are related as `resolve` relates them. */
  lemma CascadeIsConsistent(attacker: UnitProfile, target: UnitProfile, weapon: WeaponProfile,
                            seeds: nat -> nat, start: nat)
    ensures Consistent(Cascade(attacker, target, weapon, seeds, start), attacker, target, weapon)
  {
  }

  /** The number of draws one resolution takes from the generator. */
  function DiceRolled(r: Resolution): nat
  {
    |r.hitRolls| + |r.woundRolls| + |r.saveRolls|
  }

  /**
   * Every consistent outcome is the cascade of some stream: `Cascade` leaves no
   * outcome of the dice out.
   */
  lemma ConsistentIsCascade(r: Resolution, attacker: UnitProfile, target: UnitProfile, weapon: WeaponProfile)
    requires Consistent(r, attacker, target, weapon)
    ensures Cascade(attacker, target, weapon, SeedsFor(r.hitRolls + r.woundRolls + r.saveRolls), 0) == r
  {
    var faces := r.hitRolls + r.woundRolls + r.saveRolls;
    var h, w := |r.hitRolls|, |r.woundRolls|;
    var seeds := SeedsFor(faces);
    ThreeBatches(r.hitRolls, r.woundRolls, r.saveRolls);
    assert Draws(seeds, 0, r.attacks) == r.hitRolls by {
      if r.attacks <= 0 {
        assert r.hitRolls == [];
      }
    }
    CascadeOfBatches(attacker, target, weapon, seeds, 0, r.attacks, r.hitRolls, r.successfulAttacks,
                     h, r.woundRolls, r.successfulWounds, h + w, r.saveRolls, r.successfulSaves);
  }

  /** The profiles and the faces of the dice determine everything else. */
  lemma SameDiceSameResolution(r1: Resolution, r2: Resolution, attacker: UnitProfile, target: UnitProfile,
                               weapon: WeaponProfile)
    requires Consistent(r1, attacker, target, weapon) && Consistent(r2, attacker, target, weapon)
    requires r1.hitRolls == r2.hitRolls && r1.woundRolls == r2.woundRolls && r1.saveRolls == r2.saveRolls
    ensures r1 == r2
  {
  }

  /**
   * The cascade is the three batches drawn one after another from the stream,
   * each as long as the number of successes before it.
   */
  lemma CascadeOfBatches(attacker: UnitProfile, target: UnitProfile, weapon: WeaponProfile, seeds: nat -> nat,
                         start: nat, n: int, hitRolls: seq<int>, hits: nat,
                         woundStart: nat, woundRolls: seq<int>, wounds: nat,
                         saveStart: nat, saveRolls: seq<int>, saves: nat)
    requires n == attacker.models * weapon.attacks
    requires hitRolls == Draws(seeds, start, n)
    requires hits == CountHits(hitRolls, attacker.ballisticSkill)
    requires woundStart == start + |hitRolls|
    requires woundRolls == Draws(seeds, woundStart, hits)
    requires wounds == CountWounds(woundRolls, weapon.strength, target.toughness)
    requires saveStart == woundStart + |woundRolls|
    requires saveRolls == Draws(seeds, saveStart, wounds)
    requires saves == CountSaves(saveRolls, weapon.armourPenetration, target.save)
    ensures var r := Cascade(attacker, target, weapon, seeds, start);
      && r.attacks == n
      && r.hitRolls == hitRolls && r.successfulAttacks == hits && r.wounds == hits
      && r.woundRolls == woundRolls && r.successfulWounds == wounds && r.saves == wounds
      && r.saveRolls == saveRolls && r.successfulSaves == saves
      && r.damage == Damage(wounds, saves, weapon.damage)
      && DiceRolled(r) == |hitRolls| + |woundRolls| + |saveRolls|
  {
  }

  /** The counts never grow from one stage to the next: saves <= wounds <= hits <= dice rolled. */
  lemma ResolutionOrdered(r: Resolution, attacker: UnitProfile, target: UnitProfile, weapon: WeaponProfile)
    requires Consistent(r, attacker, target, weapon)
    ensures 0 <= r.successfulSaves <= r.successfulWounds <= r.successfulAttacks <= RangeLen(r.attacks)
    ensures r.attacks >= 0 ==> r.successfulAttacks <= r.attacks
  {
  }

  /**
   * Each unsaved wound deals the weapon's damage: the damage is a whole
   * multiple of it, non-negative and at most one hit's worth per wound.
   */
  lemma DamageBounds(r: Resolution, attacker: UnitProfile, target: UnitProfile, weapon: WeaponProfile)
    requires Consistent(r, attacker, target, weapon)
    requires weapon.damage >= 0
    ensures 0 <= r.damage <= r.successfulWounds * weapon.damage
    ensures r.damage == (r.successfulWounds - r.successfulSaves) * weapon.damage
  {
  }

  /**
   * No attacks means no dice at all: with `models * attacks` at most 0 every
   * count and the damage are 0, whatever the other profile values are.
   */
  lemma NoAttacksNoDamage(r: Resolution, attacker: UnitProfile, target: UnitProfile, weapon: WeaponProfile)
    requires Consistent(r, attacker, target, weapon)
    requires attacker.models * weapon.attacks <= 0
    ensures r.hitRolls == [] && r.woundRolls == [] && r.saveRolls == []
    ensures r.successfulAttacks == 0 && r.wounds == 0 && r.successfulWounds == 0
    ensures r.saves == 0 && r.successfulSaves == 0 && r.damage == 0
  {
  }

  /**
   * A save that needs more than a six once penetration is added never saves:
   * every wound deals its damage.
   */
  lemma ImpossibleSaveFullDamage(r: Resolution, attacker: UnitProfile, target: UnitProfile, weapon: WeaponProfile)
    requires Consistent(r, attacker, target, weapon)
    requires target.save + weapon.armourPenetration > DefaultFaces
    ensures r.successfulSaves == 0
    ensures r.damage == r.successfulWounds * weapon.damage
  {
    ImpossibleSave(r.saveRolls, DefaultFaces, weapon.armourPenetration, target.save);
  }

  class Attack {
    const attacker: UnitProfile
    const target: UnitProfile
    const weapon: WeaponProfile
    var attacks: Option<int>
    var hitRolls: Option<seq<Die>>
    var successfulAttacks: Option<int>
    var wounds: Option<int>
    var woundRolls: Option<seq<Die>>
    var successfulWounds: Option<int>
    var saves: Option<int>
    var saveRolls: Option<seq<Die>>
    var successfulSaves: Option<int>
    var damage: Option<int>

    /** Stores the profiles; nothing is resolved yet. */
    constructor (attacker: UnitProfile, target: UnitProfile, weapon: WeaponProfile)
      ensures this.attacker == attacker && this.target == target && this.weapon == weapon
      ensures attacks == None && hitRolls == None && successfulAttacks == None
      ensures wounds == None && woundRolls == None && successfulWounds == None
      ensures saves == None && saveRolls == None && successfulSaves == None
      ensures damage == None
    {
      this.attacker := attacker;
      this.target := target;
      this.weapon := weapon;
      attacks, hitRolls, successfulAttacks := None, None, None;
      wounds, woundRolls, successfulWounds := None, None, None;
      saves, saveRolls, successfulSaves := None, None, None;
      damage := None;
    }

    /** Sets every field `resolve` computes. */
    method Record(attacks: int, hitRolls: seq<Die>, successfulAttacks: int,
                  wounds: int, woundRolls: seq<Die>, successfulWounds: int,
                  saves: int, saveRolls: seq<Die>, successfulSaves: int, damage: int)
      modifies this
      ensures this.attacks == Some(attacks) && this.hitRolls == Some(hitRolls)
      ensures this.successfulAttacks == Some(successfulAttacks)
      ensures this.wounds == Some(wounds) && this.woundRolls == Some(woundRolls)
      ensures this.successfulWounds == Some(successfulWounds)
      ensures this.saves == Some(saves) && this.saveRolls == Some(saveRolls)
      ensures this.successfulSaves == Some(successfulSaves) && this.damage == Some(damage)
    {
      this.attacks, this.hitRolls, this.successfulAttacks := Some(attacks), Some(hitRolls), Some(successfulAttacks);
      this.wounds, this.woundRolls, this.successfulWounds := Some(wounds), Some(woundRolls), Some(successfulWounds);
      this.saves, this.saveRolls, this.successfulSaves := Some(saves), Some(saveRolls), Some(successfulSaves);
      this.damage := Some(damage);
    }

    /**
     * `resolve`: runs the cascade with the generator `rng`. The ghost result `r`
     * is the `Cascade` of the generator's stream from where it stood; every field
     * is set to the matching part of `r`, each list of dice shows the faces `r`
     * records, and the generator has advanced by one draw per die.
     */
    method Resolve(rng: RandomSource) returns (ghost r: Resolution)
      modifies this, rng
      ensures r == Cascade(attacker, target, weapon, rng.seeds, old(rng.drawn))
      ensures attacks == Some(r.attacks)
      ensures hitRolls.Some? && Shows(hitRolls.value, r.hitRolls)
      ensures SixSided(hitRolls.value)
      ensures successfulAttacks == Some(r.successfulAttacks)
      ensures wounds == Some(r.wounds)
      ensures woundRolls.Some? && Shows(woundRolls.value, r.woundRolls)
      ensures SixSided(woundRolls.value)
      ensures successfulWounds == Some(r.successfulWounds)
      ensures saves == Some(r.saves)
      ensures saveRolls.Some? && Shows(saveRolls.value, r.saveRolls)
      ensures SixSided(saveRolls.value)
      ensures successfulSaves == Some(r.successfulSaves)
      ensures damage == Some(r.damage)
      ensures rng.drawn == old(rng.drawn) + DiceRolled(r)
    {
      ghost var start := rng.drawn;
      var n := attacker.models * weapon.attacks;
      var hr, hits := RollStage(n, HitRule(attacker.ballisticSkill), rng);
      ghost var woundStart := rng.drawn;
      var wr, ws := RollStage(hits, WoundRule(weapon.strength, target.toughness), rng);
      ghost var saveStart := rng.drawn;
      var sr, ss := RollStage(ws, SaveRule(weapon.armourPenetration, target.save), rng);

      Record(n, hr, hits, hits, wr, ws, ws, sr, ss, Damage(ws, ss, weapon.damage));

      r := Resolution(n, Draws(rng.seeds, start, n), hits, hits, Draws(rng.seeds, woundStart, hits), ws, ws,
                      Draws(rng.seeds, saveStart, ws), ss, Damage(ws, ss, weapon.damage));
      CascadeOfBatches(attacker, target, weapon, rng.seeds, start, n, r.hitRolls, hits,
                       woundStart, r.woundRolls, ws, saveStart, r.saveRolls, ss);
    }
  }

  /**
   * One stage of `resolve`: roll `n` dice with `_roll_dice` and count, as the
   * list comprehension does, those whose face satisfies `rule`.
   */
  method RollStage(n: int, rule: int -> bool, rng: RandomSource) returns (dice: seq<Die>, successes: nat)
    modifies rng
    ensures SixSided(dice)
    ensures Shows(dice, Draws(rng.seeds, old(rng.drawn), n))
    ensures successes == Count(Draws(rng.seeds, old(rng.drawn), n), rule)
    ensures rng.drawn == old(rng.drawn) + RangeLen(n)
  {
    dice := RollDice(n, rng);
    TotalsOfShown(dice, Draws(rng.seeds, old(rng.drawn), n));
    successes := Count(Totals(dice), rule);
  }
}
