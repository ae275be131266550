/**
 * The three success rules of an attack (hit, wound, save) and the count of
 * successful rolls that `Attack.resolve` takes with a list comprehension.
 */
module Rules {

  /** `len([r for r in rolls if p(r)])`: how many rolls satisfy `p`. */
  function Count(rolls: seq<int>, p: int -> bool): (c: nat)
    ensures c <= |rolls|
  {
    if rolls == [] then 0 else (if p(rolls[0]) then 1 else 0) + Count(rolls[1..], p)
  }

  /** No roll succeeds exactly when the count is zero. */
  lemma {:induction false} CountZero(rolls: seq<int>, p: int -> bool)
    ensures Count(rolls, p) == 0 <==> forall i :: 0 <= i < |rolls| ==> !p(rolls[i])
  {
    if rolls != [] {
      CountZero(rolls[1..], p);
      assert forall i :: 1 <= i < |rolls| ==> rolls[i] == rolls[1..][i - 1];
    }
  }

  /** Every roll succeeds exactly when the count is the number of rolls. */
  lemma {:induction false} CountAll(rolls: seq<int>, p: int -> bool)
    ensures Count(rolls, p) == |rolls| <==> forall i :: 0 <= i < |rolls| ==> p(rolls[i])
  {
    if rolls != [] {
      CountAll(rolls[1..], p);
      assert forall i :: 1 <= i < |rolls| ==> rolls[i] == rolls[1..][i - 1];
    }
  }

  /** A weaker rule never counts fewer successes on the same rolls. */
  lemma {:induction false} CountMonotone(rolls: seq<int>, p: int -> bool, q: int -> bool)
    requires forall i :: 0 <= i < |rolls| && p(rolls[i]) ==> q(rolls[i])
    ensures Count(rolls, p) <= Count(rolls, q)
  {
    if rolls != [] {
      assert forall i :: 1 <= i < |rolls| ==> rolls[i] == rolls[1..][i - 1];
      CountMonotone(rolls[1..], p, q);
    }
  }

  // ---------------------------------------------------------------- hit

  /**
   * `_is_successful_hit_roll`: the die shows at least the ballistic skill. A
   * skill of 1 or less hits on every face; a skill above 6 misses on every face
   * of a six-sided die.
   */
  predicate IsHit(total: int, ballisticSkill: int): (b: bool)
    ensures ballisticSkill <= 1 <= total ==> b
    ensures total <= 6 < ballisticSkill ==> !b
  {
    total >= ballisticSkill
  }

  /** The hit test as a rule on die faces, for `Count`. */
  function HitRule(ballisticSkill: int): int -> bool
  {
    t => IsHit(t, ballisticSkill)
  }

  /** The successful attacks among hit rolls. */
  function CountHits(rolls: seq<int>, ballisticSkill: int): (c: nat)
    ensures c <= |rolls|
  {
    Count(rolls, HitRule(ballisticSkill))
  }

  /** A better (lower) ballistic skill never scores fewer hits on the same dice. */
  lemma HitsMonotone(rolls: seq<int>, better: int, worse: int)
    requires better <= worse
    ensures CountHits(rolls, worse) <= CountHits(rolls, better)
  {
    CountMonotone(rolls, HitRule(worse), HitRule(better));
  }

  // -------------------------------------------------------------- wound

  /**
   * The roll a wound needs, from the weapon's strength against the target's
   * toughness. The last branch is the source's fallback; the four comparisons
   * before it already cover every pair of integers. For a toughness of 0 or
   * less the first comparison wins even when strength equals toughness.
   */
  function WoundThreshold(strength: int, toughness: int): (n: int)
    ensures 2 <= n <= 5
    ensures n == 2 <==> strength >= 2 * toughness
    ensures n == 5 <==> strength < toughness && strength < 2 * toughness
    ensures toughness > 0 ==> (n == 3 <==> toughness < strength < 2 * toughness)
    ensures toughness > 0 ==> (n == 4 <==> strength == toughness)
    ensures toughness > 0 ==> (n < 4 <==> strength > toughness)
  {
    if strength >= toughness * 2 then 2
    else if strength > toughness then 3
    else if strength == toughness then 4
    else if strength < toughness then 5
    else 6
  }

  /**
   * `_is_successful_wound_roll`: the die meets the threshold of the wound table.
   * Whatever the strength and toughness, a 5 or 6 always wounds and a 1 never does.
   */
  predicate IsWound(total: int, strength: int, toughness: int): (b: bool)
    ensures 5 <= total ==> b
    ensures total <= 1 ==> !b
  {
    total >= WoundThreshold(strength, toughness)
  }

  /** The wound test as a rule on die faces, for `Count`. */
  function WoundRule(strength: int, toughness: int): int -> bool
  {
    t => IsWound(t, strength, toughness)
  }

  /** The successful wounds among wound rolls. */
  function CountWounds(rolls: seq<int>, strength: int, toughness: int): (c: nat)
    ensures c <= |rolls|
  {
    Count(rolls, WoundRule(strength, toughness))
  }

  /**
   * The wound table never asks more of a stronger weapon, nor less against a
   * tougher target.
   */
  lemma WoundThresholdMonotone(s1: int, s2: int, t1: int, t2: int)
    requires s1 <= s2 && t2 <= t1
    ensures WoundThreshold(s2, t2) <= WoundThreshold(s1, t1)
  {
  }

  /** The four rows of the table worked through for concrete profiles. */
  lemma WoundTableExamples()
    ensures WoundThreshold(8, 4) == 2
    ensures WoundThreshold(5, 4) == 3
    ensures WoundThreshold(5, 5) == 4
    ensures WoundThreshold(3, 8) == 5
  {
  }

  /** A stronger weapon never scores fewer wounds on the same dice. */
  lemma WoundsMonotone(rolls: seq<int>, weaker: int, stronger: int, toughness: int)
    requires weaker <= stronger
    ensures CountWounds(rolls, weaker, toughness) <= CountWounds(rolls, stronger, toughness)
  {
    WoundThresholdMonotone(weaker, stronger, toughness, toughness);
    CountMonotone(rolls, WoundRule(weaker, toughness), WoundRule(stronger, toughness));
  }

  // --------------------------------------------------------------- save

  /**
   * `_is_successful_save_roll`: the roll less the armour penetration reaches the
   * save, with no clamping to the faces of a die. So the roll needed is save plus
   * penetration: at most 1 saves on every face, above 6 on none of a six-sided die.
   */
  predicate IsSave(total: int, armourPenetration: int, save: int): (b: bool)
    ensures b <==> total >= save + armourPenetration
    ensures save + armourPenetration <= 1 <= total ==> b
    ensures total <= 6 < save + armourPenetration ==> !b
  {
    total - armourPenetration >= save
  }

  /** The save test as a rule on die faces, for `Count`. */
  function SaveRule(armourPenetration: int, save: int): int -> bool
  {
    t => IsSave(t, armourPenetration, save)
  }

  /** The successful saves among save rolls. */
  function CountSaves(rolls: seq<int>, armourPenetration: int, save: int): (c: nat)
    ensures c <= |rolls|
  {
    Count(rolls, SaveRule(armourPenetration, save))
  }

  /** With armour penetration -1 a 3+ save is made on a 2 or better. */
  lemma SaveExample(total: int)
    ensures IsSave(total, -1, 3) <==> total >= 2
  {
  }

  /** More armour penetration never leaves the target more saves on the same dice. */
  lemma SavesMonotone(rolls: seq<int>, lessAp: int, moreAp: int, save: int)
    requires lessAp <= moreAp
    ensures CountSaves(rolls, moreAp, save) <= CountSaves(rolls, lessAp, save)
  {
    CountMonotone(rolls, SaveRule(moreAp, save), SaveRule(lessAp, save));
  }

  /**
   * When the save needs more than the highest face once penetration is added,
   * no roll of the dice saves anything.
   */
  lemma ImpossibleSave(rolls: seq<int>, faces: int, armourPenetration: int, save: int)
    requires forall i :: 0 <= i < |rolls| ==> 1 <= rolls[i] <= faces
    requires save + armourPenetration > faces
    ensures CountSaves(rolls, armourPenetration, save) == 0
  {
    CountZero(rolls, SaveRule(armourPenetration, save));
  }

  /** When even a 1 saves once penetration is added, every wound is saved. */
  lemma CertainSave(rolls: seq<int>, armourPenetration: int, save: int)
    requires forall i :: 0 <= i < |rolls| ==> 1 <= rolls[i]
    requires save + armourPenetration <= 1
    ensures CountSaves(rolls, armourPenetration, save) == |rolls|
  {
    CountAll(rolls, SaveRule(armourPenetration, save));
  }
}
