# Attack resolution for a tabletop wargame, in Dafny

A Dafny model of `main.py`. One attack resolves as a cascade:

1. The attacking unit rolls `models * attacks` six-sided hit dice. A die hits when it shows at least the ballistic skill.
2. It rolls one wound die per hit. The weapon's strength against the target's toughness sets the roll a wound needs.
3. The target rolls one save die per wound. A die saves when its face, less the weapon's armour penetration, reaches the save.
4. Every wound that is not saved deals the weapon's damage.

The model follows the program's own shape:

- `Die` is a class with a `total` that `Roll` sets.
- `_roll_dice` is a method with a loop that creates and rolls new dice.
- `Attack` is a class whose ten fields start as `None`; `Resolve` sets them.
- The three success tests and the counting comprehensions are pure functions.

Randomness is an injected generator. `RandomSource` holds the stream of values the generator will produce (`seeds`) and how many it has used (`drawn`). `randint(lo, hi)` takes the next value into `lo..hi`. `Dice.AnyFacesCanBeDrawn` proves that some stream produces any sequence of faces in 1..6. So every property proved for every stream holds for every outcome of the dice.

The pure function `Combat.Cascade` gives the whole outcome of one resolution for a given stream and position in it. `Attack.Resolve` is proved to leave every field equal to the matching part of `Cascade`. Two lemmas show that `Cascade` is exactly the set of consistent outcomes:

- `CascadeIsConsistent`: every cascade is consistent.
- `ConsistentIsCascade`: every consistent outcome is some stream's cascade.

Each property about resolution is proved for every consistent outcome.

Three facts about `main.py` shape the model:

- It has no code that repeats resolutions or averages their results, so the model has none.
- It accepts zero and negative counts. `range` of a negative count yields no dice, so a negative `models * attacks` rolls nothing. The bound "successful attacks at most attacks" therefore holds only when `models * attacks >= 0`; the count of hits never exceeds the number of dice rolled.
- Its dice draw from Python's module-wide generator. The model represents that generator as the `RandomSource` object passed to each roll.

## Model

| member | source | states |
|---|---|---|
| Dice.RangeLen | main.py:39 | `range(n)` runs `n` times for `n >= 0` and not at all for `n <= 0` |
| Dice.Face | main.py:33 | the face taken from a generator value lies in `1..faces` |
| Dice.RandomSource.RandInt | main.py:33 | `randint(lo, hi)` returns a value in `lo..hi` determined by the next value of the stream, and uses up exactly one value |
| Dice.Die.constructor | main.py:20-22 | a new die keeps the faces and total it was given |
| Dice.Die.Roll | main.py:32-33 | after `roll` the die shows a face in `1..faces`, namely the face of the next stream value, and the generator has advanced by one |
| Dice.Draws | main.py:36-44 | the faces a batch of `n` dice shows has exactly `max(n, 0)` entries, each in 1..6 |
| Dice.DrawsAt | main.py:39-42 | die `i` of a batch shows the face of stream value `start + i` |
| Dice.AnyFacesCanBeDrawn | main.py:33 | any sequence of faces in 1..6 is what some stream rolls, so the model does not restrict the dice |
| Dice.DrawsBatch | main.py:39-42 | a batch rolled from the position of a stream where given faces in 1..6 are laid out shows exactly those faces |
| Dice.ThreeBatches | main.py:65-73 | three batches rolled back to back from one stream show the three given sequences of faces |
| Dice.Totals | main.py:29-30 | reading `total` off a list of dice gives, die by die, the face each one shows |
| Dice.TotalsOfShown | main.py:66 | reading the totals of dice that show given faces gives back those faces |
| Dice.RollDice | main.py:36-44 | `_roll_dice(n)` returns `max(n, 0)` new six-sided dice, every one rolled to a face in `1..faces`, showing the next stream values in order; the generator advances once per die |
| Rules.IsHit | main.py:80-81 | `_is_successful_hit_roll`: a ballistic skill of 1 or less hits on every face, and one above 6 misses on every face of a six-sided die |
| Rules.IsWound | main.py:83-96 | `_is_successful_wound_roll`: whatever the strength and toughness, a 5 or 6 always wounds and a 1 never does |
| Rules.IsSave | main.py:98-102 | `_is_successful_save_roll`: a save succeeds exactly when the roll reaches save plus armour penetration, so at most 1 saves on every face and above 6 on none |
| Rules.Count | main.py:66 | `len([r for r in rolls if p(r)])` never exceeds the number of rolls |
| Rules.CountZero | main.py:66 | the count is 0 if and only if no roll passes the test |
| Rules.CountAll | main.py:66 | the count equals the number of rolls if and only if every roll passes the test |
| Rules.CountMonotone | main.py:66 | a test that accepts whatever another accepts never counts fewer rolls |
| Rules.CountHits | main.py:66 | the successful attacks never exceed the hit rolls |
| Rules.HitsMonotone | main.py:80-81 | a lower ballistic skill never scores fewer hits on the same dice |
| Rules.WoundThreshold | main.py:87-96 | the wound roll needed is 2 exactly when strength is at least twice toughness, and 5 exactly when strength is below both toughness and twice toughness; for positive toughness it is 3 exactly when toughness < strength < twice toughness, 4 exactly when they are equal, and 5 exactly when strength is below toughness; it always lies in 2..5, so the final fallback of 6 is never reached |
| Rules.WoundThresholdMonotone | main.py:87-96 | the needed roll never rises with more strength or falls with more toughness |
| Rules.WoundTableExamples | main.py:87-94 | S8/T4 needs 2+, S5/T4 needs 3+, S5/T5 needs 4+, S3/T8 needs 5+ |
| Rules.CountWounds | main.py:70 | the successful wounds never exceed the wound rolls |
| Rules.WoundsMonotone | main.py:83-96 | a stronger weapon never scores fewer wounds on the same dice against the same toughness |
| Rules.CountSaves | main.py:74 | the successful saves never exceed the save rolls |
| Rules.SaveExample | main.py:98-102 | with armour penetration -1 a 3+ save succeeds if and only if the die shows 2 or more |
| Rules.SavesMonotone | main.py:98-102 | more armour penetration never leaves more saves on the same dice |
| Rules.ImpossibleSave | main.py:98-102 | when save plus armour penetration exceeds the highest face, no die saves |
| Rules.CertainSave | main.py:98-102 | when save plus armour penetration is at most 1, every die saves |
| Combat.Damage | main.py:76 | the damage of the unsaved wounds: 0 when every wound is saved, every wound's damage when none is, never negative while saves do not outnumber wounds and the weapon damage is not negative |
| Combat.Consistent | main.py:63-76 | the relation `resolve` sets up between its fields; it implies one die rolled per attack, one per hit and one per wound |
| Combat.Cascade | main.py:63-76 | the outcome of `resolve` for a given stream and position: `models * attacks` attacks, one hit die per attack, one wound die per hit, one save die per wound, and `0 <= saves <= wounds <= hits <= hit dice` |
| Combat.CascadeIsConsistent | main.py:63-76 | the outcome drawn from any stream has `models * attacks` attacks, one hit die per attack, one wound die per hit and one save die per wound; every count is that of its rule on its dice; the damage is unsaved wounds times weapon damage |
| Combat.ConsistentIsCascade | main.py:63-76 | every outcome related as `resolve` relates its fields is produced by some stream |
| Combat.SameDiceSameResolution | main.py:63-76 | the profiles and the faces rolled determine every count and the damage |
| Combat.ResolutionOrdered | main.py:64-74 | `0 <= saves <= wounds <= hits <= dice rolled`, and hits never exceed attacks when attacks are not negative |
| Combat.DamageBounds | main.py:76 | damage is exactly `(successful wounds - successful saves) * weapon damage`, and lies between 0 and successful wounds times weapon damage when the weapon damage is not negative |
| Combat.NoAttacksNoDamage | main.py:64-76 | with `models * attacks <= 0` no dice are rolled and every count and the damage are 0, whatever the other profile values |
| Combat.ImpossibleSaveFullDamage | main.py:72-76 | when no save can succeed, every successful wound deals its damage |
| Combat.RollStage | main.py:65-66 | one stage rolls its batch of six-sided dice from the stream and counts the dice its rule accepts |
| Combat.Attack.constructor | main.py:48-61 | a new attack keeps its profiles and has every result field unset |
| Combat.Attack.Resolve | main.py:63-76 | every field is set to the matching part of `Cascade` of the generator's stream from where it stood; each list of dice holds six-sided dice showing that cascade's faces; the generator advances once per die rolled |

## Left out

- `_print_resolution` and its call in `resolve` (main.py:78, main.py:104-112): console output only.
- The `__main__` block (main.py:115-134): example profiles and the entry point.
- The distribution of `random.randint`: the model has an arbitrary injected stream, not a uniform random one, so expected rates and means are not stated.
- Missing profile keys: `UnitProfile` is declared with `total=False`, so a missing key raises `KeyError`. The model gives every profile all four integer fields.
- Dice.Die.Roll: requires `faces >= 1`. For fewer faces `randint(1, faces)` raises `ValueError`, which is not modelled. `_roll_dice` only builds six-sided dice.
- Combat.Attack.Resolve: sets all ten fields in one step after the three batches are rolled, where the code sets them one by one between the batches. `resolve` reads each field back only right after writing it, to size or count the next stage; the model passes the same value through a local (`n`, `hits`, `ws`, `ss`). Nothing outside `resolve` can see the fields before it returns, so the final state is the same.
- Combat.Attack.Resolve: does not state that the dice in its lists are new objects. `Dice.RollDice` states it for each batch.
- Dice.Die.constructor: takes `faces` and `total` explicitly; the defaults of `Die.__init__` (six faces, no total, main.py:20) are not modelled. `_roll_dice` calls it with those defaults.
- Dice.Totals: reads an unrolled die as 0, where the comparisons of main.py:81, 88-96 and 102 would raise `TypeError` on `None`. `resolve` only reads dice it has rolled.
- The `faces` and `total` properties of `Die` (main.py:24-30) are modelled as a constant field and a mutable field of the class.
