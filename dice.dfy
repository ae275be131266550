/**
 * The dice of main.py: the random generator behind `random.randint`, the `Die`
 * class whose `roll` sets its face, and `_roll_dice`, which rolls a batch of
 * fresh six-sided dice.
 */
module Dice {
  import opened Wrappers

  /** `Die()` is always built with its default number of faces. */
  const DefaultFaces := 6

  /** The number of iterations of `range(n)`: none at all when `n` is negative. */
  function RangeLen(n: int): (k: nat)
    ensures n <= 0 ==> k == 0
    ensures n >= 0 ==> k == n
  {
    if n > 0 then n else 0
  }

  /** The value `randint(1, faces)` returns when the generator's next draw is `seed`. */
  function Face(seed: nat, faces: int): (r: int)
    requires faces >= 1
    ensures 1 <= r <= faces
  {
    1 + seed % faces
  }

  /** A draw below the number of faces shows the face one above it. */
  lemma FaceOfSmallDraw(seed: nat, faces: int)
    requires seed < faces
    ensures Face(seed, faces) == seed + 1
  {
  }

  /**
   * The faces of `n` six-sided dice rolled one after another, starting at
   * position `start` of the generator's stream.
   */
  function Draws(seeds: nat -> nat, start: nat, n: int): (r: seq<int>)
    decreases RangeLen(n)
    ensures |r| == RangeLen(n)
    ensures forall i :: 0 <= i < |r| ==> 1 <= r[i] <= DefaultFaces
  {
    if n <= 0 then [] else [Face(seeds(start), DefaultFaces)] + Draws(seeds, start + 1, n - 1)
  }

  /** The `i`-th die of a batch shows the draw at position `start + i`. */
  lemma {:induction false} DrawsAt(seeds: nat -> nat, start: nat, n: int, i: nat)
    requires i < RangeLen(n)
    decreases i
    ensures |Draws(seeds, start, n)| == RangeLen(n)
    ensures Draws(seeds, start, n)[i] == Face(seeds(start + i), DefaultFaces)
  {
    if i > 0 {
      DrawsAt(seeds, start + 1, n - 1, i - 1);
    }
  }

  /** A stream under which the first `|faces|` six-sided rolls show exactly `faces`. */
  function SeedsFor(faces: seq<int>): nat -> nat
  {
    (i: nat) => if i < |faces| && 1 <= faces[i] then faces[i] - 1 else 0
  }

  /**
   * The generator does not restrict the outcome: any sequence of faces in 1..6
   * is what some stream rolls, batch after batch, so a property proved for
   * every stream holds for every outcome of the dice.
   */
  lemma {:induction false} AnyFacesCanBeDrawn(faces: seq<int>, start: nat, n: int)
    requires forall i :: 0 <= i < |faces| ==> 1 <= faces[i] <= DefaultFaces
    requires start + RangeLen(n) <= |faces|
    ensures Draws(SeedsFor(faces), start, n) == faces[start..start + RangeLen(n)]
  {
    var seeds := SeedsFor(faces);
    var r := Draws(seeds, start, n);
    forall i | 0 <= i < RangeLen(n)
      ensures r[i] == faces[start + i]
    {
      DrawsAt(seeds, start, n, i);
      assert seeds(start + i) == faces[start + i] - 1;
      FaceOfSmallDraw(seeds(start + i), DefaultFaces);
    }
  }

  /** A batch drawn where `faces` holds `batch` shows `batch`. */
  lemma DrawsBatch(faces: seq<int>, start: nat, batch: seq<int>)
    requires start + |batch| <= |faces|
    requires forall i :: 0 <= i < |batch| ==> faces[start + i] == batch[i] && 1 <= batch[i] <= DefaultFaces
    ensures Draws(SeedsFor(faces), start, |batch|) == batch
  {
    var seeds := SeedsFor(faces);
    var r := Draws(seeds, start, |batch|);
    forall i | 0 <= i < |batch|
      ensures r[i] == batch[i]
    {
      DrawsAt(seeds, start, |batch|, i);
      assert seeds(start + i) == batch[i] - 1;
      FaceOfSmallDraw(seeds(start + i), DefaultFaces);
    }
  }

  /**
   * Three batches rolled back to back from the stream `SeedsFor(a + b + c)`
   * show `a`, then `b`, then `c`.
   */
  lemma ThreeBatches(a: seq<int>, b: seq<int>, c: seq<int>)
    requires forall i :: 0 <= i < |a| ==> 1 <= a[i] <= DefaultFaces
    requires forall i :: 0 <= i < |b| ==> 1 <= b[i] <= DefaultFaces
    requires forall i :: 0 <= i < |c| ==> 1 <= c[i] <= DefaultFaces
    ensures Draws(SeedsFor(a + b + c), 0, |a|) == a
    ensures Draws(SeedsFor(a + b + c), |a|, |b|) == b
    ensures Draws(SeedsFor(a + b + c), |a| + |b|, |c|) == c
  {
    var faces := a + b + c;
    assert Draws(SeedsFor(faces), 0, |a|) == a by {
      assert forall i :: 0 <= i < |a| ==> faces[i] == a[i];
      DrawsBatch(faces, 0, a);
    }
    assert Draws(SeedsFor(faces), |a|, |b|) == b by {
      assert forall i :: 0 <= i < |b| ==> faces[|a| + i] == b[i];
      DrawsBatch(faces, |a|, b);
    }
    assert Draws(SeedsFor(faces), |a| + |b|, |c|) == c by {
      assert forall i :: 0 <= i < |c| ==> faces[|a| + |b| + i] == c[i];
      DrawsBatch(faces, |a| + |b|, c);
    }
  }

  /**
   * The generator's state: an injected stream of raw draws and the number of
   * draws taken so far. `randint` is the only thing that consumes it.
   */
  class RandomSource {
    const seeds: nat -> nat
    var drawn: nat

    constructor (seeds: nat -> nat)
      ensures this.seeds == seeds && drawn == 0
    {
      this.seeds := seeds;
      drawn := 0;
    }

    /** `random.randint(lo, hi)`: an integer in `lo..hi`, both ends included. */
    method RandInt(lo: int, hi: int) returns (r: int)
      requires lo <= hi
      modifies this
      ensures lo <= r <= hi
      ensures r == lo + seeds(old(drawn)) % (hi - lo + 1)
      ensures drawn == old(drawn) + 1
    {
      r := lo + seeds(drawn) % (hi - lo + 1);
      drawn := drawn + 1;
    }
  }

  class Die {
    const faces: int
    /** The face showing, `None` until the die is rolled. */
    var total: Option<int>

    constructor (faces: int, total: Option<int>)
      ensures this.faces == faces && this.total == total
    {
      this.faces := faces;
      this.total := total;
    }

    /** Sets the face showing to a fresh draw in `1..faces`. */
    method Roll(rng: RandomSource)
      requires faces >= 1
      modifies this, rng
      ensures total.Some? && 1 <= total.value <= faces
      ensures total == Some(Face(rng.seeds(old(rng.drawn)), faces))
      ensures rng.drawn == old(rng.drawn) + 1
    {
      var r := rng.RandInt(1, faces);
      total := Some(r);
    }
  }

  /** Every die of `dice` is a six-sided one, as `_roll_dice` makes them. */
  predicate SixSided(dice: seq<Die>)
  {
    forall i :: 0 <= i < |dice| ==> dice[i].faces == DefaultFaces
  }

  /** Die `i` of `dice` shows face `faces[i]`, for every `i`. */
  ghost predicate Shows(dice: seq<Die>, faces: seq<int>)
    reads dice
  {
    |dice| == |faces| && forall i {:trigger dice[i]} :: 0 <= i < |dice| ==> dice[i].total == Some(faces[i])
  }

  /**
   * The faces showing on a list of dice (`die.total` for each), 0 for one that
   * was never rolled.
   */
  function Totals(dice: seq<Die>): (r: seq<int>)
    reads dice
    ensures |r| == |dice|
    ensures forall i :: 0 <= i < |dice| && dice[i].total.Some? ==> r[i] == dice[i].total.value
  {
    if dice == [] then []
    else [if dice[0].total.Some? then dice[0].total.value else 0] + Totals(dice[1..])
  }

  /** Reading the faces of dice that show `faces` gives back `faces`. */
  lemma TotalsOfShown(dice: seq<Die>, faces: seq<int>)
    requires Shows(dice, faces)
    ensures Totals(dice) == faces
  {
  }

  /**
   * `_roll_dice(n)`: a list of `n` new six-sided dice (none when `n <= 0`), each
   * rolled once, in order, from the generator.
   */
  method RollDice(n: int, rng: RandomSource) returns (dice: seq<Die>)
    modifies rng
    ensures |dice| == RangeLen(n)
    ensures forall i :: 0 <= i < |dice| ==> fresh(dice[i]) && dice[i].faces == DefaultFaces
    ensures forall i :: 0 <= i < |dice| ==> dice[i].total.Some? && 1 <= dice[i].total.value <= dice[i].faces
    ensures Shows(dice, Draws(rng.seeds, old(rng.drawn), n))
    ensures rng.drawn == old(rng.drawn) + RangeLen(n)
  {
    dice := [];
    var k := 0;
    while k < n
      invariant 0 <= k <= RangeLen(n)
      invariant |dice| == k
      invariant rng.drawn == old(rng.drawn) + k
      invariant forall i :: 0 <= i < k ==> fresh(dice[i]) && dice[i].faces == DefaultFaces
      invariant forall i :: 0 <= i < k ==>
                  dice[i].total == Some(Face(rng.seeds(old(rng.drawn) + i), DefaultFaces))
    {
      var die := new Die(DefaultFaces, None);
      die.Roll(rng);
      dice := dice + [die];
      k := k + 1;
    }
    forall i | 0 <= i < k
      ensures dice[i].total == Some(Draws(rng.seeds, old(rng.drawn), n)[i])
    {
      DrawsAt(rng.seeds, old(rng.drawn), n, i);
    }
  }
}
