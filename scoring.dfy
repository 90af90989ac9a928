/**
 * Score bookkeeping of shapemotion.c: the `onesPlace` counter, the
 * `increment` flag that arms it, and the two three-character score strings
 * that `scorePoint` marks.
 */
module Scoring {

  /** The largest value `onesPlace` reaches. */
  const MaxOnes := 9
  /** The value the ball's far-edge branch stores into `increment` and passes as `player`: `'0' + 2`. */
  const FarEdgePlayer := '0' as int + 2

  /** The score statics as values. */
  datatype Tally = Tally(onesPlace: int, increment: int, score1: seq<char>, score2: seq<char>)

  /** Shape of every reachable tally: two 3-character strings and a ones digit in 0..9. */
  predicate WellFormed(t: Tally)
  {
    |t.score1| == 3 && |t.score2| == 3 && 0 <= t.onesPlace <= MaxOnes
  }

  /**
   * `scorePoint(player)`: when the ones digit is below 9 and `increment` is
   * armed, count one point, mark `score1[0]` (player 1) or `score2[2]`
   * (anyone else) with '1' and disarm `increment`; otherwise nothing changes.
   */
  function Scored(t: Tally, player: int): Tally
    requires WellFormed(t)
  {
    if t.onesPlace < MaxOnes && t.increment > 0 then
      Tally(t.onesPlace + 1, 0,
            if player == 1 then t.score1[0 := '1'] else t.score1,
            if player == 1 then t.score2 else t.score2[2 := '1'])
    else
      t
  }

  /** One far-edge hit of the ball: arm `increment` with `'0' + 2`, then score for that player. */
  function FarEdgeHit(t: Tally): Tally
    requires WellFormed(t)
  {
    Scored(t.(increment := FarEdgePlayer), FarEdgePlayer)
  }

  /** `n` far-edge hits in a row. */
  function FarEdgeHits(t: Tally, n: nat): (r: Tally)
    requires WellFormed(t)
    ensures WellFormed(r)
  {
    if n == 0 then t else FarEdgeHit(FarEdgeHits(t, n - 1))
  }

  /**
   * One call of `scorePoint` raises the ones digit by at most one and never
   * past 9; it raises it exactly when the digit is below 9 and `increment`
   * is positive, and then `increment` becomes 0 and exactly the player's
   * mark is written; otherwise the tally is unchanged.
   */
  lemma ScoredSpec(t: Tally, player: int)
    requires WellFormed(t)
    ensures WellFormed(Scored(t, player))
    ensures Scored(t, player).onesPlace == t.onesPlace || Scored(t, player).onesPlace == t.onesPlace + 1
    ensures Scored(t, player).onesPlace == t.onesPlace + 1 <==> t.onesPlace < MaxOnes && t.increment > 0
    ensures Scored(t, player).onesPlace == t.onesPlace ==> Scored(t, player) == t
    ensures Scored(t, player).onesPlace == t.onesPlace + 1 ==>
      Scored(t, player).increment == 0 &&
      (player == 1 ==> Scored(t, player).score1 == t.score1[0 := '1'] && Scored(t, player).score2 == t.score2) &&
      (player != 1 ==> Scored(t, player).score2 == t.score2[2 := '1'] && Scored(t, player).score1 == t.score1)
  {
  }

  /**
   * The tally after `n` far-edge hits, in closed form: the ones digit
   * saturates at 9; `increment` is left disarmed when the last hit counted
   * and armed with `'0' + 2` when it came after saturation; `score1` is never
   * touched, and `score2[2]` is '1' as soon as one hit counted.
   */
  function AfterHits(t: Tally, n: nat): (r: Tally)
    requires WellFormed(t)
    ensures WellFormed(r)
  {
    Tally(if t.onesPlace + n < MaxOnes then t.onesPlace + n else MaxOnes,
          if n == 0 then t.increment else if t.onesPlace + n <= MaxOnes then 0 else FarEdgePlayer,
          t.score1,
          if n > 0 && t.onesPlace < MaxOnes then t.score2[2 := '1'] else t.score2)
  }

  /** One more far-edge hit on top of `n`. */
  lemma AfterHitsStep(t: Tally, n: nat)
    requires WellFormed(t)
    ensures FarEdgeHit(AfterHits(t, n)) == AfterHits(t, n + 1)
  {
    if n > 0 && t.onesPlace < MaxOnes {
      assert t.score2[2 := '1'][2 := '1'] == t.score2[2 := '1'];
    }
  }

  /** `a` hits followed by `b` hits are `a + b` hits, in closed form. */
  lemma AfterHitsAdd(t: Tally, a: nat, b: nat)
    requires WellFormed(t)
    ensures AfterHits(AfterHits(t, a), b) == AfterHits(t, a + b)
  {
    if a > 0 && b > 0 && t.onesPlace < MaxOnes {
      assert t.score2[2 := '1'][2 := '1'] == t.score2[2 := '1'];
    }
  }

  /** Repeated `scorePoint` calls from the far-edge branch agree with the closed form. */
  lemma {:induction false} FarEdgeHitsClosed(t: Tally, n: nat)
    requires WellFormed(t)
    ensures FarEdgeHits(t, n) == AfterHits(t, n)
  {
    if n > 0 {
      FarEdgeHitsClosed(t, n - 1);
      AfterHitsStep(t, n - 1);
    }
  }

  /** The score statics, updated in place. */
  class Score {
    var onesPlace: int
    var increment: int
    const score1: array<char>
    const score2: array<char>

    ghost predicate Valid()
      reads this
    {
      score1 != score2 && score1.Length == 3 && score2.Length == 3 && 0 <= onesPlace <= MaxOnes
    }

    ghost function Snapshot(): (t: Tally)
      reads this, score1, score2
      requires Valid()
      ensures WellFormed(t)
    {
      Tally(onesPlace, increment, score1[..], score2[..])
    }

    /** The zero-initialised statics: counters 0 and both strings NUL-filled. */
    constructor ()
      ensures Valid() && fresh(score1) && fresh(score2)
      ensures Snapshot() == Tally(0, 0, ['\0', '\0', '\0'], ['\0', '\0', '\0'])
    {
      onesPlace, increment := 0, 0;
      score1 := new char[3]['\0', '\0', '\0'];
      score2 := new char[3]['\0', '\0', '\0'];
    }

    method ScorePoint(player: int)
      requires Valid()
      modifies this`onesPlace, this`increment, score1, score2
      ensures Valid() && Snapshot() == Scored(old(Snapshot()), player)
    {
      if onesPlace < MaxOnes && increment > 0 {
        onesPlace := onesPlace + 1;
        if player == 1 {
          score1[0] := '1';
        } else {
          score2[2] := '1';
        }
        increment := 0;
      }
    }
  }
}
