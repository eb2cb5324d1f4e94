/** Dice: an immutable roll of several dice, and the dice object that remembers the last
    registered roll and the current streak of doubles. */
module Dice {
  import opened Wrappers

  /** `Roll`: the faces of one throw, in order. */
  datatype Roll = Roll(faces: seq<int>)

  /** Every face of a throw of `count` dice with `sides` sides lies in 1..sides. */
  predicate FacesFit(faces: seq<int>, count: nat, sides: nat) {
    |faces| == count && forall i :: 0 <= i < |faces| ==> 1 <= faces[i] <= sides
  }

  /** `Roll.__init__`: the random faces are given by the caller. */
  function NewRoll(count: nat, sides: nat, faces: seq<int>): (r: Roll)
    requires FacesFit(faces, count, sides)
    ensures |r.faces| == count && forall i :: 0 <= i < count ==> 1 <= r.faces[i] <= sides
  {
    Roll(faces)
  }

  function SumOf(s: seq<int>): int
  {
    if s == [] then 0 else s[0] + SumOf(s[1..])
  }

  /** `Roll.sum`: the total of the faces; it lies between `count` and `count * sides`. */
  function Sum(r: Roll): int
  {
    SumOf(r.faces)
  }

  lemma {:induction false} SumOfBounds(s: seq<int>, sides: nat)
    requires forall i :: 0 <= i < |s| ==> 1 <= s[i] <= sides
    ensures |s| <= SumOf(s) <= |s| * sides
  {
    if s != [] {
      SumOfBounds(s[1..], sides);
    }
  }

  /** The sum of a fitting throw is at least the number of dice and at most dice times sides. */
  lemma SumBounds(r: Roll, count: nat, sides: nat)
    requires FacesFit(r.faces, count, sides)
    ensures count <= Sum(r) <= count * sides
  {
    SumOfBounds(r.faces, sides);
  }

  /** `all(i == first for i in rest)`, walked element by element. */
  function AllEqualTo(s: seq<int>, first: int): (b: bool)
    ensures b <==> forall i :: 0 <= i < |s| ==> s[i] == first
  {
    if s == [] then true else s[0] == first && AllEqualTo(s[1..], first)
  }

  /** `Roll.is_double`: false for fewer than two dice, else whether all faces equal the first. */
  predicate IsDouble(r: Roll)
  {
    |r.faces| >= 2 && AllEqualTo(r.faces[1..], r.faces[0])
  }

  /** A double is a throw of at least two dice showing one face. */
  lemma IsDoubleMeansOneFace(r: Roll)
    ensures IsDouble(r) <==> |r.faces| >= 2 && forall i :: 0 <= i < |r.faces| ==> r.faces[i] == r.faces[0]
  {
    if |r.faces| >= 2 {
      if forall i :: 0 <= i < |r.faces| ==> r.faces[i] == r.faces[0] {
        forall i | 0 <= i < |r.faces[1..]| ensures r.faces[1..][i] == r.faces[0] {
          assert r.faces[1..][i] == r.faces[i + 1];
        }
      }
    }
  }

  /** How many registered rolls at the end of `history` are doubles in a row. */
  function TrailingDoubles(history: seq<Roll>): (n: nat)
    ensures n <= |history|
    ensures n > 0 ==> IsDouble(history[|history| - 1])
  {
    if history == [] then 0
    else if IsDouble(history[|history| - 1]) then TrailingDoubles(history[..|history| - 1]) + 1
    else 0
  }

  /** The streak is at least three exactly when the last three registered rolls are doubles. */
  lemma {:induction false} TripleDoubleMeansLastThree(history: seq<Roll>)
    ensures TrailingDoubles(history) >= 3 <==>
              |history| >= 3 && IsDouble(history[|history| - 1]) && IsDouble(history[|history| - 2]) &&
              IsDouble(history[|history| - 3])
  {
    if |history| >= 1 && IsDouble(history[|history| - 1]) {
      var h1 := history[..|history| - 1];
      if |h1| >= 1 && IsDouble(h1[|h1| - 1]) {
        var h2 := h1[..|h1| - 1];
        assert TrailingDoubles(h1) == TrailingDoubles(h2) + 1;
        if |h2| >= 1 && IsDouble(h2[|h2| - 1]) {
          assert TrailingDoubles(h2) >= 1;
        } else {
          assert TrailingDoubles(h2) == 0;
        }
      } else {
        assert TrailingDoubles(h1) == 0;
      }
    }
  }

  /** `Dice`: `count` dice of `sides` sides; `history` is the ghost record of the registered
      rolls since the last reset, from which the doubles streak is determined. */
  class Dice {
    const count: nat
    const sides: nat
    var lastRoll: Option<Roll>
    var doubles: nat
    ghost var history: seq<Roll>

    ghost predicate Valid()
      reads this
    {
      doubles == TrailingDoubles(history) &&
      (lastRoll.Some? <==> history != []) &&
      (history != [] ==> lastRoll.value == history[|history| - 1])
    }

    /** `Dice.__init__`: `count` dice of `sides` sides (two six-sided ones by default), no roll yet. */
    constructor (count: nat, sides: nat)
      ensures Valid() && this.count == count && this.sides == sides
      ensures lastRoll == None && doubles == 0
    {
      this.count := count;
      this.sides := sides;
      lastRoll := None;
      doubles := 0;
      history := [];
    }

    /** `triple_double`: three or more doubles in a row. */
    predicate TripleDouble()
      reads this
    {
      doubles >= 3
    }

    /** `reset`: forget the last roll and the streak. */
    method Reset()
      requires Valid()
      modifies this
      ensures Valid() && doubles == 0 && lastRoll == None && history == []
    {
      doubles := 0;
      lastRoll := None;
      history := [];
    }

    /** `roll(register)`: a new throw; only a registered one becomes the last roll and
        extends or breaks the streak of doubles. */
    method Roll(register: bool, faces: seq<int>) returns (r: Roll)
      requires Valid() && FacesFit(faces, count, sides)
      modifies this
      ensures Valid()
      ensures r == NewRoll(count, sides, faces)
      ensures register ==> lastRoll == Some(r) && history == old(history) + [r]
      ensures register ==> doubles == if IsDouble(r) then old(doubles) + 1 else 0
      ensures !register ==> lastRoll == old(lastRoll) && doubles == old(doubles) && history == old(history)
    {
      r := NewRoll(count, sides, faces);
      if register {
        lastRoll := Some(r);
        if IsDouble(r) {
          doubles := doubles + 1;
        } else {
          doubles := 0;
        }
        history := history + [r];
        assert history[..|history| - 1] == old(history);
      }
    }
  }
}
