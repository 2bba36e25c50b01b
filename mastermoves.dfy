/** The "Master the moves" carousel: an index into a fixed list of exercises that wraps around. */
module MasterMoves {

  /** The exercises the carousel shows, in order. */
  const Exercises: seq<string> := ["Jumping Jacks", "Plank", "Squats", "Push-ups"]

  /** A valid carousel position. */
  predicate ValidIndex(i: int)
  {
    0 <= i < |Exercises|
  }

  /** `prevExercise`: the first exercise wraps to the last; otherwise one back. */
  function PrevExercise(i: int): (r: int)
    requires ValidIndex(i)
    ensures ValidIndex(r)
    ensures i == 0 ==> r == |Exercises| - 1
    ensures i != 0 ==> r == i - 1
    // stepping back is stepping forward |Exercises| - 1 times, modulo the length
    ensures r == (i + |Exercises| - 1) % |Exercises|
  {
    if i == 0 then |Exercises| - 1 else i - 1
  }

  /** `nextExercise`: the last exercise wraps to the first; otherwise one forward. */
  function NextExercise(i: int): (r: int)
    requires ValidIndex(i)
    ensures ValidIndex(r)
    ensures i == |Exercises| - 1 ==> r == 0
    ensures i != |Exercises| - 1 ==> r == i + 1
    ensures r == (i + 1) % |Exercises|
  {
    if i == |Exercises| - 1 then 0 else i + 1
  }

  /** Back undoes forward and forward undoes back. */
  lemma PrevNextInverse(i: int)
    requires ValidIndex(i)
    ensures PrevExercise(NextExercise(i)) == i
    ensures NextExercise(PrevExercise(i)) == i
  {
  }

  /** The index after k presses of the forward button. */
  function NextTimes(i: int, k: nat): (r: int)
    requires ValidIndex(i)
    ensures ValidIndex(r)
    decreases k
  {
    if k == 0 then i else NextExercise(NextTimes(i, k - 1))
  }

  /** k forward presses move the index k places, modulo the length. */
  lemma {:induction false} NextTimesIsModular(i: int, k: nat)
    requires ValidIndex(i)
    ensures NextTimes(i, k) == (i + k) % |Exercises|
    decreases k
  {
    if k > 0 {
      NextTimesIsModular(i, k - 1);
      assert |Exercises| == 4;
      var j := (i + k - 1) % 4;
      assert NextTimes(i, k) == (j + 1) % 4;
      assert i + k - 1 == ((i + k - 1) / 4) * 4 + j;
    }
  }

  /** Pressing forward as many times as there are exercises returns to the start. */
  lemma FullCycleReturns(i: int)
    requires ValidIndex(i)
    ensures NextTimes(i, |Exercises|) == i
  {
    NextTimesIsModular(i, |Exercises|);
  }
}
