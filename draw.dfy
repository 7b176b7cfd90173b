/** The random choice of a Pokédex number shared by both quizzes:
    `Math.floor(Math.random() * count) + 1`, with the value of
    `Math.random()` passed in as an exact real in [0, 1). */
module Draw {

  function RandomId(r: real, count: nat): (id: int)
    requires 0.0 <= r < 1.0
    ensures 0 < count ==> 1 <= id <= count
  {
    var scaled := r * count as real;
    assert scaled < count as real || count == 0;
    scaled.Floor + 1
  }

  /** Every number in [1, count] is drawn by some value of the random source,
      so the range is covered, not only bounded. */
  lemma RandomIdReachesEvery(id: int, count: nat)
    requires 1 <= id <= count
    ensures var r := (id - 1) as real / count as real;
            0.0 <= r < 1.0 && RandomId(r, count) == id
  {
  }
}
