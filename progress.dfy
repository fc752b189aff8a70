/** The list of completed levels kept in the user's progress. */
module Progress {
  import opened Sequences

  /**
   * updateProgress on the list: the level is appended only when it is not
   * already there. Afterwards it is present, occurs as often as before (or
   * once, if it was new), and every other level keeps its count and place.
   */
  function WithLevel(levels: seq<string>, level: string): (r: seq<string>)
    ensures level in r
    ensures |levels| <= |r| && r[..|levels|] == levels
    ensures multiset(r)[level] == if level in levels then multiset(levels)[level] else 1
    ensures forall other :: other != level ==> multiset(r)[other] == multiset(levels)[other]
  {
    if level in levels then levels else levels + [level]
  }

  /** Recording a level a second time changes nothing. */
  lemma WithLevelIdempotent(levels: seq<string>, level: string)
    ensures WithLevel(WithLevel(levels, level), level) == WithLevel(levels, level)
  {
  }

  /** A list without repeats stays without repeats, so a recorded level is there exactly once. */
  lemma WithLevelKeepsDistinct(levels: seq<string>, level: string)
    requires Distinct(levels)
    ensures Distinct(WithLevel(levels, level))
    ensures multiset(WithLevel(levels, level))[level] == 1
  {
    var r := WithLevel(levels, level);
    if level in levels {
      DistinctCount(levels, level);
    } else {
      forall i, j | 0 <= i < j < |r| ensures r[i] != r[j] {
        if j == |levels| {
          assert r[i] == levels[i];
        } else {
          assert r[i] == levels[i] && r[j] == levels[j];
        }
      }
    }
  }
}
