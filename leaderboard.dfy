/**
 * The per-level leaderboard: at most ten entries, best score first and,
 * among equal scores, the earlier entry first.
 */
module Leaderboard {
  import opened Sequences

  /** A saved score; `date` is the save time as a number (the script stores an ISO string). */
  datatype Entry = Entry(name: string, score: int, total: int, date: int)

  /** How many entries a level keeps. */
  const Capacity := 10

  /**
   * The comparator of saveScore, `b.score - a.score || date(a) - date(b)`:
   * the score difference, or the date difference when the scores are equal
   * (a zero difference is falsy, so `||` moves on to the dates).
   */
  function Comparator(a: Entry, b: Entry): int {
    if b.score - a.score != 0 then b.score - a.score else a.date - b.date
  }

  /**
   * `a` may stay ahead of `b` in the sorted list: a higher score, or the
   * same score and a date no later.
   */
  predicate RanksBefore(a: Entry, b: Entry)
    ensures RanksBefore(a, b) <==> Comparator(a, b) <= 0
  {
    a.score > b.score || (a.score == b.score && a.date <= b.date)
  }

  predicate Sorted(s: seq<Entry>) {
    forall i, j :: 0 <= i < j < |s| ==> RanksBefore(s[i], s[j])
  }

  /** How many leading entries of `s` rank before `e`: where a stable insertion puts it. */
  function Rank(s: seq<Entry>, e: Entry): (p: nat)
    ensures p <= |s|
    ensures forall k :: 0 <= k < p ==> RanksBefore(s[k], e)
    ensures p < |s| ==> !RanksBefore(s[p], e)
  {
    if s == [] || !RanksBefore(s[0], e) then 0 else 1 + Rank(s[1..], e)
  }

  /** Stable insertion of `e`: after every entry that ranks before it. */
  function Insert(s: seq<Entry>, e: Entry): (r: seq<Entry>)
    ensures |r| == |s| + 1
    ensures multiset(r) == multiset(s) + multiset{e}
  {
    if s == [] || !RanksBefore(s[0], e) then [e] + s
    else
      assert s == [s[0]] + s[1..];
      [s[0]] + Insert(s[1..], e)
  }

  /** The insertion point is the rank: `e` lands after exactly the entries that rank before it. */
  lemma {:induction false} InsertAtRank(s: seq<Entry>, e: Entry)
    ensures Insert(s, e) == s[..Rank(s, e)] + [e] + s[Rank(s, e)..]
  {
    if s != [] && RanksBefore(s[0], e) {
      var tail := s[1..];
      InsertAtRank(tail, e);
      var p := Rank(tail, e);
      assert Rank(s, e) == p + 1;
      SpliceAfterHead(s, p, e);
    }
  }

  /** Putting the head back in front of a list spliced at `p` splices the whole list at `p + 1`. */
  lemma SpliceAfterHead<T>(s: seq<T>, p: nat, x: T)
    requires p < |s|
    ensures [s[0]] + (s[1..][..p] + [x] + s[1..][p..]) == s[..p + 1] + [x] + s[p + 1..]
  {
    assert s[1..][..p] == s[1..p + 1];
    assert s[1..][p..] == s[p + 1..];
    assert [s[0]] + s[1..p + 1] == s[..p + 1];
  }

  /** Inserting into an ordered list keeps it ordered. */
  lemma {:induction false} InsertSorted(s: seq<Entry>, e: Entry)
    requires Sorted(s)
    ensures Sorted(Insert(s, e))
  {
    if s == [] {
    } else if !RanksBefore(s[0], e) {
      var r := [e] + s;
      forall i, j | 0 <= i < j < |r| ensures RanksBefore(r[i], r[j]) {
        if i == 0 {
          assert r[j] == s[j - 1];
          if j > 1 {
            assert RanksBefore(s[0], s[j - 1]);
          }
        } else {
          assert r[i] == s[i - 1] && r[j] == s[j - 1];
        }
      }
    } else {
      var tail := s[1..];
      SortedSlice(s, 1, |s|);
      InsertSorted(tail, e);
      var t := Insert(tail, e);
      var r := [s[0]] + t;
      forall i, j | 0 <= i < j < |r| ensures RanksBefore(r[i], r[j]) {
        if i == 0 {
          var x := t[j - 1];
          assert x in multiset(t);
          if x != e {
            assert x in multiset(tail);
            var k :| 0 <= k < |tail| && tail[k] == x;
            assert s[k + 1] == x;
          }
        } else {
          assert r[i] == t[i - 1] && r[j] == t[j - 1];
        }
      }
    }
  }

  /** Array.prototype.sort with the saveScore comparator (stable), as insertion sort. */
  function SortEntries(s: seq<Entry>): (r: seq<Entry>)
    ensures Sorted(r)
    ensures multiset(r) == multiset(s)
  {
    if s == [] then []
    else
      var init := s[..|s| - 1];
      var last := s[|s| - 1];
      InsertSorted(SortEntries(init), last);
      FrontAndLast(s);
      Insert(SortEntries(init), last)
  }

  /** A slice of an ordered list is ordered. */
  lemma SortedSlice(s: seq<Entry>, lo: nat, hi: nat)
    requires Sorted(s) && lo <= hi <= |s|
    ensures Sorted(s[lo..hi])
  {
    var t := s[lo..hi];
    forall i, j | 0 <= i < j < |t| ensures RanksBefore(t[i], t[j]) {
      assert t[i] == s[lo + i] && t[j] == s[lo + j];
    }
  }

  /** An entry every entry ranks before goes to the end. */
  lemma {:induction false} InsertAfterAll(s: seq<Entry>, e: Entry)
    requires forall k :: 0 <= k < |s| ==> RanksBefore(s[k], e)
    ensures Insert(s, e) == s + [e]
  {
    if s != [] {
      InsertAfterAll(s[1..], e);
      assert s == [s[0]] + s[1..];
    }
  }

  /** Sorting an already sorted list changes nothing. */
  lemma {:induction false} SortSortedIsIdentity(s: seq<Entry>)
    requires Sorted(s)
    ensures SortEntries(s) == s
  {
    if s != [] {
      var init, last := s[..|s| - 1], s[|s| - 1];
      SortedSlice(s, 0, |s| - 1);
      SortSortedIsIdentity(init);
      forall k | 0 <= k < |init| ensures RanksBefore(init[k], last) {
        assert init[k] == s[k];
      }
      InsertAfterAll(init, last);
      FrontAndLast(s);
    }
  }

  /** Array.prototype.slice(0, Capacity). */
  function Top(s: seq<Entry>): (r: seq<Entry>)
    ensures |r| == if |s| <= Capacity then |s| else Capacity
    ensures r == s[..|r|]
  {
    if |s| <= Capacity then s else s[..Capacity]
  }

  /**
   * The list saveScore stores: the old list plus the new entry, sorted,
   * cut to the ten best. It is ordered, holds at most ten entries, and
   * holds only entries that were there before or the new one.
   */
  function SavedScores(scores: seq<Entry>, e: Entry): (r: seq<Entry>)
    ensures |r| == if |scores| < Capacity then |scores| + 1 else Capacity
    ensures Sorted(r)
    ensures multiset(r) <= multiset(scores) + multiset{e}
  {
    var sorted := SortEntries(scores + [e]);
    var r := Top(sorted);
    assert sorted == r + sorted[|r|..];
    assert multiset(sorted) == multiset(r) + multiset(sorted[|r|..]);
    r
  }

  /** The qualification test of showResult: a positive score that would make the top ten. */
  predicate Qualifies(scores: seq<Entry>, score: int)
    ensures Qualifies(scores, score) ==> score > 0
    ensures score > 0 && |scores| < Capacity ==> Qualifies(scores, score)
  {
    score > 0 && (|scores| < Capacity || score > scores[|scores| - 1].score)
  }

  /** Sorting a stored list with one entry appended is inserting that entry. */
  lemma SortAppendedIsInsert(scores: seq<Entry>, e: Entry)
    requires Sorted(scores)
    ensures SortEntries(scores + [e]) == Insert(scores, e)
  {
    var s := scores + [e];
    assert s[..|s| - 1] == scores;
    SortSortedIsIdentity(scores);
  }

  /**
   * Against entries saved earlier, a new entry lands before the last one
   * of a full list exactly when it beats that last score.
   */
  lemma RankInFullList(scores: seq<Entry>, e: Entry)
    requires Sorted(scores) && |scores| == Capacity
    requires forall k :: 0 <= k < |scores| ==> scores[k].date < e.date
    ensures Rank(scores, e) < Capacity <==> e.score > scores[Capacity - 1].score
  {
    var p := Rank(scores, e);
    var last := scores[Capacity - 1];
    if p < Capacity {
      assert !RanksBefore(scores[p], e);
      if p < Capacity - 1 {
        assert RanksBefore(scores[p], last);
      }
      assert last.date < e.date;
    } else {
      assert RanksBefore(last, e);
    }
  }

  /** The new entry survives the cut to ten exactly when it is inserted among the first ten. */
  lemma KeptIffRankedInTop(scores: seq<Entry>, e: Entry)
    requires Sorted(scores)
    requires forall k :: 0 <= k < |scores| ==> scores[k].date < e.date
    ensures e in Top(Insert(scores, e)) <==> Rank(scores, e) < Capacity
  {
    InsertAtRank(scores, e);
    var p := Rank(scores, e);
    var t := Top(Insert(scores, e));
    if p < Capacity {
      assert t[p] == e;
    } else {
      assert t == scores[..Capacity];
      forall k | 0 <= k < |t| ensures t[k] != e {
        assert t[k].date < e.date;
      }
    }
  }

  /**
   * On a stored list (sorted, at most ten entries, all saved earlier) a new
   * entry is kept exactly when the list had room or it beats the last score.
   */
  lemma KeptIffBeatsLast(scores: seq<Entry>, e: Entry)
    requires Sorted(scores) && |scores| <= Capacity
    requires forall k :: 0 <= k < |scores| ==> scores[k].date < e.date
    ensures e in SavedScores(scores, e) <==> |scores| < Capacity || e.score > scores[|scores| - 1].score
  {
    SortAppendedIsInsert(scores, e);
    KeptIffRankedInTop(scores, e);
    if |scores| == Capacity {
      RankInFullList(scores, e);
    }
  }

  /**
   * The qualification test agrees with what saveScore keeps: a score
   * qualifies exactly when it is positive and its entry would be kept.
   */
  lemma QualifiesIffKept(scores: seq<Entry>, e: Entry)
    requires Sorted(scores) && |scores| <= Capacity
    requires forall k :: 0 <= k < |scores| ==> scores[k].date < e.date
    ensures Qualifies(scores, e.score) <==> e.score > 0 && e in SavedScores(scores, e)
  {
    KeptIffBeatsLast(scores, e);
  }
}
