/**
 * generateQuizSet: a small pool is shuffled whole; a larger one is sampled
 * per difficulty bucket, Easy, Medium then Hard, and the selection is
 * shuffled once more.
 */
module QuizSet {
  import opened Questions
  import opened Shuffle
  import opened Settings
  import opened Sequences

  /** The order Object.entries gives the configuration's buckets. */
  const Order: seq<Difficulty> := [Easy, Medium, Hard]

  /** Array.prototype.slice(0, n). */
  function Take<T>(s: seq<T>, n: nat): (r: seq<T>)
    ensures |r| == if n <= |s| then n else |s|
    ensures r == s[..|r|]
  {
    if n <= |s| then s[..n] else s
  }

  /** The Math.random cursor after the shuffles of the first `k` buckets. */
  function CursorAfter(pool: seq<Question>, from: nat, k: nat): nat
    requires k <= |Order|
  {
    if k == 0 then from
    else CursorAfter(pool, from, k - 1) + Steps(|Bucket(pool, Order[k - 1])|)
  }

  /** What one bucket contributes: its first `Target` questions after shuffling. */
  function Selection(pool: seq<Question>, config: DifficultyConfig, random: RandomStream, from: nat, k: nat): seq<Question>
    requires IsRandom(random) && k < |Order|
  {
    Take(Shuffled(Bucket(pool, Order[k]), random, CursorAfter(pool, from, k)), Target(config, Order[k]))
  }

  /** The exam paper after the first `k` buckets have been concatenated. */
  function Picked(pool: seq<Question>, config: DifficultyConfig, random: RandomStream, from: nat, k: nat): seq<Question>
    requires IsRandom(random) && k <= |Order|
  {
    if k == 0 then [] else Picked(pool, config, random, from, k - 1) + Selection(pool, config, random, from, k - 1)
  }

  /** The quiz set generateQuizSet returns for `pool` when its draws start at `from`. */
  function QuizSet(pool: seq<Question>, config: DifficultyConfig, random: RandomStream, from: nat): seq<Question>
    requires IsRandom(random)
  {
    if |pool| <= Total(config) then Shuffled(pool, random, from)
    else Shuffled(Picked(pool, config, random, from, 3), random, CursorAfter(pool, from, 3))
  }

  /** The Math.random cursor once generateQuizSet has returned. */
  function QuizSetCursor(pool: seq<Question>, config: DifficultyConfig, random: RandomStream, from: nat): nat
    requires IsRandom(random)
  {
    if |pool| <= Total(config) then from + Steps(|pool|)
    else CursorAfter(pool, from, 3) + Steps(|Picked(pool, config, random, from, 3)|)
  }

  /** The forEach of generateQuizSet: each question pushed onto the array of its bucket, in pool order. */
  method SortIntoBuckets(pool: seq<Question>) returns (easy: seq<Question>, medium: seq<Question>, hard: seq<Question>)
    ensures easy == Bucket(pool, Easy) && medium == Bucket(pool, Medium) && hard == Bucket(pool, Hard)
  {
    easy, medium, hard := [], [], [];
    for n := 0 to |pool|
      invariant easy == Bucket(pool[..n], Easy)
      invariant medium == Bucket(pool[..n], Medium)
      invariant hard == Bucket(pool[..n], Hard)
    {
      var item := pool[n];
      PrefixStep(pool, n);
      match BucketOf(NormalizedLabel(item.difficulty))
      case Easy => easy := easy + [item];
      case Medium => medium := medium + [item];
      case Hard => hard := hard + [item];
    }
    WholePrefix(pool);
  }

  /** One turn of the bucket loop: shuffle the bucket and keep its first `target` questions. */
  method SelectFromBucket(bucket: seq<Question>, target: nat, random: RandomStream, from: nat)
    returns (selected: seq<Question>, next: nat)
    requires IsRandom(random)
    ensures selected == Take(Shuffled(bucket, random, from), target)
    ensures next == from + Steps(|bucket|)
  {
    var shuffled;
    shuffled, next := ShuffleArray(bucket, random, from);
    selected := Take(shuffled, target);
  }

  /** The stratified branch up to the final shuffle: the buckets' selections, concatenated in order. */
  method StratifiedPaper(pool: seq<Question>, config: DifficultyConfig, random: RandomStream, from: nat)
    returns (paper: seq<Question>, cursor: nat)
    requires IsRandom(random)
    ensures paper == Picked(pool, config, random, from, 3)
    ensures cursor == CursorAfter(pool, from, 3)
  {
    var easy, medium, hard := SortIntoBuckets(pool);
    paper := [];
    cursor := from;
    for k := 0 to |Order|
      invariant paper == Picked(pool, config, random, from, k)
      invariant cursor == CursorAfter(pool, from, k)
    {
      var level := Order[k];
      var bucket := match level case Easy => easy case Medium => medium case Hard => hard;
      var selected;
      selected, cursor := SelectFromBucket(bucket, Target(config, level), random, cursor);
      paper := paper + selected;
    }
  }

  /**
   * generateQuizSet: the whole pool shuffled when it is no larger than the
   * total target, otherwise the stratified selection shuffled once more.
   */
  method GenerateQuizSet(pool: seq<Question>, config: DifficultyConfig, random: RandomStream, from: nat)
    returns (quiz: seq<Question>, cursor: nat)
    requires IsRandom(random)
    ensures quiz == QuizSet(pool, config, random, from)
    ensures cursor == QuizSetCursor(pool, config, random, from)
  {
    if |pool| <= Total(config) {
      quiz, cursor := ShuffleArray(pool, random, from);
    } else {
      var paper, next := StratifiedPaper(pool, config, random, from);
      quiz, cursor := ShuffleArray(paper, random, next);
    }
  }

  /** The stratified branch of QuizSet, unfolded once. */
  lemma StratifiedQuizSet(pool: seq<Question>, config: DifficultyConfig, random: RandomStream, from: nat)
    requires IsRandom(random) && |pool| > Total(config)
    ensures QuizSet(pool, config, random, from) ==
      Shuffled(Picked(pool, config, random, from, 3), random, CursorAfter(pool, from, 3))
  {
  }

  /** When the pool is no larger than the total target, the quiz is exactly the pool, reordered. */
  lemma SmallPoolIsPermutation(pool: seq<Question>, config: DifficultyConfig, random: RandomStream, from: nat)
    requires IsRandom(random) && |pool| <= Total(config)
    ensures multiset(QuizSet(pool, config, random, from)) == multiset(pool)
  {
    ShuffledIsPermutation(pool, random, from);
  }

  /** A slice from the front keeps only entries of the whole, never more copies than it has. */
  lemma TakeIsSubMultiset<T>(s: seq<T>, n: nat)
    ensures multiset(Take(s, n)) <= multiset(s)
  {
    var r := Take(s, n);
    assert s == r + s[|r|..];
  }

  /** One bucket's selection: min(target, bucket size) questions of that bucket, none repeated beyond the pool. */
  lemma SelectionFacts(pool: seq<Question>, config: DifficultyConfig, random: RandomStream, from: nat, k: nat)
    requires IsRandom(random) && k < |Order|
    ensures var sel := Selection(pool, config, random, from, k);
      var size := |Bucket(pool, Order[k])|;
      |sel| == (if Target(config, Order[k]) <= size then Target(config, Order[k]) else size) &&
      multiset(sel) <= multiset(Bucket(pool, Order[k])) &&
      forall j :: 0 <= j < |sel| ==> DifficultyOf(sel[j]) == Order[k]
  {
    var bucket := Bucket(pool, Order[k]);
    var shuffled := Shuffled(bucket, random, CursorAfter(pool, from, k));
    ShuffledIsPermutation(bucket, random, CursorAfter(pool, from, k));
    var sel := Take(shuffled, Target(config, Order[k]));
    TakeIsSubMultiset(shuffled, Target(config, Order[k]));
    forall j | 0 <= j < |sel| ensures DifficultyOf(sel[j]) == Order[k] {
      assert sel[j] in multiset(bucket);
    }
  }

  /** The exam paper is the three selections, Easy, Medium then Hard. */
  lemma PaperIsConcatenation(pool: seq<Question>, config: DifficultyConfig, random: RandomStream, from: nat)
    requires IsRandom(random)
    ensures Picked(pool, config, random, from, 3) ==
      Selection(pool, config, random, from, 0) + Selection(pool, config, random, from, 1) + Selection(pool, config, random, from, 2)
  {
    assert Picked(pool, config, random, from, 1) == Selection(pool, config, random, from, 0);
  }

  /** Three runs of questions of one difficulty each: how many of each difficulty their concatenation holds. */
  lemma {:induction false} ConcatenationCounts(e: seq<Question>, m: seq<Question>, h: seq<Question>, d: Difficulty)
    requires forall j :: 0 <= j < |e| ==> DifficultyOf(e[j]) == Easy
    requires forall j :: 0 <= j < |m| ==> DifficultyOf(m[j]) == Medium
    requires forall j :: 0 <= j < |h| ==> DifficultyOf(h[j]) == Hard
    ensures |Bucket(e + m + h, d)| == match d case Easy => |e| case Medium => |m| case Hard => |h|
  {
    BucketAppend(e + m, h, d);
    BucketAppend(e, m, d);
    BucketOfUniform(e, Easy, d);
    BucketOfUniform(m, Medium, d);
    BucketOfUniform(h, Hard, d);
  }

  /** In the stratified branch bucket `d` contributes exactly min(target, bucket size) questions. */
  lemma StratifiedCount(pool: seq<Question>, config: DifficultyConfig, random: RandomStream, from: nat, d: Difficulty)
    requires IsRandom(random) && |pool| > Total(config)
    ensures var quiz := QuizSet(pool, config, random, from);
      |Bucket(quiz, d)| == if Target(config, d) <= |Bucket(pool, d)| then Target(config, d) else |Bucket(pool, d)|
  {
    var e := Selection(pool, config, random, from, 0);
    var m := Selection(pool, config, random, from, 1);
    var h := Selection(pool, config, random, from, 2);
    SelectionFacts(pool, config, random, from, 0);
    SelectionFacts(pool, config, random, from, 1);
    SelectionFacts(pool, config, random, from, 2);
    PaperIsConcatenation(pool, config, random, from);
    StratifiedQuizSet(pool, config, random, from);
    ShuffledIsPermutation(e + m + h, random, CursorAfter(pool, from, 3));
    BucketSizeOfPermutation(QuizSet(pool, config, random, from), e + m + h, d);
    ConcatenationCounts(e, m, h, d);
  }

  /** In the stratified branch no question appears more often than it does in the pool. */
  lemma StratifiedWithinPool(pool: seq<Question>, config: DifficultyConfig, random: RandomStream, from: nat)
    requires IsRandom(random) && |pool| > Total(config)
    ensures multiset(QuizSet(pool, config, random, from)) <= multiset(pool)
  {
    var e := Selection(pool, config, random, from, 0);
    var m := Selection(pool, config, random, from, 1);
    var h := Selection(pool, config, random, from, 2);
    SelectionFacts(pool, config, random, from, 0);
    SelectionFacts(pool, config, random, from, 1);
    SelectionFacts(pool, config, random, from, 2);
    PaperIsConcatenation(pool, config, random, from);
    StratifiedQuizSet(pool, config, random, from);
    ShuffledIsPermutation(e + m + h, random, CursorAfter(pool, from, 3));
    BucketsPartition(pool);
    assert multiset(e + m + h) == multiset(e) + multiset(m) + multiset(h);
  }

  /**
   * The stratified branch as a whole: every bucket contributes exactly
   * min(target, bucket size) questions, the quiz is as long as those minima
   * together, and it is a sub-multiset of the pool.
   */
  lemma StratifiedCounts(pool: seq<Question>, config: DifficultyConfig, random: RandomStream, from: nat)
    requires IsRandom(random) && |pool| > Total(config)
    ensures var quiz := QuizSet(pool, config, random, from);
      (forall d: Difficulty ::
         |Bucket(quiz, d)| == if Target(config, d) <= |Bucket(pool, d)| then Target(config, d) else |Bucket(pool, d)|) &&
      |quiz| == |Bucket(quiz, Easy)| + |Bucket(quiz, Medium)| + |Bucket(quiz, Hard)| &&
      multiset(quiz) <= multiset(pool)
  {
    forall d: Difficulty
      ensures var quiz := QuizSet(pool, config, random, from);
        |Bucket(quiz, d)| == if Target(config, d) <= |Bucket(pool, d)| then Target(config, d) else |Bucket(pool, d)|
    {
      StratifiedCount(pool, config, random, from, d);
    }
    BucketsPartition(QuizSet(pool, config, random, from));
    StratifiedWithinPool(pool, config, random, from);
  }

  /** Whatever the branch, the quiz never repeats a question more often than the pool holds it. */
  lemma QuizSetWithinPool(pool: seq<Question>, config: DifficultyConfig, random: RandomStream, from: nat)
    requires IsRandom(random)
    ensures multiset(QuizSet(pool, config, random, from)) <= multiset(pool)
  {
    if |pool| <= Total(config) {
      SmallPoolIsPermutation(pool, config, random, from);
    } else {
      StratifiedWithinPool(pool, config, random, from);
    }
  }

  /** A pool without repeated questions gives a quiz without repeated questions. */
  lemma QuizSetDistinct(pool: seq<Question>, config: DifficultyConfig, random: RandomStream, from: nat)
    requires IsRandom(random) && Distinct(pool)
    ensures Distinct(QuizSet(pool, config, random, from))
  {
    QuizSetWithinPool(pool, config, random, from);
    SubMultisetOfDistinct(QuizSet(pool, config, random, from), pool);
  }

  /** With every target at 0 the quiz is empty, even for a non-empty pool. */
  lemma ZeroTargetsGiveEmptyQuiz(pool: seq<Question>, config: DifficultyConfig, random: RandomStream, from: nat)
    requires IsRandom(random) && config == DifficultyConfig(0, 0, 0)
    ensures QuizSet(pool, config, random, from) == []
  {
    if |pool| > 0 {
      SelectionFacts(pool, config, random, from, 0);
      SelectionFacts(pool, config, random, from, 1);
      SelectionFacts(pool, config, random, from, 2);
      PaperIsConcatenation(pool, config, random, from);
      var paper := Picked(pool, config, random, from, 3);
      StratifiedQuizSet(pool, config, random, from);
      ShuffledIsPermutation(paper, random, CursorAfter(pool, from, 3));
    }
  }
}
