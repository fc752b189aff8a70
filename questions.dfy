/**
 * A question record of the bank (as written by the CSV converter) and the
 * difficulty normalisation that decides which sampling bucket it falls in.
 */
module Questions {
  import opened Wrappers
  import opened Text
  import opened Sequences

  /**
   * One multiple-choice question. `answer` is the 1-based index of the
   * correct option; `explanation` and `difficulty` are absent or present
   * (an empty string counts as absent wherever the script tests them).
   */
  datatype Question = Question(
    id: string,
    text: string,
    image: string,
    options: seq<string>,
    answer: int,
    explanation: Option<string>,
    topic: string,
    difficulty: Option<string>)

  /** The three sampling buckets. */
  datatype Difficulty = Easy | Medium | Hard

  /** The first character upper-cased and the rest lower-cased. */
  function TitleCase(raw: string): (r: string)
    ensures |r| == |raw|
  {
    if raw == "" then "" else [UpperChar(raw[0])] + Lower(raw[1..])
  }

  /**
   * The label a difficulty field normalises to: a missing or empty field
   * reads as "Medium"; otherwise the value is trimmed and title-cased, and
   * "Normal" becomes "Medium".
   */
  function NormalizedLabel(difficulty: Option<string>): (r: string)
    ensures difficulty.None? || difficulty.value == "" ==> r == "Medium"
    ensures r != "Normal"
  {
    var raw := if difficulty.None? || difficulty.value == "" then "Medium" else Trim(difficulty.value);
    var titled := TitleCase(raw);
    if titled == "Normal" then "Medium" else titled
  }

  /** The bucket a normalised label selects; every other label goes to Medium. */
  function BucketOf(name: string): (d: Difficulty)
    ensures d == Easy <==> name == "Easy"
    ensures d == Hard <==> name == "Hard"
  {
    if name == "Easy" then Easy
    else if name == "Hard" then Hard
    else Medium
  }

  function DifficultyOf(q: Question): Difficulty {
    BucketOf(NormalizedLabel(q.difficulty))
  }

  /** A question without a difficulty, or with an empty one, is sampled as Medium. */
  lemma MissingDifficultyIsMedium(q: Question)
    ensures q.difficulty.None? || q.difficulty.value == "" ==> DifficultyOf(q) == Medium
  {
  }

  /**
   * A present difficulty lands in Easy exactly when, trimmed, it spells
   * "easy" in any letter case, in Hard exactly when it spells "hard", and
   * in Medium otherwise ("normal", "medium", "xyz", white space only, ...).
   */
  lemma BucketIgnoresCase(value: string)
    requires value != ""
    ensures BucketOf(NormalizedLabel(Some(value))) == Easy <==> Lower(Trim(value)) == "easy"
    ensures BucketOf(NormalizedLabel(Some(value))) == Hard <==> Lower(Trim(value)) == "hard"
  {
    var titled := TitleCase(Trim(value));
    assert NormalizedLabel(Some(value)) == if titled == "Normal" then "Medium" else titled;
    TitleCaseMatches(Trim(value), "Easy", "easy");
    TitleCaseMatches(Trim(value), "Hard", "hard");
  }

  /** Title-casing matches a capitalised word exactly when lower-casing matches it in lower case. */
  lemma TitleCaseMatches(raw: string, word: string, lowerWord: string)
    requires |word| == |lowerWord| && word != []
    requires IsUpperAscii(word[0]) && lowerWord[0] == LowerChar(word[0])
    requires forall k :: 1 <= k < |word| ==> IsLowerAscii(word[k]) && lowerWord[k] == word[k]
    ensures TitleCase(raw) == word <==> Lower(raw) == lowerWord
  {
    var titled := TitleCase(raw);
    if titled == word {
      forall k | 0 <= k < |raw| ensures Lower(raw)[k] == lowerWord[k] {
        if k == 0 {
          assert UpperChar(raw[0]) == word[0];
        } else {
          assert titled[k] == Lower(raw[1..])[k - 1];
        }
      }
    }
    if Lower(raw) == lowerWord {
      forall k | 0 <= k < |raw| ensures titled[k] == word[k] {
        if k == 0 {
          assert LowerChar(raw[0]) == lowerWord[0];
        } else {
          assert titled[k] == Lower(raw[1..])[k - 1] == LowerChar(raw[k]);
        }
      }
    }
  }

  /**
   * What `buckets[label]` finds on the script's plain bucket object: one of
   * the three arrays, nothing, or, for the label "__proto__", the object's
   * prototype, which has no `push`.
   */
  datatype Slot = BucketSlot(d: Difficulty) | NoSlot | PrototypeSlot

  function SlotAsWritten(name: string): (r: Slot)
    ensures r.BucketSlot? <==> name == "Easy" || name == "Medium" || name == "Hard"
    ensures r == PrototypeSlot <==> name == "__proto__"
  {
    if name == "Easy" then BucketSlot(Easy)
    else if name == "Medium" then BucketSlot(Medium)
    else if name == "Hard" then BucketSlot(Hard)
    else if name == "__proto__" then PrototypeSlot
    else NoSlot
  }

  /** A question whose difficulty is "__proto__" reaches the prototype. */
  lemma ProtoLabelReachesPrototype()
    ensures SlotAsWritten(NormalizedLabel(Some("__proto__"))) == PrototypeSlot
  {
    var value := "__proto__";
    assert !IsSpace(value[0]);
    assert TrimStart(value) == value;
    assert !IsSpace(value[|value| - 1]);
    assert TrimEnd(value) == value;
    var rest := value[1..];
    assert forall k :: 0 <= k < |rest| ==> LowerChar(rest[k]) == rest[k];
    assert Lower(rest) == rest;
    assert TitleCase(value) == [UpperChar(value[0])] + rest == value;
  }

  /** Away from the prototype slot, BucketOf is the script's lookup with its Medium fallback. */
  lemma BucketOfAgreesAsWritten(name: string)
    ensures SlotAsWritten(name) == PrototypeSlot <==> name == "__proto__"
    ensures SlotAsWritten(name).BucketSlot? ==> BucketOf(name) == SlotAsWritten(name).d
    ensures SlotAsWritten(name) == NoSlot ==> BucketOf(name) == Medium
  {
  }

  /** The questions of `s` in bucket `d`, in their original order. */
  function Bucket(s: seq<Question>, d: Difficulty): (r: seq<Question>)
    ensures |r| <= |s|
    ensures forall q :: q in r ==> q in s && DifficultyOf(q) == d
  {
    if s == [] then []
    else Bucket(s[..|s| - 1], d) + (if DifficultyOf(s[|s| - 1]) == d then [s[|s| - 1]] else [])
  }

  /** A bucket holds every copy of each of its questions and nothing else. */
  lemma {:induction false} BucketMultiset(s: seq<Question>, d: Difficulty)
    ensures forall q :: multiset(Bucket(s, d))[q] == if DifficultyOf(q) == d then multiset(s)[q] else 0
  {
    if s != [] {
      var init, last := s[..|s| - 1], s[|s| - 1];
      BucketMultiset(init, d);
      FrontAndLast(s);
    }
  }

  /** Every question lands in exactly one bucket: the buckets split the pool. */
  lemma BucketsPartition(s: seq<Question>)
    ensures multiset(Bucket(s, Easy)) + multiset(Bucket(s, Medium)) + multiset(Bucket(s, Hard)) == multiset(s)
    ensures |Bucket(s, Easy)| + |Bucket(s, Medium)| + |Bucket(s, Hard)| == |s|
  {
    BucketMultiset(s, Easy);
    BucketMultiset(s, Medium);
    BucketMultiset(s, Hard);
    var sum := multiset(Bucket(s, Easy)) + multiset(Bucket(s, Medium)) + multiset(Bucket(s, Hard));
    assert forall q :: sum[q] == multiset(s)[q];
    assert sum == multiset(s);
  }

  /** Bucket sizes depend only on which questions there are, not on their order. */
  lemma BucketSizeOfPermutation(a: seq<Question>, b: seq<Question>, d: Difficulty)
    requires multiset(a) == multiset(b)
    ensures |Bucket(a, d)| == |Bucket(b, d)|
  {
    BucketMultiset(a, d);
    BucketMultiset(b, d);
    forall q ensures multiset(Bucket(a, d))[q] == multiset(Bucket(b, d))[q] {
    }
    assert multiset(Bucket(a, d)) == multiset(Bucket(b, d));
  }

  /** Filtering distributes over concatenation. */
  lemma {:induction false} BucketAppend(a: seq<Question>, b: seq<Question>, d: Difficulty)
    ensures Bucket(a + b, d) == Bucket(a, d) + Bucket(b, d)
  {
    if b != [] {
      var init, last := b[..|b| - 1], b[|b| - 1];
      AppendFront(a, b);
      BucketAppend(a, init, d);
    } else {
      AppendEmpty(a, b);
    }
  }

  /** A sequence whose questions all have difficulty `d` is its own `d` bucket and has no other. */
  lemma {:induction false} BucketOfUniform(s: seq<Question>, d: Difficulty, e: Difficulty)
    requires forall k :: 0 <= k < |s| ==> DifficultyOf(s[k]) == d
    ensures Bucket(s, e) == if e == d then s else []
  {
    if s != [] {
      var init, last := s[..|s| - 1], s[|s| - 1];
      assert DifficultyOf(last) == d;
      BucketOfUniform(init, d, e);
      FrontAndLast(s);
    }
  }
}
