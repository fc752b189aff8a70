/**
 * The page's session: the module-level globals of the script (the question
 * bank, the difficulty configuration, the running quiz, the user's progress)
 * and the browser's localStorage, as one object whose methods are the event
 * handlers.
 */
module App {
  import opened Wrappers
  import opened Text
  import opened Questions
  import opened Shuffle
  import opened Settings
  import QuizSet
  import opened Scoring
  import opened Leaderboard
  import opened Progress

  /** One entry of the review list: a question answered wrongly. */
  datatype WrongAnswer = WrongAnswer(question: string, userSelect: string, correctSelect: string, explanation: string)

  /** The placeholder shown when a question has no explanation. */
  const NoExplanation := "해설 없음"

  /** `explanation || "해설 없음"`: a missing or empty explanation reads as the placeholder. */
  function ExplanationText(explanation: Option<string>): (r: string)
    ensures r != ""
    ensures explanation.Some? && explanation.value != "" ==> r == explanation.value
    ensures explanation.None? || explanation.value == "" ==> r == NoExplanation
  {
    if explanation.Some? && explanation.value != "" then explanation.value else NoExplanation
  }

  /** The screen on show; the username prompt is a separate flag because it overlays the result screen. */
  datatype Screen = HomeScreen | QuizScreen | ResultScreen

  /**
   * localStorage as the script uses it: the key `leaderboard_<level>` for
   * each level's scores, `freedivingQuizProgress` for the completed levels
   * and `freedivingQuizDifficultyConfig` for the configuration.
   */
  datatype Storage = Storage(
    leaderboards: map<string, seq<Entry>>,
    progress: Option<seq<string>>,
    difficulty: Option<DifficultyConfig>)

  /** getScores: the stored list for a level, or the empty list when there is none. */
  function Scores(storage: Storage, level: string): (r: seq<Entry>)
    ensures level in storage.leaderboards ==> r == storage.leaderboards[level]
    ensures level !in storage.leaderboards ==> r == []
  {
    if level in storage.leaderboards then storage.leaderboards[level] else []
  }

  class QuizApp {
    /** The source of Math.random results. */
    const random: RandomStream
    /** allData: the question pool of each level. */
    const bank: map<string, seq<Question>>

    /** How many Math.random calls the page has made so far. */
    var draws: nat
    /** DIFFICULTY_CONFIG. */
    var config: DifficultyConfig
    var currentQuestions: seq<Question>
    var currentIndex: nat
    var score: nat
    var wrongAnswers: seq<WrongAnswer>
    var currentLevel: string
    var lastUsername: string
    /** userProgress.completedLevels. */
    var completedLevels: seq<string>
    var screen: Screen
    /** The option buttons are disabled: the shown question has been answered. */
    var locked: bool
    /** The username prompt is open. */
    var namePrompt: bool
    var storage: Storage

    /**
     * The session invariant: the current index points at a question of the
     * current quiz (and is 0 before any quiz), the quiz screen and a locked
     * question only ever show a non-empty quiz, and the answers recorded so
     * far, right and wrong, are no more than the questions reached.
     */
    ghost predicate Valid()
      reads this`currentQuestions, this`currentIndex, this`score, this`wrongAnswers, this`screen, this`locked
    {
      IsRandom(random) &&
      (currentQuestions == [] ==> currentIndex == 0 && screen != QuizScreen && !locked) &&
      (currentQuestions != [] ==> currentIndex < |currentQuestions|) &&
      score + |wrongAnswers| <= currentIndex + (if locked then 1 else 0)
    }

    /** The pool of a level; a missing level has none. */
    function Pool(level: string): (r: seq<Question>)
      ensures level in bank ==> r == bank[level]
      ensures level !in bank ==> r == []
    {
      if level in bank then bank[level] else []
    }

    /**
     * The page after the question bank has arrived: the stored configuration
     * or the default, the stored progress or none, the home screen.
     */
    constructor (bank: map<string, seq<Question>>, random: RandomStream, storage: Storage)
      requires IsRandom(random)
      ensures Valid()
      ensures this.bank == bank && this.random == random && this.storage == storage
      ensures config == (if storage.difficulty.Some? then storage.difficulty.value else DefaultConfig)
      ensures completedLevels == (if storage.progress.Some? then storage.progress.value else [])
      ensures draws == 0 && currentQuestions == [] && currentIndex == 0 && score == 0 && wrongAnswers == []
      ensures currentLevel == "" && lastUsername == "" && screen == HomeScreen && !locked && !namePrompt
    {
      this.bank := bank;
      this.random := random;
      this.storage := storage;
      draws := 0;
      currentQuestions := [];
      currentIndex := 0;
      score := 0;
      wrongAnswers := [];
      currentLevel := "";
      lastUsername := "";
      screen := HomeScreen;
      locked := false;
      namePrompt := false;
      config := storage.difficulty.GetOr(DefaultConfig);
      completedLevels := storage.progress.GetOr([]);
    }

    /** The quiz generateQuizSet draws for a pool with the current configuration, and the random calls it uses. */
    method DrawQuiz(pool: seq<Question>) returns (quiz: seq<Question>)
      requires IsRandom(random)
      modifies this`draws
      ensures quiz == QuizSet.QuizSet(pool, config, random, old(draws))
      ensures draws == QuizSet.QuizSetCursor(pool, config, random, old(draws))
    {
      var cursor;
      quiz, cursor := QuizSet.GenerateQuizSet(pool, config, random, draws);
      draws := cursor;
    }

    /** The session reset of startQuiz: the quiz and level are set, on the first question with a clean score. */
    method Begin(level: string, quiz: seq<Question>)
      modifies this`currentLevel, this`currentQuestions, this`currentIndex, this`score, this`wrongAnswers,
        this`lastUsername, this`screen, this`locked, this`namePrompt
      ensures currentLevel == level && currentQuestions == quiz && currentIndex == 0 && score == 0
      ensures wrongAnswers == [] && lastUsername == "" && screen == QuizScreen && !locked && !namePrompt
    {
      currentLevel, currentQuestions, currentIndex, score, wrongAnswers := level, quiz, 0, 0, [];
      lastUsername, screen, locked, namePrompt := "", QuizScreen, false, false;
    }

    /**
     * startQuiz: with no pool for the level nothing changes; otherwise a quiz
     * is generated and the session starts on its first question with a clean
     * score. A generated quiz that is empty is refused like a missing pool
     * (only the random calls it used are gone), so the invariant holds.
     */
    method StartQuiz(level: string) returns (started: bool)
      requires Valid()
      modifies this`draws, this`currentLevel, this`currentQuestions, this`currentIndex, this`score,
        this`wrongAnswers, this`lastUsername, this`screen, this`locked, this`namePrompt
      ensures Valid()
      ensures started <==> Pool(level) != [] && QuizSet.QuizSet(Pool(level), config, random, old(draws)) != []
      ensures draws == if Pool(level) == [] then old(draws) else QuizSet.QuizSetCursor(Pool(level), config, random, old(draws))
      ensures started ==> currentQuestions == QuizSet.QuizSet(Pool(level), config, random, old(draws))
      ensures started ==>
        currentLevel == level && currentIndex == 0 && score == 0 && wrongAnswers == [] &&
        lastUsername == "" && screen == QuizScreen && !locked && !namePrompt
      ensures !started ==> unchanged(this`currentLevel, this`currentQuestions, this`currentIndex, this`score,
        this`wrongAnswers, this`lastUsername, this`screen, this`locked, this`namePrompt)
    {
      var pool := Pool(level);
      if pool == [] {
        return false;
      }
      var quiz := DrawQuiz(pool);
      if quiz == [] {
        return false;
      }
      Begin(level, quiz);
      started := true;
    }

    /**
     * startQuiz as the script has it: the quiz screen is shown whatever the
     * generated quiz is. When that quiz is empty the session is left on the
     * quiz screen with no current question, outside the invariant.
     */
    method StartQuizAsWritten(level: string)
      requires Valid()
      modifies this`draws, this`currentLevel, this`currentQuestions, this`currentIndex, this`score,
        this`wrongAnswers, this`lastUsername, this`screen, this`locked, this`namePrompt
      ensures Pool(level) == [] ==> unchanged(this)
      ensures Pool(level) != [] ==> draws == QuizSet.QuizSetCursor(Pool(level), config, random, old(draws))
      ensures Pool(level) != [] ==> currentQuestions == QuizSet.QuizSet(Pool(level), config, random, old(draws))
      ensures Pool(level) != [] ==>
        currentLevel == level && currentIndex == 0 && score == 0 && wrongAnswers == [] &&
        lastUsername == "" && screen == QuizScreen && !locked && !namePrompt
      ensures Pool(level) != [] && currentQuestions == [] ==> !Valid()
    {
      var pool := Pool(level);
      if pool == [] {
        return;
      }
      var quiz := DrawQuiz(pool);
      Begin(level, quiz);
    }

    /** restartQuiz: a fresh quiz on the current level. */
    method RestartQuiz() returns (started: bool)
      requires Valid()
      modifies this`draws, this`currentLevel, this`currentQuestions, this`currentIndex, this`score,
        this`wrongAnswers, this`lastUsername, this`screen, this`locked, this`namePrompt
      ensures Valid()
      ensures started <==>
        Pool(old(currentLevel)) != [] && QuizSet.QuizSet(Pool(old(currentLevel)), config, random, old(draws)) != []
      ensures draws == if Pool(old(currentLevel)) == [] then old(draws)
        else QuizSet.QuizSetCursor(Pool(old(currentLevel)), config, random, old(draws))
      ensures started ==> currentQuestions == QuizSet.QuizSet(Pool(old(currentLevel)), config, random, old(draws))
      ensures started ==>
        currentLevel == old(currentLevel) && currentIndex == 0 && score == 0 && wrongAnswers == [] &&
        lastUsername == "" && screen == QuizScreen && !locked && !namePrompt
      ensures !started ==> unchanged(this`currentLevel, this`currentQuestions, this`currentIndex, this`score,
        this`wrongAnswers, this`lastUsername, this`screen, this`locked, this`namePrompt)
    {
      started := StartQuiz(currentLevel);
    }

    /**
     * checkAnswer for option `selected` (1-based) of the shown question: the
     * buttons lock; a right answer adds one to the score, a wrong one appends
     * its review entry.
     */
    method CheckAnswer(selected: int)
      requires Valid() && screen == QuizScreen && !locked
      requires 1 <= selected <= |currentQuestions[currentIndex].options|
      requires 1 <= currentQuestions[currentIndex].answer <= |currentQuestions[currentIndex].options|
      modifies this`score, this`wrongAnswers, this`locked
      ensures Valid() && locked
      ensures var q := currentQuestions[currentIndex];
        if selected == q.answer then
          score == old(score) + 1 && wrongAnswers == old(wrongAnswers)
        else
          score == old(score) && wrongAnswers == old(wrongAnswers) + [WrongAnswer(
            q.text, q.options[selected - 1], q.options[q.answer - 1], ExplanationText(q.explanation))]
    {
      var q := currentQuestions[currentIndex];
      locked := true;
      if selected == q.answer {
        score := score + 1;
      } else {
        wrongAnswers := wrongAnswers + [WrongAnswer(
          q.text, q.options[selected - 1], q.options[q.answer - 1], ExplanationText(q.explanation))];
      }
    }

    /**
     * updateProgress: record the level as completed, writing the progress to
     * storage only when the list changed.
     */
    method UpdateProgress(level: string)
      modifies this`completedLevels, this`storage
      ensures completedLevels == WithLevel(old(completedLevels), level)
      ensures storage == if level in old(completedLevels) then old(storage) else old(storage).(progress := Some(completedLevels))
    {
      if level !in completedLevels {
        completedLevels := completedLevels + [level];
        storage := storage.(progress := Some(completedLevels));
      }
    }

    /** The pass branch of showResult: a passed quiz records the current level as completed. */
    method RecordCompletion(passed: bool)
      modifies this`completedLevels, this`storage
      ensures completedLevels == if passed then WithLevel(old(completedLevels), currentLevel) else old(completedLevels)
      ensures storage == if passed && currentLevel !in old(completedLevels)
        then old(storage).(progress := Some(completedLevels)) else old(storage)
    {
      if passed {
        UpdateProgress(currentLevel);
      }
    }

    /**
     * showResult: the result screen with the rounded percentage (at most
     * 100); a pass records the level as completed; the username prompt
     * opens when the score qualifies for the level's leaderboard.
     */
    method ShowResult() returns (percentage: nat)
      requires Valid()
      modifies this`screen, this`namePrompt, this`completedLevels, this`storage
      ensures Valid()
      ensures percentage == Percentage(score, |currentQuestions|) && percentage <= 100
      ensures screen == ResultScreen
      ensures completedLevels == if Passed(score, |currentQuestions|)
        then WithLevel(old(completedLevels), currentLevel) else old(completedLevels)
      ensures storage == if Passed(score, |currentQuestions|) && currentLevel !in old(completedLevels)
        then old(storage).(progress := Some(completedLevels)) else old(storage)
      ensures namePrompt == Qualifies(Scores(old(storage), currentLevel), score)
    {
      screen := ResultScreen;
      percentage := Percentage(score, |currentQuestions|);
      RecordCompletion(percentage >= PassMark);
      var topScores := Scores(storage, currentLevel);
      namePrompt := Qualifies(topScores, score);
    }

    /**
     * nextQuestion: the next question while there is one, the result screen
     * after the last. The index never leaves the quiz.
     */
    method NextQuestion() returns (finished: bool)
      requires Valid() && screen == QuizScreen
      modifies this`currentIndex, this`locked, this`screen, this`namePrompt, this`completedLevels, this`storage
      ensures Valid()
      ensures finished <==> old(currentIndex) + 1 >= |currentQuestions|
      ensures !finished ==> currentIndex == old(currentIndex) + 1 && !locked
      ensures !finished ==> unchanged(this`screen, this`namePrompt, this`completedLevels, this`storage)
      ensures finished ==> screen == ResultScreen && unchanged(this`currentIndex, this`locked)
      ensures finished ==> completedLevels == if Passed(score, |currentQuestions|)
        then WithLevel(old(completedLevels), currentLevel) else old(completedLevels)
      ensures finished ==> storage == if Passed(score, |currentQuestions|) && currentLevel !in old(completedLevels)
        then old(storage).(progress := Some(completedLevels)) else old(storage)
      ensures finished ==> namePrompt == Qualifies(Scores(old(storage), currentLevel), score)
    {
      if currentIndex < |currentQuestions| - 1 {
        currentIndex, locked := currentIndex + 1, false;
        finished := false;
      } else {
        var _ := ShowResult();
        finished := true;
      }
    }

    /** finishQuiz: once confirmed, end the quiz now and show the result. */
    method FinishQuiz(confirmed: bool)
      requires Valid()
      modifies this`screen, this`namePrompt, this`completedLevels, this`storage
      ensures Valid()
      ensures !confirmed ==> unchanged(this)
      ensures confirmed ==> screen == ResultScreen
      ensures confirmed ==> completedLevels == if Passed(score, |currentQuestions|)
        then WithLevel(old(completedLevels), currentLevel) else old(completedLevels)
      ensures confirmed ==> storage == if Passed(score, |currentQuestions|) && currentLevel !in old(completedLevels)
        then old(storage).(progress := Some(completedLevels)) else old(storage)
      ensures confirmed ==> namePrompt == Qualifies(Scores(old(storage), currentLevel), score)
    {
      if confirmed {
        var _ := ShowResult();
      }
    }

    /** goHome: the home screen; the prompts close. */
    method GoHome()
      requires Valid()
      modifies this`screen, this`namePrompt
      ensures Valid()
      ensures screen == HomeScreen && !namePrompt
    {
      screen, namePrompt := HomeScreen, false;
    }

    /**
     * saveScore: the level's list gets the new entry, is sorted best first
     * and cut to ten; no other key changes.
     */
    method SaveScore(level: string, name: string, score: int, total: int, now: int)
      modifies this`storage
      ensures storage == old(storage).(leaderboards := old(storage.leaderboards)[level :=
        SavedScores(Scores(old(storage), level), Entry(name, score, total, now))])
    {
      var scores := Scores(storage, level);
      storage := storage.(leaderboards := storage.leaderboards[level := SavedScores(scores, Entry(name, score, total, now))]);
    }

    /**
     * saveScoreAndCloseModal, without its easter egg: a name that is blank
     * once trimmed saves nothing; otherwise the trimmed name is remembered
     * and saved with the current score at time `now`, and the prompt closes.
     */
    method SaveScoreAndCloseModal(input: string, now: int) returns (saved: bool)
      modifies this`lastUsername, this`namePrompt, this`storage
      ensures saved <==> Trim(input) != ""
      ensures !saved ==> unchanged(this)
      ensures saved ==> lastUsername == Trim(input) && !namePrompt
      ensures saved ==> storage == old(storage).(leaderboards := old(storage.leaderboards)[currentLevel :=
        SavedScores(Scores(old(storage), currentLevel), Entry(Trim(input), score, |currentQuestions|, now))])
    {
      var name := Trim(input);
      if name == "" {
        return false;
      }
      lastUsername := name;
      SaveScore(currentLevel, name, score, |currentQuestions|, now);
      namePrompt := false;
      saved := true;
    }

    /** loadDifficultyConfig: the stored configuration, or the default when none is stored. */
    method LoadDifficultyConfig()
      modifies this`config
      ensures config == (if storage.difficulty.Some? then storage.difficulty.value else DefaultConfig)
    {
      config := storage.difficulty.GetOr(DefaultConfig);
    }

    /** saveDifficultyConfig: store the configuration and make it the active one. */
    method SaveDifficultyConfig(newConfig: DifficultyConfig)
      modifies this`config, this`storage
      ensures config == newConfig && storage == old(storage).(difficulty := Some(newConfig))
    {
      storage := storage.(difficulty := Some(newConfig));
      config := newConfig;
    }

    /**
     * saveSettings: the three form fields are parsed; any that is not a
     * number or is negative leaves everything as it was, otherwise they
     * become the stored and active configuration.
     */
    method SaveSettings(easyText: string, mediumText: string, hardText: string) returns (saved: bool)
      modifies this`config, this`storage
      ensures saved <==> ValidateSettings(easyText, mediumText, hardText).Some?
      ensures !saved ==> unchanged(this)
      ensures saved ==> var c := ValidateSettings(easyText, mediumText, hardText).value;
        config == c && storage == old(storage).(difficulty := Some(c))
    {
      var checked := ValidateSettings(easyText, mediumText, hardText);
      if checked.None? {
        return false;
      }
      SaveDifficultyConfig(checked.value);
      saved := true;
    }

    /** resetSettings: once confirmed, the default distribution is stored and active. */
    method ResetSettings(confirmed: bool)
      modifies this`config, this`storage
      ensures !confirmed ==> unchanged(this)
      ensures confirmed ==> config == DefaultConfig && storage == old(storage).(difficulty := Some(DefaultConfig))
    {
      if confirmed {
        SaveDifficultyConfig(DefaultConfig);
      }
    }
  }
}
