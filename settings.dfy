/**
 * The difficulty configuration: how many questions of each bucket a quiz
 * asks for, its defaults, and the validation of the settings form.
 */
module Settings {
  import opened Wrappers
  import opened Text
  import opened Questions

  /** Target counts per bucket; the script keeps them as {Easy, Medium, Hard}, in that key order. */
  datatype DifficultyConfig = DifficultyConfig(easy: nat, medium: nat, hard: nat)

  /** The built-in distribution, 15 Easy, 30 Medium and 15 Hard. */
  const DefaultConfig := DifficultyConfig(15, 30, 15)

  /** The sum of the three targets. */
  function Total(config: DifficultyConfig): nat {
    config.easy + config.medium + config.hard
  }

  /** The target count for one bucket. */
  function Target(config: DifficultyConfig, d: Difficulty): nat {
    match d
    case Easy => config.easy
    case Medium => config.medium
    case Hard => config.hard
  }

  /**
   * The check of the settings form: each field goes through parseInt(·, 10);
   * a field that is not a number or is negative rejects the whole form,
   * otherwise the three numbers become the new configuration.
   */
  function ValidateSettings(easyText: string, mediumText: string, hardText: string): (r: Option<DifficultyConfig>)
    ensures r.Some? <==>
      (ParseInt(easyText).Some? && ParseInt(easyText).value >= 0 &&
       ParseInt(mediumText).Some? && ParseInt(mediumText).value >= 0 &&
       ParseInt(hardText).Some? && ParseInt(hardText).value >= 0)
    ensures r.Some? ==>
      r.value.easy == ParseInt(easyText).value &&
      r.value.medium == ParseInt(mediumText).value &&
      r.value.hard == ParseInt(hardText).value
  {
    var easy, medium, hard := ParseInt(easyText), ParseInt(mediumText), ParseInt(hardText);
    if easy.None? || medium.None? || hard.None? || easy.value < 0 || medium.value < 0 || hard.value < 0 then None
    else Some(DifficultyConfig(easy.value, medium.value, hard.value))
  }

  /** The three input values the settings dialog is opened with: the active targets in decimal. */
  function SettingsForm(config: DifficultyConfig): (string, string, string) {
    (ShowNat(config.easy), ShowNat(config.medium), ShowNat(config.hard))
  }

  /** Saving the dialog as it was opened keeps the configuration. */
  lemma SettingsFormRoundTrip(config: DifficultyConfig)
    ensures var (e, m, h) := SettingsForm(config); ValidateSettings(e, m, h) == Some(config)
  {
    ParseShowRoundTrip(config.easy);
    ParseShowRoundTrip(config.medium);
    ParseShowRoundTrip(config.hard);
  }
}
