/**
 * The general settings form (src/Form/SimplesitemapSettingsForm.php): the
 * checks on the two integer settings, and which settings a submission
 * saves.
 */
module SettingsForm {
  import opened Wrappers
  import opened Php
  import opened SitemapData
  import opened Simplesitemap

  /** The settings the form saves. */
  const FORM_SETTINGS: seq<string> := ["max_links", "cron_generate", "remove_duplicates", "batch_process_limit"]

  /** The two errors validateForm() can raise. */
  datatype FormError = MaxLinksInvalid | BatchProcessLimitInvalid

  /**
   * The negation of `!is_numeric($v) || $v < 1 || $v != round($v)`: a number
   * of at least 1 that round() leaves as it is, which is a whole number.
   */
  predicate IsPositiveInteger(v: Value) {
    IsNumeric(v) && NumberOf(v) >= 1.0 && NumberOf(v) == NumberOf(v).Floor as real
  }

  /**
   * validateForm(): a max_links loosely equal to '' is accepted unchecked,
   * any other must be a positive integer; batch_process_limit must always
   * be one. The two checks are independent.
   */
  function ValidateForm(values: Settings): (errors: seq<FormError>)
    ensures |errors| <= 2
    ensures LooseEq(Setting(values, "max_links"), Str("")) ==> MaxLinksInvalid !in errors
    ensures MaxLinksInvalid in errors <==>
      !LooseEq(Setting(values, "max_links"), Str("")) && !IsPositiveInteger(Setting(values, "max_links"))
    ensures BatchProcessLimitInvalid in errors <==> !IsPositiveInteger(Setting(values, "batch_process_limit"))
  {
    var maxLinks := Setting(values, "max_links");
    var batchProcessLimit := Setting(values, "batch_process_limit");
    (if !LooseEq(maxLinks, Str("")) && !IsPositiveInteger(maxLinks) then [MaxLinksInvalid] else [])
    + (if !IsPositiveInteger(batchProcessLimit) then [BatchProcessLimitInvalid] else [])
  }

  /** Every whole number from 1 up, as the form's text field submits it, passes both checks. */
  lemma WrittenPositiveIntegersAccepted(values: Settings, maxLinks: nat, batchProcessLimit: nat)
    requires maxLinks >= 1 && batchProcessLimit >= 1
    requires values == map["max_links" := Str(NatToString(maxLinks)), "batch_process_limit" := Str(NatToString(batchProcessLimit))]
    ensures ValidateForm(values) == []
  {
    NatToStringParses(maxLinks);
    NatToStringParses(batchProcessLimit);
    assert IsPositiveInteger(Setting(values, "max_links"));
    assert IsPositiveInteger(Setting(values, "batch_process_limit"));
  }

  /** An empty max_links is accepted but an empty batch_process_limit is not. */
  lemma EmptyValuesExample()
    ensures ValidateForm(map["max_links" := Str(""), "batch_process_limit" := Str("")]) == [BatchProcessLimitInvalid]
  {
    RejectedExamples();
    var values := map["max_links" := Str(""), "batch_process_limit" := Str("")];
    assert Setting(values, "max_links") == Str("") && Setting(values, "batch_process_limit") == Str("");
  }

  /** A non-number and zero are rejected, and both errors are raised together. */
  lemma BothErrorsExample()
    ensures ValidateForm(map["max_links" := Str("abc"), "batch_process_limit" := Str("0")]) == [MaxLinksInvalid, BatchProcessLimitInvalid]
  {
    RejectedExamples();
    var values := map["max_links" := Str("abc"), "batch_process_limit" := Str("0")];
    assert Setting(values, "max_links") == Str("abc") && Setting(values, "batch_process_limit") == Str("0");
    assert !LooseEq(Str("abc"), Str(""));
  }

  /** A fraction is rejected; a max_links that is not submitted is NULL, which is loosely ''. */
  lemma FractionExample()
    ensures ValidateForm(map["batch_process_limit" := Str("1.5")]) == [BatchProcessLimitInvalid]
  {
    RejectedExamples();
    var values := map["batch_process_limit" := Str("1.5")];
    assert Setting(values, "max_links") == Null && Setting(values, "batch_process_limit") == Str("1.5");
  }

  /** is_numeric() takes an exponent and leading whitespace, so "1e3" and " 5" pass. */
  lemma NumericSpellingsAccepted()
    ensures ValidateForm(map["max_links" := Str("1e3"), "batch_process_limit" := Str(" 5")]) == []
  {
    var values := map["max_links" := Str("1e3"), "batch_process_limit" := Str(" 5")];
    assert IsPositiveInteger(Str("1e3")) by {
      ExponentSpelling();
      assert (1000.0).Floor == 1000;
    }
    assert IsPositiveInteger(Str(" 5")) by {
      LeadingWhitespaceSpelling();
      assert (5.0).Floor == 5;
    }
    assert Setting(values, "max_links") == Str("1e3") && Setting(values, "batch_process_limit") == Str(" 5");
  }

  /** Trailing whitespace makes a batch_process_limit of "5 " non-numeric. */
  lemma TrailingWhitespaceRejected()
    ensures ValidateForm(map["batch_process_limit" := Str("5 ")]) == [BatchProcessLimitInvalid]
  {
    var values := map["batch_process_limit" := Str("5 ")];
    assert !IsPositiveInteger(Str("5 ")) by {
      TrailingWhitespaceSpelling();
    }
    assert Setting(values, "max_links") == Null && Setting(values, "batch_process_limit") == Str("5 ");
  }

  lemma RejectedExamples()
    ensures !IsPositiveInteger(Str("")) && !IsPositiveInteger(Str("abc")) && !IsPositiveInteger(Str("0"))
    ensures !IsPositiveInteger(Str("1.5"))
  {
    ExampleNumbers();
    assert (1.5).Floor == 1;
  }

  /** How the example strings read as numbers. */
  lemma ExampleNumbers()
    ensures ParseDecimal("").None? && ParseDecimal("abc").None?
    ensures ParseDecimal("0") == Some(0.0) && ParseDecimal("1.5") == Some(1.5)
  {
    assert ParseDecimal("abc").None? by {
      assert !IsDigit("abc"[0]);
      NonNumericStart("abc");
    }
    assert ParseDecimal("0") == Some(0.0) by {
      NatToStringParses(0);
      assert NatToString(0) == "0";
    }
    assert ParseDecimal("1.5") == Some(1.5) by {
      ParseDigitDotDigit('1', '5');
      assert "1.5" == ['1', '.', '5'];
    }
  }

  /** Saving each named setting in turn, with its submitted value (NULL when not submitted). */
  function SavedSettings(c: Config, values: Settings, names: seq<string>): Config
    decreases |names|
  {
    if names == [] then c
    else SavedSettings(SaveSettingSpec(c, names[0], Setting(values, names[0])), values, names[1..])
  }

  /** submitForm(): every form setting is saved with its submitted value. */
  method SubmitForm(store: Store, values: Settings)
    modifies store
    ensures store.State() == SavedSettings(old(store.State()), values, FORM_SETTINGS)
  {
    for i := 0 to |FORM_SETTINGS|
      invariant SavedSettings(store.State(), values, FORM_SETTINGS[i..]) == SavedSettings(old(store.State()), values, FORM_SETTINGS)
    {
      assert FORM_SETTINGS[i..][1..] == FORM_SETTINGS[i + 1..];
      var name := FORM_SETTINGS[i];
      store.SaveSetting(name, Setting(values, name));
    }
    assert FORM_SETTINGS[|FORM_SETTINGS|..] == [];
  }

  /**
   * After saving, each named setting holds its submitted value; every other
   * setting, the entity types and the custom links are as they were.
   */
  lemma {:induction false} SavedSettingsMeaning(c: Config, values: Settings, names: seq<string>, name: string)
    ensures var r := SavedSettings(c, values, names);
      && (name in names ==> name in r.settings && r.settings[name] == Setting(values, name))
      && (name !in names ==> (name in r.settings <==> name in c.settings) && Setting(r.settings, name) == Setting(c.settings, name))
      && r.entityTypes == c.entityTypes && r.custom == c.custom
    decreases |names|
  {
    if names != [] {
      SavedSettingsMeaning(SaveSettingSpec(c, names[0], Setting(values, names[0])), values, names[1..], name);
      assert names == [names[0]] + names[1..];
    }
  }

  /**
   * A submission changes exactly max_links, cron_generate,
   * remove_duplicates and batch_process_limit, and reading one of them
   * back gives the submitted value (FALSE for one not submitted).
   */
  lemma SubmitSavesFormSettings(c: Config, values: Settings, name: string)
    ensures var r := SavedSettings(c, values, FORM_SETTINGS);
      && (name in FORM_SETTINGS ==> GetSetting(r, name) == if Setting(values, name) == Null then Bool(false) else Setting(values, name))
      && (name !in FORM_SETTINGS ==> GetSetting(r, name) == GetSetting(c, name))
      && r.entityTypes == c.entityTypes && r.custom == c.custom
  {
    SavedSettingsMeaning(c, values, FORM_SETTINGS, name);
  }
}
