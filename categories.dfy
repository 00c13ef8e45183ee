/** `identificar_categoria`: the macro category of a fundamental label. */
module Categories {
  import opened Records
  import opened Text

  /** The five category names the enrichment can produce. */
  const CategoryNames: set<string> := {AttackPrefix, SettingText, ReceptionText, ServeText, OtherCategory}

  /** The category of a label, decided on the label with surrounding whitespace removed,
      first match wins: a label starting with "Ataque" is an attack whatever else it contains;
      otherwise the first of "Levantamento", "Recepção", "Saque" it contains names the
      category; otherwise it is "Outros". */
  function Categorize(fundamental: string): (c: string)
    ensures c in CategoryNames
    ensures c == AttackPrefix <==> StartsWith(Strip(fundamental), AttackPrefix)
    ensures c == SettingText <==>
      !StartsWith(Strip(fundamental), AttackPrefix) && Contains(Strip(fundamental), SettingText)
    ensures c == ReceptionText <==>
      !StartsWith(Strip(fundamental), AttackPrefix) && !Contains(Strip(fundamental), SettingText)
      && Contains(Strip(fundamental), ReceptionText)
    ensures c == ServeText <==>
      !StartsWith(Strip(fundamental), AttackPrefix) && !Contains(Strip(fundamental), SettingText)
      && !Contains(Strip(fundamental), ReceptionText) && Contains(Strip(fundamental), ServeText)
    ensures c == OtherCategory <==>
      !StartsWith(Strip(fundamental), AttackPrefix) && !Contains(Strip(fundamental), SettingText)
      && !Contains(Strip(fundamental), ReceptionText) && !Contains(Strip(fundamental), ServeText)
  {
    var text := Strip(fundamental);
    if StartsWith(text, AttackPrefix) then AttackPrefix
    else if Contains(text, SettingText) then SettingText
    else if Contains(text, ReceptionText) then ReceptionText
    else if Contains(text, ServeText) then ServeText
    else OtherCategory
  }

  /** A categorisation rule as a table entry: a text test and the category it selects. */
  datatype Pattern = Prefix(prefix: string) | Substring(part: string)

  predicate Matches(pattern: Pattern, text: string) {
    match pattern
    case Prefix(q) => StartsWith(text, q)
    case Substring(q) => Contains(text, q)
  }

  /** The categorisation rules, highest priority first. */
  const CategoryRules: seq<(Pattern, string)> := [
    (Prefix(AttackPrefix), AttackPrefix),
    (Substring(SettingText), SettingText),
    (Substring(ReceptionText), ReceptionText),
    (Substring(ServeText), ServeText)
  ]

  /** Rule `k` is the first rule of the table that matches `text`. */
  predicate FirstMatchAt(rules: seq<(Pattern, string)>, text: string, k: int) {
    0 <= k < |rules| && Matches(rules[k].0, text) && forall m :: 0 <= m < k ==> !Matches(rules[m].0, text)
  }

  /** First-match-wins over a rule table: the category of the first rule that matches,
      or `fallback` when none does. */
  function FirstMatch(rules: seq<(Pattern, string)>, text: string, fallback: string): (c: string)
    ensures (forall k :: 0 <= k < |rules| ==> !Matches(rules[k].0, text)) ==> c == fallback
    ensures forall k :: FirstMatchAt(rules, text, k) ==> c == rules[k].1
  {
    if rules == [] then fallback
    else if Matches(rules[0].0, text) then rules[0].1
    else FirstMatch(rules[1..], text, fallback)
  }

  /** The chain of tests in `Categorize` is the rule table read first-match-wins. */
  lemma CategorizeIsFirstMatch(fundamental: string)
    ensures Categorize(fundamental) == FirstMatch(CategoryRules, Strip(fundamental), OtherCategory)
  {
    var text := Strip(fundamental);
    var rules := CategoryRules;
    if StartsWith(text, AttackPrefix) {
      assert FirstMatchAt(rules, text, 0);
    } else if Contains(text, SettingText) {
      assert FirstMatchAt(rules, text, 1);
    } else if Contains(text, ReceptionText) {
      assert FirstMatchAt(rules, text, 2);
    } else if Contains(text, ServeText) {
      assert FirstMatchAt(rules, text, 3);
    } else {
      assert forall k :: 0 <= k < |rules| ==> !Matches(rules[k].0, text);
    }
  }

  /** Priority of the prefix rule: a label that starts with "Ataque" is an attack even when
      it also names a setting ("Ataque - Levantamento combinado"). */
  lemma AttackPrefixWins()
    ensures Categorize("Ataque - Levantamento combinado") == AttackPrefix
  {
    StripUnpadded("Ataque - Levantamento combinado");
  }

  /** Categorisation ignores surrounding whitespace: a padded rollup label is an attack. */
  lemma PaddedAttackIsAttack()
    ensures Categorize(" Ataque ") == AttackPrefix
  {
    var s := " Ataque ";
    assert IsSpace(s[0]) && !IsSpace(s[1]);
    assert SkipSpaces(s, 1) == 1;
    assert SkipSpaces(s, 0) == 1;
    assert IsSpace(s[7]) && !IsSpace(s[6]);
    assert SkipSpacesBack(s, 1, 7) == 7;
    assert SkipSpacesBack(s, 1, 8) == 7;
    assert s[1..7] == "Ataque";
    assert Strip(s) == "Ataque";
  }

  /** A label that starts with "Levantamento" and has no surrounding whitespace is a setting. */
  lemma SettingLabelIsSetting(fundamental: string)
    requires StartsWith(fundamental, SettingText)
    requires !IsSpace(fundamental[|fundamental| - 1])
    ensures Categorize(fundamental) == SettingText
  {
    assert fundamental[0] == 'L';
    StripUnpadded(fundamental);
    assert fundamental[0] != AttackPrefix[0];
  }

  /** The four sentinel labels the corrections act on are all settings. */
  lemma SentinelLabelIsSetting(fundamental: string)
    requires fundamental == GoodSetLabel || fundamental in FatalSetErrorLabels
    ensures Categorize(fundamental) == SettingText
  {
    assert StartsWith(fundamental, SettingText) && fundamental[|fundamental| - 1] == ')';
    SettingLabelIsSetting(fundamental);
  }
}
