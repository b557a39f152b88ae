/** The development checks of `src/i18n/dev-utils.ts` that differ from the
    core ones: the completeness report over the English and Chinese tables,
    and a key check that accepts only strings. Its `checkParams`,
    `checkTranslationParams` and `isValidTranslationText` are the core ones
    (I18nCore.CheckParams, I18nCore.CheckTranslationParams,
    I18nCore.IsValidTranslationText). */
module I18nDev {
  import opened Wrappers
  import opened Strings
  import I18nCore

  /** `Object.entries(table)`: key and value pairs in key order. */
  type Entries = seq<(string, string)>

  /** `Object.keys(table)` */
  function Keys(t: Entries): (r: seq<string>)
    ensures |r| == |t| && forall i | 0 <= i < |t| :: r[i] == t[i].0
  {
    if t == [] then [] else [t[0].0] + Keys(t[1..])
  }

  /** `Object.keys(a).filter(key => !(key in b))`: the keys of `a`, in order,
      that `b` lacks. */
  function MissingKeys(a: Entries, b: Entries): (r: seq<string>)
    ensures forall k :: k in r <==> k in Keys(a) && k !in Keys(b)
  {
    I18nCore.Without(Keys(a), Keys(b))
  }

  /** The keys, in order, whose value is only whitespace. */
  function BlankKeys(t: Entries): seq<string>
    decreases |t|
  {
    if t == [] then []
    else BlankKeys(t[..|t| - 1]) + (if IsBlank(t[|t| - 1].1) then [t[|t| - 1].0] else [])
  }

  /** Entry `i` of `t` has key `k` and a value of whitespace only. */
  ghost predicate BlankAt(t: Entries, i: int, k: string) {
    0 <= i < |t| && t[i].0 == k && IsBlank(t[i].1)
  }

  /** A key is listed exactly when one of its entries holds only whitespace. */
  lemma {:induction false} BlankKeysIff(t: Entries, k: string)
    ensures k in BlankKeys(t) <==> exists i :: BlankAt(t, i, k)
    decreases |t|
  {
    if t != [] {
      var n := |t| - 1;
      var init := t[..n];
      var tail := if IsBlank(t[n].1) then [t[n].0] else [];
      assert BlankKeys(t) == BlankKeys(init) + tail;
      BlankKeysIff(init, k);

      assert k in tail <==> BlankAt(t, n, k);
      forall i | 0 <= i < n
        ensures BlankAt(init, i, k) <==> BlankAt(t, i, k)
      {
        assert init[i] == t[i];
      }
    }
  }

  datatype ParamError = ParamError(lang: string, key: string, message: string)

  datatype CheckResult = CheckResult(
    errors: nat, warnings: nat,
    missingEn: seq<string>, missingZh: seq<string>,
    emptyEn: seq<string>, emptyZh: seq<string>,
    paramErrors: seq<ParamError>)

  /** One `Object.entries(table).forEach` pass: push each key whose value
      trims to "" and count a warning for it. */
  method PushBlankKeys(t: Entries, warningsIn: nat) returns (keys: seq<string>, warnings: nat)
    ensures keys == BlankKeys(t)
    ensures warnings == warningsIn + |keys|
  {
    keys := [];
    warnings := warningsIn;
    var i := 0;
    while i < |t|
      invariant 0 <= i <= |t|
      invariant keys == BlankKeys(t[..i])
      invariant warnings == warningsIn + |keys|
    {
      assert t[..i + 1][..i] == t[..i];
      TrimEmptyIffBlank(t[i].1);
      if Trim(t[i].1) == "" {
        keys := keys + [t[i].0];
        warnings := warnings + 1;
      }
      i := i + 1;
    }
    assert t[..|t|] == t;
  }

  /** `checkTranslationCompleteness(en, zh)`: in production an empty report;
      otherwise the keys each table lacks, the keys with blank values, and one
      warning per listed key. Nothing counts as an error and no parameter
      errors are collected. */
  method CheckTranslationCompleteness(en: Entries, zh: Entries, prod: bool) returns (r: CheckResult)
    ensures prod ==> r == CheckResult(0, 0, [], [], [], [], [])
    ensures !prod ==> r.missingZh == MissingKeys(en, zh) && r.missingEn == MissingKeys(zh, en)
    ensures !prod ==> r.emptyEn == BlankKeys(en) && r.emptyZh == BlankKeys(zh)
    ensures r.warnings == |r.missingZh| + |r.missingEn| + |r.emptyEn| + |r.emptyZh|
    ensures r.errors == 0 && r.paramErrors == []
  {
    if prod {
      return CheckResult(0, 0, [], [], [], [], []);
    }
    var errors := 0;
    var warnings := 0;
    var missingZh := MissingKeys(en, zh);
    var missingEn := MissingKeys(zh, en);
    if |missingZh| > 0 {
      warnings := warnings + |missingZh|;
    }
    if |missingEn| > 0 {
      warnings := warnings + |missingEn|;
    }
    var emptyEn, emptyZh;
    emptyEn, warnings := PushBlankKeys(en, warnings);
    emptyZh, warnings := PushBlankKeys(zh, warnings);
    r := CheckResult(errors, warnings, missingEn, missingZh, emptyEn, emptyZh, []);
  }

  /** The report is clean exactly when both tables have the same keys and no
      value is blank. */
  lemma CleanReportIff(en: Entries, zh: Entries)
    ensures |MissingKeys(en, zh)| + |MissingKeys(zh, en)| + |BlankKeys(en)| + |BlankKeys(zh)| == 0
        <==> Elements(Keys(en)) == Elements(Keys(zh))
             && (forall i | 0 <= i < |en| :: !IsBlank(en[i].1))
             && (forall i | 0 <= i < |zh| :: !IsBlank(zh[i].1))
  {
    var clean := |MissingKeys(en, zh)| + |MissingKeys(zh, en)| + |BlankKeys(en)| + |BlankKeys(zh)| == 0;
    if clean {
      forall i | 0 <= i < |en| ensures !IsBlank(en[i].1) {
        BlankKeysIff(en, en[i].0);
        assert !BlankAt(en, i, en[i].0);
      }
      forall i | 0 <= i < |zh| ensures !IsBlank(zh[i].1) {
        BlankKeysIff(zh, zh[i].0);
        assert !BlankAt(zh, i, zh[i].0);
      }
    } else {
      if |MissingKeys(en, zh)| > 0 {
        assert MissingKeys(en, zh)[0] in MissingKeys(en, zh);
        assert MissingKeys(en, zh)[0] !in Elements(Keys(zh));
      } else if |MissingKeys(zh, en)| > 0 {
        assert MissingKeys(zh, en)[0] in MissingKeys(zh, en);
        assert MissingKeys(zh, en)[0] !in Elements(Keys(en));
      } else if |BlankKeys(en)| > 0 {
        BlankKeysIff(en, BlankKeys(en)[0]);
        var i :| BlankAt(en, i, BlankKeys(en)[0]);
      } else {
        BlankKeysIff(zh, BlankKeys(zh)[0]);
        var i :| BlankAt(zh, i, BlankKeys(zh)[0]);
      }
    }
  }

  function NotStringMessage(lang: string, key: string): string {
    "在 " + lang + " 语言中的翻译键 \"" + key + "\" 的值不是字符串"
  }

  /** `checkTranslationKey`: silent in production; otherwise fails on an
      absent or falsy value, then on any value that is not a string. */
  function CheckTranslationKey(lang: string, key: string, translations: map<string, map<string, I18nCore.Entry>>,
                               prod: bool): (r: Outcome<string>)
    requires lang in translations
    ensures prod ==> r == Pass
    ensures !prod && !I18nCore.Truthy(I18nCore.Get(translations, lang, key))
      ==> r == Fail(I18nCore.MissingKeyMessage(lang, key))
    ensures r == Pass <==> prod || (I18nCore.Truthy(I18nCore.Get(translations, lang, key))
                                    && I18nCore.Get(translations, lang, key).value.Text?)
  {
    var v := I18nCore.Get(translations, lang, key);
    if prod then Pass
    else if !I18nCore.Truthy(v) then Fail(I18nCore.MissingKeyMessage(lang, key))
    else if !v.value.Text? then Fail(NotStringMessage(lang, key))
    else Pass
  }

  /** A key the language lacks but every object inherits fails with the
      not-a-string message, not the missing-key one. */
  lemma InheritedKeyIsNotMissing(lang: string, key: string, translations: map<string, map<string, I18nCore.Entry>>)
    requires lang in translations && key !in translations[lang] && key in I18nCore.ObjectPrototypeNames
    ensures CheckTranslationKey(lang, key, translations, false) == Fail(NotStringMessage(lang, key))
  {
  }

  /** The development key check is the stricter one: whatever it accepts the
      core check accepts, and a non-zero number is accepted only by the core. */
  lemma KeyCheckStricterThanCore(lang: string, key: string, translations: map<string, map<string, I18nCore.Entry>>)
    requires lang in translations
    ensures CheckTranslationKey(lang, key, translations, false) == Pass
      ==> I18nCore.CheckTranslationKey(lang, key, translations, false) == Pass
    ensures key in translations[lang] && translations[lang][key].Number? && translations[lang][key].n != 0 ==>
      CheckTranslationKey(lang, key, translations, false) == Fail(NotStringMessage(lang, key))
      && I18nCore.CheckTranslationKey(lang, key, translations, false) == Pass
  {
  }
}
