/** The translation helpers of `src/i18n/core/utils.ts`.

    The `ui` table is a map from language code to that language's table; the
    build-time `import.meta.env.DEV`/`PROD` flag is the parameter `prod`
    (`DEV` is `!prod`). The placeholder scan, `checkParams`,
    `checkTranslationParams` and `isValidTranslationText` are shared with
    `src/i18n/dev-utils.ts`, whose copies are identical. */
module I18nCore {
  import opened Wrappers
  import opened Strings

  const DefaultLang := "en"

  type Table = map<string, string>
  type Ui = map<string, Table>

  /** The names JavaScript's `in` also finds on a plain object, through
      `Object.prototype`. */
  const ObjectPrototypeNames: set<string> := {
    "constructor", "hasOwnProperty", "isPrototypeOf", "propertyIsEnumerable",
    "toLocaleString", "toString", "valueOf", "__proto__", "__defineGetter__",
    "__defineSetter__", "__lookupGetter__", "__lookupSetter__"
  }

  // ---------------------------------------------------------------------
  // Languages

  /** `const [, lang] = pathname.split("/")`: the first path segment, or
      `None` when the path holds no "/". */
  function FirstSegment(pathname: string): Option<string> {
    SecondField(pathname, '/')
  }

  /** `getLangFromUrl` as written: `lang in ui` also holds for the names of
      `Object.prototype`, so a request for `/constructor` yields the
      "language" `"constructor"`. */
  function GetLangFromUrlAsWritten(ui: Ui, pathname: string): (r: string)
    ensures r == DefaultLang || r in ui || r in ObjectPrototypeNames
    ensures r != DefaultLang ==> FirstSegment(pathname) == Some(r)
  {
    var lang := FirstSegment(pathname);
    if lang.Some? && lang.value != "" && (lang.value in ui || lang.value in ObjectPrototypeNames)
    then lang.value else DefaultLang
  }

  /** The segment of "/" + name, for a name without "/". */
  lemma FirstSegmentOf(name: string)
    requires '/' !in name
    ensures FirstSegment("/" + name) == Some(name)
  {
    assert TakeUntil("/" + name, '/') == "";
    assert ("/" + name)[1..] == name + "";
    TakeUntilConcat(name, "", '/');
  }

  lemma GetLangFromUrlAsWrittenEscapes(ui: Ui)
    requires "constructor" !in ui
    ensures GetLangFromUrlAsWritten(ui, "/constructor") == "constructor"
    ensures GetLangFromUrlAsWritten(ui, "/constructor") !in ui
  {
    ConstructorSegment();
    ConstructorIsPrototypeName();
  }

  lemma ConstructorIsPrototypeName()
    ensures "constructor" in ObjectPrototypeNames
  {
  }

  lemma ConstructorSegment()
    ensures FirstSegment("/constructor") == Some("constructor")
  {
    var name := "constructor";
    assert '/' !in name by {
      assert forall i | 0 <= i < |name| :: name[i] != '/';
    }
    assert "/constructor" == "/" + name;
    FirstSegmentOf(name);
  }

  /** `getLangFromUrl`, with `in` meaning "is a language of `ui`": the first
      path segment when it names a language, otherwise the default. */
  function GetLangFromUrl(ui: Ui, pathname: string): (r: string)
    requires DefaultLang in ui
    ensures r in ui
    ensures (FirstSegment(pathname).Some? && FirstSegment(pathname).value != ""
             && FirstSegment(pathname).value in ui) ==> r == FirstSegment(pathname).value
    ensures (FirstSegment(pathname).None? || FirstSegment(pathname).value == ""
             || FirstSegment(pathname).value !in ui) ==> r == DefaultLang
  {
    var lang := FirstSegment(pathname);
    if lang.Some? && lang.value != "" && lang.value in ui then lang.value else DefaultLang
  }

  /** `isValidLanguage`, with `in` meaning "is a language of `ui`". */
  predicate IsValidLanguage(ui: Ui, lang: string) {
    lang in ui
  }

  /** A non-empty name without "/" is a valid language exactly when the
      page path "/" + name is read as that language. */
  lemma ValidLanguageIffUrlLanguage(ui: Ui, lang: string)
    requires DefaultLang in ui && lang != "" && '/' !in lang
    ensures IsValidLanguage(ui, lang) <==> GetLangFromUrl(ui, "/" + lang) == lang
  {
    FirstSegmentOf(lang);
  }

  /** `getBrowserLanguage` over `navigator.language` (`None` where there is
      no `navigator`): the part before the first "-", or the default when
      that part is empty or not a language. */
  function GetBrowserLanguage(ui: Ui, navigatorLanguage: Option<string>): (r: string)
    requires DefaultLang in ui
    ensures r in ui
    ensures navigatorLanguage.None? ==> r == DefaultLang
    ensures (navigatorLanguage.Some? && TakeUntil(navigatorLanguage.value, '-') != ""
             && TakeUntil(navigatorLanguage.value, '-') in ui) ==> r == TakeUntil(navigatorLanguage.value, '-')
    ensures (navigatorLanguage.Some? && TakeUntil(navigatorLanguage.value, '-') !in ui) ==> r == DefaultLang
  {
    if navigatorLanguage.None? then DefaultLang
    else
      var head := TakeUntil(navigatorLanguage.value, '-');
      var browserLang := if head != "" then head else DefaultLang;
      if browserLang in ui then browserLang else DefaultLang
  }

  /** `translatePath`: the path itself for the default language, otherwise
      the path under "/" + language. The target defaults to the hook's
      language. */
  function TranslatePath(lang: string, path: string, targetLang: Option<string>): (r: string)
    ensures |r| >= |path| && r[|r| - |path|..] == path
    ensures r == path <==> (if targetLang.Some? then targetLang.value else lang) == DefaultLang
  {
    var target := if targetLang.Some? then targetLang.value else lang;
    if target == DefaultLang then path else "/" + target + path
  }

  /** A localised path leads back to its language: reading the language off a
      path built by `translatePath` for a non-default language gives that
      language; for the default language the path is left alone. */
  lemma TranslatePathRoundTrip(ui: Ui, lang: string, path: string, target: string)
    requires DefaultLang in ui && target in ui && target != "" && '/' !in target
    requires path == "" || path[0] == '/'
    ensures target == DefaultLang ==> TranslatePath(lang, path, Some(target)) == path
    ensures target != DefaultLang ==> GetLangFromUrl(ui, TranslatePath(lang, path, Some(target))) == target
  {
    if target != DefaultLang {
      var p := "/" + target + path;
      assert TakeUntil(p, '/') == "";
      assert p[1..] == target + path;
      TakeUntilConcat(target, path, '/');
    }
  }

  // ---------------------------------------------------------------------
  // Placeholders: the matches of /{(\w+)}/g

  /** The longest prefix of word characters. */
  function WordPrefix(s: string): (w: string)
    ensures |w| <= |s| && w == s[..|w|] && AllWordChars(w)
    ensures |w| < |s| ==> !IsWordChar(s[|w|])
  {
    LeadingRun(s, IsWordChar)
  }

  lemma WordPrefixExact(t: string, k: string)
    requires AllWordChars(k) && |k| < |t| && t[..|k|] == k && !IsWordChar(t[|k|])
    ensures WordPrefix(t) == k
  {
    assert t == k + t[|k|..];
    LeadingRunExact(k, t[|k|..], IsWordChar);
  }

  function Braced(k: string): string {
    "{" + k + "}"
  }

  /** The regular expression matched at the start of `s`: "{", a maximal run
      of word characters, "}". (A shorter run cannot be followed by "}".) */
  function BraceMatch(s: string): (m: Option<string>)
    ensures m.Some? ==>
      |m.value| > 0 && AllWordChars(m.value) && |m.value| + 2 <= |s| && s[..|m.value| + 2] == Braced(m.value)
  {
    if |s| > 0 && s[0] == '{' then
      var w := WordPrefix(s[1..]);
      if |w| > 0 && |w| + 1 < |s| && s[|w| + 1] == '}' then
        assert s[..|w| + 2] == [s[0]] + s[1..][..|w|] + [s[|w| + 1]];
        Some(w)
      else None
    else None
  }

  /** `(text.match(/{(\w+)}/g) || []).map(p => p.slice(1, -1))`: the names
      inside the placeholders, in order, repeats included. */
  function Placeholders(s: string): (ps: seq<string>)
    ensures forall k | k in ps :: |k| > 0 && AllWordChars(k)
    decreases |s|
  {
    if |s| == 0 then []
    else match BraceMatch(s)
      case Some(w) => [w] + Placeholders(s[|w| + 2..])
      case None => Placeholders(s[1..])
  }

  lemma {:induction false} PlaceholdersSound(s: string, k: string)
    requires k in Placeholders(s)
    ensures exists p :: OccursAt(s, Braced(k), p)
    decreases |s|
  {
    var m := BraceMatch(s);
    if m.Some? && m.value == k {
      assert OccursAt(s, Braced(k), 0);
    } else {
      var n := if m.Some? then |m.value| + 2 else 1;
      PlaceholdersSound(s[n..], k);
      var p :| OccursAt(s[n..], Braced(k), p);
      OccursShift(s, n, Braced(k), p);
    }
  }

  lemma OccursShift(s: string, n: nat, b: string, p: int)
    requires n <= |s| && OccursAt(s[n..], b, p)
    ensures OccursAt(s, b, n + p)
  {
    assert s[n + p..n + p + |b|] == s[n..][p..p + |b|];
  }

  lemma {:induction false} PlaceholdersComplete(s: string, k: string, p: nat)
    requires |k| > 0 && AllWordChars(k) && OccursAt(s, Braced(k), p)
    ensures k in Placeholders(s)
    decreases |s|
  {
    if p == 0 {
      MatchAtStart(s, k);
    } else {
      var n := match BraceMatch(s) case Some(w) => |w| + 2 case None => 1;
      MatchSkipsNoBrace(s, k, p);
      OccursUnshift(s, n, Braced(k), p);
      PlaceholdersComplete(s[n..], k, p - n);
    }
  }

  /** A placeholder at the very start is the regular expression's match. */
  lemma MatchAtStart(s: string, k: string)
    requires |k| > 0 && AllWordChars(k) && OccursAt(s, Braced(k), 0)
    ensures BraceMatch(s) == Some(k)
  {
    var b := Braced(k);
    assert s[..|b|] == b;
    assert s[0] == b[0] == '{';
    var t := s[1..];
    assert t[..|k|] == k by {
      assert forall i | 0 <= i < |k| :: t[i] == s[i + 1] == b[i + 1] == k[i];
    }
    assert t[|k|] == s[|k| + 1] == b[|k| + 1] == '}';
    WordPrefixExact(t, k);
  }

  /** An occurrence of "{" past the start lies beyond the match at the
      start, if there is one. */
  lemma MatchSkipsNoBrace(s: string, k: string, p: nat)
    requires 0 < p && OccursAt(s, Braced(k), p)
    ensures BraceMatch(s).Some? ==> |BraceMatch(s).value| + 2 <= p
  {
    assert s[p] == Braced(k)[0] == '{';
    match BraceMatch(s)
    case Some(w) =>
      assert s[..|w| + 2] == Braced(w);
      forall i | 0 < i < |w| + 2
        ensures s[i] != '{'
      {
        assert s[i] == s[..|w| + 2][i] == Braced(w)[i];
        if i <= |w| {
          assert Braced(w)[i] == w[i - 1];
          assert IsWordChar(w[i - 1]);
        }
      }
    case None =>
  }

  lemma OccursUnshift(s: string, n: nat, b: string, p: int)
    requires n <= p && OccursAt(s, b, p)
    ensures n <= |s| && OccursAt(s[n..], b, p - n)
  {
    assert s[n..][p - n..p - n + |b|] == s[p..p + |b|];
  }

  /** A name is reported exactly when it is a non-empty run of word
      characters and "{name}" occurs in the text. */
  lemma PlaceholderIff(s: string, k: string)
    ensures k in Placeholders(s) <==> |k| > 0 && AllWordChars(k) && Contains(s, Braced(k))
  {
    ContainsIff(s, Braced(k));
    if k in Placeholders(s) {
      PlaceholdersSound(s, k);
    }
    if |k| > 0 && AllWordChars(k) && Contains(s, Braced(k)) {
      var p :| OccursAt(s, Braced(k), p);
      PlaceholdersComplete(s, k, p);
    }
  }

  // ---------------------------------------------------------------------
  // Parameters

  /** A parameter value: `string | number` (numbers as integers). */
  datatype Param = Str(s: string) | Num(n: int)

  /** `String(v)` */
  function ParamText(v: Param): string {
    match v
    case Str(s) => s
    case Num(n) => IntToString(n)
  }

  /** `Object.keys(params)` */
  function Names(entries: seq<(string, Param)>): (r: seq<string>)
    ensures |r| == |entries| && forall i | 0 <= i < |r| :: r[i] == entries[i].0
  {
    if entries == [] then [] else [entries[0].0] + Names(entries[1..])
  }

  /** `xs.filter(x => !ys.includes(x))` */
  function Without(xs: seq<string>, ys: seq<string>): (r: seq<string>)
    ensures |r| <= |xs|
    ensures forall x :: x in r <==> x in xs && x !in ys
  {
    if xs == [] then [] else (if xs[0] in ys then [] else [xs[0]]) + Without(xs[1..], ys)
  }

  datatype ParamCheck = ParamCheck(missing: seq<string>, unused: seq<string>)

  /** `params ? Object.keys(params) : []` */
  function Provided(params: Option<seq<(string, Param)>>): seq<string> {
    if params.Some? then Names(params.value) else []
  }

  /** `checkParams`: the placeholders not provided, and the provided names
      not used as placeholders. */
  function CheckParams(text: string, params: Option<seq<(string, Param)>>): (r: ParamCheck)
    ensures forall x :: x in r.missing <==> x in Placeholders(text) && x !in Provided(params)
    ensures forall x :: x in r.unused <==> x in Provided(params) && x !in Placeholders(text)
    ensures forall x | x in r.missing :: x !in Provided(params)
    ensures forall x | x in r.unused :: x in Provided(params)
  {
    var textParams := Placeholders(text);
    var provided := Provided(params);
    ParamCheck(Without(textParams, provided), Without(provided, textParams))
  }

  /** `names.map(p => `{${p}}`).join(", ")` */
  function BracedList(names: seq<string>): string {
    Join(seq(|names|, i requires 0 <= i < |names| => Braced(names[i])), ", ")
  }

  function MissingParamsMessage(key: string, names: seq<string>): string {
    "翻译键 \"" + key + "\" 缺少参数: " + BracedList(names)
  }

  function UnusedParamsMessage(key: string, names: seq<string>): string {
    "翻译键 \"" + key + "\" 收到了未使用的参数: " + BracedList(names)
  }

  /** `checkTranslationParams`: silent in production; otherwise fails on the
      placeholders neither provided nor listed in `manualParams`, and only
      then on provided names the text does not use. */
  function CheckTranslationParams(key: string, text: string, params: Option<seq<(string, Param)>>,
                                  manualParams: Option<seq<string>>, prod: bool): (r: Outcome<string>)
    ensures prod ==> r == Pass
    ensures r == Pass <==> prod || (AllSupplied(text, params, manualParams) && AllUsed(text, params))
    ensures !prod && !AllSupplied(text, params, manualParams) ==>
      r == Fail(MissingParamsMessage(key, ActualMissing(text, params, manualParams)))
    ensures !prod && AllSupplied(text, params, manualParams) && !AllUsed(text, params) ==>
      r == Fail(UnusedParamsMessage(key, CheckParams(text, params).unused))
  {
    if prod then Pass
    else
      var check := CheckParams(text, params);
      var actualMissing := ActualMissing(text, params, manualParams);
      MissingIff(text, params, manualParams);
      UnusedIff(text, params);
      if |actualMissing| > 0 then Fail(MissingParamsMessage(key, actualMissing))
      else if |check.unused| > 0 then Fail(UnusedParamsMessage(key, check.unused))
      else Pass
  }

  predicate Manual(manualParams: Option<seq<string>>, x: string) {
    manualParams.Some? && x in manualParams.value
  }

  /** Every placeholder is provided or listed as replaced by hand. */
  predicate AllSupplied(text: string, params: Option<seq<(string, Param)>>, manualParams: Option<seq<string>>) {
    forall x | x in Placeholders(text) :: x in Provided(params) || Manual(manualParams, x)
  }

  /** Every provided name is used as a placeholder. */
  predicate AllUsed(text: string, params: Option<seq<(string, Param)>>) {
    forall x | x in Provided(params) :: x in Placeholders(text)
  }

  lemma MissingIff(text: string, params: Option<seq<(string, Param)>>, manualParams: Option<seq<string>>)
    ensures |ActualMissing(text, params, manualParams)| > 0 <==> !AllSupplied(text, params, manualParams)
  {
    var m := ActualMissing(text, params, manualParams);
    if |m| > 0 {
      assert m[0] in m;
    }
  }

  lemma UnusedIff(text: string, params: Option<seq<(string, Param)>>)
    ensures |CheckParams(text, params).unused| > 0 <==> !AllUsed(text, params)
  {
    var u := CheckParams(text, params).unused;
    if |u| > 0 {
      assert u[0] in u;
    }
  }

  /** `manualParams ? missing.filter(p => !manualParams.includes(p)) : missing` */
  function ActualMissing(text: string, params: Option<seq<(string, Param)>>,
                         manualParams: Option<seq<string>>): (r: seq<string>)
    ensures forall x :: x in r <==> x in Placeholders(text) && x !in Provided(params) && !Manual(manualParams, x)
  {
    var missing := CheckParams(text, params).missing;
    if manualParams.Some? then Without(missing, manualParams.value) else missing
  }

  /** Providing exactly the placeholder names passes the parameter check. */
  lemma ExactParamsPass(key: string, text: string, entries: seq<(string, Param)>,
                        manualParams: Option<seq<string>>, prod: bool)
    requires Elements(Names(entries)) == Elements(Placeholders(text))
    ensures CheckTranslationParams(key, text, Some(entries), manualParams, prod) == Pass
  {
    forall x | x in Placeholders(text) ensures x in Names(entries) {
      assert x in Elements(Placeholders(text));
    }
    forall x | x in Names(entries) ensures x in Placeholders(text) {
      assert x in Elements(Names(entries));
    }
  }

  // ---------------------------------------------------------------------
  // Keys and texts

  /** A table value as JavaScript sees it: a string, a number, or (despite
      the declared type) something else such as an object. */
  datatype Entry = Text(text: string) | Number(n: int) | Object

  /** JavaScript truthiness of a looked-up value (`undefined` is `None`). */
  predicate Truthy(v: Option<Entry>) {
    match v
    case None => false
    case Some(Text(t)) => t != ""
    case Some(Number(n)) => n != 0
    case Some(Object) => true
  }

  /** A truthy string or number. */
  predicate StringOrNumber(v: Option<Entry>) {
    Truthy(v) && (v.value.Text? || v.value.Number?)
  }

  function MissingKeyMessage(lang: string, key: string): string {
    "在 " + lang + " 语言中缺失翻译键: \"" + key + "\""
  }

  function NotStringOrNumberMessage(lang: string, key: string): string {
    "在 " + lang + " 语言中的翻译键 \"" + key + "\" 的值不是字符串或数字"
  }

  /** `translations[lang][key]`: the entry when the language has the key;
      otherwise a name every object inherits (such as "constructor") reads
      an `Object.prototype` member, and any other key is `undefined`. */
  function Get(translations: map<string, map<string, Entry>>, lang: string, key: string): (r: Option<Entry>)
    requires lang in translations
    ensures r.Some? <==> key in translations[lang] || key in ObjectPrototypeNames
    ensures key in translations[lang] ==> r == Some(translations[lang][key])
    ensures key !in translations[lang] && key in ObjectPrototypeNames ==> r == Some(Object)
  {
    if key in translations[lang] then Some(translations[lang][key])
    else if key in ObjectPrototypeNames then Some(Object)
    else None
  }

  /** A key the language lacks but every object inherits is present and
      truthy for the source, so the check fails with the not-a-string-or-
      number message, not the missing-key one. */
  lemma InheritedKeyIsNotMissing(lang: string, key: string, translations: map<string, map<string, Entry>>)
    requires lang in translations && key !in translations[lang] && key in ObjectPrototypeNames
    ensures CheckTranslationKey(lang, key, translations, false) == Fail(NotStringOrNumberMessage(lang, key))
  {
  }

  /** `checkTranslationKey`: silent in production; otherwise fails on an
      absent or falsy value (so also on "" and 0), then on a value that is
      neither string nor number. */
  function CheckTranslationKey(lang: string, key: string, translations: map<string, map<string, Entry>>,
                               prod: bool): (r: Outcome<string>)
    requires lang in translations
    ensures prod ==> r == Pass
    ensures !prod && !Truthy(Get(translations, lang, key)) ==> r == Fail(MissingKeyMessage(lang, key))
    ensures r == Pass <==> prod || StringOrNumber(Get(translations, lang, key))
  {
    var v := Get(translations, lang, key);
    if prod then Pass
    else if !Truthy(v) then Fail(MissingKeyMessage(lang, key))
    else if !(v.value.Text? || v.value.Number?) then Fail(NotStringOrNumberMessage(lang, key))
    else Pass
  }

  /** `isValidTranslationText`: not blank, and no placeholder name repeats. */
  function IsValidTranslationText(text: string): (r: bool)
    ensures r <==> !IsBlank(text) && Distinct(Placeholders(text))
  {
    TrimEmptyIffBlank(text);
    var ps := Placeholders(text);
    DistinctIffSetSize(ps);
    if Trim(text) == "" then false
    else if ps == [] then true
    else |ps| == |Elements(ps)|
  }

  /** A non-blank text without placeholders is always valid. */
  lemma PlainTextIsValid(text: string)
    requires !IsBlank(text) && Placeholders(text) == []
    ensures IsValidTranslationText(text)
  {
  }

  // ---------------------------------------------------------------------
  // Translation

  /** The tables the `ui` type guarantees: the language and the default
      language are present, and the key is a key of the default table. */
  predicate Lookupable(ui: Ui, lang: string, key: string) {
    lang in ui && DefaultLang in ui && key in ui[DefaultLang]
  }

  /** `ui[lang][key] ?? ui[defaultLang][key]`: `??` falls back only on an
      absent entry, not on an empty string. */
  function Lookup(ui: Ui, lang: string, key: string): (r: string)
    requires Lookupable(ui, lang, key)
    ensures key in ui[lang] ==> r == ui[lang][key]
    ensures key !in ui[lang] ==> r == ui[DefaultLang][key]
  {
    if key in ui[lang] then ui[lang][key] else ui[DefaultLang][key]
  }

  /** `text.replace(new RegExp(`{${k}}`, "g"), String(v))` for one entry. */
  function ReplaceParam(text: string, entry: (string, Param)): string {
    ReplaceAll(text, Braced(entry.0), ParamText(entry.1))
  }

  /** `Object.entries(params).reduce(..., text)`: one replace-all per
      parameter, in entry order. */
  function Interpolate(text: string, entries: seq<(string, Param)>): string
    decreases |entries|
  {
    if entries == [] then text else Interpolate(ReplaceParam(text, entries[0]), entries[1..])
  }

  /** Parameters whose placeholders do not occur leave the text unchanged. */
  lemma {:induction false} InterpolateAbsent(text: string, entries: seq<(string, Param)>)
    requires forall i | 0 <= i < |entries| :: !Contains(text, Braced(entries[i].0))
    ensures Interpolate(text, entries) == text
    decreases |entries|
  {
    if entries != [] {
      ReplaceAllAbsent(text, Braced(entries[0].0), ParamText(entries[0].1));
      InterpolateAbsent(text, entries[1..]);
    }
  }

  /** A text without placeholders comes out of `t` unchanged whatever
      word-named parameters are passed. */
  lemma NoPlaceholdersUnchanged(text: string, entries: seq<(string, Param)>)
    requires Placeholders(text) == []
    requires forall i | 0 <= i < |entries| :: |entries[i].0| > 0 && AllWordChars(entries[i].0)
    ensures Interpolate(text, entries) == text
  {
    forall i | 0 <= i < |entries| ensures !Contains(text, Braced(entries[i].0)) {
      PlaceholderIff(text, entries[i].0);
    }
    InterpolateAbsent(text, entries);
  }

  /** Substituting in two steps is substituting the concatenation. */
  lemma {:induction false} InterpolateAppend(text: string, xs: seq<(string, Param)>, ys: seq<(string, Param)>)
    ensures Interpolate(text, xs + ys) == Interpolate(Interpolate(text, xs), ys)
    decreases |xs|
  {
    if xs != [] {
      assert (xs + ys)[1..] == xs[1..] + ys;
      InterpolateAppend(ReplaceParam(text, xs[0]), xs[1..], ys);
    } else {
      assert xs + ys == ys;
    }
  }

  /** The `ui` table as `checkTranslationKey` sees it. */
  function AsEntries(ui: Ui): (r: map<string, map<string, Entry>>)
    ensures r.Keys == ui.Keys
    ensures forall l | l in ui :: r[l].Keys == ui[l].Keys
  {
    map l | l in ui :: map k | k in ui[l] :: Text(ui[l][k])
  }

  /** What the key check reads from the table built from `ui`. */
  lemma GetAsEntries(ui: Ui, lang: string, key: string)
    requires lang in ui
    ensures lang in AsEntries(ui)
    ensures key in ui[lang] ==> Get(AsEntries(ui), lang, key) == Some(Text(ui[lang][key]))
    ensures key !in ui[lang] && key in ObjectPrototypeNames ==> Get(AsEntries(ui), lang, key) == Some(Object)
    ensures key !in ui[lang] && key !in ObjectPrototypeNames ==> Get(AsEntries(ui), lang, key) == None
  {
  }

  /** The development key check over the table built from `ui`. */
  lemma KeyCheckOfUi(ui: Ui, lang: string, key: string)
    requires lang in ui
    ensures lang in AsEntries(ui)
    ensures CheckTranslationKey(lang, key, AsEntries(ui), false)
            == if key in ui[lang] && ui[lang][key] != "" then Pass
               else if key !in ui[lang] && key in ObjectPrototypeNames then Fail(NotStringOrNumberMessage(lang, key))
               else Fail(MissingKeyMessage(lang, key))
  {
    GetAsEntries(ui, lang, key);
  }

  /** `t(key, params, manualParams)` from `useTranslations(lang)`. In
      production: the looked-up text, with the parameters substituted when
      given. In development the key check and the parameter check run first
      and their failures propagate. */
  function Translate(ui: Ui, lang: string, key: string, params: Option<seq<(string, Param)>>,
                     manualParams: Option<seq<string>>, prod: bool): (r: Result<string, string>)
    requires Lookupable(ui, lang, key)
    ensures prod && params.None? ==> r == Ok(Lookup(ui, lang, key))
    ensures prod && params.Some? ==> r == Ok(Interpolate(Lookup(ui, lang, key), params.value))
    ensures !prod && ((key !in ui[lang] && key !in ObjectPrototypeNames) || (key in ui[lang] && ui[lang][key] == ""))
      ==> r == Err(MissingKeyMessage(lang, key))
    ensures !prod && key !in ui[lang] && key in ObjectPrototypeNames ==> r == Err(NotStringOrNumberMessage(lang, key))
    ensures !prod && key in ui[lang] && ui[lang][key] != "" ==>
      var pc := CheckTranslationParams(key, Lookup(ui, lang, key), params, manualParams, false);
      (pc.Fail? ==> r == Err(pc.error)) && (pc == Pass ==> r.Ok?)
    ensures r.Ok? ==> r.value == (if params.Some? then Interpolate(Lookup(ui, lang, key), params.value)
                                  else Lookup(ui, lang, key))
  {
    KeyCheckOfUi(ui, lang, key);
    var text := Lookup(ui, lang, key);
    var keyCheck := if prod then Pass else CheckTranslationKey(lang, key, AsEntries(ui), false);
    var paramCheck := if prod then Pass else CheckTranslationParams(key, text, params, manualParams, false);
    if keyCheck.Fail? then Err(keyCheck.error)
    else if paramCheck.Fail? then Err(paramCheck.error)
    else if params.Some? then Ok(Interpolate(text, params.value))
    else Ok(text)
  }

  /** In development a key missing from the requested language fails before
      the fallback to the default language can apply; in production the
      fallback text is returned. */
  lemma DevelopmentHasNoFallback(ui: Ui, lang: string, key: string)
    requires Lookupable(ui, lang, key) && key !in ui[lang]
    ensures Translate(ui, lang, key, None, None, false).Err?
    ensures Translate(ui, lang, key, None, None, true) == Ok(ui[DefaultLang][key])
  {
  }
}
