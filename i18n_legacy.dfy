/** The older helpers of `src/i18n/utils.ts`: a language lookup without the
    empty-segment test, and a `t` that substitutes parameters in a loop. Its
    `translatePath` is the same expression as the core one
    (I18nCore.TranslatePath). */
module I18nLegacy {
  import opened Wrappers
  import opened Strings
  import I18nCore

  /** `getLangFromUrl`: the first path segment when it names a language. A
      missing segment is JavaScript's `undefined`, which `in` looks up as the
      key "undefined". */
  function GetLangFromUrl(ui: I18nCore.Ui, pathname: string): (r: string)
    requires I18nCore.DefaultLang in ui
    ensures r in ui
    ensures I18nCore.FirstSegment(pathname).Some? && I18nCore.FirstSegment(pathname).value in ui
      ==> r == I18nCore.FirstSegment(pathname).value
    ensures (if I18nCore.FirstSegment(pathname).Some? then I18nCore.FirstSegment(pathname).value else "undefined") !in ui
      ==> r == I18nCore.DefaultLang
  {
    var segment := I18nCore.FirstSegment(pathname);
    var lang := if segment.Some? then segment.value else "undefined";
    if lang in ui then lang else I18nCore.DefaultLang
  }

  /** When neither "" nor "undefined" is a language, the two versions of
      `getLangFromUrl` agree on every path. */
  lemma AgreesWithCore(ui: I18nCore.Ui, pathname: string)
    requires I18nCore.DefaultLang in ui && "" !in ui && "undefined" !in ui
    ensures GetLangFromUrl(ui, pathname) == I18nCore.GetLangFromUrl(ui, pathname)
  {
  }

  /** When "" is a language, the older version returns it for the path "/",
      where the core version falls back to the default. */
  lemma EmptySegmentDiffers(ui: I18nCore.Ui)
    requires I18nCore.DefaultLang in ui && "" in ui
    ensures GetLangFromUrl(ui, "/") == ""
    ensures I18nCore.GetLangFromUrl(ui, "/") == I18nCore.DefaultLang
  {
    assert TakeUntil("/", '/') == "";
    assert TakeUntil("/"[1..], '/') == "";
  }

  /** `t(key, params)`: look the key up with fallback, then replace each
      parameter's placeholder in turn, reassigning the text. The result is
      the left fold of the core module. */
  method Translate(ui: I18nCore.Ui, lang: string, key: string,
                   params: Option<seq<(string, I18nCore.Param)>>) returns (text: string)
    requires I18nCore.Lookupable(ui, lang, key)
    ensures params.None? ==> text == I18nCore.Lookup(ui, lang, key)
    ensures params.Some? ==> text == I18nCore.Interpolate(I18nCore.Lookup(ui, lang, key), params.value)
  {
    text := I18nCore.Lookup(ui, lang, key);
    if params.Some? {
      var entries := params.value;
      var i := 0;
      while i < |entries|
        invariant 0 <= i <= |entries|
        invariant I18nCore.Interpolate(text, entries[i..])
               == I18nCore.Interpolate(I18nCore.Lookup(ui, lang, key), entries)
      {
        assert entries[i..][1..] == entries[i + 1..];
        text := I18nCore.ReplaceParam(text, entries[i]);
        i := i + 1;
      }
    }
  }
}
