/** The game record of `src/config/game.ts`: the ordered validation of the
    record and the shipped default. The file's `toNonEmptyString` and
    `toValidUrl` are the same converters as the site record's
    (ConfigSite.ToNonEmptyString, ConfigSite.ToValidUrl). `new URL` is the
    parameter `parses`. */
module ConfigGame {
  import opened Wrappers
  import opened Strings
  import opened Checks
  import opened ConfigTypes
  import ConfigSite

  /** `Object.keys(gameOrientations)` */
  const Orientations: seq<string> := ["landscape", "portrait"]

  /** `Object.keys(gameOrientations).includes(o)` */
  predicate IsOrientation(o: string) {
    o in Orientations
  }

  /** `/^\d+:\d+$/.test(s)`: a run of ASCII digits, one ":", and a run of
      ASCII digits that ends the string. */
  predicate IsAspectRatio(s: string) {
    var w := LeadingRun(s, IsDigit);
    0 < |w| < |s| && s[|w|] == ':' && |s| > |w| + 1 && AllDigits(s[|w| + 1..])
  }

  /** The shape of the pattern: `w:h` with `w` and `h` non-empty digit runs. */
  ghost predicate RatioParts(s: string, w: string, h: string) {
    |w| > 0 && |h| > 0 && AllDigits(w) && AllDigits(h) && s == w + ":" + h
  }

  /** Every digit run, a colon and a digit run form an accepted ratio. */
  lemma RatioJoin(s: string, w: string, h: string)
    requires RatioParts(s, w, h)
    ensures IsAspectRatio(s)
  {
    LeadingRunExact(w, ":" + h, IsDigit);
    assert s == w + (":" + h);
    assert s[|w| + 1..] == h;
  }

  /** The predicate accepts exactly the strings of the pattern's shape. */
  lemma AspectRatioIff(s: string)
    ensures IsAspectRatio(s) <==> exists w, h :: RatioParts(s, w, h)
  {
    if IsAspectRatio(s) {
      var w := LeadingRun(s, IsDigit);
      var h := s[|w| + 1..];
      assert s == s[..|w|] + [s[|w|]] + s[|w| + 1..];
      assert RatioParts(s, w, h);
    }
    if exists w, h :: RatioParts(s, w, h) {
      var w, h :| RatioParts(s, w, h);
      RatioJoin(s, w, h);
    }
  }

  /** A string whose leading digit run `w` is followed by `rest` is refused
      when `w` is empty, `rest` does not start with ":", or what follows the
      ":" is not a non-empty digit run. */
  lemma RatioRefused(s: string, w: string, rest: string)
    requires AllDigits(w) && s == w + rest && (rest == [] || !IsDigit(rest[0]))
    requires w == [] || rest == [] || rest[0] != ':' || |rest| == 1 || !AllDigits(rest[1..])
    ensures !IsAspectRatio(s)
  {
    LeadingRunExact(w, rest, IsDigit);
    if |w| < |s| {
      assert s[|w|] == rest[0];
      assert s[|w| + 1..] == rest[1..];
    }
  }

  lemma RatioSlashRefused(s: string)
    requires s == "16/9"
    ensures !IsAspectRatio(s)
  {
    RatioRefused(s, "16", "/9");
  }

  lemma RatioNoWidthRefused(s: string)
    requires s == ":9"
    ensures !IsAspectRatio(s)
  {
    RatioRefused(s, "", ":9");
  }

  lemma RatioNoHeightRefused(s: string)
    requires s == "16:"
    ensures !IsAspectRatio(s)
  {
    RatioRefused(s, "16", ":");
  }

  lemma RatioTrailingSpaceRefused(s: string)
    requires s == "16:9 "
    ensures !IsAspectRatio(s)
  {
    assert !AllDigits(":9 "[1..]) by {
      assert ":9 "[1..][1] == ' ';
    }
    RatioRefused(s, "16", ":9 ");
  }

  /** "16:9" and "4:3" are accepted; a slash, a missing side or a trailing
      space is refused. */
  lemma AspectRatioForms()
    ensures IsAspectRatio("16:9") && IsAspectRatio("4:3")
    ensures !IsAspectRatio("16/9") && !IsAspectRatio(":9") && !IsAspectRatio("16:")
    ensures !IsAspectRatio("16:9 ") && !IsAspectRatio("")
  {
    RatioJoin("16:9", "16", "9");
    RatioJoin("4:3", "4", "3");
    RatioSlashRefused("16/9");
    RatioNoWidthRefused(":9");
    RatioNoHeightRefused("16:");
    RatioTrailingSpaceRefused("16:9 ");
  }

  // ---------------------------------------------------------------------
  // The record

  datatype Controls = Controls(mobile: seq<string>, desktop: seq<string>)
  datatype Loading = Loading(message: string, timeout: int, maxRetries: int)
  datatype ErrorMessages = ErrorMessages(timeout: string, notFound: string, generic: string)
  datatype ErrorConfig = ErrorConfig(messages: ErrorMessages, retryInterval: int)
  datatype Seo = Seo(title: string, description: string, keywords: seq<string>)
  datatype GameConfig = GameConfig(
    id: string, name: string, description: string, url: string, previewImage: string,
    orientation: string, aspectRatio: string,
    controls: Controls, loading: Loading, error: ErrorConfig, seo: Seo)

  /** `!v || !isValidUrl(v)` fails: a URL field must be non-empty and valid. */
  predicate UrlField(v: string, parses: string -> bool) {
    |v| > 0 && IsValidUrl(v, parses)
  }

  // ---------------------------------------------------------------------
  // The messages of the checks, in source order

  const IdRequired: string := "Game ID is required"
  const NameRequired: string := "Game name is required"
  const DescriptionRequired: string := "Game description is required"
  const UrlInvalid: string := "Game URL must be valid"
  const PreviewImageInvalid: string := "Preview image URL must be valid"
  const OrientationInvalid: string := "Invalid game orientation"
  const AspectRatioInvalid: string := "Invalid aspect ratio format"
  const MobileControlsInvalid: string := "Mobile controls must be an array of non-empty strings"
  const DesktopControlsInvalid: string := "Desktop controls must be an array of non-empty strings"
  const LoadingMessageRequired: string := "Loading message is required"
  const LoadingTimeoutInvalid: string := "Loading timeout must be a positive number"
  const MaxRetriesInvalid: string := "Max retries must be a positive number"
  const TimeoutMessageRequired: string := "Timeout message is required"
  const NotFoundMessageRequired: string := "Not found message is required"
  const GenericMessageRequired: string := "Generic error message is required"
  const RetryIntervalInvalid: string := "Retry interval must be a positive number"
  const SeoTitleRequired: string := "SEO title is required"
  const SeoDescriptionRequired: string := "SEO description is required"
  const SeoKeywordsInvalid: string := "SEO keywords must be an array of non-empty strings"

  function IdentityChecks(g: GameConfig, parses: string -> bool): seq<Check> {
    [ Check(IsNonEmptyString(g.id), IdRequired),
      Check(IsNonEmptyString(g.name), NameRequired),
      Check(IsNonEmptyString(g.description), DescriptionRequired),
      Check(UrlField(g.url, parses), UrlInvalid),
      Check(UrlField(g.previewImage, parses), PreviewImageInvalid),
      Check(IsOrientation(g.orientation), OrientationInvalid),
      Check(IsAspectRatio(g.aspectRatio), AspectRatioInvalid) ]
  }

  function LoadChecks(g: GameConfig): seq<Check> {
    [ Check(ConfigSite.AllNonEmpty(g.controls.mobile), MobileControlsInvalid),
      Check(ConfigSite.AllNonEmpty(g.controls.desktop), DesktopControlsInvalid),
      Check(IsNonEmptyString(g.loading.message), LoadingMessageRequired),
      Check(g.loading.timeout > 0, LoadingTimeoutInvalid),
      Check(g.loading.maxRetries > 0, MaxRetriesInvalid) ]
  }

  function ErrorChecks(e: ErrorConfig): seq<Check> {
    [ Check(IsNonEmptyString(e.messages.timeout), TimeoutMessageRequired),
      Check(IsNonEmptyString(e.messages.notFound), NotFoundMessageRequired),
      Check(IsNonEmptyString(e.messages.generic), GenericMessageRequired),
      Check(e.retryInterval > 0, RetryIntervalInvalid) ]
  }

  function SeoChecks(s: Seo): seq<Check> {
    [ Check(IsNonEmptyString(s.title), SeoTitleRequired),
      Check(IsNonEmptyString(s.description), SeoDescriptionRequired),
      Check(ConfigSite.AllNonEmpty(s.keywords), SeoKeywordsInvalid) ]
  }

  function GameChecks(g: GameConfig, parses: string -> bool): seq<Check> {
    IdentityChecks(g, parses) + LoadChecks(g) + ErrorChecks(g.error) + SeoChecks(g.seo)
  }

  // ---------------------------------------------------------------------
  // What a valid record is

  predicate ValidIdentity(g: GameConfig, parses: string -> bool) {
    |g.id| > 0 && |g.name| > 0 && |g.description| > 0
    && UrlField(g.url, parses) && UrlField(g.previewImage, parses)
    && (g.orientation == "landscape" || g.orientation == "portrait")
    && IsAspectRatio(g.aspectRatio)
  }

  predicate ValidLoad(g: GameConfig) {
    ConfigSite.AllNonEmpty(g.controls.mobile) && ConfigSite.AllNonEmpty(g.controls.desktop)
    && |g.loading.message| > 0 && g.loading.timeout > 0 && g.loading.maxRetries > 0
  }

  predicate ValidError(e: ErrorConfig) {
    |e.messages.timeout| > 0 && |e.messages.notFound| > 0 && |e.messages.generic| > 0
    && e.retryInterval > 0
  }

  predicate ValidSeo(s: Seo) {
    |s.title| > 0 && |s.description| > 0 && ConfigSite.AllNonEmpty(s.keywords)
  }

  /** A valid game record: required texts non-empty, both URLs valid, a known
      orientation, a `w:h` aspect ratio, control and keyword lists of
      non-empty strings, and a positive loading timeout, retry count and retry
      interval. */
  predicate ValidGame(g: GameConfig, parses: string -> bool) {
    ValidIdentity(g, parses) && ValidLoad(g) && ValidError(g.error) && ValidSeo(g.seo)
  }

  lemma IdentityChecksPass(g: GameConfig, parses: string -> bool)
    ensures FirstFailure(IdentityChecks(g, parses)) == Pass <==> ValidIdentity(g, parses)
  {
    FewPass(IdentityChecks(g, parses));
  }

  lemma LoadChecksPass(g: GameConfig)
    ensures FirstFailure(LoadChecks(g)) == Pass <==> ValidLoad(g)
  {
    FewPass(LoadChecks(g));
  }

  lemma ErrorChecksPass(e: ErrorConfig)
    ensures FirstFailure(ErrorChecks(e)) == Pass <==> ValidError(e)
  {
    FewPass(ErrorChecks(e));
  }

  lemma SeoChecksPass(s: Seo)
    ensures FirstFailure(SeoChecks(s)) == Pass <==> ValidSeo(s)
  {
    FewPass(SeoChecks(s));
  }

  lemma GameChecksPass(g: GameConfig, parses: string -> bool)
    ensures FirstFailure(GameChecks(g, parses)) == Pass <==> ValidGame(g, parses)
  {
    var i, l, e, s := IdentityChecks(g, parses), LoadChecks(g), ErrorChecks(g.error), SeoChecks(g.seo);
    IdentityChecksPass(g, parses);
    LoadChecksPass(g);
    ErrorChecksPass(g.error);
    SeoChecksPass(g.seo);
    FirstOfFour(i, l, e, s);
  }

  /** `validateGameConfig`: the first failing check in source order (identity
      and URLs, orientation, aspect ratio, controls, loading, error messages,
      retry interval, SEO). It passes exactly on valid records; an empty id is
      the first thing reported; any failure carries the message of a check
      that fails after all earlier ones held. */
  function ValidateGameConfig(g: GameConfig, parses: string -> bool): (r: Outcome<string>)
    ensures r == Pass <==> ValidGame(g, parses)
    ensures |g.id| == 0 ==> r == Fail(IdRequired)
    ensures r.Fail? ==> exists i | 0 <= i < |GameChecks(g, parses)| ::
      !GameChecks(g, parses)[i].ok && r.error == GameChecks(g, parses)[i].message
      && forall j | 0 <= j < i :: GameChecks(g, parses)[j].ok
  {
    GameChecksPass(g, parses);
    if |g.id| == 0 then
      EmptyIdFirst(g, parses);
      FirstFailure(GameChecks(g, parses))
    else
      FirstFailure(GameChecks(g, parses))
  }

  lemma EmptyIdFirst(g: GameConfig, parses: string -> bool)
    requires |g.id| == 0
    ensures FirstFailure(GameChecks(g, parses)) == Fail(IdRequired)
  {
    assert FirstFailure(IdentityChecks(g, parses)) == Fail(IdRequired) by {
      FailsAt(IdentityChecks(g, parses), 0);
    }
    FirstOfFour(IdentityChecks(g, parses), LoadChecks(g), ErrorChecks(g.error), SeoChecks(g.seo));
  }

  /** A record whose texts and URLs are in order but whose orientation is
      neither "landscape" nor "portrait" is refused for its orientation. */
  lemma OrientationMustBeKnown(g: GameConfig, parses: string -> bool)
    requires |g.id| > 0 && |g.name| > 0 && |g.description| > 0
    requires UrlField(g.url, parses) && UrlField(g.previewImage, parses)
    requires g.orientation != "landscape" && g.orientation != "portrait"
    ensures ValidateGameConfig(g, parses) == Fail(OrientationInvalid)
  {
    assert FirstFailure(IdentityChecks(g, parses)) == Fail(OrientationInvalid) by {
      FailsAt(IdentityChecks(g, parses), 5);
    }
    FirstOfFour(IdentityChecks(g, parses), LoadChecks(g), ErrorChecks(g.error), SeoChecks(g.seo));
  }

  /** With a known orientation, an aspect ratio not of the form `w:h` is
      refused for its format. */
  lemma AspectRatioMustMatch(g: GameConfig, parses: string -> bool)
    requires |g.id| > 0 && |g.name| > 0 && |g.description| > 0
    requires UrlField(g.url, parses) && UrlField(g.previewImage, parses)
    requires IsOrientation(g.orientation) && !IsAspectRatio(g.aspectRatio)
    ensures ValidateGameConfig(g, parses) == Fail(AspectRatioInvalid)
  {
    assert FirstFailure(IdentityChecks(g, parses)) == Fail(AspectRatioInvalid) by {
      FailsAt(IdentityChecks(g, parses), 6);
    }
    FirstOfFour(IdentityChecks(g, parses), LoadChecks(g), ErrorChecks(g.error), SeoChecks(g.seo));
  }

  /** A record with valid identity, orientation and ratio fails on the first
      empty mobile control, before anything that follows. */
  lemma ControlsMustBeNonEmpty(g: GameConfig, parses: string -> bool, k: nat)
    requires ValidIdentity(g, parses)
    requires k < |g.controls.mobile| && g.controls.mobile[k] == ""
    ensures ValidateGameConfig(g, parses) == Fail(MobileControlsInvalid)
  {
    assert FirstFailure(IdentityChecks(g, parses)) == Pass by {
      IdentityChecksPass(g, parses);
    }
    assert FirstFailure(LoadChecks(g)) == Fail(MobileControlsInvalid) by {
      FailsAt(LoadChecks(g), 0);
    }
    FirstOfFour(IdentityChecks(g, parses), LoadChecks(g), ErrorChecks(g.error), SeoChecks(g.seo));
  }

  /** Once identity, controls and loading message are valid, a loading
      timeout or retry count that is not positive is refused, the timeout
      first. */
  lemma LoadingNumbersMustBePositive(g: GameConfig, parses: string -> bool)
    requires ValidIdentity(g, parses)
    requires ConfigSite.AllNonEmpty(g.controls.mobile) && ConfigSite.AllNonEmpty(g.controls.desktop)
    requires |g.loading.message| > 0
    requires g.loading.timeout <= 0 || g.loading.maxRetries <= 0
    ensures ValidateGameConfig(g, parses)
         == Fail(if g.loading.timeout <= 0 then LoadingTimeoutInvalid
                 else MaxRetriesInvalid)
  {
    assert FirstFailure(IdentityChecks(g, parses)) == Pass by {
      IdentityChecksPass(g, parses);
    }
    assert FirstFailure(LoadChecks(g))
        == Fail(if g.loading.timeout <= 0 then LoadingTimeoutInvalid
                else MaxRetriesInvalid) by {
      if g.loading.timeout <= 0 {
        FailsAt(LoadChecks(g), 3);
      } else {
        FailsAt(LoadChecks(g), 4);
      }
    }
    FirstOfFour(IdentityChecks(g, parses), LoadChecks(g), ErrorChecks(g.error), SeoChecks(g.seo));
  }

  /** A record valid up to its error messages whose retry interval is not
      positive is refused for that interval. */
  lemma RetryIntervalMustBePositive(g: GameConfig, parses: string -> bool)
    requires ValidIdentity(g, parses) && ValidLoad(g)
    requires |g.error.messages.timeout| > 0 && |g.error.messages.notFound| > 0
    requires |g.error.messages.generic| > 0 && g.error.retryInterval <= 0
    ensures ValidateGameConfig(g, parses) == Fail(RetryIntervalInvalid)
  {
    assert FirstFailure(IdentityChecks(g, parses)) == Pass by {
      IdentityChecksPass(g, parses);
    }
    assert FirstFailure(LoadChecks(g)) == Pass by {
      LoadChecksPass(g);
    }
    assert FirstFailure(ErrorChecks(g.error)) == Fail(RetryIntervalInvalid) by {
      FailsAt(ErrorChecks(g.error), 3);
    }
    FirstOfFour(IdentityChecks(g, parses), LoadChecks(g), ErrorChecks(g.error), SeoChecks(g.seo));
  }

  // ---------------------------------------------------------------------
  // The shipped record

  const ShippedControls: Controls := Controls(
    ["点击并拖动音乐元素", "双指缩放查看全局", "长按解锁新内容"],
    ["鼠标拖放音乐元素", "滚轮缩放查看全局", "右键解锁新内容"])

  /** 30 seconds to load, 3 retries, 1 second between retries. */
  const ShippedLoading: Loading := Loading("游戏加载中...", 30000, 3)

  const ShippedError: ErrorConfig := ErrorConfig(
    ErrorMessages("游戏加载超时，请检查网络连接", "游戏资源未找到", "加载游戏时出现错误"), 1000)

  const ShippedSeo: Seo := Seo(
    "FiddleBops - 创新音乐节奏游戏",
    "通过简单直观的操作，体验音乐创作的乐趣。适合所有热爱音乐的玩家。",
    ["音乐游戏", "节奏游戏", "音乐创作"])

  const ShippedGame: GameConfig := GameConfig(
    "fiddlebops", "FiddleBops", "创新音乐节奏游戏",
    "https://silkycell.github.io/FiddleBops/", "/images/FiddleBops.webp",
    "landscape", "16:9", ShippedControls, ShippedLoading, ShippedError, ShippedSeo)

  lemma ShippedRatioValid(s: string)
    requires s == "16:9"
    ensures IsAspectRatio(s)
  {
    RatioJoin(s, "16", "9");
  }

  lemma ShippedIdentityValid(g: GameConfig, parses: string -> bool)
    requires g == ShippedGame && parses("https://silkycell.github.io/FiddleBops/")
    ensures ValidIdentity(g, parses)
  {
    ShippedRatioValid(g.aspectRatio);
    assert StartsWith(g.previewImage, "/");
  }

  lemma ShippedGameValid(g: GameConfig, parses: string -> bool)
    requires g == ShippedGame && parses("https://silkycell.github.io/FiddleBops/")
    ensures ValidGame(g, parses)
  {
    ShippedIdentityValid(g, parses);
    assert ValidLoad(g);
    assert ValidError(g.error);
    assert ValidSeo(g.seo);
  }

  /** The shipped record, with its 30000 ms loading timeout, 3 retries and
      1000 ms retry interval, passes validation; its relative preview image
      passes through the "/" shortcut. */
  lemma ShippedGameConfigPasses(g: GameConfig, parses: string -> bool)
    requires g == ShippedGame && parses("https://silkycell.github.io/FiddleBops/")
    ensures ValidateGameConfig(g, parses) == Pass
    ensures g.loading.timeout == 30000 && g.loading.maxRetries == 3 && g.error.retryInterval == 1000
  {
    ShippedGameValid(g, parses);
  }
}
