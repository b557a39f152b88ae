/** The site record of `src/config/site.ts`: the branded-type converters, the
    ordered validation of the record, the shipped record and the site URL of
    the environment. `new URL` is the parameter `parses`. */
module ConfigSite {
  import opened Wrappers
  import opened Strings
  import opened Checks
  import opened ConfigTypes

  // ---------------------------------------------------------------------
  // Converters (the same three are repeated in `src/config/game.ts`)

  /** `toNonEmptyString`: the value itself, or the error it throws. */
  function ToNonEmptyString(v: string): (r: Result<string, string>)
    ensures r.Ok? <==> IsNonEmptyString(v)
    ensures r.Ok? ==> r.value == v
    ensures r.Err? ==> r.error == "Invalid string: " + v
  {
    if !IsNonEmptyString(v) then Err("Invalid string: " + v) else Ok(v)
  }

  /** `toValidUrl` */
  function ToValidUrl(v: string, parses: string -> bool): (r: Result<string, string>)
    ensures r.Ok? <==> IsValidUrl(v, parses)
    ensures r.Ok? ==> r.value == v
    ensures r.Err? ==> r.error == "Invalid URL: " + v
  {
    if !IsValidUrl(v, parses) then Err("Invalid URL: " + v) else Ok(v)
  }

  /** `toEmailAddress` */
  function ToEmailAddress(v: string): (r: Result<string, string>)
    ensures r.Ok? <==> IsValidEmail(v)
    ensures r.Ok? ==> r.value == v
    ensures r.Err? ==> r.error == "Invalid email: " + v
  {
    if !IsValidEmail(v) then Err("Invalid email: " + v) else Ok(v)
  }

  /** A converter never changes a value it accepts, so converting twice is
      converting once. */
  lemma ConvertersIdempotent(v: string, parses: string -> bool)
    ensures ToNonEmptyString(v).Ok? ==> ToNonEmptyString(ToNonEmptyString(v).value) == ToNonEmptyString(v)
    ensures ToValidUrl(v, parses).Ok? ==> ToValidUrl(ToValidUrl(v, parses).value, parses) == ToValidUrl(v, parses)
    ensures ToEmailAddress(v).Ok? ==> ToEmailAddress(ToEmailAddress(v).value) == ToEmailAddress(v)
  {
  }

  // ---------------------------------------------------------------------
  // The record

  datatype Creator = Creator(name: string, description: string, email: string, location: string)
  datatype Links = Links(twitter: string, github: string, discord: string)
  datatype Feature = Feature(title: string, description: string)
  datatype Faq = Faq(question: string, answer: string)
  datatype SiteConfig = SiteConfig(
    name: string, url: string, title: string, description: string,
    keywords: seq<string>, timeout: int, ogImage: string,
    creator: Creator, links: Links, features: seq<Feature>, faqs: seq<Faq>)

  predicate AllNonEmpty(xs: seq<string>) {
    forall i | 0 <= i < |xs| :: IsNonEmptyString(xs[i])
  }

  /** `!v || !isValidUrl(v)` fails: a URL field must be non-empty (truthy)
      and valid. */
  predicate UrlField(v: string, parses: string -> bool) {
    |v| > 0 && IsValidUrl(v, parses)
  }

  function FeaturePairs(fs: seq<Feature>): (r: seq<(string, string)>)
    ensures |r| == |fs| && forall i | 0 <= i < |fs| :: r[i] == (fs[i].title, fs[i].description)
  {
    seq(|fs|, i requires 0 <= i < |fs| => (fs[i].title, fs[i].description))
  }

  function FaqPairs(fs: seq<Faq>): (r: seq<(string, string)>)
    ensures |r| == |fs| && forall i | 0 <= i < |fs| :: r[i] == (fs[i].question, fs[i].answer)
  {
    seq(|fs|, i requires 0 <= i < |fs| => (fs[i].question, fs[i].answer))
  }

  // Messages of the checks, in source order.
  const SiteNameRequired: string := "Site name is required"
  const SiteUrlInvalid: string := "Site URL must be valid"
  const SiteTitleRequired: string := "Site title is required"
  const SiteDescriptionRequired: string := "Site description is required"
  const KeywordsInvalid: string := "Keywords must be an array of non-empty strings"
  const TimeoutInvalid: string := "Timeout must be a positive number"
  const OgImageInvalid: string := "OG image URL must be valid"
  const CreatorNameRequired: string := "Creator name is required"
  const CreatorDescriptionRequired: string := "Creator description is required"
  const CreatorEmailInvalid: string := "Creator email must be valid"
  const CreatorLocationRequired: string := "Creator location is required"
  const TwitterUrlInvalid: string := "Twitter URL must be valid"
  const GithubUrlInvalid: string := "GitHub URL must be valid"
  const DiscordUrlInvalid: string := "Discord URL must be valid"
  const FeaturePrefix: string := "Feature "
  const FeatureTitleMissing: string := " title is required"
  const FeatureDescriptionMissing: string := " description is required"
  const FaqPrefix: string := "FAQ "
  const FaqQuestionMissing: string := " question is required"
  const FaqAnswerMissing: string := " answer is required"

  function BasicChecks(c: SiteConfig, parses: string -> bool): seq<Check> {
    [ Check(IsNonEmptyString(c.name), SiteNameRequired),
      Check(UrlField(c.url, parses), SiteUrlInvalid),
      Check(IsNonEmptyString(c.title), SiteTitleRequired),
      Check(IsNonEmptyString(c.description), SiteDescriptionRequired),
      Check(AllNonEmpty(c.keywords), KeywordsInvalid),
      Check(c.timeout > 0, TimeoutInvalid),
      Check(UrlField(c.ogImage, parses), OgImageInvalid) ]
  }

  function CreatorChecks(c: Creator): seq<Check> {
    [ Check(IsNonEmptyString(c.name), CreatorNameRequired),
      Check(IsNonEmptyString(c.description), CreatorDescriptionRequired),
      Check(|c.email| > 0 && IsValidEmail(c.email), CreatorEmailInvalid),
      Check(IsNonEmptyString(c.location), CreatorLocationRequired) ]
  }

  function LinkChecks(l: Links, parses: string -> bool): seq<Check> {
    [ Check(UrlField(l.twitter, parses), TwitterUrlInvalid),
      Check(UrlField(l.github, parses), GithubUrlInvalid),
      Check(UrlField(l.discord, parses), DiscordUrlInvalid) ]
  }

  function FeatureChecks(fs: seq<Feature>): seq<Check> {
    PairChecks(FeaturePairs(fs), FeaturePrefix, FeatureTitleMissing, FeatureDescriptionMissing)
  }

  function FaqChecks(fs: seq<Faq>): seq<Check> {
    PairChecks(FaqPairs(fs), FaqPrefix, FaqQuestionMissing, FaqAnswerMissing)
  }

  /** The checks before the feature list. */
  function HeadChecks(c: SiteConfig, parses: string -> bool): seq<Check> {
    BasicChecks(c, parses) + CreatorChecks(c.creator) + LinkChecks(c.links, parses)
  }

  function SiteChecks(c: SiteConfig, parses: string -> bool): seq<Check> {
    HeadChecks(c, parses) + FeatureChecks(c.features) + FaqChecks(c.faqs)
  }

  // ---------------------------------------------------------------------
  // What a valid record is

  predicate ValidBasics(c: SiteConfig, parses: string -> bool) {
    |c.name| > 0 && UrlField(c.url, parses) && |c.title| > 0 && |c.description| > 0
    && AllNonEmpty(c.keywords) && c.timeout > 0 && UrlField(c.ogImage, parses)
  }

  predicate ValidCreator(c: Creator) {
    |c.name| > 0 && |c.description| > 0 && IsValidEmail(c.email) && |c.location| > 0
  }

  predicate ValidLinks(l: Links, parses: string -> bool) {
    UrlField(l.twitter, parses) && UrlField(l.github, parses) && UrlField(l.discord, parses)
  }

  predicate ValidHead(c: SiteConfig, parses: string -> bool) {
    ValidBasics(c, parses) && ValidCreator(c.creator) && ValidLinks(c.links, parses)
  }

  /** A valid site record: required texts non-empty, URLs valid, a positive
      timeout, a valid creator email, and every feature and FAQ entry with
      both of its texts. */
  predicate ValidSite(c: SiteConfig, parses: string -> bool) {
    ValidHead(c, parses)
    && (forall i | 0 <= i < |c.features| :: |c.features[i].title| > 0 && |c.features[i].description| > 0)
    && (forall i | 0 <= i < |c.faqs| :: |c.faqs[i].question| > 0 && |c.faqs[i].answer| > 0)
  }

  lemma BasicChecksPass(c: SiteConfig, parses: string -> bool)
    ensures FirstFailure(BasicChecks(c, parses)) == Pass <==> ValidBasics(c, parses)
  {
    FewPass(BasicChecks(c, parses));
  }

  lemma CreatorChecksPass(c: Creator)
    ensures FirstFailure(CreatorChecks(c)) == Pass <==> ValidCreator(c)
  {
    FewPass(CreatorChecks(c));
    if IsValidEmail(c.email) {
      assert |c.email| > 0;
    }
  }

  lemma LinkChecksPass(l: Links, parses: string -> bool)
    ensures FirstFailure(LinkChecks(l, parses)) == Pass <==> ValidLinks(l, parses)
  {
    FewPass(LinkChecks(l, parses));
  }

  lemma HeadChecksPass(c: SiteConfig, parses: string -> bool)
    ensures FirstFailure(HeadChecks(c, parses)) == Pass <==> ValidHead(c, parses)
  {
    BasicChecksPass(c, parses);
    CreatorChecksPass(c.creator);
    LinkChecksPass(c.links, parses);
    PassAppend(BasicChecks(c, parses) + CreatorChecks(c.creator), LinkChecks(c.links, parses));
    PassAppend(BasicChecks(c, parses), CreatorChecks(c.creator));
  }

  lemma FeatureChecksPass(fs: seq<Feature>)
    ensures FirstFailure(FeatureChecks(fs)) == Pass
        <==> forall i | 0 <= i < |fs| :: |fs[i].title| > 0 && |fs[i].description| > 0
  {
    PairChecksPass(FeaturePairs(fs), FeaturePrefix, FeatureTitleMissing, FeatureDescriptionMissing);
  }

  lemma FaqChecksPass(fs: seq<Faq>)
    ensures FirstFailure(FaqChecks(fs)) == Pass
        <==> forall i | 0 <= i < |fs| :: |fs[i].question| > 0 && |fs[i].answer| > 0
  {
    PairChecksPass(FaqPairs(fs), FaqPrefix, FaqQuestionMissing, FaqAnswerMissing);
  }

  lemma EntryChecksPass(c: SiteConfig)
    ensures FirstFailure(FeatureChecks(c.features)) == Pass
        <==> forall i | 0 <= i < |c.features| :: |c.features[i].title| > 0 && |c.features[i].description| > 0
    ensures FirstFailure(FaqChecks(c.faqs)) == Pass
        <==> forall i | 0 <= i < |c.faqs| :: |c.faqs[i].question| > 0 && |c.faqs[i].answer| > 0
  {
    FeatureChecksPass(c.features);
    FaqChecksPass(c.faqs);
  }

  /** The message naming feature `i` and its empty field. */
  function FeatureMessage(fs: seq<Feature>, i: nat): string
    requires i < |fs|
  {
    PairMessage(FeaturePrefix, i, if |fs[i].title| == 0 then FeatureTitleMissing else FeatureDescriptionMissing)
  }

  /** The message naming FAQ `i` and its empty field. */
  function FaqMessage(fs: seq<Faq>, i: nat): string
    requires i < |fs|
  {
    PairMessage(FaqPrefix, i, if |fs[i].question| == 0 then FaqQuestionMissing else FaqAnswerMissing)
  }

  lemma FeatureChecksFirstBad(fs: seq<Feature>, i: nat)
    requires i < |fs|
    requires forall j | 0 <= j < i :: |fs[j].title| > 0 && |fs[j].description| > 0
    requires |fs[i].title| == 0 || |fs[i].description| == 0
    ensures FirstFailure(FeatureChecks(fs)) == Fail(FeatureMessage(fs, i))
  {
    var ps := FeaturePairs(fs);
    assert forall j | 0 <= j < i :: |ps[j].0| > 0 && |ps[j].1| > 0;
    assert ps[i] == (fs[i].title, fs[i].description);
    PairChecksFirstBad(ps, FeaturePrefix, FeatureTitleMissing, FeatureDescriptionMissing, i);
  }

  lemma FaqChecksFirstBad(fs: seq<Faq>, i: nat)
    requires i < |fs|
    requires forall j | 0 <= j < i :: |fs[j].question| > 0 && |fs[j].answer| > 0
    requires |fs[i].question| == 0 || |fs[i].answer| == 0
    ensures FirstFailure(FaqChecks(fs)) == Fail(FaqMessage(fs, i))
  {
    var ps := FaqPairs(fs);
    assert forall j | 0 <= j < i :: |ps[j].0| > 0 && |ps[j].1| > 0;
    assert ps[i] == (fs[i].question, fs[i].answer);
    PairChecksFirstBad(ps, FaqPrefix, FaqQuestionMissing, FaqAnswerMissing, i);
  }

  /** `validateSiteConfig`: the first failing check in source order (name,
      URL, title, description, keywords, timeout, og image, creator, links,
      features, FAQs), passing exactly on a valid record. */
  function ValidateSiteConfig(c: SiteConfig, parses: string -> bool): (r: Outcome<string>)
    ensures r == Pass <==> ValidSite(c, parses)
    ensures |c.name| == 0 ==> r == Fail(SiteNameRequired)
    ensures r.Fail? ==> exists i | 0 <= i < |SiteChecks(c, parses)| ::
      !SiteChecks(c, parses)[i].ok && r.error == SiteChecks(c, parses)[i].message
      && forall j | 0 <= j < i :: SiteChecks(c, parses)[j].ok
  {
    SiteChecksPass(c, parses);
    if |c.name| == 0 then
      EmptyNameFirst(c, parses);
      FirstFailure(SiteChecks(c, parses))
    else
      FirstFailure(SiteChecks(c, parses))
  }

  lemma SiteChecksPass(c: SiteConfig, parses: string -> bool)
    ensures FirstFailure(SiteChecks(c, parses)) == Pass <==> ValidSite(c, parses)
  {
    var h := HeadChecks(c, parses);
    var f := FeatureChecks(c.features);
    var q := FaqChecks(c.faqs);
    HeadChecksPass(c, parses);
    EntryChecksPass(c);
    PassAppend(h + f, q);
    PassAppend(h, f);
  }

  lemma EmptyNameFirst(c: SiteConfig, parses: string -> bool)
    requires |c.name| == 0
    ensures FirstFailure(SiteChecks(c, parses)) == Fail(SiteNameRequired)
  {
    assert SiteChecks(c, parses)[0] == BasicChecks(c, parses)[0];
    FailsAt(SiteChecks(c, parses), 0);
  }

  /** A record that is valid up to its feature list fails on the first
      feature with an empty text, naming its index and the empty field. */
  lemma FeatureFailureNamesIndex(c: SiteConfig, parses: string -> bool, i: nat)
    requires ValidHead(c, parses)
    requires i < |c.features|
    requires forall j | 0 <= j < i :: |c.features[j].title| > 0 && |c.features[j].description| > 0
    requires |c.features[i].title| == 0 || |c.features[i].description| == 0
    ensures ValidateSiteConfig(c, parses)
         == Fail(FeaturePrefix + NatToString(i)
                 + (if |c.features[i].title| == 0 then FeatureTitleMissing else FeatureDescriptionMissing))
  {
    var h, f, q := HeadChecks(c, parses), FeatureChecks(c.features), FaqChecks(c.faqs);
    assert FirstFailure(h) == Pass by {
      HeadChecksPass(c, parses);
    }
    assert FirstFailure(f) == Fail(FeatureMessage(c.features, i)) by {
      FeatureChecksFirstBad(c.features, i);
    }
    AfterPassingRun(h, f, q);
  }

  /** A record valid up to its FAQ list fails on the first FAQ with an empty
      text, naming its index and the empty field. */
  lemma FaqFailureNamesIndex(c: SiteConfig, parses: string -> bool, i: nat)
    requires ValidHead(c, parses)
    requires forall j | 0 <= j < |c.features| :: |c.features[j].title| > 0 && |c.features[j].description| > 0
    requires i < |c.faqs|
    requires forall j | 0 <= j < i :: |c.faqs[j].question| > 0 && |c.faqs[j].answer| > 0
    requires |c.faqs[i].question| == 0 || |c.faqs[i].answer| == 0
    ensures ValidateSiteConfig(c, parses)
         == Fail(FaqPrefix + NatToString(i)
                 + (if |c.faqs[i].question| == 0 then FaqQuestionMissing else FaqAnswerMissing))
  {
    var h, f, q := HeadChecks(c, parses), FeatureChecks(c.features), FaqChecks(c.faqs);
    assert FirstFailure(h + f) == Pass by {
      HeadChecksPass(c, parses);
      FeatureChecksPass(c.features);
      PassAppend(h, f);
    }
    assert FirstFailure(q) == Fail(FaqMessage(c.faqs, i)) by {
      FaqChecksFirstBad(c.faqs, i);
    }
    AfterPassingRun(h + f, q, []);
    assert h + f + q + [] == h + f + q;
  }

  /** A timeout that is zero or negative is refused once the fields before it
      are valid. */
  lemma TimeoutMustBePositive(c: SiteConfig, parses: string -> bool)
    requires |c.name| > 0 && UrlField(c.url, parses) && |c.title| > 0 && |c.description| > 0
    requires AllNonEmpty(c.keywords) && c.timeout <= 0
    ensures ValidateSiteConfig(c, parses) == Fail(TimeoutInvalid)
  {
    var b, cr, l := BasicChecks(c, parses), CreatorChecks(c.creator), LinkChecks(c.links, parses);
    var f, q := FeatureChecks(c.features), FaqChecks(c.faqs);
    assert FirstFailure(b) == Fail(TimeoutInvalid) by {
      assert b[0].ok && b[1].ok && b[2].ok && b[3].ok && b[4].ok && !b[5].ok;
    }
    FailedPrefix(b, cr);
    FailedPrefix(b + cr, l);
    FailedPrefix(b + cr + l, f);
    FailedPrefix(b + cr + l + f, q);
  }

  /** Any relative path passes as a URL field, whatever the URL parser says. */
  lemma RelativeUrlField(v: string, parses: string -> bool)
    requires |v| > 0 && v[0] == '/'
    ensures UrlField(v, parses)
  {
    UrlVerdict(v, parses);
  }

  // ---------------------------------------------------------------------
  // The shipped record

  const ShippedCreator := Creator("FiddleBops Team",
    "一个致力于创造创新音乐游戏体验的独立游戏开发团队",
    "contact@fiddlebops.com", "中国")

  const ShippedLinks := Links("https://twitter.com/fiddlebops", "https://github.com/fiddlebops",
                              "https://discord.gg/fiddlebops")

  const ShippedFeatures := [
    Feature("直观的音乐创作", "通过简单的点击和拖拽，创作你的专属音乐"),
    Feature("丰富的音乐元素", "包含多种乐器和音效，让你的创作更加丰富多彩"),
    Feature("实时反馈", "所有操作都能获得即时的视觉和听觉反馈"),
    Feature("社区分享", "与其他玩家分享你的创作，互相学习和交流")]

  const ShippedFaqs := [
    Faq("如何开始游戏？", "只需要打开浏览器访问我们的网站，无需下载安装，即可开始游戏。"),
    Faq("需要音乐基础吗？", "不需要！我们的游戏设计适合所有人，无论是音乐初学者还是专业音乐人都能找到乐趣。"),
    Faq("支持哪些设备？", "支持所有主流浏览器，包括电脑、平板和手机。"),
    Faq("如何保存我的创作？", "游戏会自动保存你的创作，你也可以随时导出分享。")]

  const ShippedKeywords := ["音乐游戏", "节奏游戏", "音乐创作", "教育游戏", "休闲游戏", "浏览器游戏", "FiddleBops"]

  /** `siteConfig` */
  const ShippedSite := SiteConfig(
    "FiddleBops", "https://fiddlebops.com", "FiddleBops - 创新音乐节奏游戏",
    "FiddleBops是一款创新的音乐节奏游戏，将音乐创作与游戏娱乐完美结合。通过简单直观的操作，体验音乐创作的乐趣，适合所有热爱音乐的玩家。",
    ShippedKeywords, 30000, "/images/og-image.jpg",
    ShippedCreator, ShippedLinks, ShippedFeatures, ShippedFaqs)

  /** The absolute URLs of the shipped record, which the URL parser must
      accept. */
  predicate ParsesShippedUrls(parses: string -> bool) {
    parses("https://fiddlebops.com") && parses("https://twitter.com/fiddlebops")
    && parses("https://github.com/fiddlebops") && parses("https://discord.gg/fiddlebops")
  }

  lemma ContactEmailValid(v: string)
    requires v == "contact@fiddlebops.com"
    ensures IsValidEmail(v)
  {
    var l, x, y := "contact", "fiddlebops", "com";
    LowercaseEmailChars(l);
    LowercaseEmailChars(x);
    LowercaseEmailChars(y);
    assert v == l + "@" + x + "." + y;
    EmailJoin(v, l, x, y);
  }

  lemma OgImageValid(v: string, parses: string -> bool)
    requires v == "/images/og-image.jpg"
    ensures UrlField(v, parses)
  {
    RelativeUrlField(v, parses);
  }

  lemma ShippedBasicsValid(c: SiteConfig, parses: string -> bool)
    requires c == ShippedSite && ParsesShippedUrls(parses)
    ensures ValidBasics(c, parses)
  {
    OgImageValid(c.ogImage, parses);
  }

  lemma ShippedCreatorValid(c: Creator)
    requires c == ShippedCreator
    ensures ValidCreator(c)
  {
    ContactEmailValid(c.email);
  }

  lemma ShippedLinksValid(l: Links, parses: string -> bool)
    requires l == ShippedLinks && ParsesShippedUrls(parses)
    ensures ValidLinks(l, parses)
  {
  }

  lemma ShippedHeadValid(c: SiteConfig, parses: string -> bool)
    requires c == ShippedSite && ParsesShippedUrls(parses)
    ensures ValidHead(c, parses)
  {
    ShippedBasicsValid(c, parses);
    ShippedCreatorValid(c.creator);
    ShippedLinksValid(c.links, parses);
  }

  lemma ShippedFeaturesValid(fs: seq<Feature>)
    requires fs == ShippedFeatures
    ensures forall i | 0 <= i < |fs| :: |fs[i].title| > 0 && |fs[i].description| > 0
  {
  }

  lemma ShippedFaqsValid(fs: seq<Faq>)
    requires fs == ShippedFaqs
    ensures forall i | 0 <= i < |fs| :: |fs[i].question| > 0 && |fs[i].answer| > 0
  {
  }

  lemma ShippedSiteValid(c: SiteConfig, parses: string -> bool)
    requires c == ShippedSite && ParsesShippedUrls(parses)
    ensures ValidSite(c, parses)
  {
    ShippedHeadValid(c, parses);
    ShippedFeaturesValid(c.features);
    ShippedFaqsValid(c.faqs);
  }

  lemma ValidSitePasses(c: SiteConfig, parses: string -> bool)
    requires ValidSite(c, parses)
    ensures ValidateSiteConfig(c, parses) == Pass
  {
  }

  /** The shipped record passes validation; its relative og image passes
      through the "/" shortcut without consulting the URL parser. */
  lemma ShippedSiteConfigPasses(c: SiteConfig, parses: string -> bool)
    requires c == ShippedSite && ParsesShippedUrls(parses)
    ensures ValidateSiteConfig(c, parses) == Pass
  {
    ShippedSiteValid(c, parses);
    ValidSitePasses(c, parses);
  }

  // ---------------------------------------------------------------------
  // The environment

  /** `env.siteUrl`: the configured site URL when it is set, otherwise the
      local development address; either goes through `toValidUrl`. */
  function EnvSiteUrl(site: Option<string>, parses: string -> bool): (r: Result<string, string>)
    ensures site.Some? && site.value != "" ==> r == ToValidUrl(site.value, parses)
    ensures (site.None? || site.value == "") ==> r == ToValidUrl("http://localhost:3000", parses)
    ensures r.Ok? ==> IsValidUrl(r.value, parses)
  {
    if site.Some? && site.value != "" then ToValidUrl(site.value, parses)
    else ToValidUrl("http://localhost:3000", parses)
  }
}
