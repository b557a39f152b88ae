/** The Schema.org builders of `src/utils/schema.ts`: the game schema and its
    validation, breadcrumbs, FAQ page and organization. `new URL(s)` (the
    file's own `isValidUrl`, which has no "/" shortcut) is the parameter
    `parses`; `isValidRating`, built on `parseFloat`, is the parameter
    `ratingValid`; resolving a relative path against a base URL is the
    parameter `resolve`. The constant `@context` and `@type` tags are not
    represented. */
module Schema {
  import opened Wrappers
  import opened Strings
  import opened Checks
  import ConfigSite

  // ---------------------------------------------------------------------
  // The game schema

  datatype Offer = Offer(price: string, priceCurrency: string, availability: string, url: string)
  datatype AggregateRating = AggregateRating(ratingValue: string, ratingCount: string,
                                             bestRating: string, worstRating: string)
  datatype Author = Author(name: string, description: string, email: string, location: string)
  datatype Publisher = Publisher(name: string, url: string)
  datatype Thing = Thing(name: string, description: string)
  datatype Review = Review(ratingValue: string, bestRating: string, worstRating: string,
                           authorName: string, reviewBody: string)
  datatype GameSchema = GameSchema(
    name: string, description: string, url: string, image: string,
    genre: seq<string>, gamePlatform: seq<string>, applicationCategory: string,
    operatingSystem: seq<string>, offers: Offer, aggregateRating: Option<AggregateRating>,
    author: Author, publisher: Publisher, gameItem: seq<Thing>, review: Option<Review>)

  const NameRequired: string := "游戏名称和描述不能为空"
  const InvalidGameUrl: string := "无效的游戏 URL: "
  const InvalidImageUrl: string := "无效的图片 URL: "
  const InvalidRating: string := "无效的评分值"
  const InvalidAuthorEmail: string := "无效的作者邮箱地址"
  const InvalidPublisherUrl: string := "无效的发布者 URL: "

  /** A present aggregate rating must lie between its worst and best values;
      an absent one is not checked. */
  predicate RatingOk(r: Option<AggregateRating>, ratingValid: (string, string, string) -> bool) {
    r.None? || ratingValid(r.value.ratingValue, r.value.worstRating, r.value.bestRating)
  }

  function GameSchemaChecks(s: GameSchema, parses: string -> bool,
                            ratingValid: (string, string, string) -> bool): seq<Check> {
    [ Check(|s.name| > 0 && |s.description| > 0, NameRequired),
      Check(parses(s.url), InvalidGameUrl + s.url),
      Check(parses(s.image), InvalidImageUrl + s.image),
      Check(RatingOk(s.aggregateRating, ratingValid), InvalidRating),
      Check('@' in s.author.email, InvalidAuthorEmail),
      Check(parses(s.publisher.url), InvalidPublisherUrl + s.publisher.url) ]
  }

  /** A valid game schema: a name and a description, parsing game, image and
      publisher URLs, a rating in range when there is one, and an author
      email holding "@". */
  predicate ValidGameSchema(s: GameSchema, parses: string -> bool,
                            ratingValid: (string, string, string) -> bool) {
    |s.name| > 0 && |s.description| > 0 && parses(s.url) && parses(s.image)
    && RatingOk(s.aggregateRating, ratingValid) && '@' in s.author.email && parses(s.publisher.url)
  }

  /** `validateGameSchema`: the first failing check in source order (name and
      description, game URL, image URL, rating, author email, publisher URL).
      It passes exactly on valid schemas, and a failing URL check names the
      URL. */
  function ValidateGameSchema(s: GameSchema, parses: string -> bool,
                              ratingValid: (string, string, string) -> bool): (r: Outcome<string>)
    ensures r == Pass <==> ValidGameSchema(s, parses, ratingValid)
    ensures (|s.name| == 0 || |s.description| == 0) ==> r == Fail(NameRequired)
    ensures |s.name| > 0 && |s.description| > 0 && !parses(s.url) ==> r == Fail(InvalidGameUrl + s.url)
    ensures r.Fail? ==> exists i | 0 <= i < 6 ::
      !GameSchemaChecks(s, parses, ratingValid)[i].ok && r.error == GameSchemaChecks(s, parses, ratingValid)[i].message
      && forall j | 0 <= j < i :: GameSchemaChecks(s, parses, ratingValid)[j].ok
  {
    FewPass(GameSchemaChecks(s, parses, ratingValid));
    FirstFailure(GameSchemaChecks(s, parses, ratingValid))
  }

  /** The rating is checked before the author email: a schema whose rating is
      out of range is refused for its rating whatever its email. */
  lemma RatingBeforeEmail(s: GameSchema, parses: string -> bool,
                          ratingValid: (string, string, string) -> bool)
    requires |s.name| > 0 && |s.description| > 0 && parses(s.url) && parses(s.image)
    requires !RatingOk(s.aggregateRating, ratingValid)
    ensures ValidateGameSchema(s, parses, ratingValid) == Fail(InvalidRating)
  {
    FailsAt(GameSchemaChecks(s, parses, ratingValid), 3);
  }

  /** Without an aggregate rating the rating function is never consulted. */
  lemma AbsentRatingNotChecked(s: GameSchema, parses: string -> bool,
                               rv1: (string, string, string) -> bool, rv2: (string, string, string) -> bool)
    requires s.aggregateRating.None?
    ensures ValidateGameSchema(s, parses, rv1) == ValidateGameSchema(s, parses, rv2)
  {
    assert GameSchemaChecks(s, parses, rv1) == GameSchemaChecks(s, parses, rv2);
  }

  /** `resolveUrl` for the cases it settles itself: an `http://` or
      `https://` path is returned unchanged; any other path is resolved
      against the base by the platform. */
  function ResolveUrl(base: string, path: string, resolve: (string, string) -> string): (r: string)
    ensures StartsWith(path, "http://") || StartsWith(path, "https://") ==> r == path
    ensures !(StartsWith(path, "http://") || StartsWith(path, "https://")) ==> r == resolve(base, path)
  {
    if StartsWith(path, "http://") || StartsWith(path, "https://") then path else resolve(base, path)
  }

  /** An absolute path resolves to itself whatever the base and however the
      platform resolves relative paths. */
  lemma AbsoluteIgnoresBase(b1: string, b2: string, path: string,
                            f: (string, string) -> string, g: (string, string) -> string)
    requires StartsWith(path, "http://") || StartsWith(path, "https://")
    ensures ResolveUrl(b1, path, f) == ResolveUrl(b2, path, g) == path
  {
  }

  const Genres: seq<string> := ["Music", "Rhythm", "Casual", "Educational", "Browser Game"]
  const Platforms: seq<string> := ["Web Browser", "PC", "Mobile", "Tablet"]
  const OperatingSystems: seq<string> := ["Windows", "macOS", "Linux", "Android", "iOS"]
  const ShippedRating: AggregateRating := AggregateRating("4.8", "1000", "5", "1")
  const GameItems: seq<Thing> := [
    Thing("基础乐器", "包含多种基础乐器供玩家选择"),
    Thing("进阶乐器", "解锁后可使用的高级乐器")]
  const ShippedReview: Review := Review("5", "5", "1", "音乐教育专家",
                                        "一款优秀的音乐教育游戏，寓教于乐，非常适合音乐启蒙。")

  /** The schema `generateGameSchema` builds for a site and a canonical URL. */
  function BuildGameSchema(site: ConfigSite.SiteConfig, canonical: string,
                           resolve: (string, string) -> string): GameSchema {
    GameSchema(
      site.name, site.description, canonical, ResolveUrl(canonical, site.ogImage, resolve),
      Genres, Platforms, "Game", OperatingSystems,
      Offer("0", "USD", "https://schema.org/InStock", canonical),
      Some(ShippedRating),
      Author(site.creator.name, site.creator.description, site.creator.email, site.creator.location),
      Publisher(site.name, site.url),
      GameItems, Some(ShippedReview))
  }

  /** `generateGameSchema`: the built schema when it validates; otherwise the
      validation error is rethrown unchanged. */
  function GenerateGameSchema(site: ConfigSite.SiteConfig, canonical: string, parses: string -> bool,
                              ratingValid: (string, string, string) -> bool,
                              resolve: (string, string) -> string): (r: Result<GameSchema, string>)
    ensures r.Ok? <==> ValidGameSchema(BuildGameSchema(site, canonical, resolve), parses, ratingValid)
    ensures r.Ok? ==> r.value == BuildGameSchema(site, canonical, resolve)
    ensures r.Err? ==> Fail(r.error) == ValidateGameSchema(BuildGameSchema(site, canonical, resolve), parses, ratingValid)
  {
    var s := BuildGameSchema(site, canonical, resolve);
    match ValidateGameSchema(s, parses, ratingValid)
    case Pass => Ok(s)
    case Fail(e) => Err(e)
  }

  /** A site record that passes its own validation, with an absolute site
      URL, yields a game schema whenever the canonical URL and the resolved
      image parse and the fixed rating 4.8 lies between 1 and 5; the schema
      carries the site's name, description, creator and URL. */
  lemma ValidSiteGivesGameSchema(site: ConfigSite.SiteConfig, canonical: string, parses: string -> bool,
                                 ratingValid: (string, string, string) -> bool,
                                 resolve: (string, string) -> string)
    requires ConfigSite.ValidSite(site, parses) && parses(site.url) && parses(canonical)
    requires parses(ResolveUrl(canonical, site.ogImage, resolve)) && ratingValid("4.8", "1", "5")
    ensures GenerateGameSchema(site, canonical, parses, ratingValid, resolve).Ok?
    ensures var s := GenerateGameSchema(site, canonical, parses, ratingValid, resolve).value;
      s.name == site.name && s.description == site.description && s.publisher.url == site.url
      && s.author.email == site.creator.email && s.author.name == site.creator.name
  {
    var e := site.creator.email;
    var local := TakeUntil(e, '@');
    assert e[|local|] == '@';
  }

  // ---------------------------------------------------------------------
  // Breadcrumbs

  datatype BreadcrumbItem = BreadcrumbItem(name: string, url: string)
  datatype ListItem = ListItem(position: int, name: string, item: string)

  const EmptyBreadcrumbs: string := "面包屑项目列表不能为空"
  const InvalidBreadcrumbUrls: string := "检测到无效的 URL: "

  /** `items.filter(item => !isValidUrl(item.url)).map(item => item.url)` */
  function InvalidUrls(items: seq<BreadcrumbItem>, parses: string -> bool): (r: seq<string>)
    ensures forall u :: u in r <==> exists i | 0 <= i < |items| :: items[i].url == u && !parses(u)
    decreases |items|
  {
    if items == [] then []
    else
      var init := items[..|items| - 1];
      var last := items[|items| - 1];
      var r := InvalidUrls(init, parses) + (if parses(last.url) then [] else [last.url]);
      assert forall i | 0 <= i < |init| :: init[i] == items[i];
      r
  }

  /** The invalid URLs keep the input order: one more item adds its URL at
      the end exactly when it does not parse. */
  lemma InvalidUrlsSnoc(items: seq<BreadcrumbItem>, x: BreadcrumbItem, parses: string -> bool)
    ensures InvalidUrls(items + [x], parses)
         == InvalidUrls(items, parses) + (if parses(x.url) then [] else [x.url])
  {
    assert (items + [x])[..|items|] == items;
  }

  /** The list elements of a valid breadcrumb trail. */
  function ListItems(items: seq<BreadcrumbItem>): (r: seq<ListItem>)
    ensures |r| == |items|
  {
    seq(|items|, i requires 0 <= i < |items| => ListItem(i + 1, items[i].name, items[i].url))
  }

  /** The trail a list of elements describes, in order. */
  function Trail(elems: seq<ListItem>): (r: seq<BreadcrumbItem>)
    ensures |r| == |elems|
  {
    seq(|elems|, i requires 0 <= i < |elems| => BreadcrumbItem(elems[i].name, elems[i].item))
  }

  /** `generateBreadcrumbSchema`: refuses an empty trail, then any trail with
      a URL that does not parse, naming every such URL in input order joined
      by ", "; otherwise one element per item. */
  function GenerateBreadcrumbSchema(items: seq<BreadcrumbItem>, parses: string -> bool): (r: Result<seq<ListItem>, string>)
    ensures items == [] ==> r == Err(EmptyBreadcrumbs)
    ensures items != [] && InvalidUrls(items, parses) != []
      ==> r == Err(InvalidBreadcrumbUrls + Join(InvalidUrls(items, parses), ", "))
    ensures r.Ok? <==> items != [] && forall i | 0 <= i < |items| :: parses(items[i].url)
    ensures r.Ok? ==> |r.value| == |items| && Trail(r.value) == items
    ensures r.Ok? ==> forall i | 0 <= i < |items| :: r.value[i].position == i + 1
  {
    if items == [] then Err(EmptyBreadcrumbs)
    else
      var bad := InvalidUrls(items, parses);
      if bad != [] then
        assert bad[0] in bad;
        Err(InvalidBreadcrumbUrls + Join(bad, ", "))
      else
        assert forall i | 0 <= i < |items| :: items[i].url in bad || parses(items[i].url);
        var elems := ListItems(items);
        assert Trail(elems) == items;
        Ok(elems)
  }

  /** Positions number the elements 1, 2, 3, ... so they are distinct and
      increasing. */
  lemma BreadcrumbPositionsIncrease(items: seq<BreadcrumbItem>, parses: string -> bool, i: int, j: int)
    requires GenerateBreadcrumbSchema(items, parses).Ok?
    requires 0 <= i < j < |items|
    ensures GenerateBreadcrumbSchema(items, parses).value[i].position
          < GenerateBreadcrumbSchema(items, parses).value[j].position
  {
  }

  // ---------------------------------------------------------------------
  // FAQ page

  datatype FaqItem = FaqItem(question: string, answer: string)
  datatype Question = Question(name: string, acceptedAnswer: string)

  const EmptyFaqs: string := "FAQ 项目列表不能为空"
  const BlankFaq: string := "FAQ 项目的问题和答案不能为空"

  /** An item whose question or answer is only whitespace. */
  predicate BlankItem(x: FaqItem) {
    Trim(x.question) == "" || Trim(x.answer) == ""
  }

  function Questions(items: seq<FaqItem>): (r: seq<Question>)
    ensures |r| == |items|
  {
    seq(|items|, i requires 0 <= i < |items| => Question(items[i].question, items[i].answer))
  }

  /** The FAQ items the questions describe, in order. */
  function FaqItems(qs: seq<Question>): (r: seq<FaqItem>)
    ensures |r| == |qs|
  {
    seq(|qs|, i requires 0 <= i < |qs| => FaqItem(qs[i].name, qs[i].acceptedAnswer))
  }

  /** No item trims to an empty question or answer exactly when none is only
      whitespace. */
  lemma NoBlankItemIff(items: seq<FaqItem>)
    ensures (exists i | 0 <= i < |items| :: BlankItem(items[i]))
        <==> !forall i | 0 <= i < |items| :: !IsBlank(items[i].question) && !IsBlank(items[i].answer)
  {
    forall i | 0 <= i < |items|
      ensures BlankItem(items[i]) <==> IsBlank(items[i].question) || IsBlank(items[i].answer)
    {
      TrimEmptyIffBlank(items[i].question);
      TrimEmptyIffBlank(items[i].answer);
    }
  }

  lemma FaqItemsOfQuestions(items: seq<FaqItem>)
    ensures FaqItems(Questions(items)) == items
  {
  }

  /** `generateFAQSchema`: refuses an empty list, then any list with an item
      whose question or answer is only whitespace; otherwise one question per
      item, in order. */
  function GenerateFaqSchema(items: seq<FaqItem>): (r: Result<seq<Question>, string>)
    ensures items == [] ==> r == Err(EmptyFaqs)
    ensures r.Ok? <==> items != [] && forall i | 0 <= i < |items| ::
      !IsBlank(items[i].question) && !IsBlank(items[i].answer)
    ensures r.Err? ==> r.error == EmptyFaqs || r.error == BlankFaq
    ensures items != [] && (exists i | 0 <= i < |items| :: IsBlank(items[i].question) || IsBlank(items[i].answer))
      ==> r == Err(BlankFaq)
    ensures r.Ok? ==> FaqItems(r.value) == items
  {
    NoBlankItemIff(items);
    FaqItemsOfQuestions(items);
    if items == [] then Err(EmptyFaqs)
    else if exists i | 0 <= i < |items| :: BlankItem(items[i]) then Err(BlankFaq)
    else Ok(Questions(items))
  }

  // ---------------------------------------------------------------------
  // Organization

  datatype Organization = Organization(name: string, description: string, email: string,
                                       location: string, url: string)

  const OrganizationNameRequired: string := "组织名称和描述不能为空"
  const InvalidOrganizationEmail: string := "无效的组织邮箱地址"

  /** `generateOrganizationSchema`: refuses an empty creator name or
      description, then an email without "@"; otherwise the creator's fields
      and the site URL. */
  function GenerateOrganizationSchema(site: ConfigSite.SiteConfig): (r: Result<Organization, string>)
    ensures |site.creator.name| == 0 || |site.creator.description| == 0 ==> r == Err(OrganizationNameRequired)
    ensures r.Ok? <==> |site.creator.name| > 0 && |site.creator.description| > 0 && '@' in site.creator.email
    ensures r.Err? ==> r.error == OrganizationNameRequired || r.error == InvalidOrganizationEmail
    ensures |site.creator.name| > 0 && |site.creator.description| > 0 && '@' !in site.creator.email
      ==> r == Err(InvalidOrganizationEmail)
    ensures r.Ok? ==> (r.value.name == site.creator.name && r.value.description == site.creator.description
                       && r.value.email == site.creator.email && r.value.location == site.creator.location
                       && r.value.url == site.url)
  {
    var c := site.creator;
    if |c.name| == 0 || |c.description| == 0 then Err(OrganizationNameRequired)
    else if '@' !in c.email then Err(InvalidOrganizationEmail)
    else Ok(Organization(c.name, c.description, c.email, c.location, site.url))
  }

  /** Every creator the site validation accepts yields an organization: the
      site's email check is stricter than the "@" test here. */
  lemma ValidCreatorGivesOrganization(site: ConfigSite.SiteConfig)
    requires ConfigSite.ValidCreator(site.creator)
    ensures GenerateOrganizationSchema(site).Ok?
  {
    var e := site.creator.email;
    assert e[|TakeUntil(e, '@')|] == '@';
  }
}
