/** The resource hints of `src/utils/preload.ts`. `document.head` is the
    object `Head` with its list of appended links; whether a `document`
    exists is the parameter `hasDocument`; `new URL(s)` succeeding is the
    parameter `parses`. The errors that the source writes to the console are
    returned as a list. */
module Preload {
  import opened Wrappers
  import opened Strings

  /** A `<link>` element: `None` is an attribute that was never set. */
  datatype Link = Link(rel: string, href: string, asType: Option<string>, mimeType: Option<string>,
                       crossOrigin: Option<string>, media: Option<string>)

  /** `PreloadOptions`: `None` is an absent optional field. */
  datatype PreloadOptions = PreloadOptions(href: string, asType: string, mimeType: Option<string>,
                                           crossOrigin: Option<string>, media: Option<string>)

  datatype FontConfig = FontConfig(url: string, mimeType: string, crossOrigin: Option<string>)

  const InvalidUrl: string := "无效的URL: "
  const AsRequired: string := "必须指定资源类型(as)"
  const EmptyResources: string := "资源列表不能为空"
  const EmptyUrls: string := "URL列表不能为空"
  const EmptyFonts: string := "字体配置列表不能为空"
  const EmptyDomains: string := "域名列表不能为空"
  const InvalidDomain: string := "无效的域名: "

  /** An optional string that is present and not empty. */
  predicate Truthy(v: Option<string>) {
    v.Some? && |v.value| > 0
  }

  /** The value an optional attribute takes: set only when truthy. */
  function SetIfTruthy(v: Option<string>): (r: Option<string>)
    ensures r.Some? <==> Truthy(v)
    ensures r.Some? ==> r == v
  {
    if Truthy(v) then v else None
  }

  /** `createPreloadLink`: refuses an empty or unparsable `href`, then an
      empty `as`; otherwise a preload link with `href` and `as` copied and
      `type`, `crossorigin` and `media` set only when given and non-empty. */
  function CreatePreloadLink(o: PreloadOptions, parses: string -> bool): (r: Result<Link, string>)
    ensures !(|o.href| > 0 && parses(o.href)) ==> r == Err(InvalidUrl + o.href)
    ensures |o.href| > 0 && parses(o.href) && o.asType == "" ==> r == Err(AsRequired)
    ensures r.Ok? <==> |o.href| > 0 && parses(o.href) && o.asType != ""
    ensures r.Ok? ==> r.value.rel == "preload" && r.value.href == o.href && r.value.asType == Some(o.asType)
    ensures r.Ok? ==> (r.value.mimeType.Some? <==> Truthy(o.mimeType))
                      && (r.value.crossOrigin.Some? <==> Truthy(o.crossOrigin))
                      && (r.value.media.Some? <==> Truthy(o.media))
    ensures r.Ok? ==> r.value.mimeType == SetIfTruthy(o.mimeType)
                      && r.value.crossOrigin == SetIfTruthy(o.crossOrigin)
                      && r.value.media == SetIfTruthy(o.media)
  {
    if o.href == "" || !parses(o.href) then Err(InvalidUrl + o.href)
    else if o.asType == "" then Err(AsRequired)
    else Ok(Link("preload", o.href, Some(o.asType), SetIfTruthy(o.mimeType),
                 SetIfTruthy(o.crossOrigin), SetIfTruthy(o.media)))
  }

  /** The message recorded for the resource at 1-based position `n`. */
  function ResourceError(n: nat, message: string): string {
    "资源 " + NatToString(n) + ": " + message
  }

  /** The links the `forEach` appends for these resources, in order. */
  function PreloadedLinks(rs: seq<PreloadOptions>, parses: string -> bool): seq<Link>
    decreases |rs|
  {
    if rs == [] then []
    else
      var last := CreatePreloadLink(rs[|rs| - 1], parses);
      PreloadedLinks(rs[..|rs| - 1], parses) + (if last.Ok? then [last.value] else [])
  }

  /** The errors the `forEach` collects for these resources, in order, each
      tagged with its resource's 1-based position. */
  function PreloadErrors(rs: seq<PreloadOptions>, parses: string -> bool): seq<string>
    decreases |rs|
  {
    if rs == [] then []
    else
      var last := CreatePreloadLink(rs[|rs| - 1], parses);
      PreloadErrors(rs[..|rs| - 1], parses) + (if last.Err? then [ResourceError(|rs|, last.error)] else [])
  }

  /** Every resource is accounted for exactly once: as a link or as an
      error. */
  lemma {:induction false} PreloadAccounted(rs: seq<PreloadOptions>, parses: string -> bool)
    ensures |PreloadedLinks(rs, parses)| + |PreloadErrors(rs, parses)| == |rs|
    decreases |rs|
  {
    if rs != [] {
      PreloadAccounted(rs[..|rs| - 1], parses);
    }
  }

  /** A failing resource does not stop the ones after it: the links for two
      runs of resources are the links for each, in order. */
  lemma {:induction false} PreloadedLinksAppend(a: seq<PreloadOptions>, b: seq<PreloadOptions>, parses: string -> bool)
    ensures PreloadedLinks(a + b, parses) == PreloadedLinks(a, parses) + PreloadedLinks(b, parses)
    decreases |b|
  {
    if b == [] {
      assert a + b == a;
    } else {
      var b' := b[..|b| - 1];
      assert (a + b)[..|a + b| - 1] == a + b';
      assert (a + b)[|a + b| - 1] == b[|b| - 1];
      PreloadedLinksAppend(a, b', parses);
    }
  }

  /** No error is collected exactly when every resource makes a link. */
  lemma {:induction false} PreloadErrorsEmptyIff(rs: seq<PreloadOptions>, parses: string -> bool)
    ensures PreloadErrors(rs, parses) == [] <==> forall i | 0 <= i < |rs| :: CreatePreloadLink(rs[i], parses).Ok?
    decreases |rs|
  {
    if rs != [] {
      var init := rs[..|rs| - 1];
      PreloadErrorsEmptyIff(init, parses);
      assert forall i | 0 <= i < |init| :: init[i] == rs[i];
    }
  }

  /** A `dns-prefetch` link for a domain. */
  function DnsLink(domain: string): Link {
    Link("dns-prefetch", domain, None, None, None, None)
  }

  /** A domain is prefetched when `"https://" + domain` parses. */
  predicate DomainOk(domain: string, parses: string -> bool) {
    parses("https://" + domain)
  }

  /** The links `dnsPrefetch` appends, in order. */
  function DnsLinks(domains: seq<string>, parses: string -> bool): seq<Link>
    decreases |domains|
  {
    if domains == [] then []
    else
      var d := domains[|domains| - 1];
      DnsLinks(domains[..|domains| - 1], parses) + (if DomainOk(d, parses) then [DnsLink(d)] else [])
  }

  /** The errors `dnsPrefetch` collects, tagged with 1-based positions. */
  function DnsErrors(domains: seq<string>, parses: string -> bool): seq<string>
    decreases |domains|
  {
    if domains == [] then []
    else
      var d := domains[|domains| - 1];
      DnsErrors(domains[..|domains| - 1], parses)
      + (if DomainOk(d, parses) then [] else ["域名 " + NatToString(|domains|) + ": " + InvalidDomain + d])
  }

  /** Exactly the domains for which `"https://" + domain` parses get a
      link. */
  lemma {:induction false} DnsLinksExactly(domains: seq<string>, parses: string -> bool, d: string)
    ensures DnsLink(d) in DnsLinks(domains, parses) <==> d in domains && DomainOk(d, parses)
    decreases |domains|
  {
    if domains != [] {
      var init := domains[..|domains| - 1];
      DnsLinksExactly(init, parses, d);
      assert domains == init + [domains[|domains| - 1]];
    }
  }

  /** Every domain is accounted for exactly once: as a link or an error. */
  lemma {:induction false} DnsAccounted(domains: seq<string>, parses: string -> bool)
    ensures |DnsLinks(domains, parses)| + |DnsErrors(domains, parses)| == |domains|
    decreases |domains|
  {
    if domains != [] {
      DnsAccounted(domains[..|domains| - 1], parses);
    }
  }

  /** `urls.map(url => ({ href: url, as }))` */
  function AsResources(urls: seq<string>, asType: string): (r: seq<PreloadOptions>)
    ensures |r| == |urls|
    ensures forall i | 0 <= i < |urls| :: r[i] == PreloadOptions(urls[i], asType, None, None, None)
  {
    seq(|urls|, i requires 0 <= i < |urls| => PreloadOptions(urls[i], asType, None, None, None))
  }

  /** `fonts.map(...)`: as "font", with the font's type, and "anonymous"
      unless a non-empty cross-origin policy is given. */
  function FontResources(fonts: seq<FontConfig>): (r: seq<PreloadOptions>)
    ensures |r| == |fonts|
    ensures forall i | 0 <= i < |fonts| ::
      (r[i].asType == "font" && r[i].href == fonts[i].url && r[i].mimeType == Some(fonts[i].mimeType)
       && r[i].media == None
       && r[i].crossOrigin == Some(if Truthy(fonts[i].crossOrigin) then fonts[i].crossOrigin.value else "anonymous"))
  {
    seq(|fonts|, i requires 0 <= i < |fonts| =>
      PreloadOptions(fonts[i].url, "font", Some(fonts[i].mimeType),
                     Some(if Truthy(fonts[i].crossOrigin) then fonts[i].crossOrigin.value else "anonymous"), None))
  }

  /** `document.head` */
  class Head {
    var links: seq<Link>

    constructor()
      ensures links == []
    {
      links := [];
    }

    /** `preloadCriticalResources`: without a document nothing happens; an
        empty list is refused; otherwise each resource in turn is appended
        as a link or recorded as an error, and later resources are processed
        after a failing one. */
    method PreloadCriticalResources(rs: seq<PreloadOptions>, hasDocument: bool, parses: string -> bool)
      returns (r: Outcome<string>, errors: seq<string>)
      modifies this
      ensures !hasDocument ==> r == Pass && errors == [] && links == old(links)
      ensures hasDocument && rs == [] ==> r == Fail(EmptyResources) && errors == [] && links == old(links)
      ensures hasDocument && rs != [] ==>
        r == Pass && links == old(links) + PreloadedLinks(rs, parses) && errors == PreloadErrors(rs, parses)
    {
      errors := [];
      if !hasDocument {
        return Pass, errors;
      }
      if rs == [] {
        return Fail(EmptyResources), errors;
      }
      var i := 0;
      while i < |rs|
        invariant 0 <= i <= |rs|
        invariant links == old(links) + PreloadedLinks(rs[..i], parses)
        invariant errors == PreloadErrors(rs[..i], parses)
      {
        assert rs[..i + 1][..i] == rs[..i];
        match CreatePreloadLink(rs[i], parses) {
          case Ok(link) =>
            links := links + [link];
          case Err(e) =>
            errors := errors + [ResourceError(i + 1, e)];
        }
        i := i + 1;
      }
      assert rs[..|rs|] == rs;
      r := Pass;
    }

    /** `preloadImages`, `preloadScripts` and `preloadStyles`: an empty list
        is refused before the document is looked at; otherwise each URL is
        preloaded with the given `as`. */
    method PreloadUrls(urls: seq<string>, asType: string, hasDocument: bool, parses: string -> bool)
      returns (r: Outcome<string>, errors: seq<string>)
      modifies this
      ensures urls == [] ==> r == Fail(EmptyUrls) && errors == [] && links == old(links)
      ensures urls != [] && !hasDocument ==> r == Pass && errors == [] && links == old(links)
      ensures urls != [] && hasDocument ==>
        r == Pass && links == old(links) + PreloadedLinks(AsResources(urls, asType), parses)
        && errors == PreloadErrors(AsResources(urls, asType), parses)
    {
      if urls == [] {
        return Fail(EmptyUrls), [];
      }
      r, errors := PreloadCriticalResources(AsResources(urls, asType), hasDocument, parses);
    }

    method PreloadImages(urls: seq<string>, hasDocument: bool, parses: string -> bool)
      returns (r: Outcome<string>, errors: seq<string>)
      modifies this
      ensures urls == [] ==> r == Fail(EmptyUrls) && errors == [] && links == old(links)
      ensures urls != [] && !hasDocument ==> r == Pass && errors == [] && links == old(links)
      ensures urls != [] && hasDocument ==>
        r == Pass && links == old(links) + PreloadedLinks(AsResources(urls, "image"), parses)
        && errors == PreloadErrors(AsResources(urls, "image"), parses)
    {
      r, errors := PreloadUrls(urls, "image", hasDocument, parses);
    }

    method PreloadScripts(urls: seq<string>, hasDocument: bool, parses: string -> bool)
      returns (r: Outcome<string>, errors: seq<string>)
      modifies this
      ensures urls == [] ==> r == Fail(EmptyUrls) && errors == [] && links == old(links)
      ensures urls != [] && !hasDocument ==> r == Pass && errors == [] && links == old(links)
      ensures urls != [] && hasDocument ==>
        r == Pass && links == old(links) + PreloadedLinks(AsResources(urls, "script"), parses)
        && errors == PreloadErrors(AsResources(urls, "script"), parses)
    {
      r, errors := PreloadUrls(urls, "script", hasDocument, parses);
    }

    method PreloadStyles(urls: seq<string>, hasDocument: bool, parses: string -> bool)
      returns (r: Outcome<string>, errors: seq<string>)
      modifies this
      ensures urls == [] ==> r == Fail(EmptyUrls) && errors == [] && links == old(links)
      ensures urls != [] && !hasDocument ==> r == Pass && errors == [] && links == old(links)
      ensures urls != [] && hasDocument ==>
        r == Pass && links == old(links) + PreloadedLinks(AsResources(urls, "style"), parses)
        && errors == PreloadErrors(AsResources(urls, "style"), parses)
    {
      r, errors := PreloadUrls(urls, "style", hasDocument, parses);
    }

    /** `preloadFonts`: an empty list is refused; otherwise each font is
        preloaded as "font", "anonymous" by default. */
    method PreloadFonts(fonts: seq<FontConfig>, hasDocument: bool, parses: string -> bool)
      returns (r: Outcome<string>, errors: seq<string>)
      modifies this
      ensures fonts == [] ==> r == Fail(EmptyFonts) && errors == [] && links == old(links)
      ensures fonts != [] && !hasDocument ==> r == Pass && errors == [] && links == old(links)
      ensures fonts != [] && hasDocument ==>
        r == Pass && links == old(links) + PreloadedLinks(FontResources(fonts), parses)
        && errors == PreloadErrors(FontResources(fonts), parses)
    {
      if fonts == [] {
        return Fail(EmptyFonts), [];
      }
      r, errors := PreloadCriticalResources(FontResources(fonts), hasDocument, parses);
    }

    /** `preloadNextPage`: an empty or unparsable URL is refused before
        anything is appended; otherwise the page is preloaded as
        "document". */
    method PreloadNextPage(url: string, hasDocument: bool, parses: string -> bool)
      returns (r: Outcome<string>, errors: seq<string>)
      modifies this
      ensures !(|url| > 0 && parses(url)) ==> r == Fail(InvalidUrl + url) && errors == [] && links == old(links)
      ensures |url| > 0 && parses(url) && !hasDocument ==> r == Pass && errors == [] && links == old(links)
      ensures |url| > 0 && parses(url) && hasDocument ==>
        r == Pass && errors == []
        && links == old(links) + [Link("preload", url, Some("document"), None, None, None)]
    {
      if url == "" || !parses(url) {
        return Fail(InvalidUrl + url), [];
      }
      var rs := [PreloadOptions(url, "document", None, None, None)];
      assert rs[..0] == [];
      r, errors := PreloadCriticalResources(rs, hasDocument, parses);
    }

    /** `dnsPrefetch`: without a document nothing happens; an empty list is
        refused; otherwise a `dns-prefetch` link is appended for each domain
        for which `"https://" + domain` parses, and each other domain is
        recorded as an error with its 1-based position. */
    method DnsPrefetch(domains: seq<string>, hasDocument: bool, parses: string -> bool)
      returns (r: Outcome<string>, errors: seq<string>)
      modifies this
      ensures !hasDocument ==> r == Pass && errors == [] && links == old(links)
      ensures hasDocument && domains == [] ==> r == Fail(EmptyDomains) && errors == [] && links == old(links)
      ensures hasDocument && domains != [] ==>
        r == Pass && links == old(links) + DnsLinks(domains, parses) && errors == DnsErrors(domains, parses)
    {
      errors := [];
      if !hasDocument {
        return Pass, errors;
      }
      if domains == [] {
        return Fail(EmptyDomains), errors;
      }
      var i := 0;
      while i < |domains|
        invariant 0 <= i <= |domains|
        invariant links == old(links) + DnsLinks(domains[..i], parses)
        invariant errors == DnsErrors(domains[..i], parses)
      {
        assert domains[..i + 1][..i] == domains[..i];
        var d := domains[i];
        if parses("https://" + d) {
          links := links + [DnsLink(d)];
        } else {
          errors := errors + ["域名 " + NatToString(i + 1) + ": " + InvalidDomain + d];
        }
        i := i + 1;
      }
      assert domains[..|domains|] == domains;
      r := Pass;
    }
  }
}
