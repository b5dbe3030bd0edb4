/**
 * What a run of the icon check reports, stated over the specification
 * `IconRun` that `DoRun` implements.
 */
module IconProperties {
  import opened Wrappers
  import opened Text
  import opened Seqs
  import opened IconLinks
  import opened Reports
  import opened IconRunner

  // ---------------------------------------------------------------------------
  // The two early exits

  /**
   * A page without icon links: the two root touch icons are probed, in order,
   * and the run reports `touch-icons-in-root` (when either answered 200) and
   * then `no-icons`; nothing else is requested or reported. A transport
   * failure of either probe ends the run with nothing reported.
   */
  lemma NoIconLinksRun(target: string, web: string -> Fetch, pageLinks: seq<Link>)
    requires PageServed(target, web)
    requires forall i :: 0 <= i < |pageLinks| ==> !IsIconRel(pageLinks[i])
    ensures var r := IconRun(target, web, pageLinks);
      var url1, url2 := target + "/apple-touch-icon.png", target + "/apple-touch-icon-76x76.png";
      && r.requests == [target, url1] + (if web(url1).Reply? then [url2] else [])
      && (r.outcome == Completed <==> web(url1).Reply? && web(url2).Reply?)
      && (r.outcome.Aborted? ==> r.findings == [])
      && (r.outcome == Completed ==>
            r.findings == if web(url1).status == 200 || web(url2).status == 200
                          then [TouchIconsInRoot, NoIcons] else [NoIcons])
  {
    IconsOfSpec(pageLinks);
  }

  /**
   * A page whose icon links include a touch icon but no `rel="icon"` link:
   * exactly `only-touch-icons`, and no icon is fetched.
   */
  lemma OnlyTouchIconsRun(target: string, web: string -> Fetch, pageLinks: seq<Link>)
    requires PageServed(target, web)
    requires forall l :: l in pageLinks && IsIconRel(l) ==> !IsHtml5Icon(l)
    requires exists l :: l in pageLinks && IsIconRel(l) && IsAppleTouchIcon(l)
    ensures IconRun(target, web, pageLinks) == Run([OnlyTouchIcons], [target], Completed)
  {
    var icons := IconsOf(pageLinks);
    var l :| l in pageLinks && IsIconRel(l) && IsAppleTouchIcon(l);
    FilterMembership(pageLinks, IsIconRel, l);
    FilterMembership(icons, IsAppleTouchIcon, l);
    forall i | 0 <= i < |icons| ensures !IsHtml5Icon(icons[i]) {
      FilterMembership(pageLinks, IsIconRel, icons[i]);
    }
    FilterNone(icons, IsHtml5Icon);
    ChecksOnlyTouchIcons(target, web, icons);
    IconRunServed(target, web, pageLinks);
  }

  lemma ChecksOnlyTouchIcons(target: string, web: string -> Fetch, icons: seq<Link>)
    requires |Html5Icons(icons)| == 0 && |AppleTouchIcons(icons)| != 0
    ensures IconChecks(target, web, icons) == Run([OnlyTouchIcons], [], Completed)
  {
  }

  /**
   * Icon links whose `rel` matches only case-insensitively (`ICON`,
   * `Apple-Touch-Icon`) are kept by the extractor but no classifier accepts
   * them: such a page gets no finding at all and no icon is fetched.
   */
  lemma UnclassifiedIconsRun(target: string, web: string -> Fetch, pageLinks: seq<Link>)
    requires PageServed(target, web)
    requires exists l :: l in pageLinks && IsIconRel(l)
    requires forall l :: l in pageLinks && IsIconRel(l) ==> !IsHtml5Icon(l) && !IsAppleTouchIcon(l)
    ensures IconRun(target, web, pageLinks) == Run([], [target], Completed)
  {
    var icons := IconsOf(pageLinks);
    var l :| l in pageLinks && IsIconRel(l);
    FilterMembership(pageLinks, IsIconRel, l);
    forall i | 0 <= i < |icons| ensures !IsHtml5Icon(icons[i]) && !IsAppleTouchIcon(icons[i]) {
      FilterMembership(pageLinks, IsIconRel, icons[i]);
    }
    ChecksUnclassified(target, web, icons);
    IconRunServed(target, web, pageLinks);
  }

  /**
   * A page whose only link is `rel="\U{0130}con"`: the link is kept, so neither
   * root probe runs, and the run ends after the page request with no finding.
   */
  lemma DottedCapitalIconRun(target: string, web: string -> Fetch, link: Link)
    requires PageServed(target, web)
    requires link.rel == "\U{0130}con"
    ensures IconRun(target, web, [link]) == Run([], [target], Completed)
  {
    UpperCaseIconUnclassified(link);
    forall l | l in [link] && IsIconRel(l) ensures !IsHtml5Icon(l) && !IsAppleTouchIcon(l) {
      assert l == link;
    }
    assert link in [link];
    UnclassifiedIconsRun(target, web, [link]);
  }

  lemma ChecksUnclassified(target: string, web: string -> Fetch, icons: seq<Link>)
    requires |icons| != 0
    requires forall i :: 0 <= i < |icons| ==> !IsHtml5Icon(icons[i]) && !IsAppleTouchIcon(icons[i])
    ensures IconChecks(target, web, icons) == Done
  {
    FilterNone(icons, IsHtml5Icon);
    FilterNone(icons, IsAppleTouchIcon);
    LivePassSkipsNonHtml5(target, web, icons);
    TypeAttributePassCount(icons);
    FilterNone(icons, LacksPngType);
  }

  /**
   * Past both early exits, the run reports every type-attribute finding
   * first, then the live findings; the type-attribute pass runs in full even
   * when the live pass is cut short.
   */
  lemma FullChecksRun(target: string, web: string -> Fetch, pageLinks: seq<Link>)
    requires PageServed(target, web)
    requires exists l :: l in pageLinks && IsIconRel(l) && IsHtml5Icon(l)
    ensures var icons := IconsOf(pageLinks);
      var live := LivePass(target, web, icons);
      IconRun(target, web, pageLinks) == Run(TypeAttributePass(icons) + live.findings, [target] + live.requests, live.outcome)
  {
    var icons := IconsOf(pageLinks);
    var l :| l in pageLinks && IsIconRel(l) && IsHtml5Icon(l);
    FilterMembership(pageLinks, IsIconRel, l);
    FilterMembership(icons, IsHtml5Icon, l);
    ChecksPastEarlyExits(target, web, icons);
    IconRunServed(target, web, pageLinks);
  }

  lemma ChecksPastEarlyExits(target: string, web: string -> Fetch, icons: seq<Link>)
    requires |icons| != 0 && |Html5Icons(icons)| != 0
    ensures var live := LivePass(target, web, icons);
      IconChecks(target, web, icons) == Run(TypeAttributePass(icons) + live.findings, live.requests, live.outcome)
  {
  }

  // ---------------------------------------------------------------------------
  // The type-attribute pass

  predicate LacksPngType(icon: Link)
  {
    IsHtml5Icon(icon) && icon.declaredType != Some("image/png")
  }

  /**
   * One link yields at most one type-attribute finding: `missing-icon-type`
   * when it has no `type`, `bad-icon-type` with the observed type when it is
   * not `image/png`, and nothing for a PNG icon or a link that is no HTML5 icon.
   */
  lemma TypeAttributeFindingsOfLink(icon: Link)
    ensures |TypeAttributeFindings(icon)| <= 1
    ensures TypeAttributeFindings(icon) == [] <==> !LacksPngType(icon)
    ensures TypeAttributeFindings(icon) == [MissingIconType] <==> IsHtml5Icon(icon) && icon.declaredType.None?
    ensures forall t :: TypeAttributeFindings(icon) == [BadIconType(t)] <==>
      IsHtml5Icon(icon) && icon.declaredType == Some(t) && t != "image/png"
  {
  }

  /** The pass reports one finding for every HTML5 icon that does not declare `image/png`. */
  lemma {:induction false} TypeAttributePassCount(icons: seq<Link>)
    ensures |TypeAttributePass(icons)| == |Filter(icons, LacksPngType)|
  {
    if icons != [] {
      TypeAttributePassCount(icons[1..]);
      TypeAttributeFindingsOfLink(icons[0]);
    }
  }

  /** Which findings the pass reports, in terms of the links it was given. */
  lemma TypeAttributePassContents(icons: seq<Link>, t: string)
    ensures MissingIconType in TypeAttributePass(icons) <==>
      exists i :: 0 <= i < |icons| && IsHtml5Icon(icons[i]) && icons[i].declaredType.None?
    ensures BadIconType(t) in TypeAttributePass(icons) <==>
      t != "image/png" && exists i :: 0 <= i < |icons| && IsHtml5Icon(icons[i]) && icons[i].declaredType == Some(t)
    ensures forall f :: f in TypeAttributePass(icons) ==>
      f.MissingIconType? || (f.BadIconType? && f.iconType != "image/png")
  {
    FlatMapMembership(icons, TypeAttributeFindings, MissingIconType);
    FlatMapMembership(icons, TypeAttributeFindings, BadIconType(t));
    forall f | f in TypeAttributePass(icons) ensures f.MissingIconType? || (f.BadIconType? && f.iconType != "image/png") {
      FlatMapMembership(icons, TypeAttributeFindings, f);
    }
  }

  /** A single `rel="icon"` link with `type="image/gif"`. */
  lemma GifIconExample(href: Option<string>, sizes: Option<string>)
    ensures TypeAttributePass([Link("icon", href, Some("image/gif"), sizes)]) == [BadIconType("image/gif")]
  {
    var link := Link("icon", href, Some("image/gif"), sizes);
    assert [link][1..] == [];
    assert TypeAttributeFindings(link) == [BadIconType("image/gif")];
    assert FlatMap([link], TypeAttributeFindings) == TypeAttributeFindings(link) + FlatMap([link][1..], TypeAttributeFindings);
  }

  // ---------------------------------------------------------------------------
  // The live pass

  /** Links that are no HTML5 icon are never fetched and never reported on. */
  lemma {:induction false} LivePassSkipsNonHtml5(target: string, web: string -> Fetch, icons: seq<Link>)
    requires forall i :: 0 <= i < |icons| ==> !IsHtml5Icon(icons[i])
    ensures LivePass(target, web, icons) == Done
  {
    if icons != [] {
      LivePassSkipsNonHtml5(target, web, icons[1..]);
    }
  }

  /**
   * An icon whose URL answers with a status other than 200 yields exactly one
   * `icon-not-found` carrying the resolved URL, and the icons after it are
   * checked exactly as they would be on their own.
   */
  lemma NotFoundIconContinues(target: string, web: string -> Fetch, icons: seq<Link>, i: nat)
    requires i < |icons| && IsHtml5Icon(icons[i]) && icons[i].href.Some?
    requires var url := NormalizeUrl(target, icons[i].href.value);
      web(url).Reply? && web(url).status != 200
    requires LivePass(target, web, icons[..i]).outcome == Completed
    ensures var url := NormalizeUrl(target, icons[i].href.value);
      LivePass(target, web, icons)
        == Then(LivePass(target, web, icons[..i]), Then(Run([IconNotFound(url)], [url], Completed), LivePass(target, web, icons[i + 1..])))
  {
    RunEachStep(icons, i, IconCheck(target, web));
    assert icons == icons[..i + 1] + icons[i + 1..];
    LivePassAppend(target, web, icons[..i + 1], icons[i + 1..]);
    ThenAssociative(LivePass(target, web, icons[..i]), CheckIcon(target, web, icons[i]), LivePass(target, web, icons[i + 1..]));
  }

  /**
   * For an icon that is found and whose reply names a content type,
   * `icon-type-mismatch` is reported exactly when the declared type (absent
   * included) differs from it, and carries both values.
   */
  lemma TypeMismatchExactly(target: string, web: string -> Fetch, icon: Link)
    requires IsHtml5Icon(icon) && icon.href.Some?
    requires var reply := web(NormalizeUrl(target, icon.href.value));
      reply.Reply? && reply.status == 200 && reply.contentType.Some?
    ensures var actual := web(NormalizeUrl(target, icon.href.value)).contentType.value;
      var r := CheckIcon(target, web, icon);
      && (IconTypeMismatch(icon.declaredType, actual) in r.findings <==> icon.declaredType != Some(actual))
      && (forall f :: f in r.findings && f.IconTypeMismatch? ==> f == IconTypeMismatch(icon.declaredType, actual))
      && (icon.declaredType.None? ==> IconTypeMismatch(None, actual) in r.findings)
  {
  }

  /**
   * `icon-size-mismatch` is only ever reported for an HTML5 icon declaring
   * `type="image/png"` and `sizes`; for such an icon whose body decodes, it is
   * reported exactly when the rendering of the decoded size differs, as text,
   * from `sizes`.
   */
  lemma SizeMismatchExactly(target: string, web: string -> Fetch, icon: Link)
    ensures forall f :: f in CheckIcon(target, web, icon).findings && f.IconSizeMismatch? ==>
      IsHtml5Icon(icon) && icon.declaredType == Some("image/png") && icon.sizes == Some(f.specifiedSize)
    ensures IsHtml5Icon(icon) && icon.href.Some? && icon.declaredType == Some("image/png") && icon.sizes.Some? ==>
      var reply := web(NormalizeUrl(target, icon.href.value));
      reply.Reply? && reply.status == 200 && reply.contentType.Some? && reply.image.Some? ==>
        var actualSize := RenderSize(reply.image.value);
        (IconSizeMismatch(icon.sizes.value, actualSize) in CheckIcon(target, web, icon).findings <==> actualSize != icon.sizes.value)
  {
  }

  /**
   * When `sizes` is written the way the check renders sizes, a size mismatch
   * is reported exactly when the decoded dimensions differ from the declared.
   */
  lemma SizeMismatchMeansOtherDimensions(target: string, web: string -> Fetch, icon: Link, declared: Size, decoded: Size)
    requires IsHtml5Icon(icon) && icon.href.Some? && icon.declaredType == Some("image/png")
    requires icon.sizes == Some(RenderSize(declared))
    requires var reply := web(NormalizeUrl(target, icon.href.value));
      reply.Reply? && reply.status == 200 && reply.contentType.Some? && reply.image == Some(decoded)
    ensures IconSizeMismatch(RenderSize(declared), RenderSize(decoded)) in CheckIcon(target, web, icon).findings
      <==> declared != decoded
  {
    if RenderSize(declared) == RenderSize(decoded) {
      RenderSizeInjective(declared, decoded);
    }
  }

  /** Sizes are compared as text: a zero-padded `032x032` mismatches a 32-by-32 image. */
  lemma SizesCompareAsText(target: string, web: string -> Fetch, icon: Link)
    requires IsHtml5Icon(icon) && icon.href.Some? && icon.declaredType == Some("image/png")
    requires icon.sizes == Some("032x032")
    requires var reply := web(NormalizeUrl(target, icon.href.value));
      reply.Reply? && reply.status == 200 && reply.contentType.Some? && reply.image == Some(Size(32, 32))
    ensures IconSizeMismatch("032x032", RenderSize(Size(32, 32))) in CheckIcon(target, web, icon).findings
  {
    assert RenderSize(Size(32, 32))[0] != '0';
  }

  /** One icon's live check reports at most two findings and requests at most one URL. */
  lemma CheckIconBounds(target: string, web: string -> Fetch, icon: Link)
    ensures |CheckIcon(target, web, icon).findings| <= 2
    ensures |CheckIcon(target, web, icon).requests| <= 1
    ensures !IsHtml5Icon(icon) ==> CheckIcon(target, web, icon) == Done
  {
  }

  /** The live pass reports at most two findings, and fetches at most once, per HTML5 icon. */
  lemma {:induction false} LivePassBounds(target: string, web: string -> Fetch, icons: seq<Link>)
    ensures |LivePass(target, web, icons).findings| <= 2 * |Html5Icons(icons)|
    ensures |LivePass(target, web, icons).requests| <= |Html5Icons(icons)|
  {
    if icons != [] {
      LivePassBounds(target, web, icons[1..]);
      CheckIconBounds(target, web, icons[0]);
    }
  }

  /**
   * The size example: a PNG icon declaring `32x32` whose image decodes to 16
   * by 16 pixels yields exactly one finding, `icon-size-mismatch` with both sizes.
   */
  lemma SizeMismatchExample(target: string, web: string -> Fetch)
    requires PageServed(target, web)
    requires web(target + "/favicon.png") == Reply(200, Some("image/png"), Some(Size(16, 16)))
    ensures IconRun(target, web, [Link("icon", Some("/favicon.png"), Some("image/png"), Some("32x32"))])
         == Run([IconSizeMismatch("32x32", "16x16")], [target, target + "/favicon.png"], Completed)
  {
    var link := Link("icon", Some("/favicon.png"), Some("image/png"), Some("32x32"));
    var url := target + "/favicon.png";
    LowerOfLowerCase("icon");
    assert IconsOf([link]) == [link] by {
      assert [link][1..] == [];
    }
    FullChecksRun(target, web, [link]);
    assert TypeAttributePass([link]) == [] by {
      assert [link][1..] == [];
      assert TypeAttributeFindings(link) == [];
      assert FlatMap([link], TypeAttributeFindings) == TypeAttributeFindings(link) + FlatMap([link][1..], TypeAttributeFindings);
    }
    SizeMismatchExampleCheck(target, web, link);
    LivePassSingle(target, web, link);
  }

  lemma SizeMismatchExampleCheck(target: string, web: string -> Fetch, link: Link)
    requires link == Link("icon", Some("/favicon.png"), Some("image/png"), Some("32x32"))
    requires web(target + "/favicon.png") == Reply(200, Some("image/png"), Some(Size(16, 16)))
    ensures CheckIcon(target, web, link) == Run([IconSizeMismatch("32x32", "16x16")], [target + "/favicon.png"], Completed)
  {
    var url := target + "/favicon.png";
    assert NormalizeUrl(target, "/favicon.png") == url by {
      assert "/favicon.png"[0] == '/';
      assert !StartsWith("/favicon.png", "https://") && !StartsWith("/favicon.png", "http://");
    }
    assert RenderSize(Size(16, 16)) == "16x16" by {
      assert Decimal(16) == Decimal(1) + [DigitChar(6)] == "16";
    }
  }

  // ---------------------------------------------------------------------------
  // How a run aborts

  /**
   * A page that cannot be fetched, or whose status is outside 200-299, ends
   * the run after its one request, with no finding.
   */
  lemma PageNotServedRun(target: string, web: string -> Fetch, pageLinks: seq<Link>)
    requires !PageServed(target, web)
    ensures var r := IconRun(target, web, pageLinks);
      && r.findings == []
      && r.requests == [target]
      && r.outcome == (if web(target).TransportError? then Aborted(TransportFailed(target))
                       else Aborted(PageStatus(web(target).status)))
  {
  }

  /** An HTML5 icon without `href` aborts before anything is fetched. */
  lemma MissingHrefAborts(target: string, web: string -> Fetch, icon: Link)
    requires IsHtml5Icon(icon) && icon.href.None?
    ensures CheckIcon(target, web, icon) == Run([], [], Aborted(MissingHref))
  {
  }

  /** An icon URL that cannot be fetched aborts after that one request. */
  lemma IconTransportFailureAborts(target: string, web: string -> Fetch, icon: Link)
    requires IsHtml5Icon(icon) && icon.href.Some?
    requires web(NormalizeUrl(target, icon.href.value)).TransportError?
    ensures var url := NormalizeUrl(target, icon.href.value);
      CheckIcon(target, web, icon) == Run([], [url], Aborted(TransportFailed(url)))
  {
  }

  /** A 200 reply without a `content-type` header aborts with no finding for that icon. */
  lemma MissingContentTypeAborts(target: string, web: string -> Fetch, icon: Link)
    requires IsHtml5Icon(icon) && icon.href.Some?
    requires var reply := web(NormalizeUrl(target, icon.href.value));
      reply.Reply? && reply.status == 200 && reply.contentType.None?
    ensures var url := NormalizeUrl(target, icon.href.value);
      CheckIcon(target, web, icon) == Run([], [url], Aborted(MissingContentType(url)))
  {
  }

  /**
   * A PNG icon declaring `sizes` whose body does not decode aborts; the type
   * comparison made before the decoding is still reported.
   */
  lemma UndecodablePngAborts(target: string, web: string -> Fetch, icon: Link)
    requires IsHtml5Icon(icon) && icon.href.Some?
    requires icon.declaredType == Some("image/png") && icon.sizes.Some?
    requires var reply := web(NormalizeUrl(target, icon.href.value));
      reply.Reply? && reply.status == 200 && reply.contentType.Some? && reply.image.None?
    ensures var url := NormalizeUrl(target, icon.href.value);
      var actual := web(url).contentType.value;
      CheckIcon(target, web, icon)
        == Run(if actual != "image/png" then [IconTypeMismatch(Some("image/png"), actual)] else [],
               [url], Aborted(UndecodableImage(url)))
  {
  }

  /**
   * Once an icon's check aborts, the whole run stops there with that outcome:
   * it has reported the full type-attribute pass, the findings of the icons
   * before, and what the aborting icon reported; no later icon is fetched.
   */
  lemma IconAbortEndsRun(target: string, web: string -> Fetch, pageLinks: seq<Link>, i: nat)
    requires PageServed(target, web)
    requires exists l :: l in pageLinks && IsIconRel(l) && IsHtml5Icon(l)
    requires i < |IconsOf(pageLinks)|
    requires LivePass(target, web, IconsOf(pageLinks)[..i]).outcome == Completed
    requires CheckIcon(target, web, IconsOf(pageLinks)[i]).outcome.Aborted?
    ensures var icons := IconsOf(pageLinks);
      var before := LivePass(target, web, icons[..i]);
      var c := CheckIcon(target, web, icons[i]);
      IconRun(target, web, pageLinks)
        == Run(TypeAttributePass(icons) + before.findings + c.findings, [target] + before.requests + c.requests, c.outcome)
  {
    var icons := IconsOf(pageLinks);
    var check := IconCheck(target, web);
    assert check(icons[i]) == CheckIcon(target, web, icons[i]);
    RunEachAbortsAt(icons, i, check);
    RunEachStep(icons, i, check);
    FullChecksRun(target, web, pageLinks);
  }
}
