/**
 * Link extraction and classification (minion/plugins/webcompat/icon.py,
 * lines 14-44): which `<link>` elements count as icons, how an icon is
 * classified by its `rel`, and how its `href` is resolved against the target.
 */
module IconLinks {
  import opened Wrappers
  import opened Text
  import opened Seqs

  /**
   * The attributes of one `<link rel=...>` element. `rel` is always present
   * (the HTML lookup selects only links that have one); the others may be absent.
   */
  datatype Link = Link(rel: string, href: Option<string>, declaredType: Option<string>, sizes: Option<string>)

  /** The lower-cased `rel` values the extractor keeps. */
  const IconRelValues: seq<string> := ["icon", "apple-touch-icon", "apple-touch-icon-precomposed"]

  predicate IsIconRel(link: Link)
  {
    Lower(link.rel) in IconRelValues
  }

  /** The extractor's output for the page's `<link rel>` elements, as a specification. */
  function IconsOf(links: seq<Link>): seq<Link>
  {
    Filter(links, IsIconRel)
  }

  /** The filtering loop of `parse_icons_from_html`. */
  method ParseIconsFromHtml(links: seq<Link>) returns (icons: seq<Link>)
    ensures icons == IconsOf(links)
  {
    icons := [];
    for i := 0 to |links|
      invariant icons == IconsOf(links[..i])
    {
      var relValues := Lower(links[i].rel);
      if relValues in IconRelValues {
        icons := icons + [links[i]];
      }
      FilterAppend(links[..i], [links[i]], IsIconRel);
      assert links[..i + 1] == links[..i] + [links[i]];
    }
    assert links[..|links|] == links;
  }

  /** The extractor keeps exactly the icon links, in order, and nothing else. */
  lemma IconsOfSpec(links: seq<Link>)
    ensures IsSubsequence(IconsOf(links), links)
    ensures forall l :: l in IconsOf(links) <==> l in links && Lower(l.rel) in IconRelValues
    ensures IconsOf(IconsOf(links)) == IconsOf(links)
    ensures IconsOf(links) == [] <==> forall i :: 0 <= i < |links| ==> !IsIconRel(links[i])
  {
    FilterIsSubsequence(links, IsIconRel);
    forall l ensures l in IconsOf(links) <==> l in links && IsIconRel(l) {
      FilterMembership(links, IsIconRel, l);
    }
    FilterIdempotent(links, IsIconRel);
    FilterNone(links, IsIconRel);
  }

  /** Extraction distributes over concatenation of documents' link lists. */
  lemma IconsOfAppend(a: seq<Link>, b: seq<Link>)
    ensures IconsOf(a + b) == IconsOf(a) + IconsOf(b)
  {
    FilterAppend(a, b, IsIconRel);
  }

  predicate IsAppleTouchIcon(link: Link)
  {
    StartsWith(link.rel, "apple-touch-icon")
  }

  predicate IsHtml5Icon(link: Link)
  {
    link.rel == "icon"
  }

  predicate IsShortcutIcon(link: Link)
  {
    link.rel == "shortcut icon"
  }

  /** The classifiers are mutually exclusive and case-sensitive on the original `rel`. */
  lemma ClassifiersExclusive(link: Link)
    ensures !(IsHtml5Icon(link) && IsAppleTouchIcon(link))
    ensures IsShortcutIcon(link) ==> !IsHtml5Icon(link) && !IsAppleTouchIcon(link)
    ensures link.rel == "apple-touch-icon" || link.rel == "apple-touch-icon-precomposed" ==> IsAppleTouchIcon(link)
    ensures link.rel == "icon" ==> !IsAppleTouchIcon(link)
    ensures link.rel == "ICON" || link.rel == "Icon" ==> !IsHtml5Icon(link)
    ensures link.rel == "Apple-Touch-Icon" ==> !IsAppleTouchIcon(link)
  {
    if link.rel == "Apple-Touch-Icon" {
      assert link.rel[0] != "apple-touch-icon"[0];
    }
  }

  /**
   * A kept link is never a shortcut icon, and when its `rel` is already
   * lower case it is exactly one of an HTML5 icon and a touch icon.
   */
  lemma KeptLinkClassification(link: Link)
    requires IsIconRel(link)
    ensures !IsShortcutIcon(link)
    ensures link.rel == Lower(link.rel) ==> (IsHtml5Icon(link) <==> !IsAppleTouchIcon(link))
  {
    KeptRelLength(link.rel);
    if link.rel == Lower(link.rel) {
      IconRelValuesClassified(link.rel);
    }
  }

  lemma KeptRelLength(rel: string)
    requires Lower(rel) in IconRelValues
    ensures |rel| == 4 || |rel| == 16 || |rel| == 28
  {
    IconRelValueLength(Lower(rel));
  }

  lemma IconRelValueLength(r: string)
    requires r in IconRelValues
    ensures |r| == 4 || |r| == 16 || |r| == 28
  {
  }

  lemma IconRelValuesClassified(rel: string)
    requires rel in IconRelValues
    ensures rel == "icon" <==> !StartsWith(rel, "apple-touch-icon")
  {
    if rel == "apple-touch-icon-precomposed" {
      assert rel[..16] == "apple-touch-icon";
    }
  }

  /** No shortcut icon ever leaves the extractor. */
  lemma ShortcutIconsDropped(links: seq<Link>)
    ensures forall l :: l in IconsOf(links) ==> !IsShortcutIcon(l)
  {
    forall l | l in IconsOf(links) ensures !IsShortcutIcon(l) {
      FilterMembership(links, IsIconRel, l);
      KeptLinkClassification(l);
    }
  }

  /**
   * An upper-case `rel="ICON"`, or `icon` spelled with a capital I with dot
   * above (U+0130), passes the case-insensitive filter but no case-sensitive
   * classifier.
   */
  lemma UpperCaseIconUnclassified(link: Link)
    requires link.rel == "ICON" || link.rel == "\U{0130}con"
    ensures IsIconRel(link) && !IsHtml5Icon(link) && !IsAppleTouchIcon(link)
  {
    forall i | 0 <= i < 4 ensures Lower(link.rel)[i] == "icon"[i] {
      LowerAt(link.rel, i);
    }
    assert Lower(link.rel) == "icon";
  }

  predicate IsAbsoluteUrl(href: string)
  {
    StartsWith(href, "https://") || StartsWith(href, "http://")
  }

  function NormalizeUrl(base: string, href: string): string
  {
    if !StartsWith(href, "https://") && !StartsWith(href, "http://") then
      if !StartsWith(href, "/") then base + "/" + href else base + href
    else
      href
  }

  /**
   * An absolute href is kept; any other href is placed after the base with
   * exactly one `/` between them, a leading `/` of the href serving as that
   * one. A protocol-relative `//host/...` href is not recognised as absolute.
   */
  lemma NormalizeUrlCases(base: string, href: string)
    ensures IsAbsoluteUrl(href) ==> NormalizeUrl(base, href) == href
    ensures !IsAbsoluteUrl(href) ==>
      NormalizeUrl(base, href) == base + "/" + (if StartsWith(href, "/") then href[1..] else href)
    ensures StartsWith(href, "//") ==> NormalizeUrl(base, href) == base + href
  {
    if !IsAbsoluteUrl(href) && StartsWith(href, "/") {
      assert href == "/" + href[1..];
      assert base + href == base + "/" + href[1..];
    }
    if StartsWith(href, "//") {
      assert href[..1] == "/";
      assert !StartsWith(href, "http://") by { assert href[0] != 'h'; }
      assert !StartsWith(href, "https://") by { assert href[0] != 'h'; }
    }
  }

  /** Against an absolute base, resolving a resolved URL again changes nothing. */
  lemma NormalizeUrlIdempotent(base: string, href: string)
    requires IsAbsoluteUrl(base)
    ensures IsAbsoluteUrl(NormalizeUrl(base, href))
    ensures NormalizeUrl(base, NormalizeUrl(base, href)) == NormalizeUrl(base, href)
  {
    if !IsAbsoluteUrl(href) {
      var tail := if StartsWith(href, "/") then href else "/" + href;
      assert NormalizeUrl(base, href) == base + tail;
      if StartsWith(base, "https://") {
        StartsWithAppend(base, tail, "https://");
      } else {
        StartsWithAppend(base, tail, "http://");
      }
    }
  }

  /** Root-relative, relative and absolute hrefs against `http://example.com`. */
  lemma NormalizeUrlExamples()
    ensures NormalizeUrl("http://example.com", "/f.png") == "http://example.com/f.png"
    ensures NormalizeUrl("http://example.com", "f.png") == "http://example.com/f.png"
    ensures NormalizeUrl("http://example.com", "http://cdn.x/f.png") == "http://cdn.x/f.png"
  {
    assert !StartsWith("/f.png", "https://") && !StartsWith("/f.png", "http://");
    assert StartsWith("/f.png", "/");
    assert !StartsWith("f.png", "/") by { assert "f.png"[0] == 'f'; }
    assert !StartsWith("f.png", "https://") && !StartsWith("f.png", "http://");
    assert StartsWith("http://cdn.x/f.png", "http://");
  }
}
