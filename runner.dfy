/**
 * The check runner `IconPlugin.do_run` (minion/plugins/webcompat/icon.py,
 * lines 123-209). The network is an oracle `web` from URL to the outcome of a
 * GET; the HTML parser's output is the list of the page's `<link rel>`
 * attribute records; image decoding is the decoded size carried by a reply.
 */
module IconRunner {
  import opened Wrappers
  import opened Text
  import opened Seqs
  import opened IconLinks
  import opened Reports

  /** Pixel dimensions of a decoded image. */
  datatype Size = Size(width: nat, height: nat)

  /**
   * The outcome of one GET: a transport-level failure, or a reply with its
   * status, its `content-type` header if sent, and the size of its body
   * decoded as an image, absent when the body does not decode.
   */
  datatype Fetch = TransportError | Reply(status: int, contentType: Option<string>, image: Option<Size>)

  /** Why a run stopped with an exception instead of finishing. */
  datatype Failure =
    | TransportFailed(url: string)
    | PageStatus(status: int)
    | MissingHref
    | MissingContentType(url: string)
    | UndecodableImage(url: string)

  datatype Outcome = Completed | Aborted(failure: Failure)

  /** What a run (or a part of one) did: reports issued, URLs requested, both in order, and how it ended. */
  datatype Run = Run(findings: seq<Finding>, requests: seq<string>, outcome: Outcome)

  const Done: Run := Run([], [], Completed)

  /** `a` followed by `b`; nothing after an abort happens. */
  function Then(a: Run, b: Run): Run
  {
    if a.outcome.Aborted? then a
    else Run(a.findings + b.findings, a.requests + b.requests, b.outcome)
  }

  /** `"%dx%d" % img.size` */
  function RenderSize(size: Size): string
  {
    Decimal(size.width) + "x" + Decimal(size.height)
  }

  /** Reads a `WxH` text back into dimensions; the inverse of `RenderSize`. */
  function ParseSize(s: string): Option<Size>
  {
    var k := IndexOf(s, 'x');
    if k < |s| && IsDigits(s[..k]) && IsDigits(s[k + 1..]) then
      Some(Size(DecimalValue(s[..k]), DecimalValue(s[k + 1..])))
    else
      None
  }

  lemma RenderSizeRoundTrip(size: Size)
    ensures ParseSize(RenderSize(size)) == Some(size)
  {
    var w, h := Decimal(size.width), Decimal(size.height);
    var s := RenderSize(size);
    IndexOfAfterDigits(w, h);
    assert s[..|w|] == w;
    assert s[|w| + 1..] == h;
    DecimalRoundTrip(size.width);
    DecimalRoundTrip(size.height);
  }

  /** Different dimensions never render to the same text. */
  lemma RenderSizeInjective(a: Size, b: Size)
    requires RenderSize(a) == RenderSize(b)
    ensures a == b
  {
    RenderSizeRoundTrip(a);
    RenderSizeRoundTrip(b);
  }

  predicate Is2xx(status: int)
  {
    200 <= status < 300
  }

  /** The target page itself was fetched and `raise_for_status` let it through. */
  predicate PageServed(target: string, web: string -> Fetch)
  {
    web(target).Reply? && Is2xx(web(target).status)
  }

  const AppleTouchIconPath: string := "/apple-touch-icon.png"
  const AppleTouchIcon76Path: string := "/apple-touch-icon-76x76.png"

  /** Lines 140-148: the two root probes, then the findings of the no-icons branch. */
  function RootProbes(target: string, web: string -> Fetch): Run
  {
    var url1 := target + AppleTouchIconPath;
    var url2 := target + AppleTouchIcon76Path;
    match web(url1)
    case TransportError => Run([], [url1], Aborted(TransportFailed(url1)))
    case Reply(status1, _, _) =>
      match web(url2)
      case TransportError => Run([], [url1, url2], Aborted(TransportFailed(url2)))
      case Reply(status2, _, _) =>
        Run((if status1 == 200 || status2 == 200 then [TouchIconsInRoot] else []) + [NoIcons],
            [url1, url2], Completed)
  }

  /** Lines 163-170: the static type-attribute finding of one link. */
  function TypeAttributeFindings(icon: Link): seq<Finding>
  {
    if !IsHtml5Icon(icon) then []
    else match icon.declaredType
      case None => [MissingIconType]
      case Some(t) => if t != "image/png" then [BadIconType(t)] else []
  }

  /** Lines 162-170. */
  function TypeAttributePass(icons: seq<Link>): seq<Finding>
  {
    FlatMap(icons, TypeAttributeFindings)
  }

  /** Lines 179-209: the live check of one link. */
  function CheckIcon(target: string, web: string -> Fetch, icon: Link): Run
  {
    if !IsHtml5Icon(icon) then Done
    else match icon.href
      case None => Run([], [], Aborted(MissingHref))
      case Some(href) =>
        var url := NormalizeUrl(target, href);
        CheckReply(icon, url, web(url))
  }

  /** Lines 185-209: what the reply to the icon's URL leads to. */
  function CheckReply(icon: Link, url: string, reply: Fetch): Run
  {
    match reply
    case TransportError => Run([], [url], Aborted(TransportFailed(url)))
    case Reply(status, contentType, image) =>
      if status != 200 then Run([IconNotFound(url)], [url], Completed)
      else match contentType
        case None => Run([], [url], Aborted(MissingContentType(url)))
        case Some(actualType) =>
          var typeFindings :=
            if icon.declaredType != Some(actualType) then [IconTypeMismatch(icon.declaredType, actualType)] else [];
          if icon.declaredType == Some("image/png") && icon.sizes.Some? then
            CheckSize(url, typeFindings, icon.sizes.value, image)
          else
            Run(typeFindings, [url], Completed)
  }

  /** Lines 201-209: the size comparison for a PNG icon that declares `sizes`. */
  function CheckSize(url: string, typeFindings: seq<Finding>, declaredSize: string, image: Option<Size>): Run
  {
    match image
    case None => Run(typeFindings, [url], Aborted(UndecodableImage(url)))
    case Some(size) =>
      var actualSize := RenderSize(size);
      Run(typeFindings + (if actualSize != declaredSize then [IconSizeMismatch(declaredSize, actualSize)] else []),
          [url], Completed)
  }

  /** `check` run on every link in turn, stopping at the first abort. */
  function RunEach(icons: seq<Link>, check: Link -> Run): Run
  {
    if icons == [] then Done
    else Then(check(icons[0]), RunEach(icons[1..], check))
  }

  function IconCheck(target: string, web: string -> Fetch): Link -> Run
  {
    icon => CheckIcon(target, web, icon)
  }

  /** Lines 178-209. */
  function LivePass(target: string, web: string -> Fetch, icons: seq<Link>): Run
  {
    RunEach(icons, IconCheck(target, web))
  }

  function AppleTouchIcons(icons: seq<Link>): seq<Link>
  {
    Filter(icons, IsAppleTouchIcon)
  }

  function Html5Icons(icons: seq<Link>): seq<Link>
  {
    Filter(icons, IsHtml5Icon)
  }

  /** Lines 136-209, once the page has been fetched and its icons extracted. */
  function IconChecks(target: string, web: string -> Fetch, icons: seq<Link>): Run
  {
    if |icons| == 0 then RootProbes(target, web)
    else if |Html5Icons(icons)| == 0 && |AppleTouchIcons(icons)| != 0 then Run([OnlyTouchIcons], [], Completed)
    else Then(Run(TypeAttributePass(icons), [], Completed), LivePass(target, web, icons))
  }

  /** The whole run, as a specification. */
  function IconRun(target: string, web: string -> Fetch, pageLinks: seq<Link>): Run
  {
    match web(target)
    case TransportError => Run([], [target], Aborted(TransportFailed(target)))
    case Reply(status, _, _) =>
      if !Is2xx(status) then Run([], [target], Aborted(PageStatus(status)))
      else Then(Run([], [target], Completed), IconChecks(target, web, IconsOf(pageLinks)))
  }

  /** Once the page is served, the run is the page request followed by the checks on its icons. */
  lemma IconRunServed(target: string, web: string -> Fetch, pageLinks: seq<Link>)
    requires PageServed(target, web)
    ensures var checks := IconChecks(target, web, IconsOf(pageLinks));
      IconRun(target, web, pageLinks) == Run(checks.findings, [target] + checks.requests, checks.outcome)
  {
  }

  lemma ThenAssociative(a: Run, b: Run, c: Run)
    ensures Then(Then(a, b), c) == Then(a, Then(b, c))
  {
  }

  lemma {:induction false} RunEachAppend(a: seq<Link>, b: seq<Link>, check: Link -> Run)
    ensures RunEach(a + b, check) == Then(RunEach(a, check), RunEach(b, check))
  {
    if a == [] {
      assert a + b == b;
    } else {
      var c := check(a[0]);
      assert (a + b)[0] == a[0];
      assert (a + b)[1..] == a[1..] + b;
      assert RunEach(a + b, check) == Then(c, RunEach(a[1..] + b, check));
      RunEachAppend(a[1..], b, check);
      ThenAssociative(c, RunEach(a[1..], check), RunEach(b, check));
    }
  }

  /** The live pass over a concatenation is the first part's pass followed by the second's. */
  lemma LivePassAppend(target: string, web: string -> Fetch, a: seq<Link>, b: seq<Link>)
    ensures LivePass(target, web, a + b) == Then(LivePass(target, web, a), LivePass(target, web, b))
  {
    RunEachAppend(a, b, IconCheck(target, web));
  }

  /** Running the checks over `icons[..i+1]` extends the run over `icons[..i]` by the check of `icons[i]`. */
  lemma RunEachStep(icons: seq<Link>, i: nat, check: Link -> Run)
    requires i < |icons|
    ensures RunEach(icons[..i + 1], check) == Then(RunEach(icons[..i], check), check(icons[i]))
  {
    assert icons[..i + 1] == icons[..i] + [icons[i]];
    RunEachAppend(icons[..i], [icons[i]], check);
    assert RunEach([icons[i]], check) == Then(check(icons[i]), Done);
  }

  /** The live pass over one link is that link's check. */
  lemma LivePassSingle(target: string, web: string -> Fetch, icon: Link)
    ensures LivePass(target, web, [icon]) == CheckIcon(target, web, icon)
  {
    var check := IconCheck(target, web);
    assert [icon][0] == icon;
    assert [icon][1..] == [];
    assert RunEach([icon], check) == Then(check(icon), RunEach([], check));
    assert check(icon) == CheckIcon(target, web, icon);
  }

  /** Nothing after an aborted prefix runs. */
  lemma RunEachAbortedPrefix(a: seq<Link>, b: seq<Link>, check: Link -> Run)
    requires RunEach(a, check).outcome.Aborted?
    ensures RunEach(a + b, check) == RunEach(a, check)
  {
    RunEachAppend(a, b, check);
  }

  /** A check that aborts ends the whole run there. */
  lemma RunEachAbortsAt(icons: seq<Link>, i: nat, check: Link -> Run)
    requires i < |icons|
    requires RunEach(icons[..i], check).outcome == Completed
    requires check(icons[i]).outcome.Aborted?
    ensures RunEach(icons, check) == RunEach(icons[..i + 1], check)
  {
    var a, b := icons[..i + 1], icons[i + 1..];
    RunEachStep(icons, i, check);
    assert RunEach(a, check).outcome.Aborted?;
    RunEachAbortedPrefix(a, b, check);
    assert icons == a + b;
  }


  /** Lines 140-148: probe the two root touch icons, then report. */
  method ProbeRootTouchIcons(target: string, web: string -> Fetch) returns (run: Run)
    ensures run == RootProbes(target, web)
  {
    var findings: seq<Finding> := [];
    var url1 := target + AppleTouchIconPath;
    var png1 := web(url1);
    if png1.TransportError? {
      return Run(findings, [url1], Aborted(TransportFailed(url1)));
    }
    var url2 := target + AppleTouchIcon76Path;
    var png2 := web(url2);
    if png2.TransportError? {
      return Run(findings, [url1, url2], Aborted(TransportFailed(url2)));
    }
    if png1.status == 200 || png2.status == 200 {
      findings := findings + [TouchIconsInRoot];
    }
    findings := findings + [NoIcons];
    return Run(findings, [url1, url2], Completed);
  }

  /** Lines 162-170: the loop over the icons' `type` attributes. */
  method CheckTypeAttributes(icons: seq<Link>) returns (findings: seq<Finding>)
    ensures findings == TypeAttributePass(icons)
  {
    findings := [];
    for i := 0 to |icons|
      invariant findings == TypeAttributePass(icons[..i])
    {
      var icon := icons[i];
      if IsHtml5Icon(icon) {
        var iconType := icon.declaredType;
        if iconType.None? {
          findings := findings + [MissingIconType];
        } else if iconType.value != "image/png" {
          findings := findings + [BadIconType(iconType.value)];
        }
      }
      FlatMapAppend(icons[..i], [icon], TypeAttributeFindings);
      assert icons[..i + 1] == icons[..i] + [icon];
    }
    assert icons[..|icons|] == icons;
  }

  /** Lines 178-209: the loop that fetches every HTML5 icon and compares it with its declaration. */
  method CheckLiveIcons(target: string, web: string -> Fetch, icons: seq<Link>) returns (run: Run)
    ensures run == LivePass(target, web, icons)
  {
    ghost var check := IconCheck(target, web);
    var findings: seq<Finding> := [];
    var requests: seq<string> := [];
    for i := 0 to |icons|
      invariant RunEach(icons[..i], check) == Run(findings, requests, Completed)
    {
      var icon := icons[i];
      RunEachStep(icons, i, check);
      assert check(icon) == CheckIcon(target, web, icon);
      if !IsHtml5Icon(icon) {
        continue;
      }
      if icon.href.None? {
        RunEachAbortsAt(icons, i, check);
        return Run(findings, requests, Aborted(MissingHref));
      }
      var url := NormalizeUrl(target, icon.href.value);
      requests := requests + [url];
      var r := web(url);
      if r.TransportError? {
        RunEachAbortsAt(icons, i, check);
        return Run(findings, requests, Aborted(TransportFailed(url)));
      }
      if r.status != 200 {
        findings := findings + [IconNotFound(url)];
        continue;
      }

      if r.contentType.None? {
        RunEachAbortsAt(icons, i, check);
        return Run(findings, requests, Aborted(MissingContentType(url)));
      }
      var iconType := icon.declaredType;
      if iconType != Some(r.contentType.value) {
        findings := findings + [IconTypeMismatch(iconType, r.contentType.value)];
      }

      var iconSize := icon.sizes;
      if iconType == Some("image/png") && iconSize.Some? {
        if r.image.None? {
          RunEachAbortsAt(icons, i, check);
          return Run(findings, requests, Aborted(UndecodableImage(url)));
        }
        var actualSize := RenderSize(r.image.value);
        if actualSize != iconSize.value {
          findings := findings + [IconSizeMismatch(iconSize.value, actualSize)];
        }
      }
    }
    assert icons[..|icons|] == icons;
    run := Run(findings, requests, Completed);
  }

  /** `IconPlugin.do_run` (lines 123-209). */
  method DoRun(target: string, web: string -> Fetch, pageLinks: seq<Link>) returns (run: Run)
    ensures run == IconRun(target, web, pageLinks)
  {
    var page := web(target);
    if page.TransportError? {
      return Run([], [target], Aborted(TransportFailed(target)));
    }
    if !Is2xx(page.status) {
      return Run([], [target], Aborted(PageStatus(page.status)));
    }

    var icons := ParseIconsFromHtml(pageLinks);

    if |icons| == 0 {
      var probes := ProbeRootTouchIcons(target, web);
      return Then(Run([], [target], Completed), probes);
    }

    var appleTouchIcons := AppleTouchIcons(icons);
    var html5Icons := Html5Icons(icons);
    if |html5Icons| == 0 && |appleTouchIcons| != 0 {
      return Run([OnlyTouchIcons], [target], Completed);
    }

    var typeFindings := CheckTypeAttributes(icons);
    var live := CheckLiveIcons(target, web, icons);
    run := Run(typeFindings + live.findings, [target] + live.requests, live.outcome);
  }
}
