# Icon compliance check — Dafny model

This project models the icon check of the minion web-compatibility plugin
(`minion/plugins/webcompat/icon.py`). The check fetches a target page, keeps the page's icon
`<link>` elements, and issues a fixed sequence of findings:
- `no-icons`, plus `touch-icons-in-root` when a root touch icon answers;
- `only-touch-icons`;
- `missing-icon-type` and `bad-icon-type` for the `type` attribute;
- `icon-not-found`, `icon-type-mismatch` and `icon-size-mismatch` from fetching each `rel="icon"` link.

Modules, one per part of the source:
- `IconLinks` (links.dfy) holds the link record `Link`.
  - It has the extractor's filter: the method `ParseIconsFromHtml`, specified by the function `IconsOf`.
  - It has the classifiers `IsAppleTouchIcon`, `IsHtml5Icon` and `IsShortcutIcon`, and `NormalizeUrl`.
- `Reports` (reports.dfy) holds the findings.
  - There is one variant per report key, carrying the values its description is formatted with.
  - It also holds the report catalogue of codes `ICON-0` to `ICON-6`.
- `IconRunner` (runner.dfy) holds `do_run`.
  - The methods `DoRun`, `ProbeRootTouchIcons`, `CheckTypeAttributes` and `CheckLiveIcons` are each proved equal to a specification function (`IconRun`, `RootProbes`, `TypeAttributePass`, `LivePass`).
  - A run's result, `Run`, records the findings in the order reported, the URLs requested in order, and whether the run completed or stopped with an exception.
- `IconProperties` (properties.dfy) states what a run reports, as lemmas over those functions.
- `Seqs`, `Text` and `Wrappers` are helpers.
  - `Seqs` does order-preserving filtering.
  - `Text` has `startswith`, lower-casing, `%d` rendering and a search.
  - `Wrappers` has `Option`.

Abstract inputs:
- The network is a parameter `web: string -> Fetch`. A fetch is a transport error, or a reply with a status, an optional `content-type` header, and an optional decoded image size. The size is absent when the body does not decode.
- The same URL always gets the same answer.
- The HTML parser's output is a parameter: the page's `<link rel>` attribute records, in document order.

How the model reads the code where the code and its comments differ:
- An `icon` link without a `type` always gets `icon-type-mismatch` once it is found and the reply names a content type. The comment at line 190 says the comparison is made only "If the icon has a type attribute", but line 193 compares the absent value with the header.
- `shortcut icon` links are dropped by the extractor, as line 23 does.
- `href` may be absent from a link, and line 183 then raises. The model ends the run with `MissingHref` instead of requiring an `href`.
- The page fetch aborts the run on a status outside 200-299 (`raise_for_status`). The root probes and the icon fetches test for exactly 200.
- A reply with no `content-type` header aborts the run at line 193, read as a dictionary lookup that raises. So does an undecodable PNG body at line 203.
- Findings already reported before such an abort stay reported.

## Model

| member | source | states |
|---|---|---|
| IconLinks.IconsOf | minion/plugins/webcompat/icon.py:16-25 | the link filter of `parse_icons_from_html`. Its properties are in `IconsOfSpec`, `IconsOfAppend` and `ShortcutIconsDropped` |
| IconLinks.IsAppleTouchIcon | minion/plugins/webcompat/icon.py:28-29 | `is_apple_touch_icon`. Its properties are in `ClassifiersExclusive` and `KeptLinkClassification` |
| IconLinks.IsHtml5Icon | minion/plugins/webcompat/icon.py:31-32 | `is_html5_icon`. Its properties are in `ClassifiersExclusive` and `KeptLinkClassification` |
| IconLinks.IsShortcutIcon | minion/plugins/webcompat/icon.py:34-35 | `is_shortcut_icon`. Its properties are in `ClassifiersExclusive` and `ShortcutIconsDropped` |
| IconLinks.NormalizeUrl | minion/plugins/webcompat/icon.py:37-44 | `normalize_url`. Its properties are in `NormalizeUrlCases`, `NormalizeUrlIdempotent` and `NormalizeUrlExamples` |
| IconLinks.ParseIconsFromHtml | minion/plugins/webcompat/icon.py:14-25 | the filtering loop returns exactly `IconsOf(links)` |
| IconLinks.IconsOfSpec | minion/plugins/webcompat/icon.py:16-25 | the kept links are an order-preserving subsequence of the input. A link is kept iff its lower-cased `rel` is `icon`, `apple-touch-icon` or `apple-touch-icon-precomposed`. Filtering twice changes nothing. The result is empty iff no link qualifies |
| IconLinks.IconsOfAppend | minion/plugins/webcompat/icon.py:20-24 | extraction of a concatenation is the concatenation of the extractions, so order is kept |
| IconLinks.ShortcutIconsDropped | minion/plugins/webcompat/icon.py:23-25 | no kept link is a `shortcut icon` |
| IconLinks.KeptLinkClassification | minion/plugins/webcompat/icon.py:22-35 | a kept link is never a shortcut icon. A kept link with an already lower-case `rel` is an HTML5 icon iff it is not a touch icon |
| IconLinks.IconRelValuesClassified | minion/plugins/webcompat/icon.py:23-32 | of the three kept `rel` values, exactly `icon` is not a touch-icon prefix match |
| IconLinks.ClassifiersExclusive | minion/plugins/webcompat/icon.py:28-35 | HTML5 icon and touch icon exclude each other, and a shortcut icon is neither. Both touch `rel`s are touch icons and `icon` is not. The tests are case-sensitive (`ICON`, `Apple-Touch-Icon` fail them) |
| IconLinks.UpperCaseIconUnclassified | minion/plugins/webcompat/icon.py:22-32 | `rel="ICON"`, and `icon` spelled with U+0130, pass the extractor but neither classifier |
| IconLinks.NormalizeUrlCases | minion/plugins/webcompat/icon.py:37-44 | an `http://` or `https://` href is returned unchanged. Any other href follows the base with exactly one `/` between them. A `//`-prefixed href is appended to the base |
| IconLinks.NormalizeUrlIdempotent | minion/plugins/webcompat/icon.py:37-44 | against an absolute base the result is absolute, and resolving it again changes nothing |
| IconLinks.NormalizeUrlExamples | minion/plugins/webcompat/icon.py:37-44 | the three resolutions of `http://example.com` with `/f.png`, `f.png` and `http://cdn.x/f.png` |
| Reports.EntryOf | minion/plugins/webcompat/icon.py:57-114 | looks a finding (the datatype `Finding`, one variant per report key) up in `Catalogue`, the table of lines 57-114. Every finding kind except `missing-icon-type` has a catalogue entry, and every entry has severity `Low` |
| Reports.CodesIdentifyKinds | minion/plugins/webcompat/icon.py:57-114 | two catalogued findings have the same entry (code) iff they have the same key iff they are of the same kind |
| Text.Lower | minion/plugins/webcompat/icon.py:22 | lower-casing keeps the length and maps each character on its own (`LowerAt`): `A`-`Z`, U+0130 to `i` and U+212A to `k` |
| Text.Decimal | minion/plugins/webcompat/icon.py:204 | `%d` gives at least one decimal digit, with a leading `0` only for zero |
| Text.DecimalRoundTrip | minion/plugins/webcompat/icon.py:204 | reading the digits of `%d` back gives the number |
| IconRunner.RenderSize | minion/plugins/webcompat/icon.py:204 | the `"%dx%d"` rendering of a decoded size. Its properties are in `RenderSizeRoundTrip` and `RenderSizeInjective` |
| IconRunner.RootProbes | minion/plugins/webcompat/icon.py:140-148 | the two root probes of the no-icons branch. `ProbeRootTouchIcons` computes it and `NoIconLinksRun` states what it reports |
| IconRunner.TypeAttributeFindings | minion/plugins/webcompat/icon.py:162-170 | the type-attribute test of one link. Its properties are in `TypeAttributeFindingsOfLink` |
| IconRunner.TypeAttributePass | minion/plugins/webcompat/icon.py:162-170 | the type-attribute loop. `CheckTypeAttributes` computes it, and `TypeAttributePassCount` and `TypeAttributePassContents` state its contents |
| IconRunner.CheckIcon | minion/plugins/webcompat/icon.py:178-209 | the live check of one link. Its properties are in `NotFoundIconContinues`, `TypeMismatchExactly`, `SizeMismatchExactly` and `CheckIconBounds`. A missing `href` and a failed fetch abort the run (`MissingHrefAborts`, `IconTransportFailureAborts`) |
| IconRunner.CheckReply | minion/plugins/webcompat/icon.py:185-209 | the live check once the icon was fetched. Its properties are in `NotFoundIconContinues` and `TypeMismatchExactly`. A 200 reply without `content-type` aborts the run (`MissingContentTypeAborts`) |
| IconRunner.CheckSize | minion/plugins/webcompat/icon.py:201-209 | the size comparison of a PNG icon. Its properties are in `SizeMismatchExactly` and `SizeMismatchMeansOtherDimensions`. A body that does not decode aborts the run, keeping the type-mismatch finding (`UndecodablePngAborts`) |
| IconRunner.LivePass | minion/plugins/webcompat/icon.py:178-209 | the fetching loop over all icons. `CheckLiveIcons` computes it, and `LivePassAppend`, `LivePassBounds` and `LivePassSkipsNonHtml5` state its properties |
| IconRunner.IconChecks | minion/plugins/webcompat/icon.py:136-209 | the run after the page fetch: the no-icons branch, the only-touch-icons branch (decided on `AppleTouchIcons` and `Html5Icons`, the list comprehensions of lines 152-153), then both passes. Its properties are in `NoIconLinksRun`, `OnlyTouchIconsRun` and `FullChecksRun` |
| IconRunner.IconRun | minion/plugins/webcompat/icon.py:123-209 | the whole of `do_run`. `DoRun` computes it, and `IconRunServed` and the `IconProperties` lemmas state what it reports. A page not served ends the run after its one request (`PageNotServedRun`), and an aborting icon ends the whole run (`IconAbortEndsRun`) |
| IconRunner.RenderSizeRoundTrip | minion/plugins/webcompat/icon.py:204 | the `WxH` rendering of a size parses back to the size |
| IconRunner.RenderSizeInjective | minion/plugins/webcompat/icon.py:204-205 | different sizes never render to the same text |
| IconRunner.LivePassAppend | minion/plugins/webcompat/icon.py:178-209 | the live pass over a concatenation is the first part's pass followed by the second's, stopping at an abort |
| IconRunner.RunEachStep | minion/plugins/webcompat/icon.py:178-209 | one more icon extends the loop's run by that icon's check |
| IconRunner.RunEachAppend | minion/plugins/webcompat/icon.py:178-209 | the loop over a concatenation is the run over the first part followed by the run over the second, nothing after an abort |
| IconRunner.RunEachAbortsAt | minion/plugins/webcompat/icon.py:178-209 | an icon whose check raises ends the loop's run there; later icons are not looked at |
| IconRunner.LivePassSingle | minion/plugins/webcompat/icon.py:178-209 | the loop over a single link is that link's check |
| IconRunner.IconRunServed | minion/plugins/webcompat/icon.py:123-134 | once the page answers 2xx, the run is the page request followed by the icon checks |
| IconRunner.ProbeRootTouchIcons | minion/plugins/webcompat/icon.py:140-148 | the two root probes, in order, and their findings equal `RootProbes` |
| IconRunner.CheckTypeAttributes | minion/plugins/webcompat/icon.py:162-170 | the type-attribute loop reports exactly `TypeAttributePass(icons)` |
| IconRunner.CheckLiveIcons | minion/plugins/webcompat/icon.py:178-209 | the fetching loop, with its `continue` and its exceptions, equals `LivePass` |
| IconRunner.DoRun | minion/plugins/webcompat/icon.py:123-209 | the whole run equals `IconRun` |
| IconProperties.NoIconLinksRun | minion/plugins/webcompat/icon.py:136-148 | without icon links, exactly the page and the two root URLs are requested. The findings are `[touch-icons-in-root, no-icons]` if either probe returned 200, otherwise `[no-icons]`. A failing probe aborts with no finding |
| IconProperties.OnlyTouchIconsRun | minion/plugins/webcompat/icon.py:152-158 | touch icons but no `rel="icon"` link give exactly `[only-touch-icons]`, and no icon is fetched |
| IconProperties.UnclassifiedIconsRun | minion/plugins/webcompat/icon.py:152-209 | icon links that no case-sensitive classifier accepts give no finding and no fetch |
| IconProperties.DottedCapitalIconRun | minion/plugins/webcompat/icon.py:123-209 | a page whose only link has `rel` spelled with U+0130 gets no finding and no probe: the run is the page request alone |
| IconProperties.FullChecksRun | minion/plugins/webcompat/icon.py:160-209 | past the early exits, all type-attribute findings come first and the live findings follow. The type-attribute pass is reported in full even if the live pass aborts |
| IconProperties.TypeAttributeFindingsOfLink | minion/plugins/webcompat/icon.py:162-170 | a link yields at most one type-attribute finding: `missing-icon-type` iff it is an `icon` without `type`, `bad-icon-type(t)` iff its `type` is some other `t`, and none for PNG or non-`icon` links |
| IconProperties.TypeAttributePassCount | minion/plugins/webcompat/icon.py:162-170 | the pass reports exactly one finding per `icon` link not declaring `image/png` |
| IconProperties.TypeAttributePassContents | minion/plugins/webcompat/icon.py:162-170 | `missing-icon-type` and `bad-icon-type(t)` occur iff some `icon` link lacks a type, or declares `t` other than PNG. Nothing else is reported |
| IconProperties.GifIconExample | minion/plugins/webcompat/icon.py:168-170 | an `icon` with `type="image/gif"` gives `bad-icon-type` carrying `image/gif` |
| IconProperties.LivePassSkipsNonHtml5 | minion/plugins/webcompat/icon.py:178-179 | links that are not `rel="icon"` are neither fetched nor reported on |
| IconProperties.NotFoundIconContinues | minion/plugins/webcompat/icon.py:183-188 | a non-200 icon yields exactly one `icon-not-found` with the resolved URL, and the later icons are checked as on their own |
| IconProperties.TypeMismatchExactly | minion/plugins/webcompat/icon.py:192-197 | for a found icon, `icon-type-mismatch` with both values is reported iff the declared type (absent included) differs from the `content-type` |
| IconProperties.SizeMismatchExactly | minion/plugins/webcompat/icon.py:201-209 | `icon-size-mismatch` appears only for PNG icons declaring `sizes`. For those, it appears iff the rendered decoded size differs from `sizes` as text |
| IconProperties.SizeMismatchMeansOtherDimensions | minion/plugins/webcompat/icon.py:201-209 | when `sizes` is written as the check renders sizes, a size mismatch is reported iff the dimensions differ |
| IconProperties.SizesCompareAsText | minion/plugins/webcompat/icon.py:204-205 | `sizes="032x032"` mismatches a 32-by-32 image |
| IconProperties.CheckIconBounds | minion/plugins/webcompat/icon.py:178-209 | one icon's live check gives at most two findings and at most one request, and none for a non-`icon` link |
| IconProperties.LivePassBounds | minion/plugins/webcompat/icon.py:178-209 | the live pass gives at most two findings and one request per `rel="icon"` link |
| IconProperties.SizeMismatchExample | minion/plugins/webcompat/icon.py:201-209 | a PNG icon declaring `32x32` that decodes to 16 by 16 gives exactly `[icon-size-mismatch("32x32", "16x16")]` |
| IconProperties.PageNotServedRun | minion/plugins/webcompat/icon.py:125-126 | a page whose fetch fails, or whose status is outside 200-299, gives no finding, one request, and an abort carrying the URL or the status |
| IconProperties.MissingHrefAborts | minion/plugins/webcompat/icon.py:183 | an `icon` link without `href` aborts with `MissingHref`, before any request |
| IconProperties.IconTransportFailureAborts | minion/plugins/webcompat/icon.py:183-184 | an icon URL whose fetch fails aborts with that URL after one request and no finding |
| IconProperties.MissingContentTypeAborts | minion/plugins/webcompat/icon.py:185-193 | a 200 reply without `content-type` aborts with that URL and no finding for the icon |
| IconProperties.UndecodablePngAborts | minion/plugins/webcompat/icon.py:192-203 | a PNG icon declaring `sizes` whose body does not decode aborts with that URL; the type mismatch, if any, is still reported, and no size finding |
| IconProperties.IconAbortEndsRun | minion/plugins/webcompat/icon.py:160-209 | once an icon aborts, the whole run ends with that outcome. It keeps the full type-attribute pass, the earlier icons' findings and requests, and the aborting icon's, and fetches no later icon |

## Left out

- HTTP fetching through `minion.curly` (timeouts, headers, `raise_for_status` internals) is network I/O. It is the `web` parameter, and only the status, `content-type` and decoded size of a reply are modelled.
- HTML5 parsing and the XPath lookup belong to a foreign library. Their output is the `pageLinks` parameter, and attributes other than `rel`, `href`, `type` and `sizes` are dropped.
- PIL image decoding belongs to a foreign library. A reply carries the decoded size, or nothing when decoding fails.
- The report formatter and the reporting sink come from the base plugin class, which is not part of this model. A report is the finding value appended to the run's findings. Template texts, summaries and the further-information list are not modelled.
- The wording of `missing-icon-type` is not modelled: the catalogue has no entry for it, and what the base class's formatter does with a missing key is not visible.
- `DEFAULT_HEADERS`, `PLUGIN_NAME` and `PLUGIN_WEIGHT` are constants with no behaviour.
- `setup.py` is packaging metadata.
- Text.Lower: maps only the characters whose Python 2 simple lower-case mapping is ASCII (`A`-`Z`, U+0130, U+212A). The other non-ASCII letters that Python lower-cases are left unchanged. Both forms are non-ASCII, so the extractor keeps or drops a link exactly as the source does, but other uses of `Lower` would differ.
- Unicode versus byte strings and the reading of the target from the job configuration are not modelled. The target is a parameter.
