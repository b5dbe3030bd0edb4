/**
 * The findings the icon check can report (minion/plugins/webcompat/icon.py,
 * lines 57-114): one variant per report key, each carrying the values that the
 * report's description is formatted with.
 */
module Reports {
  import opened Wrappers

  datatype Finding =
    | OnlyTouchIcons
    | TouchIconsInRoot
    | NoIcons
    | MissingIconType
    | BadIconType(iconType: string)
    | IconNotFound(iconUrl: string)
    | IconTypeMismatch(specifiedType: Option<string>, actualType: string)
    | IconSizeMismatch(specifiedSize: string, actualSize: string)
  {
    /** The key the check passes to the report formatter. */
    function Key(): string
    {
      match this
      case OnlyTouchIcons => "only-touch-icons"
      case TouchIconsInRoot => "touch-icons-in-root"
      case NoIcons => "no-icons"
      case MissingIconType => "missing-icon-type"
      case BadIconType(_) => "bad-icon-type"
      case IconNotFound(_) => "icon-not-found"
      case IconTypeMismatch(_, _) => "icon-type-mismatch"
      case IconSizeMismatch(_, _) => "icon-size-mismatch"
    }
  }

  /** The part of a report template that identifies it: its stable code and its severity. */
  datatype Entry = Entry(code: string, severity: string)

  /** The report catalogue, keyed as the check looks reports up. */
  const Catalogue: map<string, Entry> := map[
    "only-touch-icons" := Entry("ICON-0", "Low"),
    "touch-icons-in-root" := Entry("ICON-1", "Low"),
    "no-icons" := Entry("ICON-2", "Low"),
    "bad-icon-type" := Entry("ICON-3", "Low"),
    "icon-not-found" := Entry("ICON-4", "Low"),
    "icon-type-mismatch" := Entry("ICON-5", "Low"),
    "icon-size-mismatch" := Entry("ICON-6", "Low")
  ]

  /** The catalogue entry of a finding, absent for `missing-icon-type`. */
  function EntryOf(f: Finding): (e: Option<Entry>)
    ensures e.None? <==> f.MissingIconType?
    ensures e.Some? ==> e.value.severity == "Low"
  {
    if f.Key() in Catalogue then Some(Catalogue[f.Key()]) else None
  }

  /** Every catalogued finding kind has its own code, and findings of different kinds have different keys. */
  lemma CodesIdentifyKinds(f: Finding, g: Finding)
    requires EntryOf(f).Some? && EntryOf(g).Some?
    ensures EntryOf(f) == EntryOf(g) <==> f.Key() == g.Key()
    ensures f.Key() == g.Key() <==> (f.BadIconType? == g.BadIconType? && f.IconNotFound? == g.IconNotFound?
      && f.IconTypeMismatch? == g.IconTypeMismatch? && f.IconSizeMismatch? == g.IconSizeMismatch?
      && f.OnlyTouchIcons? == g.OnlyTouchIcons? && f.TouchIconsInRoot? == g.TouchIconsInRoot?
      && f.NoIcons? == g.NoIcons?)
  {
  }
}
