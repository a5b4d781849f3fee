/**
 * The editor of one link: the icon picker's search filter, the migration of
 * legacy icon values, uploads into the icon cache, and the size inputs. Every edit
 * is a partial update handed to `onChange`; the parent merges it into the link.
 */
module LinkInput {
  import opened Wrappers
  import opened Seqs
  import opened Text
  import opened LinkTypes

  /** A `Partial<Link>` with the fields this editor's computed updates set. */
  datatype LinkPatch = LinkPatch(
    icon: Option<string>,
    iconifyIdentifier: Option<string>,
    iconifyValue: Option<string>,
    iconCacheKey: Option<string>,
    customWidth: Option<int>,
    customHeight: Option<int>)

  const NoChange: LinkPatch := LinkPatch(None, None, None, None, None, None)

  /** `{ ...link, ...patch }`: the fields the patch sets take its values, the rest are kept. */
  function ApplyPatch(link: Link, p: LinkPatch): (r: Link)
    ensures r.id == link.id && r.url == link.url && r.name == link.name && r.lastUsed == link.lastUsed
    ensures r.iconSize == link.iconSize && r.iconString == link.iconString
    ensures r.iconStringIco == link.iconStringIco && r.svgString == link.svgString
    ensures r.conserveAspectRatio == link.conserveAspectRatio
    ensures r.icon == (if p.icon.Some? then p.icon else link.icon)
    ensures r.iconifyIdentifier == (if p.iconifyIdentifier.Some? then p.iconifyIdentifier else link.iconifyIdentifier)
    ensures r.iconifyValue == (if p.iconifyValue.Some? then p.iconifyValue else link.iconifyValue)
    ensures r.iconCacheKey == (if p.iconCacheKey.Some? then p.iconCacheKey else link.iconCacheKey)
    ensures r.customWidth == (if p.customWidth.Some? then p.customWidth else link.customWidth)
    ensures r.customHeight == (if p.customHeight.Some? then p.customHeight else link.customHeight)
  {
    link.(icon := if p.icon.Some? then p.icon else link.icon,
          iconifyIdentifier := if p.iconifyIdentifier.Some? then p.iconifyIdentifier else link.iconifyIdentifier,
          iconifyValue := if p.iconifyValue.Some? then p.iconifyValue else link.iconifyValue,
          iconCacheKey := if p.iconCacheKey.Some? then p.iconCacheKey else link.iconCacheKey,
          customWidth := if p.customWidth.Some? then p.customWidth else link.customWidth,
          customHeight := if p.customHeight.Some? then p.customHeight else link.customHeight)
  }

  // ---------------------------------------------------------------------------
  // The icon select and the legacy-value migration

  datatype SelectOption = SelectOption(value: string)

  /** The options the icon `<select>` renders, in document order. */
  const IconSelect: seq<SelectOption> := [
    SelectOption(""),
    SelectOption("_favicon_google"), SelectOption("_favicon_duckduckgo"), SelectOption("_favicon_favicone"),
    SelectOption("_custom_iconify"), SelectOption("_custom_svg"), SelectOption("_custom_ico"), SelectOption("_custom_upload"),
    SelectOption("_feather")]

  /** The values of those options. */
  const IconOptions: seq<string> := seq(|IconSelect|, i requires 0 <= i < |IconSelect| => IconSelect[i].value)

  /** None, the three favicon services, the four custom kinds and Feather, in that order. */
  lemma IconSelectHasIconOptions()
    ensures IconOptions == ["", "_favicon_google", "_favicon_duckduckgo", "_favicon_favicone",
                            "_custom_iconify", "_custom_svg", "_custom_ico", "_custom_upload", "_feather"]
  {
  }

  /** `getSelectValues`: the option values of the select, or none before it is mounted. */
  method SelectValues(select: Option<seq<SelectOption>>) returns (values: seq<string>)
    ensures select.None? ==> values == []
    ensures select.Some? ==>
      |values| == |select.value| && forall i :: 0 <= i < |values| ==> values[i] == select.value[i].value
  {
    values := [];
    if select.Some? {
      var options := select.value;
      var i := 0;
      while i < |options|
        invariant 0 <= i <= |options|
        invariant |values| == i
        invariant forall j :: 0 <= j < i ==> values[j] == options[j].value
      {
        values := values + [options[i].value];
        i := i + 1;
      }
    }
  }

  /** The update the migration effect emits for an icon value, if any. */
  function IconMigration(icon: Option<string>, selectValues: seq<string>): (r: Option<LinkPatch>)
    ensures icon.None? || icon == Some("") ==> r.None?
    ensures icon.Some? && icon.value in selectValues && icon.value != "_favicon" ==> r.None?
    ensures icon == Some("_favicon") ==> r == Some(NoChange.(icon := Some("_favicon_google")))
    ensures icon.Some? && icon.value !in selectValues && icon.value !in {"", "_favicon"} ==>
      r == Some(NoChange.(iconifyValue := icon, iconifyIdentifier := Some(IconifyFeather), icon := Some("_feather")))
  {
    if icon == Some("_favicon") then Some(NoChange.(icon := Some("_favicon_google")))
    else if icon.Some? && icon.value != "" && icon.value !in selectValues then
      Some(NoChange.(iconifyValue := icon, iconifyIdentifier := Some(IconifyFeather), icon := Some("_feather")))
    else None
  }

  /**
   * The link after the migration effect: `_favicon` becomes `_favicon_google`; any
   * other non-empty value the select does not offer becomes a Feather icon of that
   * name; everything else is left alone.
   */
  function Migrate(link: Link, selectValues: seq<string>): (r: Link)
    ensures link.icon == Some("_favicon") ==> r == link.(icon := Some("_favicon_google"))
    ensures link.icon != Some("_favicon") && link.icon.Some? && link.icon.value != "" && link.icon.value !in selectValues ==>
      r == link.(icon := Some("_feather"), iconifyValue := link.icon, iconifyIdentifier := Some(IconifyFeather))
    ensures link.icon.None? || link.icon.value == "" || (link.icon.value in selectValues && link.icon != Some("_favicon")) ==>
      r == link
  {
    match IconMigration(link.icon, selectValues)
    case None => link
    case Some(p) => ApplyPatch(link, p)
  }

  /** After migration against the select's options, the icon is absent or one of them. */
  lemma MigratedIconIsOption(link: Link)
    ensures var r := Migrate(link, IconOptions); r.icon.None? || r.icon.value in IconOptions
  {
    IconSelectHasIconOptions();
  }

  /** Running the migration again (the effect re-fires when the icon changes) changes nothing more. */
  lemma MigrationIdempotent(link: Link)
    ensures var once := Migrate(link, IconOptions); Migrate(once, IconOptions) == once
  {
    MigratedIconIsOption(link);
  }

  /** The migration effect: read the select's option values, then migrate the link. */
  method MigrateOnIconChange(link: Link, select: Option<seq<SelectOption>>) returns (r: Link)
    ensures select == Some(IconSelect) ==> r == Migrate(link, IconOptions)
    ensures select.None? ==> r == Migrate(link, [])
  {
    var values := SelectValues(select);
    if select == Some(IconSelect) {
      IconSelectHasIconOptions();
      assert values == IconOptions;
    }
    r := Migrate(link, values);
  }

  // ---------------------------------------------------------------------------
  // The icon mode flags and the size inputs they show

  datatype IconFlags = IconFlags(googleOrFavicone: bool, customIconify: bool, customSvg: bool,
                                 customIco: bool, customUpload: bool, feather: bool)

  function FlagCount(f: IconFlags): nat {
    (if f.googleOrFavicone then 1 else 0) + (if f.customIconify then 1 else 0) + (if f.customSvg then 1 else 0)
    + (if f.customIco then 1 else 0) + (if f.customUpload then 1 else 0) + (if f.feather then 1 else 0)
  }

  /** The `isGoogleOrFavicone` ... `isFeather` flags: at most one holds, and one does exactly for the seven mode values. */
  function Flags(icon: Option<string>): (f: IconFlags)
    ensures FlagCount(f) <= 1
    ensures FlagCount(f) == 1 <==>
      icon.Some? && icon.value in {"_favicon_google", "_favicon_favicone", "_custom_iconify", "_custom_svg",
                                  "_custom_ico", "_custom_upload", "_feather"}
  {
    IconFlags(icon == Some("_favicon_google") || icon == Some("_favicon_favicone"),
              icon == Some("_custom_iconify"), icon == Some("_custom_svg"), icon == Some("_custom_ico"),
              icon == Some("_custom_upload"), icon == Some("_feather"))
  }

  /** The cached item an uploaded link points at is an SVG. */
  predicate UploadIsSvg(link: Link, cache: Option<Cache>) {
    link.iconCacheKey.Some? && link.iconCacheKey.value in cache.GetOr(map[])
    && cache.GetOr(map[])[link.iconCacheKey.value].kind == SvgIcon
  }

  /** Whether the key is set (non-empty) and a cache was given. */
  predicate HasCacheEntryRef(link: Link, cache: Option<Cache>) {
    link.iconCacheKey.Some? && link.iconCacheKey.value != "" && cache.Some?
  }

  /** The aspect-ratio checkbox with Scale, or Width and Height, are shown. */
  predicate ShowsDimensionInputs(link: Link, cache: Option<Cache>) {
    Flags(link.icon).customIco
    || (Flags(link.icon).customUpload && HasCacheEntryRef(link, cache) && !UploadIsSvg(link, cache))
  }

  /** The single SVG "Icon Size" input is shown. */
  predicate ShowsSvgSizeInput(link: Link, cache: Option<Cache>) {
    Flags(link.icon).customSvg
    || (Flags(link.icon).customUpload && HasCacheEntryRef(link, cache) && UploadIsSvg(link, cache))
  }

  /** The two groups of size inputs are never shown together. */
  lemma SizeInputsExclusive(link: Link, cache: Option<Cache>)
    ensures !(ShowsDimensionInputs(link, cache) && ShowsSvgSizeInput(link, cache))
  {
  }

  /** The Scale input and the SVG Icon Size input: one number for both dimensions. */
  function SquarePatch(size: int): LinkPatch {
    NoChange.(customWidth := Some(size), customHeight := Some(size))
  }

  function WidthPatch(width: int): LinkPatch {
    NoChange.(customWidth := Some(width))
  }

  function HeightPatch(height: int): LinkPatch {
    NoChange.(customHeight := Some(height))
  }

  /** The square inputs leave width and height equal; the separate ones touch one dimension each. */
  lemma SizePatches(link: Link, n: int)
    ensures ApplyPatch(link, SquarePatch(n)) == link.(customWidth := Some(n), customHeight := Some(n))
    ensures ApplyPatch(link, WidthPatch(n)) == link.(customWidth := Some(n))
    ensures ApplyPatch(link, HeightPatch(n)) == link.(customHeight := Some(n))
  {
  }

  // ---------------------------------------------------------------------------
  // Uploads

  datatype UploadFile = UploadFile(mimeType: string)

  /** How the file is read: SVG as text, everything else as a data URL. */
  datatype ReadMode = AsText | AsDataUrl

  /** The file is read as text exactly when it will be cached as an SVG icon. */
  function ReadModeFor(f: UploadFile): (m: ReadMode)
    ensures m == AsText <==> UploadKind(f.mimeType) == SvgIcon
    ensures m == AsDataUrl <==> UploadKind(f.mimeType) in {ImageIcon, IcoIcon}
  {
    if f.mimeType == "image/svg+xml" then AsText else AsDataUrl
  }

  /** The kind recorded for an upload. */
  function UploadKind(mimeType: string): (k: IconKind)
    ensures k == SvgIcon <==> mimeType == "image/svg+xml"
    ensures k == IcoIcon <==> mimeType == "image/x-icon"
    ensures k == ImageIcon <==> mimeType != "image/svg+xml" && mimeType != "image/x-icon"
  {
    if mimeType == "image/svg+xml" then SvgIcon
    else if mimeType == "image/x-icon" then IcoIcon
    else ImageIcon
  }

  const DefaultIconSize: int := 24

  /** `props.customWidth || 24`. */
  function UploadSize(customWidth: Option<int>): (n: int)
    ensures customWidth.Some? && customWidth.value != 0 ==> n == customWidth.value
    ensures customWidth.None? || customWidth.value == 0 ==> n == DefaultIconSize
    ensures n != 0
  {
    if customWidth.Some? && customWidth.value != 0 then customWidth.value else DefaultIconSize
  }

  function UploadPatch(cacheKey: string, size: int): LinkPatch {
    NoChange.(icon := Some("_custom_upload"), iconCacheKey := Some(cacheKey), customWidth := Some(size))
  }

  /** The upload update points the link at the cache entry and sets its width. */
  lemma UploadPatchEffect(link: Link, cacheKey: string, size: int)
    ensures ApplyPatch(link, UploadPatch(cacheKey, size))
         == link.(icon := Some("_custom_upload"), iconCacheKey := Some(cacheKey), customWidth := Some(size))
  {
  }

  datatype UploadOutcome = UploadOutcome(cache: Cache, patch: LinkPatch)

  /**
   * `handleFileUpload` once the reader has produced `readResult` (as text or as a
   * data URL, see ReadModeFor). The cache key (`icon_` and a timestamp) is a
   * parameter. No file chosen: nothing happens.
   */
  method HandleFileUpload(file: Option<UploadFile>, readResult: string, customWidth: Option<int>,
                          cache: Option<Cache>, cacheKey: string) returns (outcome: Option<UploadOutcome>)
    ensures file.None? <==> outcome.None?
    ensures outcome.Some? ==>
      var before := cache.GetOr(map[]);
      var after := outcome.value.cache;
      && after.Keys == before.Keys + {cacheKey}
      && (forall k :: k in before && k != cacheKey ==> after[k] == before[k])
      && after[cacheKey] == IconCacheItem(readResult, UploadKind(file.value.mimeType), UploadSize(customWidth))
      && outcome.value.patch == UploadPatch(cacheKey, UploadSize(customWidth))
  {
    if file.None? {
      return None;
    }
    var iconSize := if customWidth.Some? && customWidth.value != 0 then customWidth.value else DefaultIconSize;
    var iconData: IconCacheItem;
    if file.value.mimeType == "image/svg+xml" {
      iconData := IconCacheItem(readResult, SvgIcon, iconSize);
    } else if file.value.mimeType == "image/x-icon" {
      iconData := IconCacheItem(readResult, IcoIcon, iconSize);
    } else {
      iconData := IconCacheItem(readResult, ImageIcon, iconSize);
    }
    var newCache := cache.GetOr(map[])[cacheKey := iconData];
    outcome := Some(UploadOutcome(newCache, UploadPatch(cacheKey, iconSize)));
  }

  // ---------------------------------------------------------------------------
  // The icon picker

  /** `filteredIcons`' test: the lowered name contains the lowered query, or the query with whitespace as dashes. */
  predicate MatchesQuery(icon: string, query: string) {
    Contains(Lower(icon), Lower(query)) || Contains(Lower(icon), ReplaceWhitespace(query, '-'))
  }

  function Matcher(query: string): string -> bool {
    icon => MatchesQuery(icon, query)
  }

  /** `filteredIcons`: the icons that match, in list order. */
  function FilteredIcons(icons: seq<string>, query: string): (r: seq<string>)
    ensures forall x :: x in r <==> x in icons && MatchesQuery(x, query)
    ensures IsSubsequence(r, icons)
    ensures forall x :: MatchesQuery(x, query) ==> multiset(r)[x] == multiset(icons)[x]
  {
    Filter(icons, Matcher(query))
  }

  /** An empty search shows every icon. */
  lemma EmptySearchKeepsAll(icons: seq<string>)
    ensures FilteredIcons(icons, "") == icons
  {
    forall i | 0 <= i < |icons| ensures Matcher("")(icons[i]) {
      ContainsEmpty(Lower(icons[i]));
    }
    FilterKeepsAll(icons, Matcher(""));
  }

  /** Picking an icon records the icon set and name, and nothing else. */
  function IconSelectPatch(icon: string, identifier: string): (p: LinkPatch)
    ensures forall link: Link :: ApplyPatch(link, p) == link.(iconifyIdentifier := Some(identifier), iconifyValue := Some(icon))
  {
    NoChange.(iconifyIdentifier := Some(identifier), iconifyValue := Some(icon))
  }

  /** The picker's local state: whether the modal is open and the search text. */
  class IconPicker {
    var modalOpen: bool
    var searchQuery: string

    constructor ()
      ensures !modalOpen && searchQuery == ""
    {
      modalOpen := false;
      searchQuery := "";
    }

    method OpenModal()
      modifies this
      ensures modalOpen && searchQuery == old(searchQuery)
    {
      modalOpen := true;
    }

    method CloseModal()
      modifies this
      ensures !modalOpen && searchQuery == old(searchQuery)
    {
      modalOpen := false;
    }

    method SetSearchQuery(query: string)
      modifies this
      ensures searchQuery == query && modalOpen == old(modalOpen)
    {
      searchQuery := query;
    }

    /** `handleIconSelect`: the update for the link, and the modal closes. */
    method SelectIcon(icon: string, identifier: string) returns (patch: LinkPatch)
      modifies this
      ensures patch == IconSelectPatch(icon, identifier)
      ensures !modalOpen && searchQuery == old(searchQuery)
    {
      patch := IconSelectPatch(icon, identifier);
      modalOpen := false;
    }

    function ShownIcons(icons: seq<string>): (r: seq<string>)
      reads this
      ensures forall x :: x in r <==> x in icons && MatchesQuery(x, searchQuery)
      ensures IsSubsequence(r, icons)
      ensures forall x :: MatchesQuery(x, searchQuery) ==> multiset(r)[x] == multiset(icons)[x]
      ensures searchQuery == "" ==> r == icons
    {
      if searchQuery == "" then EmptySearchKeepsAll(icons); FilteredIcons(icons, searchQuery)
      else FilteredIcons(icons, searchQuery)
    }
  }
}
