/** The links widget's stored records: links, cached uploaded icons and the widget settings, with their defaults. */
module LinkTypes {
  import opened Wrappers

  /** One link; every field but `id` and `url` may be absent. */
  datatype Link = Link(
    id: string,
    name: Option<string>,
    icon: Option<string>,
    url: string,
    lastUsed: Option<int>,
    iconSize: Option<int>,
    iconString: Option<string>,
    iconStringIco: Option<string>,
    svgString: Option<string>,
    customWidth: Option<int>,
    customHeight: Option<int>,
    iconifyIdentifier: Option<string>,
    iconifyValue: Option<string>,
    iconCacheKey: Option<string>,
    conserveAspectRatio: Option<bool>)

  /** A link with only the required fields. */
  function NewLink(id: string, url: string): (l: Link)
    ensures l.id == id && l.url == url
    ensures l.name.None? && l.icon.None? && l.lastUsed.None? && l.iconSize.None?
    ensures l.iconString.None? && l.iconStringIco.None? && l.svgString.None?
    ensures l.customWidth.None? && l.customHeight.None?
    ensures l.iconifyIdentifier.None? && l.iconifyValue.None? && l.iconCacheKey.None?
    ensures l.conserveAspectRatio.None?
  {
    Link(id, None, None, url, None, None, None, None, None, None, None, None, None, None, None)
  }

  /** `IconCacheItem.type`. */
  datatype IconKind = ImageIcon | SvgIcon | IcoIcon

  function IconKindName(k: IconKind): string {
    match k
    case ImageIcon => "image"
    case SvgIcon => "svg"
    case IcoIcon => "ico"
  }

  function ParseIconKind(s: string): (k: Option<IconKind>)
    ensures k.Some? <==> s in {"image", "svg", "ico"}
  {
    match s
    case "image" => Some(ImageIcon)
    case "svg" => Some(SvgIcon)
    case "ico" => Some(IcoIcon)
    case _ => None
  }

  /** The three stored type names are exactly the three kinds. */
  lemma IconKindRoundTrip(k: IconKind)
    ensures ParseIconKind(IconKindName(k)) == Some(k)
  {
  }

  datatype IconCacheItem = IconCacheItem(data: string, kind: IconKind, size: int)

  /** `Cache`: uploaded icons by cache key. */
  type Cache = map<string, IconCacheItem>

  /** `Data.sortBy`. */
  datatype SortBy = Unsorted | ByName | ByIcon | ByLastUsed

  function SortByName(s: SortBy): string {
    match s
    case Unsorted => "none"
    case ByName => "name"
    case ByIcon => "icon"
    case ByLastUsed => "lastUsed"
  }

  function ParseSortBy(s: string): (r: Option<SortBy>)
    ensures r.Some? <==> s in {"none", "name", "icon", "lastUsed"}
  {
    match s
    case "none" => Some(Unsorted)
    case "name" => Some(ByName)
    case "icon" => Some(ByIcon)
    case "lastUsed" => Some(ByLastUsed)
    case _ => None
  }

  lemma SortByRoundTrip(s: SortBy)
    ensures ParseSortBy(SortByName(s)) == Some(s)
  {
  }

  datatype Data = Data(
    columns: int,
    links: seq<Link>,
    visible: bool,
    linkOpenStyle: bool,
    linksNumbered: bool,
    customWidth: int,
    customHeight: Option<int>,
    sortBy: SortBy,
    iconifyIdentifier: string,
    iconifyValue: Option<string>,
    conserveAspectRatio: Option<bool>)

  const IconifyFeather: string := "feather:"

  /** `defaultData`. */
  function DefaultData(): (d: Data)
    ensures |d.links| == 1 && d.links[0].id == "default-link"
    ensures d.links[0].url == "https://github.com/BookCatKid/TablissNG"
    ensures d.links[0].name == Some("TablissNG") && d.links[0].icon.None?
    ensures d.columns == 1 && d.visible && !d.linkOpenStyle && !d.linksNumbered
    ensures d.customWidth == 24 && d.customHeight == Some(24)
    ensures d.sortBy == Unsorted && SortByName(d.sortBy) == "none"
    ensures d.iconifyIdentifier == IconifyFeather && d.iconifyValue.None?
    ensures d.conserveAspectRatio == Some(false)
  {
    Data(1,
         [NewLink("default-link", "https://github.com/BookCatKid/TablissNG").(name := Some("TablissNG"))],
         true, false, false, 24, Some(24), Unsorted, IconifyFeather, None, Some(false))
  }

  /** `defaultCache`. */
  function DefaultCache(): (c: Cache)
    ensures |c| == 0
  {
    map[]
  }
}
