/**
 * The bookmarks widget: whether a tree node is shown expanded, what a click on it
 * does, the title it displays, and the drill-down navigation stack.
 */
module Bookmarks {
  import opened Wrappers
  import opened Seqs
  import opened Text

  datatype NavigationStyle = DrillDown | ExpandCollapse | AutoExpanded

  /** A node of the browser's bookmark tree: a folder has no (or an empty) url. */
  datatype BookmarkNode = BookmarkNode(id: string, title: Option<string>, url: Option<string>,
                                       children: seq<BookmarkNode>)

  /** `!node.url`. */
  predicate IsFolder(node: BookmarkNode) {
    node.url.None? || node.url.value == ""
  }

  /**
   * What a `Node` is given besides the node itself: the navigation style, whether
   * expanded folders are remembered, whether a setter for them was passed, the
   * remembered ids, and the node's own local expanded state. The widget passes the
   * stored `rememberExpanded` and `expandedFolders` through, and either may be unset.
   */
  datatype NodeView = NodeView(style: NavigationStyle, rememberExpanded: Option<bool>, hasSetter: bool,
                               expandedFolders: Option<seq<string>>, localExpanded: bool)

  /** The props' defaults: remembering is on and no folder is remembered unless stated. */
  function RememberSetting(v: NodeView): bool { v.rememberExpanded.GetOr(true) }
  function ExpandedIds(v: NodeView): seq<string> { v.expandedFolders.GetOr([]) }

  /** Expansion is remembered in the settings only with remembering on and a setter given. */
  predicate Remembers(v: NodeView) {
    RememberSetting(v) && v.hasSetter
  }

  /** An unset `rememberExpanded` behaves as `true`, and an unset list as the empty one. */
  lemma UnsetDefaults(v: NodeView)
    ensures v.rememberExpanded.None? ==> (Remembers(v) <==> v.hasSetter)
    ensures v.expandedFolders.None? ==> forall id :: id !in ExpandedIds(v)
  {
  }

  /** `isExpanded` in `Node`. */
  function IsExpanded(node: BookmarkNode, v: NodeView): (r: bool)
    ensures v.style == AutoExpanded ==> r
    ensures v.style != AutoExpanded && !IsFolder(node) ==> !r
    ensures v.style == DrillDown ==> !r
    ensures v.style == ExpandCollapse && IsFolder(node) && Remembers(v) ==> (r <==> node.id in ExpandedIds(v))
    ensures v.style == ExpandCollapse && IsFolder(node) && !Remembers(v) ==> r == v.localExpanded
  {
    if v.style == AutoExpanded then true
    else if !IsFolder(node) then false
    else if v.style == ExpandCollapse then
      if Remembers(v) then node.id in ExpandedIds(v) else v.localExpanded
    else false
  }

  /** What `handleClick` asks for. */
  datatype ClickEffect =
    | NoEffect
    | OpenFolder(folderId: string)               // onFolderClick(node.id)
    | SetExpandedFolders(ids: seq<string>)      // setExpandedFolders(ids)
    | ToggleLocalExpanded                        // setLocalExpanded(exp => !exp)

  /** `handleClick` in `Node`. */
  function HandleClick(node: BookmarkNode, v: NodeView): (e: ClickEffect)
    ensures !IsFolder(node) ==> e == NoEffect
    ensures v.style == AutoExpanded ==> e == NoEffect
    ensures IsFolder(node) && v.style == DrillDown ==> e == OpenFolder(node.id)
    ensures IsFolder(node) && v.style == ExpandCollapse && !Remembers(v) ==> e == ToggleLocalExpanded
    ensures IsFolder(node) && v.style == ExpandCollapse && Remembers(v) ==>
      e.SetExpandedFolders? &&
      if node.id in ExpandedIds(v) then
        node.id !in e.ids && IsSubsequence(e.ids, ExpandedIds(v))
        && forall x :: x != node.id ==> multiset(e.ids)[x] == multiset(ExpandedIds(v))[x]
      else e.ids == ExpandedIds(v) + [node.id]
  {
    if !IsFolder(node) then NoEffect
    else if v.style == DrillDown then OpenFolder(node.id)
    else if v.style == ExpandCollapse then
      if Remembers(v) then
        if IsExpanded(node, v) then SetExpandedFolders(RemoveAll(ExpandedIds(v), node.id))
        else SetExpandedFolders(ExpandedIds(v) + [node.id])
      else ToggleLocalExpanded
    else NoEffect
  }

  /**
   * The node's view once the click's effect has been applied: the widget stores
   * the new list, or the node flips its local state. Navigation is the parent's business.
   */
  function AfterClick(v: NodeView, e: ClickEffect): (w: NodeView)
    ensures e.SetExpandedFolders? ==> w == v.(expandedFolders := Some(e.ids))
    ensures e == ToggleLocalExpanded ==> w == v.(localExpanded := !v.localExpanded)
    ensures e.NoEffect? || e.OpenFolder? ==> w == v
  {
    match e
    case SetExpandedFolders(ids) => v.(expandedFolders := Some(ids))
    case ToggleLocalExpanded => v.(localExpanded := !v.localExpanded)
    case _ => v
  }

  /** In expand-collapse mode a click on a folder flips whether it is expanded. */
  lemma ClickFlipsExpanded(node: BookmarkNode, v: NodeView)
    requires IsFolder(node) && v.style == ExpandCollapse
    ensures IsExpanded(node, AfterClick(v, HandleClick(node, v))) == !IsExpanded(node, v)
  {
  }

  /**
   * Two clicks on a collapsed folder give back the view it started with, except
   * that a remembered list left unset is now stored as the list it stood for.
   */
  lemma TwoClicksRestore(node: BookmarkNode, v: NodeView)
    requires IsFolder(node) && v.style == ExpandCollapse
    requires node.id !in ExpandedIds(v)
    ensures var once := AfterClick(v, HandleClick(node, v));
            AfterClick(once, HandleClick(node, once))
              == if Remembers(v) then v.(expandedFolders := Some(ExpandedIds(v))) else v
  {
    if Remembers(v) {
      RemoveAllAppended(ExpandedIds(v), node.id);
    }
  }

  const UntitledFolder: string := "(Untitled Folder)"

  /**
   * `displayTitle` in `Node`. `shortName` stands for
   * `truncateText(cleanTitle(title, url), maxTextLength)`, whose code is not part of
   * this model; an absent title renders as nothing.
   */
  function DisplayTitle(node: BookmarkNode, shortNames: bool, shortName: string): (t: string)
    ensures IsFolder(node) && (node.title.None? || IsBlank(node.title.value)) ==> t == UntitledFolder
    ensures IsFolder(node) && node.title.Some? && !IsBlank(node.title.value) ==> t == node.title.value
    ensures !IsFolder(node) && shortNames ==> t == shortName
    ensures !IsFolder(node) && !shortNames ==> t == node.title.GetOr("")
  {
    if IsFolder(node) then
      if node.title.Some? then
        TrimEmptyIffBlank(node.title.value);
        if Trim(node.title.value) != "" then node.title.value else UntitledFolder
      else UntitledFolder
    else if shortNames && node.url.Some? && node.url.value != "" then shortName
    else node.title.GetOr("")
  }

  /** The drill-down state of `Bookmarks`: the folders entered, root first, and the current folder's id. */
  class Navigator {
    var stack: seq<BookmarkNode>
    var currentFolder: Option<string>

    constructor ()
      ensures stack == [] && currentFolder == None
    {
      stack := [];
      currentFolder := None;
    }

    /** Permission granted and tree loaded: `data.rootBookmark || null` becomes current, the tree the only entry. */
    method ShowTree(rootBookmark: Option<string>, tree: BookmarkNode)
      modifies this
      ensures currentFolder == if rootBookmark.Some? && rootBookmark.value != "" then rootBookmark else None
      ensures stack == [tree]
    {
      currentFolder := if rootBookmark.Some? && rootBookmark.value != "" then rootBookmark else None;
      stack := [tree];
    }

    /** `navigateToFolder`, given the subtree the browser returned for `folderId`. */
    method NavigateToFolder(folderId: string, subtree: BookmarkNode)
      modifies this
      ensures stack == old(stack) + [subtree]
      ensures currentFolder == Some(folderId)
      ensures CurrentEntries() == subtree.children
      ensures old(stack) != [] ==> ShowsParentEntry()
    {
      currentFolder := Some(folderId);
      stack := stack + [subtree];
    }

    /** `navigateBack`: pop, but never the last entry; the new top becomes current. */
    method NavigateBack()
      modifies this
      ensures |old(stack)| > 1 ==>
        stack == old(stack)[..|old(stack)| - 1] && currentFolder == Some(stack[|stack| - 1].id)
      ensures |old(stack)| <= 1 ==> stack == old(stack) && currentFolder == old(currentFolder)
      ensures |old(stack)| >= 1 ==> |stack| >= 1
      ensures stack != old(stack) <==> old(ShowsParentEntry())
    {
      if |stack| > 1 {
        var newStack := stack[..|stack| - 1];
        stack := newStack;
        var previousFolder := newStack[|newStack| - 1];
        currentFolder := Some(previousFolder.id);
      }
    }

    /**
     * The ".." entry is offered exactly when there is somewhere to go back to:
     * `NavigateBack` changes the stack exactly when this holds.
     */
    function ShowsParentEntry(): (shown: bool)
      reads this
      ensures shown <==> |stack| > 1
    {
      |stack| > 1
    }

    /** The entries listed in drill-down mode: the children of the top of the stack. */
    function CurrentEntries(): (entries: seq<BookmarkNode>)
      reads this
      ensures stack != [] ==> entries == stack[|stack| - 1].children
      ensures stack == [] ==> entries == []
    {
      if stack == [] then [] else stack[|stack| - 1].children
    }
  }

  /** Entering a folder and going back returns to where the navigation was. */
  method EnterThenBack(nav: Navigator, folderId: string, subtree: BookmarkNode)
    requires |nav.stack| >= 1
    modifies nav
    ensures nav.stack == old(nav.stack)
    ensures nav.currentFolder == Some(old(nav.stack)[|old(nav.stack)| - 1].id)
    ensures nav.CurrentEntries() == old(nav.CurrentEntries())
    ensures nav.ShowsParentEntry() == old(nav.ShowsParentEntry())
  {
    nav.NavigateToFolder(folderId, subtree);
    nav.NavigateBack();
  }
}
