/**
 * What the settings panel and the application root share: the values of the
 * settings store they read and write, the parts of the document they change, and
 * the order in which those writes happen.
 */
module Host {
  import opened Wrappers
  import opened Theme

  datatype Position = TopLeft | TopRight | BottomLeft | BottomRight

  /** The `.Widgets` element's `style.userSelect`: "auto" or "none". */
  datatype UserSelect = Auto | NoSelect

  datatype Write =
    | StoreWrite(key: string)
    | BodyClassWrite(className: string)
    | UserSelectWrite(value: UserSelect)

  class HostState {
    // Settings store ("db") keys bound by the views. `highlightingEnabled` is absent until first set.
    var locale: string
    var timeZone: Option<string>
    var themePreference: ThemePreference
    var highlightingEnabled: Option<bool>
    var hideSettingsIcon: bool
    var settingsIconPosition: Position
    var autoHideSettings: bool

    // Document state.
    var bodyClassName: string
    var hasWidgetsElement: bool
    var widgetsUserSelect: Option<UserSelect>

    // Store and document writes, oldest first.
    var writes: seq<Write>

    constructor (theme: ThemePreference, highlighting: Option<bool>, position: Position, hasWidgets: bool)
      ensures themePreference == theme && highlightingEnabled == highlighting
      ensures settingsIconPosition == position && hasWidgetsElement == hasWidgets
      ensures locale == "en" && timeZone.None? && !hideSettingsIcon && !autoHideSettings
      ensures bodyClassName == "" && widgetsUserSelect.None? && writes == []
    {
      locale := "en";
      timeZone := None;
      themePreference := theme;
      highlightingEnabled := highlighting;
      hideSettingsIcon := false;
      settingsIconPosition := position;
      autoHideSettings := false;
      bodyClassName := "";
      hasWidgetsElement := hasWidgets;
      widgetsUserSelect := None;
      writes := [];
    }
  }
}
