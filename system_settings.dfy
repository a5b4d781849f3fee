/** The System settings panel: theme, highlighting, settings-icon position and the plain store-bound inputs. */
module SystemSettings {
  import opened Wrappers
  import opened Theme
  import opened Host

  /** The position buttons, in order. */
  const Positions: seq<Position> := [TopLeft, TopRight, BottomLeft, BottomRight]

  /** The four buttons are four different positions, one for each. */
  lemma PositionsDistinct(p: Position)
    ensures |Positions| == 4 && p in Positions
    ensures forall i, j :: 0 <= i < j < |Positions| ==> Positions[i] != Positions[j]
  {
  }

  /** A position button is highlighted when it is the stored position. */
  predicate PositionPrimary(button: Position, stored: Position) {
    button == stored
  }

  /** Exactly one position button is highlighted. */
  lemma ExactlyOnePositionPrimary(stored: Position)
    ensures exists i :: 0 <= i < |Positions| && PositionPrimary(Positions[i], stored)
    ensures forall i, j ::
      (0 <= i < |Positions| && 0 <= j < |Positions|
       && PositionPrimary(Positions[i], stored) && PositionPrimary(Positions[j], stored)) ==> i == j
  {
    match stored
    case TopLeft => assert PositionPrimary(Positions[0], stored);
    case TopRight => assert PositionPrimary(Positions[1], stored);
    case BottomLeft => assert PositionPrimary(Positions[2], stored);
    case BottomRight => assert PositionPrimary(Positions[3], stored);
  }

  /** The `userSelect` the highlighting checkbox asks for. */
  function UserSelectFor(checked: bool): (u: UserSelect)
    ensures u == Auto <==> checked
  {
    if checked then Auto else NoSelect
  }

  /** `setHighlighting(checked)`: store the value, then restyle `.Widgets` if it exists. */
  method SetHighlighting(h: HostState, checked: bool)
    modifies h`highlightingEnabled, h`widgetsUserSelect, h`writes
    ensures h.highlightingEnabled == Some(checked)
    ensures h.hasWidgetsElement ==>
      h.widgetsUserSelect == Some(UserSelectFor(checked))
      && h.writes == old(h.writes) + [StoreWrite("highlightingEnabled"), UserSelectWrite(UserSelectFor(checked))]
    ensures !h.hasWidgetsElement ==>
      h.widgetsUserSelect == old(h.widgetsUserSelect) && h.writes == old(h.writes) + [StoreWrite("highlightingEnabled")]
  {
    h.highlightingEnabled := Some(checked);
    h.writes := h.writes + [StoreWrite("highlightingEnabled")];
    if h.hasWidgetsElement {
      if checked {
        h.widgetsUserSelect := Some(Auto);
      } else {
        h.widgetsUserSelect := Some(NoSelect);
      }
      h.writes := h.writes + [UserSelectWrite(h.widgetsUserSelect.value)];
    }
  }

  /** `handleThemeChange(value)`: store the preference, then set the body class it implies. */
  method HandleThemeChange(h: HostState, value: ThemePreference, systemIsDark: bool)
    modifies h`themePreference, h`bodyClassName, h`writes
    ensures h.themePreference == value
    ensures h.bodyClassName == "dark" <==> IsDark(value, systemIsDark)
    ensures h.bodyClassName == BodyClass(IsDark(value, systemIsDark))
    ensures h.writes == old(h.writes) + [StoreWrite("themePreference"), BodyClassWrite(h.bodyClassName)]
  {
    h.themePreference := value;
    h.writes := h.writes + [StoreWrite("themePreference")];
    var isDark := if value == System then systemIsDark else value == Dark;
    h.bodyClassName := if isDark then "dark" else "";
    h.writes := h.writes + [BodyClassWrite(h.bodyClassName)];
  }

  method SetSettingsIconPosition(h: HostState, p: Position)
    modifies h`settingsIconPosition, h`writes
    ensures h.settingsIconPosition == p && PositionPrimary(p, h.settingsIconPosition)
    ensures h.writes == old(h.writes) + [StoreWrite("settingsIconPosition")]
  {
    h.settingsIconPosition := p;
    h.writes := h.writes + [StoreWrite("settingsIconPosition")];
  }

  method SetLocale(h: HostState, locale: string)
    modifies h`locale, h`writes
    ensures h.locale == locale && h.writes == old(h.writes) + [StoreWrite("locale")]
  {
    h.locale := locale;
    h.writes := h.writes + [StoreWrite("locale")];
  }

  method SetTimeZone(h: HostState, timeZone: Option<string>)
    modifies h`timeZone, h`writes
    ensures h.timeZone == timeZone && h.writes == old(h.writes) + [StoreWrite("timeZone")]
  {
    h.timeZone := timeZone;
    h.writes := h.writes + [StoreWrite("timeZone")];
  }

  method SetHideSettingsIcon(h: HostState, checked: bool)
    modifies h`hideSettingsIcon, h`writes
    ensures h.hideSettingsIcon == checked && h.writes == old(h.writes) + [StoreWrite("hideSettingsIcon")]
  {
    h.hideSettingsIcon := checked;
    h.writes := h.writes + [StoreWrite("hideSettingsIcon")];
  }

  method SetAutoHideSettings(h: HostState, checked: bool)
    modifies h`autoHideSettings, h`writes
    ensures h.autoHideSettings == checked && h.writes == old(h.writes) + [StoreWrite("autoHideSettings")]
  {
    h.autoHideSettings := checked;
    h.writes := h.writes + [StoreWrite("autoHideSettings")];
  }
}
