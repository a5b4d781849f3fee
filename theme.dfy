/** The dark-theme rule shared by the settings panel and the application root. */
module Theme {

  datatype ThemePreference = Light | Dark | System

  /** `value === 'system' ? systemIsDark : value === 'dark'`. */
  function IsDark(preference: ThemePreference, systemIsDark: bool): (dark: bool)
    ensures dark <==> (preference == System && systemIsDark) || preference == Dark
  {
    if preference == System then systemIsDark else preference == Dark
  }

  /** The class given to `document.body`. */
  function BodyClass(dark: bool): (className: string)
    ensures className == "dark" <==> dark
    ensures !dark ==> className == ""
  {
    if dark then "dark" else ""
  }

  /** Light is never dark, dark always is, and system follows the operating system. */
  lemma PreferenceCases(systemIsDark: bool)
    ensures !IsDark(Light, systemIsDark) && IsDark(Dark, systemIsDark)
    ensures IsDark(System, systemIsDark) == systemIsDark
  {
  }
}
