/**
 * The application root: waiting for the two stores, reporting their failures,
 * applying the theme and the startup highlighting rule, and choosing what to render.
 */
module App {
  import opened Wrappers
  import opened Theme
  import opened Host
  import SystemSettings
  import Seqs
  import Text

  /** The settings database ("db") and the cache database. */
  datatype StoreKind = SettingsStore | CacheStore

  /** Opening the store failed, or a later write reported on its error stream failed. */
  datatype StoreFailure = OpenFailed | WriteFailed

  // The two openings the messages start with.
  const CannotSave: string := "Cannot save"
  const CannotOpen: string := "Cannot open"

  /** The message pushed for each store failure. */
  function ErrorMessage(kind: StoreKind, failure: StoreFailure): (message: string)
    ensures failure == WriteFailed ==> Text.StartsWith(message, CannotSave)
    ensures failure == OpenFailed ==> Text.StartsWith(message, CannotOpen)
  {
    match (kind, failure)
    case (SettingsStore, WriteFailed) => CannotSave + " your settings. You may have hit the maximum storage capacity."
    case (SettingsStore, OpenFailed) => CannotOpen + " settings storage. Your settings cannot be loaded or saved."
    case (CacheStore, WriteFailed) => CannotSave + " cache. Start up performance may be degraded."
    case (CacheStore, OpenFailed) => CannotOpen + " cache. Start up performance may be degraded."
  }

  /** Each store failure has a message of its own. */
  lemma ErrorMessagesDistinct(k1: StoreKind, f1: StoreFailure, k2: StoreKind, f2: StoreFailure)
    ensures ErrorMessage(k1, f1) == ErrorMessage(k2, f2) <==> k1 == k2 && f1 == f2
  {
    var m1, m2 := ErrorMessage(k1, f1), ErrorMessage(k2, f2);
    if f1 != f2 {
      assert CannotSave[7] != CannotOpen[7];
      assert m1[..|CannotSave|] != m2[..|CannotSave|];
    } else if k1 != k2 {
      assert |ErrorMessage(SettingsStore, f1)| > |ErrorMessage(CacheStore, f1)|;
    }
  }

  /** Only failures of the settings store raise the store-error dialog. */
  function RaisesErrorFlag(kind: StoreKind): (raises: bool)
    ensures raises <==> kind == SettingsStore
  {
    kind == SettingsStore
  }

  /** The message a store that settles reports: none when it opened. */
  function OpenReport(kind: StoreKind, isOpen: bool): (messages: seq<string>)
    ensures isOpen <==> messages == []
    ensures !isOpen ==> messages == [ErrorMessage(kind, OpenFailed)]
  {
    if isOpen then [] else [ErrorMessage(kind, OpenFailed)]
  }

  /** What happened at startup, in order. */
  datatype Step = MarkedReady | RanMigration | ScheduledHighlighting | Unsubscribed(kind: StoreKind)

  class Root {
    var ready: bool
    var error: bool
    var pushedErrors: seq<string>
    var settingsSubscribed: bool
    var cacheSubscribed: bool
    var steps: seq<Step>

    constructor ()
      ensures !ready && !error && pushedErrors == [] && steps == []
      ensures !settingsSubscribed && !cacheSubscribed
    {
      ready := false;
      error := false;
      pushedErrors := [];
      settingsSubscribed := false;
      cacheSubscribed := false;
      steps := [];
    }

    predicate Subscribed(kind: StoreKind)
      reads this
    {
      if kind == SettingsStore then settingsSubscribed else cacheSubscribed
    }

    /** `handleError(message, showError)`: always push the message; raise the flag only when asked. */
    method HandleError(message: string, showError: bool)
      modifies this`pushedErrors, this`error
      ensures pushedErrors == old(pushedErrors) + [message]
      ensures error == (old(error) || showError)
    {
      pushedErrors := pushedErrors + [message];
      if showError {
        error := true;
      }
    }

    /** The handler attached to one store for one kind of failure. */
    method ReportStoreFailure(kind: StoreKind, failure: StoreFailure)
      modifies this`pushedErrors, this`error
      ensures pushedErrors == old(pushedErrors) + [ErrorMessage(kind, failure)]
      ensures error == (old(error) || kind == SettingsStore)
    {
      HandleError(ErrorMessage(kind, failure), RaisesErrorFlag(kind));
    }

    /**
     * Both stores have settled, each either opened (and its error stream
     * subscribed) or failed to open. The two open handlers run in whichever order
     * the stores settle; after both, the root is ready, migration runs and the
     * highlighting rule is scheduled.
     */
    method StoresSettled(settingsOpened: bool, cacheOpened: bool, settingsSettledFirst: bool)
      modifies this`ready, this`steps, this`pushedErrors, this`error, this`settingsSubscribed, this`cacheSubscribed
      ensures settingsSubscribed == settingsOpened && cacheSubscribed == cacheOpened
      ensures ready
      ensures error == (old(error) || !settingsOpened)
      ensures pushedErrors == old(pushedErrors) +
        if settingsSettledFirst then OpenReport(SettingsStore, settingsOpened) + OpenReport(CacheStore, cacheOpened)
        else OpenReport(CacheStore, cacheOpened) + OpenReport(SettingsStore, settingsOpened)
      ensures steps == old(steps) + [MarkedReady, RanMigration, ScheduledHighlighting]
    {
      var settingsReport, cacheReport := OpenReport(SettingsStore, settingsOpened), OpenReport(CacheStore, cacheOpened);
      if settingsSettledFirst {
        SettleOne(SettingsStore, settingsOpened);
        SettleOne(CacheStore, cacheOpened);
        Seqs.ConcatAssoc(old(pushedErrors), settingsReport, cacheReport);
      } else {
        SettleOne(CacheStore, cacheOpened);
        SettleOne(SettingsStore, settingsOpened);
        Seqs.ConcatAssoc(old(pushedErrors), cacheReport, settingsReport);
      }
      ready := true;
      steps := steps + [MarkedReady, RanMigration, ScheduledHighlighting];
    }

    /** One store settles: subscribe to its error stream, or report that it could not be opened. */
    method SettleOne(kind: StoreKind, isOpen: bool)
      modifies this`pushedErrors, this`error, this`settingsSubscribed, this`cacheSubscribed
      ensures Subscribed(kind) == isOpen
      ensures kind == SettingsStore ==> cacheSubscribed == old(cacheSubscribed)
      ensures kind == CacheStore ==> settingsSubscribed == old(settingsSubscribed)
      ensures pushedErrors == old(pushedErrors) + OpenReport(kind, isOpen)
      ensures error == (old(error) || (!isOpen && kind == SettingsStore))
    {
      if isOpen {
        if kind == SettingsStore {
          settingsSubscribed := true;
        } else {
          cacheSubscribed := true;
        }
      } else {
        if kind == SettingsStore {
          settingsSubscribed := false;
        } else {
          cacheSubscribed := false;
        }
        ReportStoreFailure(kind, OpenFailed);
      }
    }

    /** A store's error stream reports a failed write; it reaches the handler only while subscribed. */
    method StreamError(kind: StoreKind)
      modifies this`pushedErrors, this`error
      ensures Subscribed(kind) ==>
        pushedErrors == old(pushedErrors) + [ErrorMessage(kind, WriteFailed)]
        && error == (old(error) || kind == SettingsStore)
      ensures !Subscribed(kind) ==> pushedErrors == old(pushedErrors) && error == old(error)
    {
      if Subscribed(kind) {
        ReportStoreFailure(kind, WriteFailed);
      }
    }

    /**
     * Unmounting removes whichever error subscriptions exist. The effect's cleanup
     * waits for the same `subscriptions` promise as the ready callback, which was
     * attached first, so its body runs only once the root is ready.
     */
    method Cleanup()
      requires ready
      modifies this`settingsSubscribed, this`cacheSubscribed, this`steps
      ensures !settingsSubscribed && !cacheSubscribed
      ensures steps == old(steps)
        + (if old(settingsSubscribed) then [Unsubscribed(SettingsStore)] else [])
        + (if old(cacheSubscribed) then [Unsubscribed(CacheStore)] else [])
    {
      var removed: seq<Step> := [];
      if settingsSubscribed {
        removed := removed + [Unsubscribed(SettingsStore)];
        settingsSubscribed := false;
      }
      if cacheSubscribed {
        removed := removed + [Unsubscribed(CacheStore)];
        cacheSubscribed := false;
      }
      steps := steps + removed;
    }

    /** Closing the store-error dialog. */
    method DismissStoreError()
      modifies this`error
      ensures !error
    {
      error := false;
    }
  }

  /** After cleanup no stream error reaches the handlers. */
  method ErrorsAfterCleanupAreIgnored(root: Root, kind: StoreKind)
    requires root.ready
    modifies root
    ensures root.pushedErrors == old(root.pushedErrors) && root.error == old(root.error)
  {
    root.Cleanup();
    root.StreamError(kind);
  }

  /** The theme effect: set the body class from the stored preference. */
  method ApplyTheme(h: HostState, systemIsDark: bool)
    modifies h`bodyClassName, h`writes
    ensures h.bodyClassName == BodyClass(IsDark(h.themePreference, systemIsDark))
    ensures h.writes == old(h.writes) + [BodyClassWrite(h.bodyClassName)]
  {
    var isDark := if h.themePreference == System then systemIsDark else h.themePreference == Dark;
    h.bodyClassName := if isDark then "dark" else "";
    h.writes := h.writes + [BodyClassWrite(h.bodyClassName)];
  }

  /** Changing the theme in the settings panel and the root's effect that follows agree on the body class. */
  method ThemeChangeThenEffect(h: HostState, value: ThemePreference, systemIsDark: bool)
    modifies h`themePreference, h`bodyClassName, h`writes
    ensures h.themePreference == value
    ensures h.bodyClassName == BodyClass(IsDark(value, systemIsDark))
    ensures h.writes == old(h.writes)
      + [StoreWrite("themePreference"), BodyClassWrite(h.bodyClassName), BodyClassWrite(h.bodyClassName)]
  {
    SystemSettings.HandleThemeChange(h, value, systemIsDark);
    ApplyTheme(h, systemIsDark);
  }

  /** The startup rule: highlighting is allowed unless it was explicitly turned off. */
  function StartupUserSelect(stored: Option<bool>): (u: UserSelect)
    ensures u == NoSelect <==> stored == Some(false)
  {
    if stored.None? || stored.value then Auto else NoSelect
  }

  /** Once a value is stored, startup and the settings checkbox choose the same style. */
  lemma StartupAgreesWithToggle(checked: bool)
    ensures StartupUserSelect(Some(checked)) == SystemSettings.UserSelectFor(checked)
    ensures StartupUserSelect(None) == SystemSettings.UserSelectFor(true)
  {
  }

  /** The scheduled startup highlighting: restyle `.Widgets`, if present, from the stored value. */
  method ApplyStartupHighlighting(h: HostState)
    modifies h`widgetsUserSelect, h`writes
    ensures h.hasWidgetsElement ==>
      h.widgetsUserSelect == Some(StartupUserSelect(h.highlightingEnabled))
      && h.writes == old(h.writes) + [UserSelectWrite(StartupUserSelect(h.highlightingEnabled))]
    ensures !h.hasWidgetsElement ==> h.widgetsUserSelect == old(h.widgetsUserSelect) && h.writes == old(h.writes)
  {
    if h.hasWidgetsElement {
      var checked := h.highlightingEnabled;
      if checked.None? || checked.value {
        h.widgetsUserSelect := Some(Auto);
      } else {
        h.widgetsUserSelect := Some(NoSelect);
      }
      h.writes := h.writes + [UserSelectWrite(h.widgetsUserSelect.value)];
    }
  }

  function ShowsDashboard(ready: bool): (shown: bool)
    ensures shown == ready
  {
    ready
  }

  function ShowsSettings(ready: bool, settingsOpen: bool): (shown: bool)
    ensures shown ==> ShowsDashboard(ready)
    ensures shown <==> ready && settingsOpen
  {
    ready && settingsOpen
  }
}
