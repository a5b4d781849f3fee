# TablissNG widget rules in Dafny

TablissNG is a browser new-tab page assembled from background and widget
plugins. Each plugin has a settings form, and the settings live in the
extension's store. This project models the decision rules of several of those parts:

- **Unsplash background**: the image width it requests (`calculateWidth`). Also the
  query parameters that each `by` mode sends, the missing-API-key error, and how a
  response becomes a list of `Image`s.
- **Bookmarks widget**: whether a tree node is expanded in each navigation style,
  and what a click on a folder does (including the remembered `expandedFolders`).
  Also the title a node shows, and the drill-down navigation stack with its ".." entry.
- **Media background settings**: which uploaded files are kept, removal by index,
  and the "large media" warning at 2 MiB.
- **Links widget**: the stored records and their defaults (`types.ts`). In the link
  editor (`Input.tsx`): the icon-picker search, the migration of legacy icon values,
  the icon mode flags, which size inputs are shown, the updates the size inputs emit,
  and how an uploaded file lands in the icon cache.
- **Time and Notes settings forms**: each control replaces the settings record with
  one or two fields changed. The radio buttons and highlighted buttons mark exactly one
  choice as selected.
- **System settings panel and the application root**: the dark-theme rule, stated
  once (`Theme.IsDark`) and proved to be what both compute. The highlighting rule, both at startup and from the setting.
  How failures of the settings database and of the cache database are reported.
  When the dashboard and the settings are shown.

Pure code (decisions computed from props and data) is modelled as functions on
datatypes. Where the source changes state step by step, the model uses classes
whose methods say their new state in full: the Unsplash `URLSearchParams` object,
the bookmarks navigation state, the icon picker, the application root's state,
and the page's store values and document.

Calls into the browser (`fetch`, `FileReader`, `browser.bookmarks`, `Date.now`,
`window.matchMedia`) become parameters of the model. For example, a response is
a status and an already-parsed body. A file upload takes the reader's result and
the cache key as arguments. `HandleThemeChange` is given whether the system is dark.

The files are:

- `wrappers.dfy`: `Option` and `Result`.
- `seqs.dfy`: filter, remove-all and remove-at-index on sequences.
- `text.dfy`: ASCII lower-casing, ECMAScript whitespace, trim, `includes`, `join`.
- The modules themselves: `unsplash.dfy`, `bookmarks.dfy`, `media.dfy`,
  `link_types.dfy`, `link_input.dfy`, `time_settings.dfy`, `notes_settings.dfy`,
  `theme.dfy`, `host.dfy` (the page's store values and document),
  `system_settings.dfy` and `app.dfy`.

## Model

| member | source | states |
|---|---|---|
| Seqs.Filter | src/plugins/backgrounds/media/MediaSettings.tsx:22-25 | `Array.filter`: the result has exactly the elements satisfying the test. It keeps their order and their number of occurrences. |
| Seqs.FilterAppend | src/plugins/backgrounds/media/MediaSettings.tsx:22-25 | Filtering a concatenation is the same as concatenating the filtered parts. |
| Seqs.FilterKeepsAll | src/plugins/widgets/links/Input.tsx:84-90 | A test that every element passes keeps the whole list. |
| Seqs.RemoveAll | src/plugins/widgets/bookmarks/Bookmarks.tsx:90 | `filter(id => id !== v)`: `v` is gone, and every other element keeps its order and count. When `v` is absent, nothing changes. |
| Seqs.RemoveAllAppended | src/plugins/widgets/bookmarks/Bookmarks.tsx:90-92 | Removing an id that was just appended to a list that lacked it gives back the list. |
| Seqs.RemoveIndex | src/plugins/backgrounds/media/MediaSettings.tsx:27-28 | `filter((_, i) => index !== i)`: for an index in range, the list without that element; otherwise the list unchanged. |
| Text.LowerChar | src/plugins/widgets/links/Input.tsx:87 | Maps upper-case ASCII letters to lower case and leaves every other character alone. |
| Text.Lower | src/plugins/widgets/links/Input.tsx:87 | `toLowerCase` (ASCII part): same length, each character lowered. |
| Text.LowerIdempotent | src/plugins/widgets/links/Input.tsx:87-88 | Lowering twice is lowering once. |
| Text.TrimStart | src/plugins/widgets/bookmarks/Bookmarks.tsx:103 | The result is a suffix of the input, with only whitespace removed, and it does not start with whitespace. |
| Text.TrimEnd | src/plugins/widgets/bookmarks/Bookmarks.tsx:103 | The result is a prefix of the input, with only whitespace removed, and it does not end with whitespace. |
| Text.Trim | src/plugins/widgets/bookmarks/Bookmarks.tsx:103 | `trim()`: the result is a stretch of the input with only whitespace before and after it, and a non-empty result neither starts nor ends with whitespace. |
| Text.TrimEmptyIffBlank | src/plugins/widgets/bookmarks/Bookmarks.tsx:103 | `s.trim()` is empty exactly when every character of `s` is whitespace. |
| Text.ReplaceWhitespace | src/plugins/widgets/links/Input.tsx:85 | `replace(/\s/g, c)`: same length; whitespace characters become `c` and the others are kept. |
| Text.ContainsAt | src/plugins/widgets/links/Input.tsx:87-88 | `includes` holds exactly when the needle occurs at some position. |
| Text.ContainsEmpty | src/plugins/widgets/links/Input.tsx:87 | Every string includes the empty string. |
| Text.Join | src/plugins/backgrounds/unsplash/api.ts:35 | `join(",")` of no parts is empty, and of one part is that part. Otherwise it starts with the first part, and its length is the parts' total plus one separator between each pair of neighbours. |
| Text.JoinSnoc | src/plugins/backgrounds/unsplash/api.ts:35 | Joining one more part to a non-empty list appends the separator and that part. |
| Unsplash.CalculateWidth | src/plugins/backgrounds/unsplash/api.ts:103-110 | The width is a multiple of 240 within [1920, 3840]. It is the least such multiple at or above the clamped physical width. |
| Unsplash.Clamp | src/plugins/backgrounds/unsplash/api.ts:105-107 | Widths below 1920 become 1920, widths above 3840 become 3840, and the rest are kept. |
| Unsplash.DefaultWidth | src/plugins/backgrounds/unsplash/api.ts:103 | With the default arguments (1920, ratio 1) the width is 1920. |
| Unsplash.SnappedWidthIsFixed | src/plugins/backgrounds/unsplash/api.ts:106-108 | A width that is already an in-range multiple of 240 is returned unchanged. |
| Unsplash.AppendFacts | src/plugins/backgrounds/unsplash/api.ts:27-48 | Over a concatenation: the keys are the union, and a lookup finds the first part's entry first. Distinct keys are preserved when the parts share none. |
| Unsplash.DropKey | src/plugins/backgrounds/unsplash/api.ts:27-48 | Removing a key removes every entry with it and keeps the other entries. |
| Unsplash.Assign | src/plugins/backgrounds/unsplash/api.ts:27-48 | The list `URLSearchParams.set(k, v)` leaves: its keys are the old keys plus `k`, and keys stay distinct if they were. |
| Unsplash.AssignLookup | src/plugins/backgrounds/unsplash/api.ts:27-48 | After `set(k, v)`, `get(k)` is `v` and every other key reads as before. |
| Unsplash.DropKeyLookup | src/plugins/backgrounds/unsplash/api.ts:27-48 | After a key is removed it reads as absent, and other keys are unaffected. |
| Unsplash.AssignFresh | src/plugins/backgrounds/unsplash/api.ts:27-48 | `set` of a key not yet present appends one entry at the end. |
| Unsplash.SearchParams.constructor | src/plugins/backgrounds/unsplash/api.ts:18 | A new `URLSearchParams` has no entries. |
| Unsplash.SearchParams.Set | src/plugins/backgrounds/unsplash/api.ts:27-47 | `set` replaces the entries with the assigned list. |
| Unsplash.QueryFor | src/plugins/backgrounds/unsplash/api.ts:27-48 | The query starts with `count=10`, and every mode adds at least one more entry. |
| Unsplash.QueryForLookups | src/plugins/backgrounds/unsplash/api.ts:27-48 | For each mode, the exact set of keys and the value of each: `count=10` always. Collections sends the collections, and topics sends the joined topics with `orientation`. Search sends `orientation`, plus `featured` only when featured and `query` only for a non-empty search. Anything else asks for collection 1053828. Keys never repeat. |
| Unsplash.BuildParams | src/plugins/backgrounds/unsplash/api.ts:18-48 | The sequence of `params.set` calls produces exactly the query above. |
| Unsplash.PrepareRequest | src/plugins/backgrounds/unsplash/api.ts:17-27 | It fails with the missing-key message exactly when the key is empty. Otherwise it requests the random-photo endpoint with that query and `Client-ID <key>`. |
| Unsplash.ToImage | src/plugins/backgrounds/unsplash/api.ts:71-78 | Every credit field comes from its JSON field. The location is the location's name when present and absent otherwise. |
| Unsplash.ToImages | src/plugins/backgrounds/unsplash/api.ts:71 | `body.map`: one image per photo, in order. |
| Unsplash.ReduceResponse | src/plugins/backgrounds/unsplash/api.ts:55-83 | For a body that parsed as JSON: a non-200 status gives the single empty placeholder image. A 200 array gives one image per photo, in order. Any other 200 body gives no images. |
| Bookmarks.UnsetDefaults | src/plugins/widgets/bookmarks/Bookmarks.tsx:33-35 | An unset `rememberExpanded` counts as `true`, and an unset `expandedFolders` as the empty list. |
| Bookmarks.IsExpanded | src/plugins/widgets/bookmarks/Bookmarks.tsx:38-55 | Auto-expanded is always expanded, and a bookmark (non-folder) never is otherwise. Drill-down is never expanded. In expand-collapse, a folder is expanded iff its id is remembered (when remembering, which is the default, with a setter), else its local state decides. |
| Bookmarks.HandleClick | src/plugins/widgets/bookmarks/Bookmarks.tsx:82-99 | Bookmarks and auto-expanded folders do nothing, and drill-down opens the folder. In expand-collapse a click toggles local state, or else (when remembered) removes the id from, or appends it to, the remembered list. |
| Bookmarks.AfterClick | src/plugins/widgets/bookmarks/Bookmarks.tsx:88-96 | A new list is stored as the widget's `expandedFolders`, a local toggle flips the node's own state, and nothing else changes the view. |
| Bookmarks.ClickFlipsExpanded | src/plugins/widgets/bookmarks/Bookmarks.tsx:38-99 | In expand-collapse mode a click on a folder flips whether it is expanded. |
| Bookmarks.TwoClicksRestore | src/plugins/widgets/bookmarks/Bookmarks.tsx:88-96 | Two clicks on a collapsed folder give back the original view. The one difference: a remembered list that was unset is now stored as the empty list it stood for. |
| Bookmarks.DisplayTitle | src/plugins/widgets/bookmarks/Bookmarks.tsx:101-108 | A folder with a blank or missing title shows "(Untitled Folder)", and otherwise its title. A bookmark shows the short name when short names are on, and otherwise its title. |
| Bookmarks.Navigator.constructor | src/plugins/widgets/bookmarks/Bookmarks.tsx:167-168 | The stack starts empty and there is no current folder. |
| Bookmarks.Navigator.ShowTree | src/plugins/widgets/bookmarks/Bookmarks.tsx:173-182 | The current folder is `rootBookmark || null`, and the loaded tree is the only stack entry. |
| Bookmarks.Navigator.NavigateToFolder | src/plugins/widgets/bookmarks/Bookmarks.tsx:206-210 | The folder becomes current and its subtree is pushed. The listed entries are then its children, and ".." is offered whenever the stack was not empty. |
| Bookmarks.Navigator.NavigateBack | src/plugins/widgets/bookmarks/Bookmarks.tsx:212-220 | With more than one entry, it pops and the new top becomes current. Otherwise nothing changes, and so the stack never empties. The stack changes exactly when ".." was offered. |
| Bookmarks.Navigator.ShowsParentEntry | src/plugins/widgets/bookmarks/Bookmarks.tsx:243 | The ".." entry is shown iff there is more than one stack entry, which is exactly when `NavigateBack` changes the stack. |
| Bookmarks.Navigator.CurrentEntries | src/plugins/widgets/bookmarks/Bookmarks.tsx:248 | The entries listed are the children of the top of the stack. Entering a folder lists the folder's children, and going back lists the previous ones again. |
| Bookmarks.EnterThenBack | src/plugins/widgets/bookmarks/Bookmarks.tsx:206-220 | Entering a folder and going back restores the stack, the listed entries and the ".." entry. The folder that was on top becomes current. |
| Media.AddMedia | src/plugins/backgrounds/media/MediaSettings.tsx:21-25 | The old cache is kept as a prefix. What follows is exactly the chosen files of an accepted type (mp4, webm or ogg video, or any image), in order and with multiplicity. |
| Media.AddMediaAppends | src/plugins/backgrounds/media/MediaSettings.tsx:22 | `cache.concat(accepted)`: the new cache is the old one followed by the accepted files. |
| Media.AddMediaBatches | src/plugins/backgrounds/media/MediaSettings.tsx:21-25 | Adding two batches one after the other equals adding them together. |
| Media.RemoveMedia | src/plugins/backgrounds/media/MediaSettings.tsx:27-28 | An in-range index removes exactly that file and shifts the later ones down. An index out of range changes nothing. |
| Media.LargeMedia | src/plugins/backgrounds/media/MediaSettings.tsx:30 | The warning is on iff some stored file is larger than 2097152 bytes. |
| Media.ShowsAsVideo | src/plugins/backgrounds/media/MediaSettings.tsx:61 | A preview is a video only for an accepted file that is not an image, and every other accepted file is previewed as an image. |
| Media.RemoveNeverRaisesWarning | src/plugins/backgrounds/media/MediaSettings.tsx:27-30 | Removing a file can clear the warning but never raise it. |
| Media.UploadCount | src/plugins/backgrounds/media/MediaSettings.tsx:49 | The count shown is the number of stored files, and zero only when none are stored. |
| Media.CountAfterChange | src/plugins/backgrounds/media/MediaSettings.tsx:21-49 | Adding files raises the count by the number accepted, and so by at most the number chosen. Removing an in-range index lowers it by one; any other index leaves it alone. |
| LinkTypes.NewLink | src/plugins/widgets/links/types.ts:3-20 | A link with the given `id` and `url`, and every one of the thirteen optional fields unset. |
| LinkTypes.ParseIconKind | src/plugins/widgets/links/types.ts:24 | Exactly "image", "svg" and "ico" are cache item types. |
| LinkTypes.IconKindRoundTrip | src/plugins/widgets/links/types.ts:24 | Each kind's stored name reads back as that kind. |
| LinkTypes.ParseSortBy | src/plugins/widgets/links/types.ts:38 | Exactly "none", "name", "icon" and "lastUsed" are sort orders. |
| LinkTypes.SortByRoundTrip | src/plugins/widgets/links/types.ts:38 | Each order's stored name reads back as that order. |
| LinkTypes.DefaultData | src/plugins/widgets/links/types.ts:56-67 | One column, made visible. It holds one link ("default-link", named TablissNG). Width 24 and height 24, sort "none", icon set "feather:", and aspect ratio not conserved. |
| LinkTypes.DefaultCache | src/plugins/widgets/links/types.ts:69 | The default icon cache is empty. |
| LinkInput.ApplyPatch | src/plugins/widgets/links/Input.tsx:57 | Merging a partial update: the fields it sets take its values, and every other field is kept. |
| LinkInput.IconSelectHasIconOptions | src/plugins/widgets/links/Input.tsx:239-271 | The select's option values are, in order, none, the three favicon services, the four custom kinds and Feather. |
| LinkInput.SelectValues | src/plugins/widgets/links/Input.tsx:154-163 | With no select mounted, no values. Otherwise the values of its options, one each, in order. |
| LinkInput.IconMigration | src/plugins/widgets/links/Input.tsx:166-172 | No update for an absent or empty icon, or for a value the select offers other than `_favicon`. `_favicon` gets the `_favicon_google` update. Any other value gets a Feather update that keeps the old value as the Iconify name. |
| LinkInput.Migrate | src/plugins/widgets/links/Input.tsx:166-172 | `_favicon` becomes `_favicon_google`. Any other non-empty value the select does not offer becomes a Feather icon of that name (identifier "feather:"). Everything else is left alone. |
| LinkInput.MigratedIconIsOption | src/plugins/widgets/links/Input.tsx:166-271 | After migration the icon is absent or one of the select's options. |
| LinkInput.MigrationIdempotent | src/plugins/widgets/links/Input.tsx:166-172 | When the effect fires again on the migrated icon, it changes nothing. |
| LinkInput.MigrateOnIconChange | src/plugins/widgets/links/Input.tsx:154-172 | The effect reads the select's options and migrates against them. Before the select is mounted, it migrates against none. |
| LinkInput.Flags | src/plugins/widgets/links/Input.tsx:92-98 | At most one mode flag holds. One holds exactly for the seven mode values (Google or Favicone, Iconify, SVG, image URL, upload, Feather). |
| LinkInput.SizeInputsExclusive | src/plugins/widgets/links/Input.tsx:391-465 | The width/height inputs and the SVG size input are never shown together. |
| LinkInput.SizePatches | src/plugins/widgets/links/Input.tsx:420-480 | Scale and SVG size set width and height to the same number. The width and height inputs each set only their own dimension. |
| LinkInput.ReadModeFor | src/plugins/widgets/links/Input.tsx:147-151 | A file is read as text exactly when it is cached as an SVG icon, and as a data URL for the image and ico kinds. |
| LinkInput.UploadKind | src/plugins/widgets/links/Input.tsx:111-130 | `image/svg+xml` is stored as svg and `image/x-icon` as ico. Everything else is stored as image. |
| LinkInput.UploadSize | src/plugins/widgets/links/Input.tsx:108 | `customWidth || 24`: a set, non-zero width is kept, and otherwise 24. |
| LinkInput.UploadPatchEffect | src/plugins/widgets/links/Input.tsx:139-143 | The upload points the link at the new cache entry in upload mode and sets its width. Nothing else changes. |
| LinkInput.HandleFileUpload | src/plugins/widgets/links/Input.tsx:100-145 | No file means no effect. Otherwise the cache gains exactly the new key, with the file's data, kind and size, and every other entry is unchanged. The link update is the upload update. |
| LinkInput.FilteredIcons | src/plugins/widgets/links/Input.tsx:84-90 | An icon is listed iff its lowered name contains the lowered query, or the query with whitespace turned into dashes. The list keeps the icon list's order and count. |
| LinkInput.EmptySearchKeepsAll | src/plugins/widgets/links/Input.tsx:84-90 | An empty search lists every icon. |
| LinkInput.IconSelectPatch | src/plugins/widgets/links/Input.tsx:77-81 | Picking an icon sets the identifier and the icon name, and nothing else of the link. |
| LinkInput.IconPicker.constructor | src/plugins/widgets/links/Input.tsx:69-70 | The modal starts closed and the search empty. |
| LinkInput.IconPicker.OpenModal | src/plugins/widgets/links/Input.tsx:74 | Opens the modal and keeps the search. |
| LinkInput.IconPicker.CloseModal | src/plugins/widgets/links/Input.tsx:75 | Closes the modal and keeps the search. |
| LinkInput.IconPicker.SetSearchQuery | src/plugins/widgets/links/Input.tsx:70 | Replaces the search and keeps the modal's state. |
| LinkInput.IconPicker.SelectIcon | src/plugins/widgets/links/Input.tsx:77-81 | Emits the icon update and closes the modal. |
| LinkInput.IconPicker.ShownIcons | src/plugins/widgets/links/Input.tsx:84-90 | Lists exactly the icons matching the current search, in their order and each as often as it occurs. An empty search lists them all. |
| TimeSettings.SameEverywhere | src/plugins/widgets/time/TimeSettings.tsx:20 | Two records that agree on every field are equal. |
| TimeSettings.SetName | src/plugins/widgets/time/TimeSettings.tsx:20 | Sets the name and keeps every other field. |
| TimeSettings.SetTimeZone | src/plugins/widgets/time/TimeSettings.tsx:28 | Sets the time zone and keeps every other field. |
| TimeSettings.ToggleHideTime | src/plugins/widgets/time/TimeSettings.tsx:36 | Flips `hideTime` and keeps every other field. |
| TimeSettings.SelectAnalogue | src/plugins/widgets/time/TimeSettings.tsx:51 | Only the analogue radio is then checked. Only the mode changes. |
| TimeSettings.SelectTwelveHour | src/plugins/widgets/time/TimeSettings.tsx:79 | Only the 12-hour radio is then checked. Only the mode and `hour12` change. |
| TimeSettings.SelectTwentyFourHour | src/plugins/widgets/time/TimeSettings.tsx:92 | Only the 24-hour radio is then checked. Only the mode and `hour12` change. |
| TimeSettings.ToggleColorCircles | src/plugins/widgets/time/TimeSettings.tsx:65 | Flips `colorCircles` and keeps every other field. |
| TimeSettings.ToggleShowSeconds | src/plugins/widgets/time/TimeSettings.tsx:105 | Flips `showSeconds` and keeps every other field. |
| TimeSettings.ToggleShowMinutes | src/plugins/widgets/time/TimeSettings.tsx:118 | Flips `showMinutes` and keeps every other field. |
| TimeSettings.ToggleShowDayPeriod | src/plugins/widgets/time/TimeSettings.tsx:132-134 | Flips `showDayPeriod` and keeps every other field. |
| TimeSettings.ToggleShowDate | src/plugins/widgets/time/TimeSettings.tsx:150 | Flips `showDate` and keeps every other field. |
| TimeSettings.TogglesAreInvolutions | src/plugins/widgets/time/TimeSettings.tsx:36-150 | Clicking any checkbox twice restores the settings. |
| TimeSettings.ExactlyOneRadio | src/plugins/widgets/time/TimeSettings.tsx:50-92 | Exactly one of analogue, 12-hour and 24-hour is checked. |
| TimeSettings.DisplayTimeChecked | src/plugins/widgets/time/TimeSettings.tsx:32-45 | "Display time" is checked exactly when the mode radios are offered. When checked, the seconds and minutes boxes are offered too. |
| TimeSettings.DisplayTimeClick | src/plugins/widgets/time/TimeSettings.tsx:32-45 | Clicking "Display time" flips the box. When it becomes checked, each clock option is offered as the clock mode decides. When it becomes unchecked, none is offered. |
| TimeSettings.Offered | src/plugins/widgets/time/TimeSettings.tsx:45-143 | None of these five controls is offered while time is hidden. Otherwise the radios and the seconds and minutes boxes are offered. Colour circles are offered exactly in analogue mode, and the day period exactly for 12-hour digital. |
| TimeSettings.RadioChoicesDriveOptions | src/plugins/widgets/time/TimeSettings.tsx:60-127 | Choosing analogue or 24-hour hides the day-period box, and choosing 12-hour shows it. Choosing analogue shows colour circles (unless time is hidden). |
| NotesSettings.AlignmentButtonsCoverAll | src/plugins/widgets/notes/NotesSettings.tsx:8-21 | The three alignment buttons are left, centre and right, once each. |
| NotesSettings.ExactlyOneAlignmentPrimary | src/plugins/widgets/notes/NotesSettings.tsx:44-67 | Exactly one button of an alignment row is highlighted. |
| NotesSettings.SetMarkdownEnabled | src/plugins/widgets/notes/NotesSettings.tsx:30 | Sets markdown and keeps every other field. |
| NotesSettings.SetTextAlign | src/plugins/widgets/notes/NotesSettings.tsx:47-48 | The chosen alignment is the only highlighted text button, and every other field is kept. |
| NotesSettings.SetIconAlign | src/plugins/widgets/notes/NotesSettings.tsx:62-63 | The chosen alignment is the only highlighted icon button, and every other field is kept. |
| NotesSettings.SetPlaceholderStyle | src/plugins/widgets/notes/NotesSettings.tsx:75-82 | The chosen style's button is highlighted and the other is not. Every other field is kept. |
| NotesSettings.SetKeyBind | src/plugins/widgets/notes/NotesSettings.tsx:98 | Sets the keybind and keeps every other field. |
| NotesSettings.ReselectIsNoOp | src/plugins/widgets/notes/NotesSettings.tsx:47-81 | Clicking the already highlighted button changes nothing. |
| Theme.IsDark | src/views/settings/System.tsx:52 | Dark iff the preference is dark, or it is system and the system is dark. |
| Theme.BodyClass | src/views/settings/System.tsx:53 | The body class is "dark" iff dark, and empty otherwise. |
| Theme.PreferenceCases | src/views/App.tsx:50 | Light is never dark, dark always is, and system follows the operating system. |
| Host.HostState.constructor | src/views/settings/System.tsx:29-35 | A page with the given theme, highlighting and icon position. Locale "en", no time zone, the settings icon neither hidden nor auto-hidden, no body class, an unstyled widget area and no writes yet. |
| SystemSettings.PositionsDistinct | src/views/settings/System.tsx:9-26 | The four position buttons are the four positions, once each. |
| SystemSettings.ExactlyOnePositionPrimary | src/views/settings/System.tsx:311-318 | Exactly one position button is highlighted. |
| SystemSettings.UserSelectFor | src/views/settings/System.tsx:42-46 | The highlighting checkbox asks for "auto" iff it is checked. |
| SystemSettings.SetHighlighting | src/views/settings/System.tsx:38-48 | The value is stored first. Then, only if the widget area exists, its `userSelect` becomes "auto" when checked and "none" when not. |
| SystemSettings.HandleThemeChange | src/views/settings/System.tsx:50-54 | The preference is stored first. Then the body class is set to "dark" iff the new preference makes the page dark. |
| SystemSettings.SetSettingsIconPosition | src/views/settings/System.tsx:314-315 | Stores the position, whose button then is the highlighted one. |
| SystemSettings.SetLocale | src/views/settings/System.tsx:83 | Stores the chosen language. |
| SystemSettings.SetTimeZone | src/views/settings/System.tsx:241 | Stores the chosen time zone. |
| SystemSettings.SetHideSettingsIcon | src/views/settings/System.tsx:365 | Stores the hide-icon checkbox. |
| SystemSettings.SetAutoHideSettings | src/views/settings/System.tsx:382 | Stores the auto-hide checkbox. |
| App.ErrorMessage | src/views/App.tsx:70-97 | A failed write's message starts "Cannot save", and a failed open's starts "Cannot open". |
| App.ErrorMessagesDistinct | src/views/App.tsx:70-97 | The four failures have four different messages. |
| App.RaisesErrorFlag | src/views/App.tsx:70-97 | Only settings-store failures raise the store-error dialog. |
| App.OpenReport | src/views/App.tsx:76-98 | A store that opened reports nothing, and one that did not reports its open-failure message once. |
| App.Root.constructor | src/views/App.tsx:44-45 | Not ready, no error, nothing pushed and nothing subscribed. |
| App.Root.HandleError | src/views/App.tsx:55-61 | It always pushes the message, and raises the error flag only when asked. |
| App.Root.ReportStoreFailure | src/views/App.tsx:70-97 | Pushes the failure's message, and raises the flag iff the failure is in the settings store. |
| App.Root.StoresSettled | src/views/App.tsx:63-108 | Each store that opened is subscribed, and each that did not is reported, in the order the stores settle. The flag is raised iff settings failed to open. Afterwards the root is ready, migration runs and startup highlighting is scheduled, in that order. |
| App.Root.SettleOne | src/views/App.tsx:66-98 | A store either subscribes to its error stream or reports that it could not be opened. |
| App.Root.StreamError | src/views/App.tsx:67-91 | A failed write is reported (with the flag only for settings) exactly while the store's stream is subscribed. |
| App.Root.Cleanup | src/views/App.tsx:101-116 | Runs only once the root is ready, since it waits for the same promise as the ready callback, which was attached first. Unsubscribes exactly the subscriptions that exist, the settings one first. |
| App.Root.DismissStoreError | src/views/App.tsx:126 | Closing the dialog clears the flag. |
| App.ErrorsAfterCleanupAreIgnored | src/views/App.tsx:101-116 | Once ready and cleaned up, stream errors push nothing and raise nothing. |
| App.ApplyTheme | src/views/App.tsx:49-52 | The body class follows the stored preference and the system theme. |
| App.ThemeChangeThenEffect | src/views/settings/System.tsx:50-54 | The panel's change and the root's effect that follows set the same body class. |
| App.StartupUserSelect | src/views/App.tsx:16-26 | At startup, highlighting is disabled iff it was explicitly stored as off. |
| App.StartupAgreesWithToggle | src/views/App.tsx:20-24 | For a stored value, startup picks the same style as the checkbox. An unset value behaves as checked. |
| App.ApplyStartupHighlighting | src/views/App.tsx:16-26 | Only if the widget area exists, its style is set by the startup rule. |
| App.ShowsDashboard | src/views/App.tsx:123 | The dashboard is shown once ready. |
| App.ShowsSettings | src/views/App.tsx:124 | The settings are shown iff ready and open, and so never without the dashboard. |

## Left out

- The settings store, its `Stream` of errors, the `migrate` routine and the `useKey`/`useValue` hooks are not part of this model. The page's store values are fields of `Host.HostState`, and each store write is one logged entry.
- Promises, `setTimeout` and React's rendering order are not modelled. `StoresSettled` takes which store settles first as a parameter. The timeout before startup highlighting is a logged step, and `ApplyStartupHighlighting` is a separate call.
- Unsplash.ReduceResponse: `res.json()` runs before the status test, so an error response whose body is not JSON throws instead of giving the placeholder. Only bodies that parse are modelled.
- Unsplash: the `console.log` calls of `fetchImages` are not modelled.
- The network (`fetch`, `res.json()`), `buildLink`, `URL` and `window` are left out. A response is a status and a body that is either an array of photos or something else.
- PrepareRequest: the build-time `UNSPLASH_API_KEY` is a parameter. The serialisation of the parameters into the URL string is not modelled; the request carries the ordered entries.
- Unsplash.Config: the `by` mode is a string, so that every value not named falls to the default branch.
- Unsplash.CalculateWidth: floating-point width and pixel ratio are not modelled; their product is taken as one integer.
- Bookmarks: browser permissions and the `browser.bookmarks` calls are left out. The subtree a lookup returns is a parameter of `ShowTree` and `NavigateToFolder`.
- Bookmarks: favicon URLs, CSS classes and the recursive rendering are not modelled.
- Bookmarks.DisplayTitle: `cleanTitle` and `truncateText` come from another widget; their result is the parameter `shortName`.
- Media: object URLs, the expand/collapse toggle of the preview grid and `Media.tsx` are not modelled.
- LinkInput: `addIconData` (code outside this model), `FileReader` and `Date.now` are left out. The reader's result and the cache key are parameters.
- LinkInput: the single-field `onChange` handlers for url (on blur), name, the icon `<select>` (`{ icon }`), `IconString`, `SvgString`, `IconStringIco`, `conserveAspectRatio` and `iconSize` are not modelled separately. Each is an update of that one field.
- LinkInput.SizePatches: `Number()` parsing of the input and `NaN` are not modelled; the inputs give integers.
- LinkInput.UploadSize: a `NaN` width, which `||` also replaces by 24, is not modelled.
- LinkInput.ApplyPatch: the parent's merge of `onChange` updates is code outside this model; it is modelled as an object spread.
- Text.Lower: only ASCII letters are lowered; JavaScript's full Unicode `toLowerCase` is not modelled.
- Time and Notes: their data type files are not part of this model. The clock mode, alignments and placeholder style are datatypes with the values the forms use.
- NotesSettings.SetKeyBind: the input's `maxLength={1}` is a browser limit on typing, and it is not modelled.
- System settings: the list of languages offered is not modelled; the locale is any string. `TimeZoneInput` is code outside this model.
- App: the page title, the errors list toggle and `console.error` are not modelled.
- App.Root.StoresSettled: a `.catch` also handles an exception thrown while subscribing; such an exception is treated as a failure to open.
- Unsplash.ToImage: `location` is `undefined` in the placeholder and `null` for a photo without one; both are `None`.
- Internationalisation, JSX layout, CSS, webpack configuration and the widget index files are not part of this model.
