# Navigation coordination of a TV browser shell, in Dafny

This project models the navigation glue of a browser for TV devices. The glue
sits in two Android classes:

- `MainActivity`, the host. It picks the browser screen whenever the session
  list changes. It routes toolbar navigation events to the browser fragment and
  gives that fragment first refusal on back presses and key events. It keeps the
  toolbar's URL text current and answers the toolbar's state questions by
  delegating to the fragment.
- `HomeTileGridNavigation`, the home-tile overlay. It turns tile activations,
  URL-field commits and button clicks into navigation events. It shows a
  throttled "how to unpin" prompt on tile focus and tracks whether the user has
  edited the URL since the field gained focus. It sequences the effects of
  changing its visibility. Its scroll view pads every scroll delta.

The Android framework objects are replaced by abstract state:

- The fragment-manager lookup of the browser fragment becomes
  `Option<BrowserView>`. A `BrowserView` holds a visibility flag and the answers
  the fragment would give.
- `ScreenController` becomes the last screen request.
- `Settings` and `SharedPreferences` become one shared `Preferences` object. It
  holds the blocking flag and the prompt counter.
- The views become fields of the overlay.
- Calls to callbacks (`onNavigationEvent`, the pre-visibility listener) and
  toasts become entries in an ordered effect log.

Modules:

- `Wrappers`: `Option`.
- `Toolbar`: the navigation events, the values they carry, and the
  toolbar-state questions.
- `Prefs`: the persisted store.
- `Focus`: `MainActivity.kt`.
- `FocusBrowser`: `HomeTileGridNavigation.kt`.

The decision rules are pure functions, and their contracts state the rules. The
classes `Focus.MainActivity` and `FocusBrowser.HomeTileGridNavigation` hold the
state the source changes in place. Each of their methods ties the new state to
those functions. Lemmas by induction cover runs of events:

- The blocking flag follows the last TURBO event.
- The browser receives exactly the events that are not SETTINGS.
- The toolbar shows the last URL reported.
- The "user changed the URL" flag is characterised by the latest input and
  focus-loss events.
- One overlay shows the unpin prompt at most once.
- Over any sequence of overlays, the prompt shows at most
  `MAX_UNPIN_TOAST_COUNT` minus the starting counter times, so at most 3 times
  from the default counter of 0.

## Model

| member | source | states |
|---|---|---|
| `Focus.ScreenForSessions` | app/src/main/java/org/mozilla/focus/MainActivity.kt:65-72 | an empty session list requests the browser screen for the home sentinel with source NONE; a non-empty one requests the browser screen for the current session, and only then |
| `Focus.MainActivity.OnSessionsChanged` | app/src/main/java/org/mozilla/focus/MainActivity.kt:64-74 | each emission of the session list records exactly the screen request chosen for it |
| `Focus.MainActivity.OnValidBrowserIntent` | app/src/main/java/org/mozilla/focus/MainActivity.kt:95-97 | a validated external URL requests the browser screen for that URL and source |
| `Focus.OnBackPressed` | app/src/main/java/org/mozilla/focus/MainActivity.kt:131-142 | the browser fragment is consulted iff it is present and visible; the host's default back handling runs iff not (present and visible and the fragment handled it) |
| `Focus.DispatchKeyEvent` | app/src/main/java/org/mozilla/focus/MainActivity.kt:159-168 | with a visible fragment the result is fragment-or-host and the host is asked only when the fragment declines; otherwise the host alone decides |
| `Focus.RouteToolbarEvent` | app/src/main/java/org/mozilla/focus/MainActivity.kt:170-187 | SETTINGS requests the settings screen, writes nothing and forwards nothing; TURBO writes blocking-enabled as value == VAL_CHECKED and no other event writes it; every other event is forwarded unchanged iff the fragment is present and visible |
| `Focus.MainActivity.OnToolbarEvent` | app/src/main/java/org/mozilla/focus/MainActivity.kt:170-187 | the screen request, the blocking setting and the forwarded-event log change exactly as the routing decision says, and nothing else changes; each hand-over records the blocking setting the fragment sees, so a forwarded TURBO finds value == VAL_CHECKED already persisted |
| `Focus.BlockingFollowsLastTurbo` | app/src/main/java/org/mozilla/focus/MainActivity.kt:179-180 | after any run of toolbar events the blocking setting is decided by the last TURBO event alone, and a run with no TURBO event leaves it unchanged |
| `Focus.ForwardedIsEveryNonSettingsEvent` | app/src/main/java/org/mozilla/focus/MainActivity.kt:173-186 | over any run, a visible fragment receives exactly the non-SETTINGS events in order and unchanged; an absent or hidden one receives nothing |
| `Focus.ToolbarUrlAfterUpdate` | app/src/main/java/org/mozilla/focus/MainActivity.kt:193-197 | the home sentinel shows as the empty string, null keeps the current text, any other URL shows as itself; the sentinel never appears unless it was already shown |
| `Focus.MainActivity.OnUrlUpdate` | app/src/main/java/org/mozilla/focus/MainActivity.kt:192-200 | the toolbar URL becomes the displayed value for the report, and invalidateActions runs exactly once on every call, null included |
| `Focus.ToolbarShowsLastReportedUrl` | app/src/main/java/org/mozilla/focus/MainActivity.kt:192-200 | after any run of reports the toolbar shows the last non-null one (the sentinel as empty), or its original text if all were null |
| `Focus.ToolbarNeverShowsSentinel` | app/src/main/java/org/mozilla/focus/MainActivity.kt:193-197 | starting from any other text, no run of reports makes the toolbar show the home sentinel literally |
| `Focus.ProviderQuery` | app/src/main/java/org/mozilla/focus/MainActivity.kt:211-219 | with no browser fragment every boolean question answers false; with one (visible or not) it answers what the fragment's provider answers |
| `Focus.ProviderCurrentUrl` | app/src/main/java/org/mozilla/focus/MainActivity.kt:211-216 | with no browser fragment the current URL is null; with one it is the fragment's answer |
| `FocusBrowser.TileFocused` | app/src/main/java/org/mozilla/focus/browser/HomeTileGridNavigation.kt:95-105 | the prompt shows iff the counter is below MAX_UNPIN_TOAST_COUNT (3) and this instance may still show it; showing adds exactly 1 to the counter and clears the flag, otherwise nothing changes |
| `FocusBrowser.HomeTileGridNavigation.OnTileFocused` | app/src/main/java/org/mozilla/focus/browser/HomeTileGridNavigation.kt:95-105 | the persisted counter, the instance flag and the effect log (one toast when shown) change exactly as the throttle decides |
| `FocusBrowser.FocusRunShowsAtMostOnce` | app/src/main/java/org/mozilla/focus/browser/HomeTileGridNavigation.kt:47-49 | any number of focus events on one instance show the prompt at most once, exactly once if allowed and focused at all; the counter grows by the prompts shown, never decreases and stays at or below 3 if it started there |
| `FocusBrowser.PromptBudget` | app/src/main/java/org/mozilla/focus/browser/HomeTileGridNavigation.kt:87-104 | over any sequence of overlay instances the prompt shows min(3 - counter, number of focused instances) times (none once the counter is at 3), at most 3 times from a non-negative counter, and the counter ends that much higher |
| `FocusBrowser.CounterAtTwoScenario` | app/src/main/java/org/mozilla/focus/browser/HomeTileGridNavigation.kt:96-103 | four focus events on a fresh overlay with counter 2 show one prompt and leave counter 3; later overlays show none |
| `FocusBrowser.HomeTileGridNavigation.InitTiles` | app/src/main/java/org/mozilla/focus/browser/HomeTileGridNavigation.kt:84-87 | initialising the tiles makes the unpin prompt available to this overlay instance |
| `FocusBrowser.HomeTileGridNavigation.constructor` | app/src/main/java/org/mozilla/focus/browser/HomeTileGridNavigation.kt:74-87 | a new overlay may show the prompt once, starts with the user-changed flag clear and with no callbacks set |
| `FocusBrowser.TileActivation` | app/src/main/java/org/mozilla/focus/browser/HomeTileGridNavigation.kt:89-94 | activation yields LOAD_TILE with the URL and a null autocomplete result iff the URL is non-empty, otherwise nothing |
| `FocusBrowser.HomeTileGridNavigation.OnTileLoadUrl` | app/src/main/java/org/mozilla/focus/browser/HomeTileGridNavigation.kt:89-94 | the activation event is emitted when the callback is set, and nothing else changes |
| `FocusBrowser.CommitOutcome` | app/src/main/java/org/mozilla/focus/browser/HomeTileGridNavigation.kt:123-130 | committing empty text does nothing; committing non-empty text sets the field to the last autocomplete result's text and yields one LOAD_URL carrying the user's text and that result |
| `FocusBrowser.HomeTileGridNavigation.SetText` | app/src/main/java/org/mozilla/focus/browser/HomeTileGridNavigation.kt:126-127 | setting the field's text drops its cached autocomplete result |
| `FocusBrowser.HomeTileGridNavigation.OnCommit` | app/src/main/java/org/mozilla/focus/browser/HomeTileGridNavigation.kt:123-130 | the field and the effect log change as the commit decides, and the emitted event carries the autocomplete result captured before setText cleared it |
| `FocusBrowser.UserChangedAfterEvent` | app/src/main/java/org/mozilla/focus/browser/HomeTileGridNavigation.kt:135-140 | user input sets the flag, losing focus clears it, gaining focus leaves it unchanged |
| `FocusBrowser.HomeTileGridNavigation.OnUserInput` | app/src/main/java/org/mozilla/focus/browser/HomeTileGridNavigation.kt:135 | the user-input listener sets the flag |
| `FocusBrowser.HomeTileGridNavigation.OnUrlInputFocusChange` | app/src/main/java/org/mozilla/focus/browser/HomeTileGridNavigation.kt:136-140 | the field's focus follows the change; the flag is cleared on focus loss and kept on focus gain |
| `FocusBrowser.UserChangedCharacterisation` | app/src/main/java/org/mozilla/focus/browser/HomeTileGridNavigation.kt:135-140 | after any run of input and focus events the flag is set iff some user input comes after the last focus loss, or the flag was set at the start and focus was never lost |
| `FocusBrowser.ClickOutcome` | app/src/main/java/org/mozilla/focus/browser/HomeTileGridNavigation.kt:143-159 | an unrecognised view yields nothing; otherwise exactly one event with a null autocomplete result; TURBO writes the turbo setting from the turbo button; PIN_ACTION carries VAL_CHECKED or VAL_UNCHECKED from the pin button; every other event carries null |
| `FocusBrowser.HomeTileGridNavigation.OnClick` | app/src/main/java/org/mozilla/focus/browser/HomeTileGridNavigation.kt:143-161 | the turbo setting and the effect log change as the click decides: for TURBO the setting write first, then the event (when the callback is set), then one telemetry record; nothing at all for an unrecognised view |
| `FocusBrowser.SetVisibilityEffects` | app/src/main/java/org/mozilla/focus/browser/HomeTileGridNavigation.kt:167-175 | the pre-listener (when set) is told visibility == VISIBLE before the visibility is applied; scroll to (0,0) and URL-field focus follow only when becoming VISIBLE |
| `FocusBrowser.HomeTileGridNavigation.SetVisibility` | app/src/main/java/org/mozilla/focus/browser/HomeTileGridNavigation.kt:167-175 | the visibility becomes the argument; the effects are logged in the order above; becoming VISIBLE resets the scroll position and focuses the field, leaving the user-changed flag alone; hiding a visible overlay whose field has focus takes the focus away and clears the user-changed flag, as the focus listener does |
| `FocusBrowser.ComputeScrollDelta` | app/src/main/java/org/mozilla/focus/browser/HomeTileGridNavigation.kt:201-209 | a zero delta stays zero; a positive delta grows by the padding and a negative one by minus the padding whenever the result fits an Int |
| `FocusBrowser.ScrollDeltaKeepsDirection` | app/src/main/java/org/mozilla/focus/browser/HomeTileGridNavigation.kt:207-208 | for a non-negative padding and no overflow (down to Int.MIN_VALUE itself), the padded delta has the default delta's sign and, for a non-zero delta, magnitude |delta| + padding |
| `FocusBrowser.ScrollDeltaOverflowFlipsDirection` | app/src/main/java/org/mozilla/focus/browser/HomeTileGridNavigation.kt:208 | for a non-negative padding, whenever the padded delta overflows an Int the wrap-around reverses its sign, in both directions |

## Left out

- Android lifecycle plumbing is not modelled. This covers Sentry, Pocket and
  PublicSuffix initialisation, the resume/pause/start/stop hooks, `onDestroy`,
  the WebView injection in `onCreateView`, and launching onboarding. These are
  framework I/O with no decision in them.
- `onNonTextInputUrlEntered` and `onTextInputUrlEntered` are not modelled. They
  hide the keyboard and hand the URL to `ScreenController`, which is not part of
  this model.
- Telemetry is only recorded as a log entry, for `overlayClickEvent`. The
  session start/stop calls are left out.
- The progress-bar callback, keyboard hiding and toast rendering are left out,
  except that the model records that a toast was shown.
- The coroutine job `uiLifecycleCancelJob` and the cancellation of background
  tile work are left out. They are concurrency.
- `refreshTilesForInsertion` and `removePinnedSiteFromTiles` are left out. They
  only pass through to `HomeTileAdapter` and `HomeTilesManager`, which are not
  part of this model. So the tile set itself is not modelled.
- `openHomeTileContextMenu` is left out. It only rebinds the adapter's
  long-press callback.
- The autocomplete filter is left out.
- `getFocusedTilePosition`, the grid layout (`COL_COUNT`) and the negative
  bottom margin in `initTiles` are left out. They read view geometry and pixel
  resources.
- Several pieces live outside the two files and are abstracted:
  - `ScreenController`, `IntentValidator` and `NavigationEvent.fromViewClick`
    become inputs or recorded requests.
  - The string values of `APP_URL_HOME`, `VAL_CHECKED` and `VAL_UNCHECKED` are
    fixed stand-ins. The model relies only on their being distinct.
  - The constructor list of `NavigationEvent` is assumed, since the enum is
    not part of this model. Only SETTINGS, TURBO, PIN_ACTION, LOAD_URL and
    LOAD_TILE are treated specially; the others only pass through.
- The browser fragment's answers are oracle fields. This covers back handling,
  key handling and the state provider. The fragment's own reaction to a
  forwarded event is not modelled.
- `Focus.DispatchKeyEvent` does not model the key event itself. The fragment's
  and the host's answers for that event are parameters.
- `FocusBrowser.HomeTileGridNavigation.SetVisibility` does not re-run the focus
  listener when `requestFocus` gives the field focus. That listener leaves the
  user-changed flag unchanged on focus gain, so nothing is lost. On hiding, the
  framework's focus handling is reduced to one rule: a focused URL field loses
  focus when the overlay's visibility changes away from VISIBLE. Where Android
  moves focus next is not modelled.
- `FocusBrowser.HomeTileGridNavigation.SetText` does not model the field's own
  listeners. Programmatic text changes are taken not to count as user input.
- SharedPreferences is a plain integer field. Cross-process and asynchronous
  `apply()` semantics are not modelled.
