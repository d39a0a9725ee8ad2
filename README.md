# Just Jana page widgets — a Dafny model

This project models the deterministic core of the two browser widgets of the
Just Jana site.

- **Top loading bar** (`JS/jj-progress.js`). A thin bar at the top of the page.
  A qualifying link click starts it. It creeps toward 90% on an interval timer,
  moving by `max(1, (to - prog) * 0.12)` per tick and stopping at the ceiling.
  It jumps to 100% when the page's `load` event fires, then fades out.
  - A flag `jjProgressPending = "1"` in session storage passes the fact that a
    navigation started on to the next page. That page then shows a 25% head start.
  - Storage access goes through wrappers that never raise.
- **Preface gate** (`JS/justjana-preface.js`). A modal dialog that intercepts
  clicks on `.requires-preface` triggers.
  - Each trigger has a dismissal key: an explicit `data-preface-key`, else
    `jjp:` + its href, else `jjp:` + the page path.
  - A "don't show again" checkbox plus Continue marks the key with `"1"` in
    session storage. From then on, clicks on triggers with that key go straight
    through.
  - While the dialog is open, the page is pinned with a fixed-position body at
    its scroll offset. Hiding the dialog restores that offset and the focus.
  - Tab and Shift+Tab wrap between the dialog's first and last focusable
    elements.
  - Wheel and touch scrolling outside the dialog's content area is blocked.
    Inside it, a wheel event is blocked only at the content's top or bottom edge.

The modules follow the source files:

- `SessionStorage` (`storage.dfy`): the browser's per-tab storage. A map from
  keys to strings plus an availability flag. When storage is unavailable,
  every call raises.
- `Text` (`text.dfy`): the two string operations the bar's click filter uses.
  These are `toLowerCase`, for ASCII letters only, and `includes`.
- `Progress` (`progress.dfy`): the storage wrappers, the ramp and the click
  filter, as functions. Class `TopBar` holds the script's module-level state
  (`prog`, the timer, `bar`, `styleTag`) and the parts of the page it touches.
  Its methods update that state in place.
- `Preface` (`preface.dfy`): the pure decisions as functions. These are key
  resolution, the skip test, the trigger filter, the focus trap and the
  scroll-leak rule.
  - The open/close state machine is a set of transition functions on
    `GateState`. The lemmas are proved about these functions.
  - Class `Gate` holds `pendingHref`, `currentKey`, `lastFocused`, `lockY`, the
    overlay's open state, the page and storage. Each of its methods is proved to
    move the state exactly as the matching transition function says.
- `Widgets` (`widgets.dfy`): facts about the two scripts running on one page.

Some facts about the code shape the model:

- The gate reads and writes session storage without any guard. So when storage
  is unavailable, its trigger listener raises before it prevents the click, and
  the link is followed. The Continue handler raises before it queues the
  navigation, and the dialog stays open (`Preface.ContinueStuckWithoutStorage`).
- The code has no back/forward-cache handling and no exclusion of links to the
  current address.
- The code has no safety timeout for a `load` event that never fires.

Some consequences of the code as written are worth knowing:

- Calling `show` while the dialog is already open re-reads the window offset.
  The body is fixed at that point, so the offset is 0, and the later `hide`
  scrolls to the top (`Preface.ReopenLosesOffset`).
- With no focusable element in the dialog, Escape does nothing. The
  empty-list check comes before the Escape test (`Preface.EscapeNeedsFocusable`).
- The bar's capturing click listener starts the bar, and sets the pending flag,
  on a gate trigger that is an ordinary link. The gate, reading storage after
  that write, then cancels the navigation unless the link was dismissed
  (`Widgets.GateClickAlsoStartsBar`).
- The keyframes fallback inside `ensureBar` never runs, because `ensureStyle`
  has always set `sheenInserted` just before it (`Progress.TopBar.EnsureBar`).

## Model

| member | source | states |
|---|---|---|
| `Progress.SafeGet` | JS/jj-progress.js:21 | never raises; yields the stored value exactly when storage works and holds the key, and null otherwise |
| `Progress.SafeSet` | JS/jj-progress.js:19 | never raises; on working storage the key now maps to the value, on failing storage nothing changes |
| `Progress.SafeDel` | JS/jj-progress.js:20 | never raises; on working storage the key is gone, on failing storage nothing changes |
| `Progress.SafeRoundTrip` | JS/jj-progress.js:19-21 | a value written through the wrappers reads back exactly when storage works; a deleted key reads back as null; every other key reads back as before |
| `Progress.HeadStart` | JS/jj-progress.js:108 | the head-start test holds exactly when storage works and maps the flag's key to the string "1" |
| `Progress.HandOff` | JS/jj-progress.js:108-118 | setting the flag on leaving arms the head start on working storage and cannot arm it on failing storage; deleting it on completion disarms it |
| `Progress.Ramp` | JS/jj-progress.js:79-80 | one tick never decreases a value below the ceiling, never ends above the ceiling, and either reaches the ceiling or gains at least 1 |
| `Progress.RampAfterBounded` | JS/jj-progress.js:78-82 | over any number of ticks the ramp is monotone and stays between its start and the ceiling |
| `Progress.RampReachesTarget` | JS/jj-progress.js:78-82 | from a value below the ceiling the ramp equals the ceiling after any number of ticks at least the gap, and stays there |
| `Progress.RampFromStart` | JS/jj-progress.js:85-92 | the ramp started by `start` (from 0 toward 90) is at 90 after at most 90 ticks |
| `Progress.IgnoredHref` | JS/jj-progress.js:138-141 | an href is ignored exactly when it begins with one of `#`, `javascript:`, `mailto:`, `tel:` |
| `Progress.StartsBar` | JS/jj-progress.js:138-146 | a link passes the filter exactly when its href is not ignored, it has no `download` attribute, its target is not `_blank`, and "external" occurs at no position of its lower-cased `rel` |
| `Progress.RelCaseInsensitive` | JS/jj-progress.js:135-144 | the click filter gives the same answer whatever the case of the `rel` attribute |
| `Progress.ExternalRelStops` | JS/jj-progress.js:135-144 | a `rel` holding "external" at any position, in any letter case, keeps the bar from starting |
| `Progress.OrdinaryLinkStarts` | JS/jj-progress.js:133-154 | a plain link such as `/story/42` passes the filter and starts the bar |
| `Progress.NewTabDownloadExternalIgnored` | JS/jj-progress.js:137-146 | the same link with `target="_blank"`, a `download` attribute or `rel="noopener EXTERNAL"` does not start the bar |
| `Progress.TopBar.constructor` | JS/jj-progress.js:106-113 | script load: the ramp is at 0 with no timer; the bar is acquired and a head-start frame is queued exactly when the stored flag is "1" |
| `Progress.TopBar.EnsureStyle` | JS/jj-progress.js:26-42 | appends the style element on the first call only; later calls add nothing |
| `Progress.TopBar.EnsureBar` | JS/jj-progress.js:44-74 | reuses an existing jj-topbar element and creates one only when the page has none; appends no style block beyond the first |
| `Progress.TopBar.Tick` | JS/jj-progress.js:76-83 | replaces any running interval by a single one ramping toward the given ceiling |
| `Progress.TopBar.Step` | JS/jj-progress.js:78-82 | one interval firing moves `prog` by one ramp tick; the timer keeps running exactly while `prog` is below the ceiling; the bar shows the new value |
| `Progress.TopBar.Start` | JS/jj-progress.js:85-92 | acquires the bar, resets the ramp to 0 and the width to 0, starts a single ramp toward 90, and sets the pending flag to "1" |
| `Progress.TopBar.Done` | JS/jj-progress.js:94-104 | whatever the ramp had reached: stops the timer, sets `prog` and the width to exactly 100, removes the pending flag, and queues the fade-out |
| `Progress.TopBar.FadeOut` | JS/jj-progress.js:100-102 | the first delayed callback of `done`: opacity 0, then the width reset is queued |
| `Progress.TopBar.ResetWidth` | JS/jj-progress.js:102 | the second delayed callback of `done`: the bar's width returns to 0 |
| `Progress.TopBar.HeadStartFrame` | JS/jj-progress.js:110-112 | the queued animation frame shows the 25% head start |
| `Progress.TopBar.BeforeUnload` | JS/jj-progress.js:116-118 | every unload attempt sets the pending flag (when storage works) |
| `Progress.TopBar.OnClick` | JS/jj-progress.js:126-155 | a click starts the bar exactly when it lands in an `a[href]` that passes the filter; otherwise nothing changes |
| `Text.ToLower` | JS/jj-progress.js:135 | the result has the input's length and holds each character lower-cased, position by position |
| `Text.Includes` | JS/jj-progress.js:144 | a prefix of the text is found in it, and nothing longer than the text is |
| `Text.ToLowerIdempotent` | JS/jj-progress.js:135 | lower-casing an already lower-cased `rel` changes nothing |
| `Text.IncludesAt` | JS/jj-progress.js:144 | `includes` holds exactly when some position of the text starts a copy of the searched word |
| `Preface.KeyFor` | JS/justjana-preface.js:35-41 | an explicit key is returned as it is; any other key carries the `jjp:` prefix |
| `Preface.KeyForSource` | JS/justjana-preface.js:35-41 | after the prefix, a derived key holds the href when it is present and not `#`, and the page path otherwise |
| `Preface.DerivedKeysSeparate` | JS/justjana-preface.js:38-40 | two triggers without explicit keys share a key exactly when their hrefs are equal; a trigger shares the page's fallback key only when its href is the page path |
| `Preface.ShouldSkip` | JS/justjana-preface.js:43 | holds exactly when storage maps the key to "1"; raises exactly when storage is unavailable |
| `Preface.TriggerClick` | JS/justjana-preface.js:159-171 | the dialog opens exactly when a trigger was hit, no modifier is held, its target is not `_blank` and the key is not marked; it opens with that trigger's key and its href (or null) |
| `Preface.TrapFocus` | JS/justjana-preface.js:77-100 | Shift+Tab on the first focusable goes to the last; Tab on the last goes to the first; Escape closes; nothing happens when closed or with no focusables |
| `Preface.TabCycles` | JS/justjana-preface.js:88-96 | with the trap in place, Tab and Shift+Tab move through the dialog's focusables as a cycle (index plus or minus one, modulo their number) |
| `Preface.ScrollLeakPrevented` | JS/justjana-preface.js:103-118 | when closed nothing is blocked; outside the content everything is blocked; a touchmove inside is never blocked |
| `Preface.WheelStopsOnlyAtEdges` | JS/justjana-preface.js:110-117 | inside the content a wheel event is blocked exactly when the content cannot scroll any further in the wheel's direction |
| `Preface.LockState` | JS/justjana-preface.js:46-59 | records the (non-negative) scroll offset and pins the body there, so the offset the user sees does not move |
| `Preface.UnlockState` | JS/justjana-preface.js:61-74 | releases the body and scrolls back to the recorded offset; the view does not jump |
| `Preface.ShowState` | JS/justjana-preface.js:121-138 | opens the dialog with the checkbox cleared, the given pending href, and the given key or else the page's key; storage is untouched |
| `Preface.HideState` | JS/justjana-preface.js:140-153 | closes the dialog, releases the body and returns to the recorded offset; storage is untouched |
| `Preface.Initial` | JS/justjana-preface.js:28-32 | the script starts closed, with no pending href, key or remembered focus, offset 0, nothing queued or navigated, the checkbox (if any) unticked, and the page and storage as found |
| `Preface.ContinueState` | JS/justjana-preface.js:174-183 | the whole new state in each case: with the box unticked or no key, Continue only queues the delayed navigation; ticked with a key on working storage, it also marks the key "1" and changes nothing else; on unavailable storage it changes nothing |
| `Preface.ContinueTimerState` | JS/justjana-preface.js:179-182 | the delayed Continue navigates to the pending href when there is one, and closes the dialog |
| `Preface.BackdropState` | JS/justjana-preface.js:189-191 | a click inside the dialog body changes nothing; one outside closes the dialog, releases the body and returns to the recorded offset; storage and queued timers are untouched |
| `Preface.KeyDownState` | JS/justjana-preface.js:77-100 | closed, with no focusables or with another key nothing changes; Escape is the hide transition; Tab changes at most the focus, and only to the first or last focusable; storage is untouched |
| `Preface.ShowHideRoundTrip` | JS/justjana-preface.js:121-153 | opening on an unlocked page and closing again restores the page exactly (scroll offset, focus, body released) and leaves storage as it was; the view does not move while open |
| `Preface.EscapeRestoresOffset` | JS/justjana-preface.js:97-99 | with at least one focusable element in the dialog, Escape in the open dialog closes it and restores the scroll offset the page had before opening |
| `Preface.EscapeNeedsFocusable` | JS/justjana-preface.js:86-99 | with no focusable element in the dialog, Escape changes nothing |
| `Preface.OnlyTickedContinueWrites` | JS/justjana-preface.js:174-191 | Cancel, Close, the backdrop, Escape, the checkbox and an unticked Continue leave storage unchanged |
| `Preface.ContinueRemembers` | JS/justjana-preface.js:174-177 | a ticked Continue with a key on working storage changes only storage and the queued count; storage gains exactly that key mapped to "1", so the skip test holds for it afterwards and every other key keeps its answer |
| `Preface.ContinueStuckWithoutStorage` | JS/justjana-preface.js:175-176 | a ticked Continue on unavailable storage changes nothing and queues no navigation |
| `Preface.ReopenLosesOffset` | JS/justjana-preface.js:46-47 | opening twice and then closing scrolls the page to 0, not to the offset it had before the first opening |
| `Preface.ChapterSevenScenario` | JS/justjana-preface.js:159-177 | a trigger keyed "chapter-7" opens the dialog; after ticking and continuing, storage holds "chapter-7" mapped to "1", and any trigger with that key is let through |
| `Preface.Gate.constructor` | JS/justjana-preface.js:28-32 | the script starts with the dialog closed and no pending href, key, focus or offset |
| `Preface.Gate.LockPage` | JS/justjana-preface.js:46-59 | updates the fields as the lock transition says |
| `Preface.Gate.UnlockPage` | JS/justjana-preface.js:61-74 | updates the fields as the unlock transition says |
| `Preface.Gate.Show` | JS/justjana-preface.js:121-138 | updates the fields as the show transition says |
| `Preface.Gate.Hide` | JS/justjana-preface.js:140-153 | updates the fields as the hide transition says; it is also the Cancel and Close handler |
| `Preface.Gate.OnTriggerClick` | JS/justjana-preface.js:159-171 | prevents the click exactly when the trigger decision intercepts it, and then opens with that decision's href and key; otherwise nothing changes |
| `Preface.Gate.OnContinue` | JS/justjana-preface.js:174-183 | updates the fields as the Continue transition says |
| `Preface.Gate.ContinueTimer` | JS/justjana-preface.js:179-182 | updates the fields as the delayed-Continue transition says |
| `Preface.Gate.OnBackdropClick` | JS/justjana-preface.js:189-191 | a click outside the dialog body hides; a click inside changes nothing |
| `Preface.Gate.OnKeyDown` | JS/justjana-preface.js:77-100 | returns the trap's decision and applies it: focus wraps, or the dialog hides on Escape |
| `Preface.Gate.OnScroll` | JS/justjana-preface.js:103-118 | blocks the event exactly as the scroll-leak rule decides for the current open state |
| `Widgets.DerivedKeyNotPendingFlag` | JS/justjana-preface.js:38-40 | a derived dismissal key never equals the loading bar's `jjProgressPending` key |
| `Widgets.FlagInvisibleToGate` | JS/jj-progress.js:116-118 | writing the pending flag leaves the gate's decision on every click unchanged, unless a trigger's explicit key is the flag's own key |
| `Widgets.GateClickAlsoStartsBar` | JS/jj-progress.js:126-155 | for any plain link that passes the bar's filter: the bar arms the pending flag, and on the storage it leaves the gate still intercepts the click, with the link's key and href, unless that key was dismissed |
| `Widgets.StoryLinkBothWidgets` | JS/jj-progress.js:126-155 | `/story/42`, on storage where nothing was dismissed, is intercepted by the gate after the bar has written its flag |

## Left out

- Presentation: the CSS text, colours, gradient, keyframes and inline style
  assignments. Only the bar's width and opacity are kept.
- Time: the 160 ms tick, the 80/200/250 ms delays and animation frames. Each
  delayed callback is an explicit step method, and the steps are counted.
- Floating point: `prog` is a Dafny `real` and `EASE` is exactly 0.12. The
  model does not claim bit-exact JavaScript float results.
- DOM queries are inputs. These are `closest`, `querySelectorAll`, the
  `disabled`/`offsetParent` visibility filter, `dialog.contains`, and the
  climb from a text node to its element.
- Listener registration and removal are left out. The gate's keydown, wheel and
  touchmove listeners exist exactly while the dialog is shown. The model keeps
  their own closed-overlay check, which has the same effect.
- Focus is an element identity on the page.
  - The animation-frame focus of the Continue button on open is not modelled.
  - Restoring focus on hide assumes the remembered element can take focus.
- The lock's `window.scrollY || document.documentElement.scrollTop || 0` is one
  scroll offset. `scrollTo` clamping is not modelled.
- Page assumptions:
  - A fixed-position body leaves the window nothing to scroll, so its offset
    becomes 0 while the body is locked.
  - The overlay starts hidden (`aria-hidden="true"`).
  - The overlay exists. Without it, the gate script stops at once, so there is
    nothing to model.
- Navigation by `window.location.href` is recorded as the address navigated to.
  Unloading the page is not modelled.
- Storage can fail only as a whole, through the availability flag. A quota error
  on a single write is not modelled separately.
- `Text.ToLower` lower-cases ASCII letters only. For the test against
  "external", full Unicode lower-casing gives the same answer: only two
  non-ASCII characters lower-case to ASCII letters (to "k" and "i"), and
  neither letter occurs in "external".
- Preface.TabCycles: the non-wrapping step assumes the browser's own Tab moves
  to the next entry of the `querySelectorAll` list. That fails for a button or
  link with `tabindex="-1"`, which the selector at
  JS/justjana-preface.js:82 still matches but the browser skips, and for a
  positive `tabindex`, which reorders the browser's tab sequence.
- Numbers: `scrollY`, `scrollTop`, `scrollHeight`, `clientHeight` and the
  wheel's `deltaY` are JavaScript doubles, modelled as `int`. Fractional
  offsets and deltas are not modelled.
- Negative window offsets, as iOS reports during the overscroll bounce at the
  top of the page, are not modelled: the page's `scrollY` and the gate's
  `lockY` are `nat`. For such an offset the lock would write `top: --Npx`,
  which the browser ignores, so the body would not be pinned at that offset.
- The commented-out same-origin check in the bar's click listener is not code,
  and is not modelled.
