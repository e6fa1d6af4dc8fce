# Synthia IMMS shell logic in Dafny

Synthia IMMS is a Next.js front end for meetings. It has a dashboard, a calendar, notifications, a meeting
room, and meeting summaries and history. Most of its files are markup over demo data. This project models
the logic underneath that markup and proves what that logic promises.

- **Offline service worker** (`public/sw.js`).
  - Covers the bypass rule, the routing of each request, the cache-first and network-first strategies, and
    install and activate.
  - Caches are maps from URL to response, held per cache name. The network is an input outcome: a response,
    ok or not, or a throw.
  - The `Worker` class changes its `caches` field. Each of its methods is proved equal to a pure step
    function, and the lemmas are stated about those step functions.
- **Gesture hooks** (`use-swipe.ts`, `use-long-press.ts`).
  - Two pointer state machines, modelled as classes.
  - The long-press timer is an explicit "fire" event carrying its handle. Pending timeouts are a set, so a
    second pointer-down that overwrites the handle without clearing the earlier timeout is kept as the code
    has it.
- **Modal focus scope** (`sheet.tsx`, `panel.tsx`, `nav-drawer.tsx`).
  - The three files copy one routine: the focusable filter, the Escape/Tab trap, the body-overflow lock and
    the open/close lifecycle. It is modelled once, in module `FocusTrap`.
  - `Sheet`, `Panel` and `NavDrawer` add each file's own parts: the unmount delay, the swipe direction, the
    side placement, the link clicks and the unread flag.
  - Two details follow the code. A plain Tab only wraps from the last element, and does not pull focus back
    from outside the panel. On close, focus is restored at once and only the unmount waits for its timer.
- **Pull to refresh.** A touch state machine with the pull capped at 120, the release threshold at 80 and
  the `refreshing` guard.
- **Page logic.**
  - Notifications: the filter, select, mark-all-read and the stored unread count.
  - Meeting summary: workspace grouping, and the filter, search and sort pipeline.
  - Meeting history: search, the mobile-only card actions and the date badge. The card spreads both hooks'
    props, and the later swipe handlers replace the long press's pointer-down, pointer-up and cancel. The
    page follows that as written, so only a left swipe opens a card's actions; the composition that runs
    both handlers is modelled beside it (see Findings).
  - Calendar: the 35-cell grid and the upcoming list. Month view: per-day events, pills and clicks.
  - Transcription banner: the duration label and the stored state.
  - Login: the validation order and the loading and error state.
  - Meeting room: the panel toggle and the one-shot desktop default.
- **Navigation.** The header title lookup, the nav "is active" rule and badges, and the viewport breakpoints
  and orientation.

The module `Strings` models the JavaScript string built-ins the code uses. `parseInt` is `ParseInt`:
leading white space, an optional sign and the leading digits, with `None` for NaN. The others are
`padStart`, `split`, ASCII `toLowerCase`, and `localeCompare` taken as code-point order. Module `Seqs` holds
`filter`, `slice` and `find` over sequences.

Some source details are worth knowing before reading the model:

- The initial viewport state is 0 by 0 and marked portrait, although `getOrientation(0, 0)` would say
  landscape. The model keeps that initial state.
- The virtualisation thresholds are modelled as predicates: a list is virtualised when it has more than 20
  rows. The virtualiser itself is not modelled.
- Two surfaces can lock the body scroll. If they close in the same order they opened (A opens, B opens,
  A closes, B closes), the overflow ends at "hidden" and is never restored. `FocusTrap.CrossedLocksStayHidden`
  shows this. The model keeps this behaviour because each lock saves the value it found.

## Model

| member | source | states |
|---|---|---|
| ServiceWorker.RoutePrecedence | public/sw.js:72-108 | Each route is stated as an if-and-only-if. Bypass exactly when the bypass rule holds. Network-first with the offline fallback exactly for a non-bypassed navigation. Network-first exactly for a non-bypassed, non-navigation, same-origin `/api/` request. Cache-first exactly for the remaining requests that are static assets or same-origin. Not intercepted exactly for the rest |
| ServiceWorker.CachedRoutesAreHttpGet | public/sw.js:38-47 | Every intercepted request is an http(s) GET, is not audio or video, and is not the HMR channel |
| ServiceWorker.Opened | public/sw.js:50 | `caches.open` adds the name with an empty cache if it is missing and keeps every other cache unchanged |
| ServiceWorker.CacheHitNeverFetches | public/sw.js:50-52 | A runtime-cache hit answers with the stored response, fetches nothing and leaves the caches unchanged |
| ServiceWorker.CacheMissStoresOnlyOk | public/sw.js:54-56 | On a miss, the network response is returned as is and is stored only when it is ok |
| ServiceWorker.CacheMissThrowRejects | public/sw.js:53-57 | A miss whose fetch throws rejects, after one fetch, and leaves only the opened runtime cache behind |
| ServiceWorker.CacheFirstRoundTrip | public/sw.js:51-56 | After a miss that stored an ok response, a second cache-first request for the same URL returns that response with no fetch, whatever the network would do |
| ServiceWorker.NetworkFirstPassesThrough | public/sw.js:59-64 | A fetch that resolves, even with a non-ok status, is returned as is and stored exactly when it is ok |
| ServiceWorker.NetworkFirstFallback | public/sw.js:65-69 | A thrown fetch falls back to the cached match, and with no match rejects with `network-failed` |
| ServiceWorker.NavigationNeverRejects | public/sw.js:81-92 | Navigation always answers: the network response, else the runtime entry, else `/offline` from the shell cache, else the error response |
| ServiceWorker.BypassTouchesNothing | public/sw.js:74 | A bypassed request gets no `respondWith`, fetches nothing and changes no cache |
| ServiceWorker.PostBypass | public/sw.js:39 | Any POST is bypassed |
| ServiceWorker.CacheFirstWritesOnlyOk | public/sw.js:54-56 | Cache-first changes no cache except the request's runtime entry, and only writes an ok response there |
| ServiceWorker.NetworkFirstWritesOnlyOk | public/sw.js:61-63 | Network-first writes only an ok response, and only at the request's runtime entry |
| ServiceWorker.DispatchKeepsAllOk | public/sw.js:72-108 | If every cached response is ok, that still holds after any fetch event |
| ServiceWorker.FetchAll | public/sw.js:20-24 | Adding the shell assets succeeds exactly when every asset fetch is ok. It then caches exactly the shell URLs, and each URL holds the response fetched for the first occurrence of its path |
| ServiceWorker.InstallAllOrNothing | public/sw.js:18-26 | When every fetch is ok, install stores each shell asset's fetched response in the shell cache, keeps the shell cache's other entries, adds no cache besides it and leaves every other cache unchanged. Otherwise the shell cache's entries are as they were |
| ServiceWorker.ShellAssetsDistinct | public/sw.js:6-16 | The shell asset list names no path twice |
| ServiceWorker.InstallIdempotent | public/sw.js:18-26 | Installing twice with the same network outcomes gives the same caches as installing once |
| ServiceWorker.InstallKeepsAllOk | public/sw.js:18-26 | Install keeps every cached response ok |
| ServiceWorker.StaleNames | public/sw.js:31-32 | The names marked for deletion are exactly the existing names other than the shell and runtime caches |
| ServiceWorker.ActivateKeepsCurrent | public/sw.js:28-36 | After activate, only the shell and runtime caches remain, with unchanged contents |
| ServiceWorker.Worker.constructor | public/sw.js:1-4 | The worker starts with its origin and the existing caches |
| ServiceWorker.Worker.Open | public/sw.js:50 | Opening a cache is `Opened` on the caches |
| ServiceWorker.Worker.Put | public/sw.js:55 | `cache.put` writes one entry of one cache and nothing else |
| ServiceWorker.Worker.CacheFirst | public/sw.js:49-57 | The method's reply, fetch count and new caches are those of the cache-first step |
| ServiceWorker.Worker.NetworkFirst | public/sw.js:59-70 | The method's reply, fetch count and new caches are those of the network-first step |
| ServiceWorker.Worker.OnFetch | public/sw.js:72-108 | The fetch listener's `respondWith`, fetch count and new caches are those of the dispatch step |
| ServiceWorker.Worker.OnInstall | public/sw.js:18-26 | The install listener's success flag and new caches are those of the install step |
| ServiceWorker.Worker.OnActivate | public/sw.js:28-36 | The activate listener's new caches are those of the activate step |
| Swipe.ClassifyHorizontal | src/hooks/use-swipe.ts:32-36 | When the horizontal movement is at least the vertical one (ties included), left fires exactly when dx <= -threshold and right exactly when dx >= threshold, and nothing vertical fires |
| Swipe.ClassifyVertical | src/hooks/use-swipe.ts:38-39 | Otherwise up fires exactly when dy <= -threshold and down exactly when dy >= threshold, and nothing horizontal fires |
| Swipe.AtMostOneDirection | src/hooks/use-swipe.ts:32-39 | With a positive threshold, at most one callback fires, and movement under the threshold fires none |
| Swipe.ZeroThresholdFiresBoth | src/hooks/use-swipe.ts:32-36 | With threshold 0, a pointer-up in place fires both left and right |
| Swipe.Recognizer.constructor | src/hooks/use-swipe.ts:18-19 | A new recognizer holds its threshold and is inactive |
| Swipe.Recognizer.PointerDown | src/hooks/use-swipe.ts:21-23 | Pointer-down records the origin and activates the session |
| Swipe.Recognizer.PointerUp | src/hooks/use-swipe.ts:25-40 | Pointer-up always deactivates. It fires the classification of the movement only when the session was active, and otherwise fires nothing |
| Swipe.Recognizer.PointerCancel | src/hooks/use-swipe.ts:42-44 | Pointer-cancel deactivates without firing |
| Swipe.ThresholdBoundary | src/hooks/use-swipe.ts:18 | With the default threshold 80, a 79-pixel left drag fires nothing and an 80-pixel one fires left |
| Swipe.OneFiringPerSession | src/hooks/use-swipe.ts:27 | A second pointer-up in the same session, or one after a cancel, fires nothing |
| LongPress.ToleranceBoundary | src/hooks/use-long-press.ts:39 | Moving exactly the tolerance does not cancel; one pixel more does |
| LongPress.Recognizer.constructor | src/hooks/use-long-press.ts:16-18 | A new recognizer holds its delay and tolerance, is inactive and has no timer |
| LongPress.Recognizer.Clear | src/hooks/use-long-press.ts:20-24 | `clear` cancels the current timeout, if any, forgets the handle and deactivates |
| LongPress.Recognizer.PointerDown | src/hooks/use-long-press.ts:26-35 | A mouse press with a button other than 0 changes nothing. Any other press records the origin, activates and schedules a new timeout. An earlier pending timeout is not cancelled; only the handle is overwritten |
| LongPress.Recognizer.Fire | src/hooks/use-long-press.ts:30-33 | A timeout that fires while active calls the callback once and deactivates; one that fires while inactive calls nothing |
| LongPress.Recognizer.PointerMove | src/hooks/use-long-press.ts:37-42 | A move while active whose squared distance exceeds the squared tolerance runs `clear`; any other move changes nothing |
| LongPress.Recognizer.PointerUp | src/hooks/use-long-press.ts:44 | Pointer-up runs `clear` |
| LongPress.Recognizer.PointerCancel | src/hooks/use-long-press.ts:45 | Pointer-cancel runs `clear` |
| LongPress.Recognizer.PointerLeave | src/hooks/use-long-press.ts:46 | Pointer-leave runs `clear` |
| LongPress.HeldPressFiresOnce | src/hooks/use-long-press.ts:30-33 | A held press calls the callback once, and releasing afterwards adds no call |
| LongPress.MoveCancels | src/hooks/use-long-press.ts:37-42 | A move beyond the tolerance before the timeout leaves no timeout pending and no call |
| LongPress.SecondaryButtonIgnored | src/hooks/use-long-press.ts:27 | A right-button mouse press neither arms nor schedules |
| LongPress.SecondDownKeepsFirstTimeout | src/hooks/use-long-press.ts:29 | After two presses, the first timeout is still pending and can fire the callback; a later release does not cancel it |
| FocusTrap.GetFocusableSpec | src/components/ui/sheet.tsx:74-84 | The focusable list is the content, in order, restricted to links with `href`, enabled form controls and `tabindex` other than -1, minus anything disabled |
| FocusTrap.Ids | src/components/ui/sheet.tsx:126 | The focus targets are the ids of the focusable elements, one for one |
| FocusTrap.EscapeAndClosed | src/components/ui/sheet.tsx:117-130 | Keys are ignored when closed. Escape prevents the default and requests close. Tab with nothing focusable is not intercepted |
| FocusTrap.TrapStaysInside | src/components/ui/sheet.tsx:113-152 | Whenever the handler moves focus, the target is one of the focusable elements, and it then prevents the default |
| FocusTrap.ShiftTabWraps | src/components/ui/sheet.tsx:136-142 | Shift+Tab on the first element or from outside the panel moves to the last element; otherwise it passes through |
| FocusTrap.TabWrapsOnlyFromLast | src/components/ui/sheet.tsx:144-147 | Plain Tab moves to the first element exactly when focus is on the last one; focus outside the panel is not redirected |
| FocusTrap.ThreeElementWrap | src/components/ui/sheet.tsx:136-147 | With three elements, Tab from the last wraps to the first, Shift+Tab from the first wraps to the last, and Tab from the middle passes through |
| FocusTrap.InitialFocus | src/components/ui/sheet.tsx:154-164 | On open, focus goes to the first focusable element, or to the panel when there is none |
| FocusTrap.InitialFocusIsFirstFocusable | src/components/ui/sheet.tsx:158-161 | When some element is focusable, the initial focus is the earliest such element in document order |
| FocusTrap.Document.constructor | src/components/ui/sheet.tsx:102-111 | The document holds its overflow style, active element and attached elements |
| FocusTrap.Surface.constructor | src/components/ui/sheet.tsx:91-93 | A surface starts closed, unmounted, with nothing captured |
| FocusTrap.Surface.SetOpen | src/components/ui/sheet.tsx:96-173 | Opening captures the active element, mounts, locks the scroll after saving the old overflow, and focuses the first focusable element. Closing restores the saved overflow, restores focus at once to the captured element if still attached, and schedules the unmount. Setting the same value changes nothing |
| FocusTrap.Surface.UnmountTimeout | src/components/ui/sheet.tsx:170-171 | The unmount timer unmounts the closed surface and nothing else |
| FocusTrap.Surface.KeyDown | src/components/ui/sheet.tsx:113-152 | A key press on a mounted surface has the trap's outcome over the current focusable ids, and focus moves to the outcome's target |
| FocusTrap.RestoresFocusAndScroll | src/components/ui/sheet.tsx:166-173 | Open then close gives focus back to the element that had it and the old overflow value, and the unmount comes only with its timer |
| FocusTrap.Document.Detach | src/components/ui/sheet.tsx:170 | An element leaves the document; focus falls back to the body if it held it, and nothing else changes |
| FocusTrap.DetachedTriggerNotRestored | src/components/ui/sheet.tsx:166-170 | When the element focused before opening has left the document, closing does not focus it; focus stays on the panel's initial focus, or the body |
| FocusTrap.ReopenCancelsUnmount | src/components/ui/sheet.tsx:166-173 | Reopening before the unmount timer fires keeps the surface mounted with no unmount pending |
| FocusTrap.NestedLocksRestore | src/components/ui/sheet.tsx:102-111 | Two surfaces opened and closed in nested order keep the body hidden while both are open and restore the original overflow |
| FocusTrap.CrossedLocksStayHidden | src/components/ui/sheet.tsx:102-111 | Two surfaces closed in the order they opened leave the overflow "hidden", not the original value |
| Sheet.RenderAndClick | src/components/ui/sheet.tsx:30-72 | A trigger or close button outside a sheet throws its own message. Inside one, a click ends with `onOpenChange(true)` for the trigger or `(false)` for close. The child's own `onClick` runs first, and only with `asChild` |
| Sheet.ControlsRequestOnce | src/components/ui/sheet.tsx:30-72 | Inside a sheet, a click requests exactly one open-state change |
| Sheet.SwipeDownCloses | src/components/ui/sheet.tsx:94 | A sheet closes on a downward swipe of at least 100 and on nothing else |
| Sheet.SheetContent.constructor | src/components/ui/sheet.tsx:86-100 | A sheet's content starts closed and unmounted, with a swipe recognizer at threshold 100 |
| Sheet.SheetContent.SwipeEnd | src/components/ui/sheet.tsx:94 | Ending a swipe requests close exactly when the swipe recognizer fires down |
| Sheet.EscapeRestoresFocus | src/components/ui/sheet.tsx:119-123 | Escape on an open sheet requests close, and closing then restores focus and scroll; the content stays mounted until the timer |
| Panel.SideOrDefault | src/components/shell/panel.tsx:41 | The side defaults to right |
| Panel.ClosedPanelLeavesByItsEdge | src/components/shell/panel.tsx:135-144 | An open panel is in view on a phone and on desktop. A closed one drops below the bottom edge on a phone; on desktop it keeps its height and slides out past the edge it is attached to |
| Panel.SwipeDownCloses | src/components/shell/panel.tsx:52 | A panel closes on a downward swipe of at least 100 |
| Panel.PanelView.constructor | src/components/shell/panel.tsx:41-52 | A panel starts closed, on its side or the default |
| Panel.PanelView.Transform | src/components/shell/panel.tsx:140-144 | The translate classes of a render put the panel in view exactly when open, and otherwise below the bottom on a phone and past its anchored edge on desktop |
| Panel.PanelView.SwipeEnd | src/components/shell/panel.tsx:52 | Ending a swipe requests close exactly when the recognizer fires down |
| Panel.LeftPanelRoundTrip | src/components/shell/panel.tsx:94-131 | A left panel wraps Tab from its last element, restores focus on close, leaves by the left edge and unmounts on its timer |
| NavDrawer.ClickLink | src/components/shared/nav-drawer.tsx:167-195 | Every link navigates to its path and requests close |
| NavDrawer.SwipeLeftCloses | src/components/shared/nav-drawer.tsx:33 | The drawer closes on a left swipe of at least 80 |
| NavDrawer.Drawer.constructor | src/components/shared/nav-drawer.tsx:28-33 | The drawer starts closed and without the unread dot |
| NavDrawer.Drawer.CheckUnread | src/components/shared/nav-drawer.tsx:35-44 | The drawer's unread flag is the same rule as the sidebar's |
| NavDrawer.Drawer.SwipeEnd | src/components/shared/nav-drawer.tsx:33 | Ending a swipe requests close exactly when the recognizer fires left |
| NavDrawer.SwipeClosesAndRestores | src/components/shared/nav-drawer.tsx:116-123 | A left swipe requests close once, focus comes back at once, and the drawer stays mounted until its 240 ms timer |
| PullToRefresh.Label | src/components/shared/pull-to-refresh.tsx:89 | "Refreshing…" while refreshing; otherwise "Release to refresh" exactly when the pull is at least 80, else "Pull to refresh" |
| PullToRefresh.Puller.constructor | src/components/shared/pull-to-refresh.tsx:15-17 | No pull, not refreshing, no start point |
| PullToRefresh.Puller.TouchStart | src/components/shared/pull-to-refresh.tsx:24-28 | The start point is recorded only when enabled, not refreshing and scrolled to the top |
| PullToRefresh.Puller.TouchMove | src/components/shared/pull-to-refresh.tsx:30-45 | A move is ignored while refreshing, with no start point or when scrolled. Otherwise the pull becomes the downward distance capped at 120, or 0 for none, and scrolling is prevented exactly when it exceeds 8. The pull stays within 0..120 |
| PullToRefresh.Puller.TouchEnd | src/components/shared/pull-to-refresh.tsx:47-64 | While refreshing nothing happens. Otherwise the start point is cleared, and a pull under 80 resets to 0 without refreshing, while one of at least 80 starts one refresh |
| PullToRefresh.Puller.RefreshSettled | src/components/shared/pull-to-refresh.tsx:59-63 | Whether the refresh succeeds or fails, refreshing ends and the pull resets to 0 |
| PullToRefresh.LongPullRefreshesOnce | src/components/shared/pull-to-refresh.tsx:30-64 | A long pull caps at 120, shows "Release to refresh", starts exactly one refresh that ignores a second release, and ends hidden at 0 |
| PullToRefresh.ShortOrScrolledPullDoesNothing | src/components/shared/pull-to-refresh.tsx:24-55 | A short pull, or one started below the top, never refreshes and leaves the pull at 0 |
| Sidebar.ActiveMeansSegmentPrefix | src/components/shared/sidebar.tsx:59 | An active link's path is the whole pathname or a prefix followed by `/` |
| Sidebar.SiblingPrefixInactive | src/components/shared/sidebar.tsx:59 | `/dashboardx` does not activate `/dashboard`, `/dashboard/x` does, and `/` only matches itself |
| Sidebar.ActiveExclusive | src/components/shared/sidebar.tsx:59 | Two different one-segment paths are never both active |
| Sidebar.NavPathsDistinctSegments | src/components/shared/sidebar.tsx:18-26 | The menu paths are distinct one-segment paths |
| Sidebar.ActiveItems | src/components/shared/sidebar.tsx:58-59 | At most one menu item is active, and it is the one whose rule holds; none is active exactly when no rule holds |
| Sidebar.ActiveAtMostOne | src/components/shared/sidebar.tsx:18-26 | For any list of distinct one-segment paths, at most one is active |
| Sidebar.HasUnread | src/components/shared/sidebar.tsx:33-36 | An absent or empty stored count shows the dot |
| Sidebar.HasUnreadOfStoredCount | src/components/shared/sidebar.tsx:35 | A stored count n shows the dot exactly when n > 0 |
| Sidebar.HasUnreadNotANumber | src/components/shared/sidebar.tsx:35 | "abc" (NaN) and "-2" hide the dot; " 3" shows it |
| Sidebar.OnlyNotificationsBadge | src/components/shared/sidebar.tsx:61 | Only Notifications can show a badge, and it shows exactly when there is unread |
| Sidebar.OtherLinksExactOnly | src/components/shared/sidebar.tsx:92-110 | Profile and Settings highlight on their exact path only |
| Sidebar.AppSidebar.constructor | src/components/shared/sidebar.tsx:30 | The sidebar starts without the dot |
| Sidebar.AppSidebar.CheckUnread | src/components/shared/sidebar.tsx:33-36 | `checkUnread` sets the flag by the unread rule |
| BottomNav.ActiveTabs | src/components/shared/bottom-nav.tsx:37-38 | At most one tab is active, the one whose rule holds |
| BottomNav.PrimaryPathsDistinctSegments | src/components/shared/bottom-nav.tsx:17-23 | The tab paths are distinct one-segment paths |
| BottomNav.FiveTabsNoBadge | src/components/shared/bottom-nav.tsx:52-54 | There are five tabs, all of them menu items, and none shows a badge |
| Notifications.FilteredSpec | src/features/notifications/notifications-page.tsx:89-93 | The filtered list keeps order. `all` keeps everything, `unread` keeps the unread items, and any other filter keeps its category |
| Notifications.Select | src/features/notifications/notifications-page.tsx:100 | Selecting marks the item with that id read and leaves every other item as it was |
| Notifications.SelectIdempotent | src/features/notifications/notifications-page.tsx:100 | Selecting twice is selecting once |
| Notifications.SelectUnreadCount | src/features/notifications/notifications-page.tsx:100-103 | After selecting, the unread count is the number of unread items with another id |
| Notifications.SelectUnreadLowersByOne | src/features/notifications/notifications-page.tsx:100-103 | With distinct ids, selecting an unread item lowers the count by exactly one |
| Notifications.CountWithout | src/features/notifications/notifications-page.tsx:69-73 | With distinct ids, the unread items other than one unread item number one fewer |
| Notifications.MarkAllRead | src/features/notifications/notifications-page.tsx:107 | Every item becomes read with all its other fields kept, and the length is kept |
| Notifications.MarkAllReadClearsCount | src/features/notifications/notifications-page.tsx:106-113 | After mark-all-read the count is 0, and doing it again changes nothing |
| Notifications.SelectedItem | src/features/notifications/notifications-page.tsx:95 | The selected item is an item with the selected id, present exactly when such an item exists |
| Notifications.NotificationsPage.constructor | src/features/notifications/notifications-page.tsx:79-87 | The page starts with the demo list, filter `all`, nothing selected, and the stored count that of the demo list |
| Notifications.NotificationsPage.SetFilter | src/features/notifications/notifications-page.tsx:149 | A filter chip sets the filter only |
| Notifications.NotificationsPage.ToggleMenu | src/features/notifications/notifications-page.tsx:131 | The menu button flips the menu only |
| Notifications.NotificationsPage.SelectItem | src/features/notifications/notifications-page.tsx:97-104 | Selecting stores the id, marks the item read and keeps the stored count equal to the unread count |
| Notifications.NotificationsPage.MarkAllAsRead | src/features/notifications/notifications-page.tsx:106-113 | Marks everything read, stores "0" and closes the menu |
| Notifications.NotificationsPage.SheetOpenChange | src/features/notifications/notifications-page.tsx:195 | Closing the detail sheet clears the selection; opening changes nothing |
| Notifications.NotificationsPage.SheetOpen | src/features/notifications/notifications-page.tsx:195 | The sheet is open exactly on mobile with a selected item present |
| Notifications.StoredCountDrivesDot | src/features/notifications/notifications-page.tsx:69-73 | The stored count shows the nav dot exactly when some item is unread |
| Notifications.InitialCounts | src/features/notifications/notifications-page.tsx:26-67 | The demo list has three unread items and distinct ids |
| Notifications.SmallCounts | src/features/notifications/notifications-page.tsx:71 | The counts 3, 2 and 0 are stored as "3", "2" and "0" |
| Notifications.ReadingClearsTheDot | src/features/notifications/notifications-page.tsx:84-113 | The stored count goes "3", then "2" after reading one item, then "0" after marking all, and the dot is then off |
| MeetingSummary.FirstIndex | src/features/meeting-summary/meeting-summary-page.tsx:62 | The first position of a name in the list |
| MeetingSummary.Unique | src/features/meeting-summary/meeting-summary-page.tsx:62-63 | The distinct names, each once, all of them, in first-occurrence order |
| MeetingSummary.FirstIndexOfPrefix | src/features/meeting-summary/meeting-summary-page.tsx:62 | Appending a name does not move the first position of names already present |
| MeetingSummary.FirstIndexAtEnd | src/features/meeting-summary/meeting-summary-page.tsx:62 | A new name's first position is the end |
| MeetingSummary.WorkspaceNames | src/features/meeting-summary/meeting-summary-page.tsx:62 | The workspace of every file, in order |
| MeetingSummary.Workspaces | src/features/meeting-summary/meeting-summary-page.tsx:61-67 | One entry per distinct workspace, in first-occurrence order, with its number of files |
| MeetingSummary.CountsSumToTotal | src/features/meeting-summary/meeting-summary-page.tsx:61-67 | The workspace counts sum to the number of files |
| MeetingSummary.WorkspacesNonEmpty | src/features/meeting-summary/meeting-summary-page.tsx:65 | Every listed workspace has at least one file |
| MeetingSummary.CountsFor | src/features/meeting-summary/meeting-summary-page.tsx:64-66 | The count entry for each name in a list |
| MeetingSummary.SumOverNames | src/features/meeting-summary/meeting-summary-page.tsx:61-67 | For distinct names covering every file, the counts sum to the number of files |
| MeetingSummary.ZeroCounts | src/features/meeting-summary/meeting-summary-page.tsx:65 | No files give zero counts |
| MeetingSummary.AddOneFile | src/features/meeting-summary/meeting-summary-page.tsx:65 | One more file adds one to the total exactly when its workspace is listed |
| MeetingSummary.InitialWorkspaceNames | src/features/meeting-summary/meeting-summary-page.tsx:7-48 | The demo files' workspaces are Capstone 101, then Internal Tools |
| MeetingSummary.FilesInStep | src/features/meeting-summary/meeting-summary-page.tsx:65 | A workspace's count is its count over the rest of the files, plus one if the first file is in it |
| MeetingSummary.InitialCount | src/features/meeting-summary/meeting-summary-page.tsx:7-48 | Capstone 101 has 3 demo files and Internal Tools 1 |
| MeetingSummary.InitialWorkspaces | src/features/meeting-summary/meeting-summary-page.tsx:61-67 | The demo grouping is Capstone 101 with 3 files, then Internal Tools with 1 |
| MeetingSummary.InOrderTotal | src/features/meeting-summary/meeting-summary-page.tsx:84 | Any two files compare one way or the other |
| MeetingSummary.InOrderTransitive | src/features/meeting-summary/meeting-summary-page.tsx:84 | The name order is transitive |
| MeetingSummary.Insert | src/features/meeting-summary/meeting-summary-page.tsx:84 | Inserting adds exactly the one file |
| MeetingSummary.InsertSorted | src/features/meeting-summary/meeting-summary-page.tsx:84 | Inserting into a sorted list keeps it sorted |
| MeetingSummary.SortFiles | src/features/meeting-summary/meeting-summary-page.tsx:84 | The sort is a permutation of its input and sorted by name in the chosen direction |
| MeetingSummary.FilteredFiles | src/features/meeting-summary/meeting-summary-page.tsx:69-86 | The result is a sorted permutation of the files passing the chip, workspace and search filters. Every result is such a file, and every such file is in the result |
| MeetingSummary.WorkspaceChipNeedsSelection | src/features/meeting-summary/meeting-summary-page.tsx:72-73 | The workspace filter applies only with the Workspace chip and a selected workspace (an empty name counts as none), and then keeps that workspace's files |
| MeetingSummary.RecentlyOpenedSamples | src/features/meeting-summary/meeting-summary-page.tsx:74-75 | "10m ago" and "Yesterday" count as recent; a calendar date does not |
| MeetingSummary.NoAgoInDate | src/features/meeting-summary/meeting-summary-page.tsx:74-75 | "Nov 15, 2025" does not contain "ago" |
| MeetingSummary.InOrderReflexive | src/features/meeting-summary/meeting-summary-page.tsx:84 | Every file is in order with itself |
| MeetingSummary.InOrderAntisymmetric | src/features/meeting-summary/meeting-summary-page.tsx:84 | Files in order both ways have the same name |
| MeetingSummary.InsertDistinct | src/features/meeting-summary/meeting-summary-page.tsx:84 | Inserting a new name keeps the names distinct |
| MeetingSummary.SortDistinct | src/features/meeting-summary/meeting-summary-page.tsx:84 | Sorting keeps names distinct |
| MeetingSummary.SortedUnique | src/features/meeting-summary/meeting-summary-page.tsx:84 | Two sorted permutations of one list with distinct names are equal, so the displayed order is determined |
| MeetingSummary.Reverse | src/features/meeting-summary/meeting-summary-page.tsx:84 | The list read back to front |
| MeetingSummary.ReverseMultiset | src/features/meeting-summary/meeting-summary-page.tsx:84 | Reversing keeps the same files |
| MeetingSummary.DescIsReversedAsc | src/features/meeting-summary/meeting-summary-page.tsx:84 | With distinct names, the descending order is the ascending order reversed |
| MeetingSummary.Toggled | src/features/meeting-summary/meeting-summary-page.tsx:88 | Toggling always changes the direction |
| MeetingSummary.ToggleTwice | src/features/meeting-summary/meeting-summary-page.tsx:88 | Toggling twice restores the direction, and each toggle reverses the displayed order |
| MeetingSummary.MeetingSummaryPage.constructor | src/features/meeting-summary/meeting-summary-page.tsx:55-59 | List view, all files, no search, ascending, no workspace |
| MeetingSummary.MeetingSummaryPage.ToggleSort | src/features/meeting-summary/meeting-summary-page.tsx:88 | The sort button flips the direction only |
| MeetingSummary.MeetingSummaryPage.HandleFilterClick | src/features/meeting-summary/meeting-summary-page.tsx:91-95 | A chip sets the filter and clears the workspace and the search |
| MeetingSummary.MeetingSummaryPage.SetSelectedWorkspace | src/features/meeting-summary/meeting-summary-page.tsx:150 | A workspace card selects that workspace only |
| MeetingSummary.MeetingSummaryPage.SetSearchQuery | src/features/meeting-summary/meeting-summary-page.tsx:172 | Typing sets the search only |
| MeetingSummary.MeetingSummaryPage.SetView | src/features/meeting-summary/meeting-summary-page.tsx:183-191 | The view buttons set the view only |
| MeetingSummary.ChipClickShowsAllAgain | src/features/meeting-summary/meeting-summary-page.tsx:91-95 | After choosing a workspace and a search, clicking the Workspace chip clears both, so every file shows again, each as often as before, sorted |
| MeetingHistory.FilteredHistorySpec | src/features/meeting-history/meeting-history-page.tsx:74-77 | The search keeps order and keeps exactly the meetings whose lower-cased title or type contains the lower-cased term; an empty term keeps all |
| MeetingHistory.PropsOf | src/hooks/use-long-press.ts:48 | A hook's returned props object has exactly its prop names, each holding that hook's handler |
| MeetingHistory.Spread | src/features/meeting-history/meeting-history-page.tsx:230 | Spreading two props objects keeps every name of either, and the later object wins a name both define |
| MeetingHistory.CardPropsAsWritten | src/features/meeting-history/meeting-history-page.tsx:218-230 | On the card, the swipe hook's handlers replace pointer-down, pointer-up and pointer-cancel; the long press keeps only pointer-leave and pointer-move |
| MeetingHistory.SwipeLeftOpensActionsOnMobile | src/features/meeting-history/meeting-history-page.tsx:223-227 | A pointer-up of an active swipe calls `onAction` exactly on a phone when the drag is mostly horizontal and at least 80 px to the left, and never on desktop |
| MeetingHistory.Card.constructor | src/features/meeting-history/meeting-history-page.tsx:218-227 | A card starts with both hooks at their defaults (520 ms, 12 px, 80 px), nothing armed and no `onAction` call |
| MeetingHistory.Card.LongPressHandles | src/features/meeting-history/meeting-history-page.tsx:218-222 | The long-press handler calls `onAction` once per fired long press on a phone and never on desktop; a primary pointer-down arms it, a live timeout fires it, and up, cancel or leave disarm it |
| MeetingHistory.Card.SwipeHandles | src/features/meeting-history/meeting-history-page.tsx:223-227 | The swipe handler calls `onAction` exactly on a pointer-up that ends a leftward swipe on a phone; pointer-down starts a session at the pointer and up or cancel ends it |
| MeetingHistory.Card.Dispatch | src/features/meeting-history/meeting-history-page.tsx:230 | As written, the long press is never armed and stays that way; only a pointer-up ending a leftward swipe on a phone calls `onAction` |
| MeetingHistory.Card.DispatchComposed | src/features/meeting-history/meeting-history-page.tsx:218-230 | With both handlers run for a shared prop, `onAction` is called for every fired long press on a phone as well as for a leftward swipe |
| MeetingHistory.HeldPressDoesNothing | src/features/meeting-history/meeting-history-page.tsx:218-230 | As written, a held touch on a phone schedules no timeout and calls `onAction` zero times |
| MeetingHistory.HeldPressOpensWhenComposed | src/features/meeting-history/meeting-history-page.tsx:218-230 | Composed as intended, the same held touch fires its timeout and calls `onAction` once, and the release adds nothing |
| MeetingHistory.DateBadge | src/features/meeting-history/meeting-history-page.tsx:235-236 | A date without a space gives no badge |
| MeetingHistory.SplitSingle | src/features/meeting-history/meeting-history-page.tsx:235 | Splitting gives one piece exactly when the separator is absent |
| MeetingHistory.DateBadgeOfDate | src/features/meeting-history/meeting-history-page.tsx:235-236 | For "Mon D, YYYY" the badge is the month and the day without its comma |
| MeetingHistory.DateBadgeSamples | src/features/meeting-history/meeting-history-page.tsx:235-236 | "Oct 24, 2025" gives Oct and 24 |
| MeetingHistory.MeetingHistoryPage.constructor | src/features/meeting-history/meeting-history-page.tsx:70-72 | No search term, no action meeting |
| MeetingHistory.MeetingHistoryPage.SetSearchTerm | src/features/meeting-history/meeting-history-page.tsx:117 | Typing sets the term only |
| MeetingHistory.MeetingHistoryPage.OnAction | src/features/meeting-history/meeting-history-page.tsx:148-164 | A card's `onAction` sets the action meeting and changes nothing else |
| MeetingHistory.MeetingHistoryPage.OpenDetails | src/features/meeting-history/meeting-history-page.tsx:180-184 | With no action meeting nothing happens; otherwise it navigates to that meeting and clears it |
| MeetingHistory.MeetingHistoryPage.Dismiss | src/features/meeting-history/meeting-history-page.tsx:188-197 | Download, archive and close clear the action meeting only |
| MeetingHistory.MeetingHistoryPage.PanelOpenChange | src/features/meeting-history/meeting-history-page.tsx:170-172 | Closing the panel clears the action meeting |
| MeetingHistory.SwipeThenOpen | src/features/meeting-history/meeting-history-page.tsx:180-230 | A leftward swipe on a desktop card opens nothing; on a phone it opens the panel, and "Open details" navigates once and closes it |
| Calendar.DateOfInjective | src/features/calendar/calendar-page.tsx:119-124 | Dates built from same-length prefixes and padded day numbers are equal only for equal parts |
| Calendar.CellDateParts | src/features/calendar/calendar-page.tsx:114-125 | Every cell's date is its month prefix and padded day |
| Calendar.CellDatesDistinct | src/features/calendar/calendar-page.tsx:114-125 | All 35 cell dates differ |
| Calendar.CalendarDays | src/features/calendar/calendar-page.tsx:114-125 | 35 cells: Nov 30 outside the month, Dec 1..31 in it with zero-padded dates, then Jan 1..3 outside it, and all dates distinct |
| Calendar.Upcoming | src/features/calendar/calendar-page.tsx:239 | The upcoming list is the first min(4, n) events, in order |
| Calendar.UpcomingShowsAllSamples | src/features/calendar/calendar-page.tsx:75-112 | All three demo events are listed |
| Calendar.ToneInjective | src/features/calendar/calendar-page.tsx:47-60 | Different colours give different badge classes |
| Calendar.KnownBadges | src/features/calendar/calendar-page.tsx:47-60 | Each known kind gets its own colour's badge |
| Calendar.BadgeStylesColours | src/features/calendar/calendar-page.tsx:47-60 | The four kinds get pairwise different badges, none of them the muted one, and every other kind gets the muted badge |
| Calendar.CalendarPage.constructor | src/features/calendar/calendar-page.tsx:65-73 | Month view, nothing selected, new-event closed, listening for the new-event event |
| Calendar.CalendarPage.Unmount | src/features/calendar/calendar-page.tsx:72 | Unmounting removes the listener |
| Calendar.CalendarPage.Dispatch | src/features/calendar/calendar-page.tsx:69-73 | The `open-new-event-modal` event opens the new-event panel while the page listens; any other event, or any event after unmounting, changes nothing |
| Calendar.CalendarPage.SetView | src/features/calendar/calendar-page.tsx:197 | The view switch sets the view only |
| Calendar.CalendarPage.SetNewEventOpen | src/features/calendar/calendar-page.tsx:209 | The New Event button opens the new-event panel only |
| Calendar.CalendarPage.SelectEvent | src/features/calendar/calendar-page.tsx:223-256 | Selecting an event shows its details |
| Calendar.CalendarPage.DetailsOpenChange | src/features/calendar/calendar-page.tsx:270-273 | Closing the details clears the selection |
| MonthView.DayEventsSpec | src/features/calendar/month-view.tsx:52 | A day's events are exactly the events on that date, in input order |
| MonthView.EventInOneCell | src/features/calendar/month-view.tsx:52 | An event appears in the one cell whose date is its date |
| MonthView.SampleEventsPlaced | src/features/calendar/month-view.tsx:52 | The demo events land in cells 15, 4 and 29 |
| MonthView.VisiblePills | src/features/calendar/month-view.tsx:94 | The pills are the first 1 event on mobile and the first 3 otherwise |
| MonthView.PillsAndMore | src/features/calendar/month-view.tsx:94-108 | "+N more" shows only on mobile with more than one event, with N the count less one; on desktop nothing is hidden up to 3 |
| MonthView.DayClick | src/features/calendar/month-view.tsx:72-74 | Clicking the day number selects the day's first event, and nothing when there is none |
| MonthView.ClickSelectsOwnEvents | src/features/calendar/month-view.tsx:72-98 | A click makes at most one request: it only selects the cell's own events, or asks for a new event from the add button |
| MonthView.RightBorderLastColumn | src/features/calendar/month-view.tsx:60 | The right border is dropped exactly on the last column: cells 6, 13, 20, 27 and 34 |
| MonthView.OneCellIsToday | src/features/calendar/month-view.tsx:53 | Exactly cell 15 is today |
| MonthView.PillToneInjective | src/features/calendar/month-view.tsx:11-24 | Different colours give different pill classes |
| MonthView.KnownPill | src/features/calendar/month-view.tsx:11-24 | Each known kind gets its colour's pill |
| MonthView.EventPillColours | src/features/calendar/month-view.tsx:11-24 | The four kinds get pairwise different pills, none gray, and everything else gets gray |
| TranscriptionBanner.FormatDurationParts | src/components/features/mobile-transcription-banner.tsx:11-18 | The label is the padded minutes, a colon and the padded seconds of the whole seconds |
| TranscriptionBanner.DigitsLackSeparator | src/components/features/mobile-transcription-banner.tsx:17 | Digits never contain the colon |
| TranscriptionBanner.FormatDurationRoundTrip | src/components/features/mobile-transcription-banner.tsx:11-18 | The label splits into two digit fields, the seconds two digits below 60, and 60 × minutes + seconds reads back the whole seconds |
| TranscriptionBanner.HundredsNeedThreeDigits | src/components/features/mobile-transcription-banner.tsx:15 | A number of 100 or more prints with at least three digits |
| TranscriptionBanner.MinutesUncapped | src/components/features/mobile-transcription-banner.tsx:13-16 | From 100 minutes on, the minutes field has three or more digits |
| TranscriptionBanner.StaleClockShowsNegative | src/components/features/mobile-transcription-banner.tsx:57-66 | As written, a start later than the stale clock shows "-5:00" or "-1:-1" |
| TranscriptionBanner.DurationLabelDash | src/components/features/mobile-transcription-banner.tsx:65-66 | The label is the dash exactly when the start is missing or 0 |
| TranscriptionBanner.DurationLabelReadsBack | src/components/features/mobile-transcription-banner.tsx:65-66 | With a start, the label is two digit fields, seconds below 60, that read back the elapsed whole seconds, or 0 before the clock catches up |
| TranscriptionBanner.DurationLabelAgrees | src/components/features/mobile-transcription-banner.tsx:65-66 | Whenever the clock is not behind the start, the label agrees with the code as written |
| TranscriptionBanner.ControlsByStatus | src/components/features/mobile-transcription-banner.tsx:90-114 | Idle shows no buttons. Otherwise there are two: Resume when paused and Pause otherwise, then Stop |
| TranscriptionBanner.Banner.constructor | src/components/features/mobile-transcription-banner.tsx:26-37 | The banner starts from the stored status (idle when absent) and start time, and the current clock |
| TranscriptionBanner.Banner.OnState | src/components/features/mobile-transcription-banner.tsx:39-51 | A present status is applied and stored. A null start removes its key, a number is stored, and an undefined start leaves the key as it was. Nothing else in storage changes |
| TranscriptionBanner.Banner.Tick | src/components/features/mobile-transcription-banner.tsx:57-61 | The interval updates only the clock |
| TranscriptionBanner.Banner.Label | src/components/features/mobile-transcription-banner.tsx:65-66 | The banner shows the label as written: the dash without a start time, and the corrected label whenever the clock has caught up with the start |
| TranscriptionBanner.StartAfterIdle | src/components/features/mobile-transcription-banner.tsx:39-66 | A recording that starts five minutes after an idle mount shows "-5:00" until the interval first fires |
| TranscriptionBanner.IdleIsSilent | src/components/features/mobile-transcription-banner.tsx:57-63 | An idle banner renders nothing, runs no interval and has no buttons |
| TranscriptionBanner.Remount | src/components/features/mobile-transcription-banner.tsx:33-37 | Remounting restores the status and start from storage |
| TranscriptionBanner.OneMinuteLabel | src/components/features/mobile-transcription-banner.tsx:65-66 | 60 seconds after the start, the label is "01:00" |
| AppShell.FirstMatch | src/components/shared/app-shell.tsx:22-27 | The title of the first matching entry, and none exactly when no entry matches |
| AppShell.UniqueMatchWins | src/components/shared/app-shell.tsx:22-27 | When one entry alone matches, its title is shown |
| AppShell.NoMatchIsDefault | src/components/shared/app-shell.tsx:26 | Nothing matching gives "Synthia" |
| AppShell.TablePathsOneSegment | src/components/shared/app-shell.tsx:9-20 | Each table path is a single segment |
| AppShell.SegmentNotBelowOther | src/components/shared/app-shell.tsx:16 | A one-segment path is never below another one-segment path |
| AppShell.NotBelowOtherSegment | src/components/shared/app-shell.tsx:16 | Nothing below one route is below a different route |
| AppShell.ChildOfExactRouteIsDefault | src/components/shared/app-shell.tsx:10-19 | Any path below a route other than meeting-summary gives "Synthia" |
| AppShell.ExactPathGivesTitle | src/components/shared/app-shell.tsx:9-27 | Each route's own path gives its title |
| AppShell.PathsDistinct | src/components/shared/app-shell.tsx:9-20 | The table paths are distinct |
| AppShell.MeetingSummaryTitle | src/components/shared/app-shell.tsx:16 | `/meeting-summary` gives "Meeting Summary" |
| AppShell.BelowMeetingSummaryTitle | src/components/shared/app-shell.tsx:16 | Every `/meeting-summary/...` without a line break gives "Meeting Summary" |
| AppShell.MeetingSummarySiblingIsDefault | src/components/shared/app-shell.tsx:16 | `/meeting-summaryX` gives "Synthia" |
| AppShell.DashboardChildIsDefault | src/components/shared/app-shell.tsx:10 | `/dashboard/x` gives "Synthia" |
| Viewport.OrientationSwaps | src/hooks/use-viewport.ts:7-9 | Landscape exactly when the width is at least the height, so a square is landscape and swapping unequal sides swaps the orientation |
| Viewport.WidthClasses | src/hooks/use-viewport.ts:36-38 | At most one width class holds, a positive width is in exactly one, and width 0 is in none |
| Viewport.Breakpoints | src/hooks/use-viewport.ts:36-38 | 767 is mobile, 768 tablet, 1023 tablet, 1024 desktop, 0 none |
| Viewport.ViewportState.constructor | src/hooks/use-viewport.ts:12-16 | The state starts at 0 by 0, portrait |
| Viewport.ViewportState.Update | src/hooks/use-viewport.ts:21-25 | `update` takes the window's size and its orientation |
| Login.Validate | src/features/auth/login-page.tsx:25-32 | No error exactly when both fields are filled and the email has `@`. An empty field gives "Please fill in all fields" before the email is checked |
| Login.EmptinessFirst | src/features/auth/login-page.tsx:25-32 | "user" with no password reports the empty field; with a password, the invalid email |
| Login.LoginPage.constructor | src/features/auth/login-page.tsx:13-17 | Empty fields, password hidden, not loading, no error |
| Login.LoginPage.SetEmail | src/features/auth/login-page.tsx:70 | Typing sets the email only |
| Login.LoginPage.SetPassword | src/features/auth/login-page.tsx:87 | Typing sets the password only |
| Login.LoginPage.TogglePassword | src/features/auth/login-page.tsx:95 | The eye button flips the password visibility only |
| Login.LoginPage.Submit | src/features/auth/login-page.tsx:19-33 | Submitting shows the first failing check's message with loading cleared and no navigation, or starts the wait with no error |
| Login.LoginPage.WaitElapsed | src/features/auth/login-page.tsx:34-40 | After the wait, it navigates to `/dashboard`, or shows the failure message when navigation throws; loading ends either way |
| MeetingRoom.PanelTitles | src/features/meeting-room/meeting-room-page.tsx:47 | The titles are Notes, Chat and People, never "Panel", and lower-casing one gives the panel's name |
| MeetingRoom.ToggleTwice | src/features/meeting-room/meeting-room-page.tsx:43-45 | Toggling opens the panel unless it was open, and toggling twice restores the state |
| MeetingRoom.Room.DefaultPanelEffect | src/features/meeting-room/meeting-room-page.tsx:24-34 | On a wide screen, the first run opens notes if nothing is open and sets the one-shot flag either way; later runs and phones change nothing |
| MeetingRoom.Room.constructor | src/features/meeting-room/meeting-room-page.tsx:18-34 | The room mounts unmuted with the camera on, and on a wide screen with notes open |
| MeetingRoom.Room.SetMobile | src/features/meeting-room/meeting-room-page.tsx:24-34 | A width change reruns the default effect, which is applied at most once over the room's life |
| MeetingRoom.Room.TogglePanel | src/features/meeting-room/meeting-room-page.tsx:43-45 | A panel button toggles that panel |
| MeetingRoom.Room.ClosePanel | src/features/meeting-room/meeting-room-page.tsx:88 | The close button clears the panel |
| MeetingRoom.Room.SheetOpenChange | src/features/meeting-room/meeting-room-page.tsx:133 | Closing the sheet clears the panel; opening it changes nothing |
| MeetingRoom.Room.ToggleMic | src/features/meeting-room/meeting-room-page.tsx:115 | The mic button flips only the mute flag |
| MeetingRoom.Room.ToggleCamera | src/features/meeting-room/meeting-room-page.tsx:109 | The camera button flips only the camera flag |
| MeetingRoom.Room.Leave | src/features/meeting-room/meeting-room-page.tsx:126 | Leave navigates to the meeting history |
| MeetingRoom.OneSurface | src/features/meeting-room/meeting-room-page.tsx:84-133 | The aside and the sheet never show together, and one shows exactly when a panel is active |
| Strings.ToLower | src/features/meeting-history/meeting-history-page.tsx:76 | `toLowerCase` maps each character, keeping the length |
| Strings.PadStart | src/components/features/mobile-transcription-banner.tsx:15-16 | `padStart` reaches the target length, or keeps a longer string |
| Strings.ParsePadded | src/components/features/mobile-transcription-banner.tsx:15-16 | A padded number reads back as the number |
| Strings.Pad2Injective | src/components/features/mobile-transcription-banner.tsx:15-16 | Different numbers pad to different strings |
| Strings.ParseInt | src/components/shared/sidebar.tsx:35 | `parseInt` is NaN exactly when no digit follows the leading white space and sign |
| Strings.ParseIntIntToString | src/components/shared/sidebar.tsx:35 | `parseInt` reads back any printed integer |
| Strings.Split | src/features/meeting-history/meeting-history-page.tsx:235 | `split` gives at least one piece, none containing the separator |
| Strings.JoinSplit | src/features/meeting-history/meeting-history-page.tsx:235 | Joining the pieces with the separator gives back the string |
| Strings.BelowTotal | src/features/meeting-summary/meeting-summary-page.tsx:84 | Any two different names compare one way or the other |
| Strings.BelowTransitive | src/features/meeting-summary/meeting-summary-page.tsx:84 | The name comparison is transitive |

## Left out

- Cache API internals: `Response.clone`, `clients.claim`, `skipWaiting` and `caches.keys` ordering are browser behaviour. `cache.addAll` is modelled as all-or-nothing over per-asset outcomes.
- Timers and async scheduling are events, not wall-clock time. This covers the 260/240 ms unmounts, the 520 ms long press, the 500 ms login delay, the pull-to-refresh `await` and the banner's one-second interval.
- Swipe.Recognizer.PointerUp: pointer coordinates are integers; the browser's fractional `clientX`/`clientY` are not modelled, so the 80 px comparisons are on whole pixels.
- PullToRefresh.Puller.TouchMove: touch coordinates are integers; the fractional `clientY` of a touch and a fractional pull distance are not modelled.
- ServiceWorker.FetchAll: `cache.addAll` rejecting a request list with duplicates is not modelled; the shell list has none (ServiceWorker.ShellAssetsDistinct).
- LongPress.Recognizer.PointerMove: `Math.hypot(dx, dy) > tolerance` is taken as `dx² + dy² > tolerance²` on integer coordinates; fractional pointer positions are not modelled.
- MeetingSummary.SortFiles: `localeCompare` is code-point order on names, not locale collation, and `toLowerCase` is ASCII-only. The sort is stated up to equal names; it need not match the browser's stable sort on two files with the same name.
- MeetingSummary.ToggleTwice: "toggling reverses the order" is proved only for files with distinct names, since equal names may be ordered either way.
- MeetingSummary.DescIsReversedAsc: holds only for distinct names, for the same reason.
- MeetingSummary.SortedUnique: needs distinct names, for the same reason.
- sessionStorage, the synthetic `storage` event and the custom window events are fields and method calls. The cross-tab listener registration is not modelled.
- `useVirtualizer` and the rendering it drives are not modelled. Only the "more than 20 rows" predicates are.
- JSX, portals, event bubbling and Tailwind classes are not modelled. The placement and colour classes that carry meaning are, as strings.
- `canRecord` (the media-devices check) is a `supported` parameter of the headline. A non-numeric stored start time is `None`.
- The `useMobile` media query is a boolean parameter. Viewport listener registration and removal are not modelled.
- The meeting room's clock (`toLocaleTimeString`) and the panel bodies (panel-body.tsx is not part of this model).
- Meeting-summary `openFile` and meeting-history detail routes are modelled only as the pushed path strings.
- Login.LoginPage.Submit: requires that no submit is already loading, because the button is disabled then. A submit that arrives during the wait is not modelled.
- The scroll-lock interplay of two surfaces closed out of order leaves the body hidden (FocusTrap.CrossedLocksStayHidden). The model keeps that behaviour rather than correcting it, since the intended behaviour with overlapping surfaces is not stated.

## Findings

| source | as written | input that shows it | evidently intended | confidence | as-written member | corrected member |
|---|---|---|---|---|---|---|
| src/components/features/mobile-transcription-banner.tsx:57-66 | `now` is only refreshed by the interval, which does not run while idle. When a recording starts later, the label is `formatDuration(now - startedAt)` with a stale `now`, so the elapsed time is negative until the first tick | startedAt = 300000, now = 0 gives "-5:00"; startedAt = 1000, now = 0 gives "-1:-1" | the elapsed time is never shown below 0, so the label reads 00:00 until the clock catches up | medium, not executed | TranscriptionBanner.StaleClockShowsNegative | TranscriptionBanner.DurationLabelReadsBack |
| src/features/meeting-history/meeting-history-page.tsx:218-230 | `<Card {...longPress} {...swipe}>`: the swipe hook's `onPointerDown`, `onPointerUp` and `onPointerCancel` replace the long press's, so its timer is never started | a touch held still for 520 ms on a phone calls `onAction` zero times | a long press on a phone opens the actions, as the `onLongPress` callback says, alongside the left swipe | high, not executed | MeetingHistory.HeldPressDoesNothing | MeetingHistory.HeldPressOpensWhenComposed |
