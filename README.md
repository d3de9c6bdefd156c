# Portfolio page script, modelled in Dafny

This project models the behaviour of `js/main.js`, the script behind a
single-page developer portfolio. Each interactive piece of the page is one
module:

- `JsString`: the parts of JavaScript's `substring` and `trim` the script relies on.
- `Typing`: the hero banner's typing animation.
- `Navigation`: the highlighting of the navigation links and the in-page anchor scroll target.
- `Scroll`: the navbar look and the scroll-to-top button, each switched on past a fixed offset.
- `MobileMenu`: the mobile menu toggle.
- `Gallery`: the project-card modal and its catalogue of screenshots.
- `ContactModal`: the contact-form confirmation modal.
- `Reveal`: the intersection observer that reveals elements.
- `Skills`: the skill-bar animation.
- `Timing`: the `throttle` and `debounce` helpers.

Every piece that holds state is modelled twice. `Timing` is covered by the pure run functions and two small classes.

- A pure description on values: a datatype for the state, plus a function for each event or listener.
- A class whose fields are the DOM flags or the closure variables the script updates. Its methods are the event handlers, each proved to move the state exactly as the pure function says.

The properties are lemmas about the pure functions. Each lemma covers a single event or any finite run of events.

Timers are explicit events. A `setTimeout` callback firing is one more event, and a timer event with no timer pending does nothing. The DOM is reduced to what the handlers read and write:

- class flags;
- `display` styles;
- text content;
- `offsetTop`/`offsetHeight`/`getBoundingClientRect` values, which are integer inputs;
- intersection flags, which are boolean inputs.

Three behaviours of the code are worth stating outright, because a reader might expect otherwise:

- When no section contains the scroll probe, `updateActiveSection` (js/main.js:145-153) changes nothing, so the previously active link stays active (`Navigation.ScanIsLastMatch`). When several sections contain it, the last one in document order wins.
- Escape is handled by two independent listeners, one per modal (js/main.js:181-185 and 371-375). Each closes its own modal when that modal is showing. There is no "topmost modal first" rule.
- `hideModal`'s 300 ms timer (js/main.js:210-213) is never cancelled. Reopening the contact modal before it fires gets the modal hidden again, from any settled state and whichever of the two pending timers fires first (`ContactModal.ReopenWithinHideDelayIsUndone`). This is modelled as the code behaves.

## Model

| member | source | states |
|---|---|---|
| JsString.Prefix | js/main.js:93-97 | `substring(0, end)` clamps its end: the exact prefix for an end in range, "" below 0, the whole string past the end |
| JsString.DropFirst | js/main.js:46 | `substring(1)` drops exactly the first character, and gives "" for "" |
| JsString.DropFirstOfHash | js/main.js:46 | dropping the `#` of `"#" + id` gives back `id` |
| JsString.Trim | js/main.js:311 | `trim()` keeps the contiguous middle part that starts right after the leading whitespace |
| JsString.TrimDropsOnlyWhiteSpace | js/main.js:311 | everything `trim` removes is ECMAScript whitespace, at both ends |
| JsString.TrimEdges | js/main.js:311 | the trimmed text neither starts nor ends with whitespace; it is empty iff the input is all whitespace |
| JsString.TrimIdempotent | js/main.js:311 | trimming twice is trimming once |
| JsString.TrimOfPadded | js/main.js:311 | a text with non-space edges, padded with any whitespace, trims back to itself |
| Typing.PhrasesNonEmpty | js/main.js:76-81 | the page has four phrases, none of them empty |
| Typing.Step | js/main.js:89-110 | one tick moves the count by ±1 and shows exactly that prefix of the phrase. The direction flips iff the count reaches 0 or the full length. The phrase advances cyclically iff a deletion reaches 0. The delay is 100/50 ms, or 2000/500 ms at the ends. The invariant is kept |
| Typing.Run | js/main.js:111 | any number of ticks keeps the phrase index in range |
| Typing.Trace | js/main.js:111 | the trace of `n` ticks has exactly `n` entries |
| Typing.RunKeepsInv | js/main.js:89-111 | the animator invariant (index in range, count within the phrase, something left to type or delete) holds after any number of ticks |
| Typing.PageAnimatorBounds | js/main.js:84-111 | from the page's start state (0, 0, typing), after any number of ticks: `0 <= phraseIndex < 4`; `0 <= charIndex <= len`; deleting implies `charIndex >= 1`; typing implies `charIndex < len` |
| Typing.RunAppend | js/main.js:111 | `a` ticks then `b` ticks equal `a + b` ticks, for the state and for the trace |
| Typing.TypingPhase | js/main.js:96-104 | typing from count k reaches the full phrase in `len - k` ticks, showing each longer prefix at 100 ms, then pauses 2000 ms and turns round |
| Typing.DeletingPhase | js/main.js:92-108 | deleting from count k reaches 0 in k ticks, showing each shorter prefix at 50 ms, then pauses 500 ms and moves to the next phrase |
| Typing.PhraseCycle | js/main.js:89-111 | a phrase of length L takes exactly 2·L ticks: the prefixes of length 1..L, then L-1..0, ending at the next phrase's empty prefix |
| Typing.TypingAnimator.constructor | js/main.js:84-87 | the closure starts at phrase 0, count 0, typing, at 100 ms |
| Typing.TypingAnimator.TypeEffect | js/main.js:89-111 | `typeEffect` sets phrase index, count, direction, banner text and next delay exactly as `Step` does, and keeps the invariant |
| Navigation.Highlighted | js/main.js:63-72 | after highlighting `id`, the hrefs are unchanged and a link is active iff its href is `#id` |
| Navigation.HighlightedUnique | js/main.js:66-71 | that condition fixes the result uniquely, so the earlier flags are forgotten |
| Navigation.HighlightIdempotent | js/main.js:63-72 | highlighting the same id twice changes nothing more |
| Navigation.HighlightOverrides | js/main.js:63-72 | a later highlight completely overrides an earlier one |
| Navigation.HighlightAtMostOne | js/main.js:66-71 | with distinct hrefs, at most one link is active after a highlight |
| Navigation.LastMatch | js/main.js:145-153 | returns None iff no section's half-open span `[top, top + height)` contains the probe; otherwise the last section that does |
| Navigation.Contains | js/main.js:150 | the scroll listener's test: the probe lies in the half-open span `[top, top + height)` |
| Navigation.Scan | js/main.js:141-154 | `updateActiveSection` as written, one highlight per matching section in document order; it keeps the links' number and hrefs |
| Navigation.ScanIsLastMatch | js/main.js:141-154 | the scan, which highlights once per matching section, leaves the links unchanged when nothing matches, and otherwise leaves exactly the last match highlighted |
| Navigation.GetElementById | js/main.js:47 | an element is found iff the id is non-empty and present, and then it gives that element's top |
| Navigation.AnchorScrollTarget | js/main.js:46-50 | a click on `#id` scrolls iff `id` names an element, and then to its top minus 80 |
| Navigation.AnchorClickActivates | js/main.js:43-58 | clicking `#id` of an existing element scrolls to its top minus 80, and afterwards the active links are exactly those with href `#id` |
| Navigation.NavBar.UpdateActiveNavLink | js/main.js:63-72 | the loop over the links leaves them exactly `Highlighted` |
| Navigation.NavBar.UpdateActiveSection | js/main.js:141-154 | the loop over the sections with probe `pageYOffset + 100` leaves the links unchanged when no section matches, and otherwise highlighted for the last match |
| Navigation.NavBar.OnAnchorClick | js/main.js:43-58 | returns the scroll target of `AnchorScrollTarget`; it highlights the id iff the target exists and changes nothing otherwise |
| Scroll.ScrollTop | js/main.js:123 | `pageYOffset \|\| scrollTop`: a zero page offset falls back to the document's reading |
| Scroll.NavbarScrolled | js/main.js:126 | the navbar listener's test: the scroll reading exceeds 50 |
| Scroll.ScrollTopShown | js/main.js:283 | the scroll-to-top listener's test: the page offset exceeds 300 |
| Scroll.NavbarListener | js/main.js:122-133 | with a navbar, its look is on iff this event's reading exceeds 50; without one nothing changes; the button is untouched |
| Scroll.ButtonListener | js/main.js:282-288 | the button shows iff the page offset exceeds 300; the navbar is untouched |
| Scroll.OnScrollEvent | js/main.js:9-12 | one scroll event runs both listeners in registration order: the navbar look follows the reading when there is a navbar, the button follows the offset |
| Scroll.ListenersCommute | js/main.js:122-139 | the two listeners touch different flags, so either order gives the same state |
| Scroll.ScrollForgetsHistory | js/main.js:122-133 | with a navbar, the state after a scroll event depends on that event's readings alone |
| Scroll.ButtonImpliesScrolledNavbar | js/main.js:282-288 | with a navbar, after any scroll event the button shows only when the navbar has its scrolled look |
| Scroll.PageChrome.OnScrollNavbar | js/main.js:122-133 | the navbar listener moves the flags exactly as `NavbarListener` |
| Scroll.PageChrome.OnScrollButton | js/main.js:282-288 | the scroll-to-top listener moves the flags exactly as `ButtonListener` |
| MobileMenu.Toggle | js/main.js:21-28 | the button click flips `hidden`, and flips `rotate-90` iff the icon exists |
| MobileMenu.LinkClick | js/main.js:32-34 | a menu-link click sets `hidden` and leaves the icon alone |
| MobileMenu.ToggleTwice | js/main.js:21-28 | two button clicks restore menu and icon |
| MobileMenu.ToggleKeepsIconInStep | js/main.js:21-28 | with an icon, the button keeps "rotated iff open" |
| MobileMenu.LinkClickLeavesIconRotated | js/main.js:32-34 | closing through a link leaves the icon rotated on a closed menu |
| MobileMenu.Menu.OnButtonClick | js/main.js:21-28 | the handler moves the flags exactly as `Toggle` |
| MobileMenu.Menu.OnLinkClick | js/main.js:32-34 | the handler moves the flags exactly as `LinkClick` |
| Gallery.Lookup | js/main.js:399-717 | a gallery is chosen exactly for the four project titles (exact comparison), the placeholder with its notice text for any other string; only Audit Portal has the notice; galleries and groups are non-empty |
| Gallery.CatalogShape | js/main.js:399-717 | group headings and image counts: Water Meter 12/4/2, Audit Portal 7, SciLab 9/7/7, PLSPCart 7/10 |
| Gallery.Show | js/main.js:392-720 | showing sets the title, the body `Lookup(title)` and `display: flex` |
| Gallery.Close | js/main.js:723-728 | closing sets `display: none` on an existing modal, keeps its title and body, and does nothing when no modal exists |
| Gallery.KeyDown | js/main.js:371-375 | Escape closes a displayed modal; any other key, or an already hidden modal, is left as is |
| Gallery.OverlayClick | js/main.js:364-368 | only a click on the overlay itself closes the modal |
| Gallery.ShowForgetsHistory | js/main.js:392-720 | what the modal showed before makes no difference; reopening after a close is the same as opening |
| Gallery.CloseIdempotent | js/main.js:723-728 | closing twice is closing once |
| Gallery.Closest | js/main.js:307 | `closest(tag)` finds the nearest matching element from the target upwards, and none iff there is no such element |
| Gallery.ClickOnLink | js/main.js:307 | the card's guard: the target is an anchor, or `closest('a')` finds one |
| Gallery.ClickOnLinkIffAnchorAbove | js/main.js:307 | the card's guard holds iff the target or one of its ancestors is an anchor |
| Gallery.CardClick | js/main.js:305-313 | a click from inside an anchor is ignored; otherwise the modal shows the trimmed `h3` text |
| Gallery.CardClickPaddedTitle | js/main.js:311-312 | a heading that is a project title padded with whitespace opens that project's gallery |
| Gallery.CardModal.constructor | js/main.js:318-321 | there is no card modal until the first card click creates it |
| Gallery.CardModal.ShowCardModal | js/main.js:317-721 | the method leaves the modal as `Show` says |
| Gallery.CardModal.CloseCardModal | js/main.js:723-728 | the method leaves the modal as `Close` says |
| Gallery.CardModal.OnKeyDown | js/main.js:371-375 | the listener acts as `KeyDown` |
| Gallery.CardModal.OnModalClick | js/main.js:364-368 | the listener acts as `OverlayClick` |
| Gallery.CardModal.OnCardClick | js/main.js:305-313 | the listener acts as `CardClick` |
| ContactModal.Opening | js/main.js:188-200 | `showModal` removes `hidden`, adds `flex` and schedules one expand timer, touching nothing else |
| ContactModal.Closing | js/main.js:202-214 | `hideModal` swaps to `scale-95` at once and schedules one hide timer, touching nothing else |
| ContactModal.Apply | js/main.js:161-214 | every event keeps each element carrying exactly one of its two classes. An Escape on a hidden modal is a no-op, as is any key other than Escape and any click off the overlay |
| ContactModal.RunKeepsConsistent | js/main.js:188-214 | from a consistent start, no sequence of events gives an element both or neither of its classes |
| ContactModal.OpenSettles | js/main.js:188-200 | submit, then the expand timer, leaves the modal fully open with nothing pending |
| ContactModal.CloseSettles | js/main.js:202-214 | the close button, an overlay click or Escape, then the hide timer, leaves it fully closed with nothing pending |
| ContactModal.OpenCloseOpenSettled | js/main.js:163-214 | with timers settled in between, open, close, open ends open |
| ContactModal.RunEventsAppend | js/main.js:161-214 | running two event sequences one after the other is running their concatenation |
| ContactModal.ReopenWithinHideDelayIsUndone | js/main.js:202-214 | from every settled state, close, reopen and both pending timers firing in either order leave the modal hidden, out of the layout, at full scale and with nothing pending, because the stale hide timer is not cancelled |
| ContactModal.Modal.ShowModal | js/main.js:188-200 | the method moves the flags as `Opening` |
| ContactModal.Modal.HideModal | js/main.js:202-214 | the method moves the flags as `Closing` |
| ContactModal.Modal.OnSubmit | js/main.js:163-166 | the submit listener opens the modal |
| ContactModal.Modal.OnCloseButton | js/main.js:169-171 | the close button hides it |
| ContactModal.Modal.OnModalClick | js/main.js:174-178 | only an overlay click hides it |
| ContactModal.Modal.OnKeyDown | js/main.js:181-185 | Escape hides it unless it carries `hidden` |
| ContactModal.Modal.OnExpandTimer | js/main.js:196-199 | a pending expand timer swaps to `scale-100` |
| ContactModal.Modal.OnHideTimer | js/main.js:210-213 | a pending hide timer adds `hidden` and removes `flex` |
| Reveal.Hits | js/main.js:736-742 | the targets acted on are exactly those of the intersecting entries |
| Reveal.Callback | js/main.js:736-742 | the callback adds those targets to the revealed set and removes them from the observed set |
| Reveal.CallbackStep | js/main.js:736-742 | a batch keeps "observed or revealed, never both" and never un-reveals. It never hits an element already revealed, and it leaves every element it does not hit unchanged |
| Reveal.RevealedOnlyGrows | js/main.js:736-742 | over any run of batches, whatever they report, the revealed set only grows |
| Reveal.RevealIsMonotone | js/main.js:736-748 | over any run of batches the partition holds and the revealed set only grows |
| Reveal.Observer.constructor | js/main.js:745-748 | every animated element starts observed, none revealed |
| Reveal.Observer.OnIntersection | js/main.js:736-742 | the loop over the entries acts as `Callback` and keeps the partition |
| Skills.Visible | js/main.js:253 | a bar is visible iff its top is above the viewport's bottom and its bottom below the viewport's top |
| Skills.Starts | js/main.js:255 | a bar starts iff it is visible and not yet marked `animated` |
| Skills.AnimateBar | js/main.js:252-263 | a visible, unmarked bar is marked and collapsed to `0%`; every other bar is left exactly as it was |
| Skills.Scheduled | js/main.js:255-262 | every scheduled restore timer belongs to a bar that starts on this pass; they come in strictly increasing bar order; each captures its bar's width from before the pass |
| Skills.ScheduledComplete | js/main.js:255-262 | every bar that starts on this pass gets a restore timer capturing its width from before the pass |
| Skills.Animated | js/main.js:250-265 | a pass applies `AnimateBar` to every bar |
| Skills.ApplyRestores | js/main.js:260-262 | the restore timers firing in scheduling order leave as many bars as there were |
| Skills.ApplyRestoresKeepsMarks | js/main.js:260-262 | firing restore timers changes widths only: every bar keeps its `animated` mark, and a bar no timer names is unchanged |
| Skills.RestoresPrefix | js/main.js:250-265 | once the timers for the first n bars have fired, each of those started bars is back at its width and still marked |
| Skills.RestoreRoundTrip | js/main.js:255-262 | after all of a pass's timers fire, every started bar has its original width and the mark; every other bar is untouched |
| Skills.MarkedBarUntouched | js/main.js:255 | a marked bar is unchanged by any number of later passes |
| Skills.StartsAtMostOnce | js/main.js:255-258 | a bar collapsed once is never collapsed again |
| Skills.SkillBars.AnimateSkills | js/main.js:250-265 | the loop over the bars leaves them `Animated` and appends exactly the `Scheduled` timers |
| Skills.SkillBars.OnRestoreTimer | js/main.js:260-262 | a firing timer sets its bar's width back to the captured one and is removed |
| Timing.ThrottleStep | js/main.js:769-777 | a call with the flag down invokes once and raises the flag; with the flag up it is dropped; the timer lowers the flag |
| Timing.FirstCall | js/main.js:769-773 | gives None iff the events contain no call |
| Timing.FirstCallIsFirst | js/main.js:769-773 | a value found is exactly the arguments of some call, and no call comes before that one |
| Timing.ThrottleWindow | js/main.js:767-778 | with no timer firing: no invocation if the flag is up, otherwise exactly the first call's arguments once; the flag ends up iff it was up or a call came |
| Timing.ThrottleRate | js/main.js:767-778 | invocations never exceed timer firings plus one |
| Timing.Throttle.constructor | js/main.js:768 | `let inThrottle;` starts the flag down, with nothing invoked |
| Timing.Throttle.Call | js/main.js:769-777 | the wrapper moves the flag and the invocation log as `ThrottleStep` |
| Timing.Throttle.Expire | js/main.js:775 | the timer lowers the flag and invokes nothing |
| Timing.DebounceStep | js/main.js:757-764 | a call replaces whatever timer is pending with one capturing its arguments; the firing timer invokes once with what it captured |
| Timing.BurstKeepsLatest | js/main.js:757-764 | during a burst of calls nothing runs and only the last call's timer survives |
| Timing.DebounceBurst | js/main.js:755-765 | a burst and then the timer firing run `func` exactly once, with the last call's arguments |
| Timing.RunDebounceAppend | js/main.js:755-765 | running two event sequences one after the other is running their concatenation |
| Timing.DebounceRate | js/main.js:755-765 | `func` never runs more often than the timer fires |
| Timing.Debounce.constructor | js/main.js:756 | `let timeout;` starts with no timer pending and nothing invoked |
| Timing.Debounce.Call | js/main.js:762-763 | the wrapper leaves exactly one pending timer, holding these arguments |
| Timing.Debounce.Fire | js/main.js:758-761 | the firing timer clears itself and invokes as `DebounceStep` |

## Left out

- `showNotification` (js/main.js:217-245): it only builds and removes a styled toast. Nothing in js/main.js calls it; it is only exported on `window.PortfolioApp`.
- Markup, inline styles, colours, hover effects and the `fadeIn` keyframes. This covers the gallery bodies' HTML, whose images and alt texts are kept. It also covers the navbar's colours, which are kept as a single "scrolled" flag.
- Smooth scrolling and the scroll-to-top click (js/main.js:290-295): the click only starts a smooth scroll to offset 0. Scroll offsets are inputs of the model, so the click itself is not one of its events.
- Float layout values. `pageYOffset`, `offsetTop`, `offsetHeight` and `getBoundingClientRect()` are doubles in JavaScript, compared as doubles (js/main.js:146-150, 253). The model takes them as integers; fractional offsets are not modelled.
- The intersection observer's 10% threshold and -50 px root margin are not computed. Intersection comes in as a flag per entry.
- `Reveal.CallbackStep`: it assumes that the browser reports only targets still observed (`Delivered`). The script relies on `unobserve` for that.
- Duplicate entries for one target within a single batch are treated as one hit.
- Wall-clock time: timers are events. Only the typing animation's delays (100/50/2000/500 ms) are carried, as the data each tick returns. The contact modal's 10/300 ms and the skill bars' 100 ms are not carried at all. No delay is used to order events.
- When several timers are pending, their firing order is not modelled. `Skills.SkillBars.OnRestoreTimer` takes any pending timer.
- `lastScrollTop` (js/main.js:120, 137): written but never read.
- `optimizedScroll` (js/main.js:780-783): a throttled empty function, so it has no effect.
- The error logger (js/main.js:785-787).
- The `window.PortfolioApp` export (js/main.js:789-794).
- The `DOMContentLoaded` wiring, and the absence checks of looked-up elements (js/main.js:20, 83, 161, 169): those elements are assumed present. The exceptions are the navbar (js/main.js:125) and the menu icon, which are flags.
- The initial class flags of the markup, which are constructor parameters.
- `Gallery.Closest`: it compares tag names exactly, as upper-case `tagName` strings. It does not model HTML's case-insensitive selector matching or SVG elements.
- Timing.ThrottleStep (and Timing.Throttle.Call): `func` is assumed to return normally and not to call the wrapper from inside itself. The source invokes `func` before it raises `inThrottle` and schedules the timer (js/main.js:773-775). A `func` that throws therefore leaves the flag down and no timer scheduled, and a `func` that re-enters the wrapper is invoked again. The model invokes and raises the flag in one step, so `ThrottleWindow` and `ThrottleRate` are proved only for a `func` that does neither. `debounce` is unaffected, because `later` clears the timer before it calls `func` (js/main.js:758-760).
- `this` and `arguments` in `throttle`: the wrapped function's receiver is not modelled. Its arguments are a value of any type.
- `JsString.Prefix`: it counts Unicode scalar values, while JavaScript's `substring` counts UTF-16 code units. The two agree on the four ASCII phrases it is applied to, so nothing in the model depends on the difference.
- `Typing.TypingAnimator.TypeEffect`: it does not model its own rescheduling through `setTimeout`. Each call is one timer firing.
