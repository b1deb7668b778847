# Cookie consent manager — a Dafny model

The repository ships a cookie consent widget in two diverging copies of one class,
`CookieConsent`. `scripts/gtag.js` is the full version, with an accept and a reject
button. `assets/js/custom.js` is a variant with three differences:

- a top-level call of `addGoogleAnalyticsTag` runs before the class is defined;
- only the accept button is created and wired;
- its configuration has no `privacyPolicyUrl`.

Both copies keep three string entries in `localStorage`: `cookieBannerDisplayed`,
`analyticsIsAllowed` and `consentTimestamp`. A consent is valid for 365 days. On
construction, `init` decides two things from storage: whether to load the analytics tag
now, and whether to show the banner. Accept and reject each write all three entries.
Loading analytics appends one tag script and queues three `gtag` commands on
`window.dataLayer`. Reset removes the three entries and reloads the page.

The project models each copy as written, in its own module:

- `wrappers.dfy` (`Wrappers`): an `Option` type.
- `browser.dfy` (`Browser`): the part of the browser both scripts touch. The class
  `Window` holds `localStorage` as a `map<string, string>`, whether `window.gtag` is
  defined, `window.dataLayer` (`None` while undefined), the scripts appended to
  `document.head`, the style marker, the reload request and the clock in milliseconds.
  `Env` is the same state as a value. This module also holds the timestamp text and
  the banner element (`Banner`: `active` and `attached` flags, and its wired buttons).
- `gtag.dfy` (`Gtag`) and `custom.dfy` (`Custom`): one module per copy of the class.
  Each has pure functions (`AfterInit`, `AfterAccept`, `TagAfterInitialize`, …) that
  say what an operation does to the page as a value. Each has a class `CookieConsent`
  that performs the same steps on a `Window`. Every method is proved to leave exactly
  the state its function describes. Timers that `setTimeout` scheduled are a list of
  pending callbacks, and `RunTimer(k)` fires one of them.
- `gtag_properties.dfy` and `custom_properties.dfy`: the properties, as lemmas about
  those functions. They cover the validity window, the two `init` decisions, the next
  page load after accept, reject or reset, and idempotence. They also show that,
  whatever the visitor does, the consent manager adds at most one tag script per page,
  so a `scripts/gtag.js` page holds at most one and an `assets/js/custom.js` page at
  most two, and that the queue is only appended to. For `custom.js` they show the
  preamble loading the tag before any consent check, the second tag script on accept,
  and that no reachable path records a refusal.

## Behaviour worth noting

- `init` loads analytics when `analyticsIsAllowed` is `"true"` and the timestamp is
  valid, whether or not `cookieBannerDisplayed` is set. In that case the banner can be
  shown with analytics already loaded.
- Any non-empty value of `cookieBannerDisplayed` counts as displayed, not only `"true"`.
- `assets/js/custom.js` has no reachable reject path, and its preamble loads the tag
  and queues `config` without privacy options on every page load.
- The default banner delay is 1000 ms. The bootstrap passes 800 ms.

## Model

| member | source | states |
|---|---|---|
| `Browser.Truthy` | scripts/gtag.js:372 | `!timestamp` and `!bannerDisplayed`: exactly null and the empty string are falsy |
| `Browser.GetItem` | scripts/gtag.js:390-391 | `localStorage.getItem`: Some exactly when the key is stored, with the stored string |
| `Browser.FormatTimestamp` | scripts/gtag.js:315 | the stored timestamp text is never the empty string, so a written timestamp is always truthy |
| `Browser.ParseTimestamp` | scripts/gtag.js:374 | `new Date(s)`: the empty string is an Invalid Date |
| `Browser.ParseFormatRoundTrip` | scripts/gtag.js:374 | a timestamp written with `toISOString` reads back as the same instant |
| `Browser.Loaded` | scripts/gtag.js:444-450 | the page the bootstrap runs on, first or after the reload: only storage survives, so the guards on `window.gtag` and `window.dataLayer` first see them undefined, with no scripts or style, and the environment invariant holds |
| `Browser.Pushed` | scripts/gtag.js:283 | `dataLayer.push` appends one entry and keeps the invariant "gtag defined ⇒ dataLayer defined" |
| `Browser.WithDataLayer` | scripts/gtag.js:281 | `window.dataLayer = window.dataLayer \|\| []` always leaves a queue defined |
| `Browser.Window.constructor` | scripts/gtag.js:444-450 | the window the bootstrap runs in is a fresh page load over the given storage and clock |
| `Browser.Window.SetItem` | scripts/gtag.js:317 | `setItem` rewrites one key and changes nothing else |
| `Browser.Window.RemoveItem` | scripts/gtag.js:422 | `removeItem` deletes one key and changes nothing else |
| `Browser.Window.AppendScript` | scripts/gtag.js:275-278 | appending a script element adds its src at the end of the script list, nothing else |
| `Browser.Window.AppendStyle` | scripts/gtag.js:221-224 | appending the style element sets the style marker, nothing else |
| `Browser.Window.InitDataLayer` | scripts/gtag.js:281 | keeps an existing queue, otherwise creates an empty one |
| `Browser.Window.DefineGtag` | scripts/gtag.js:282-284 | defines `window.gtag`, nothing else |
| `Browser.Window.Push` | scripts/gtag.js:283 | appends one entry to the queue, nothing else |
| `Browser.Window.Reload` | scripts/gtag.js:424 | records the reload request, nothing else |
| `Gtag.WithDefaults` | scripts/gtag.js:29-35 | the constructor's defaults (tracking id, 1000 ms, 300 ms, "/cookies/") apply to every key the options leave out; every given key wins |
| `Gtag.ConsentValid` | scripts/gtag.js:370-379 | an absent or empty timestamp is never valid |
| `Gtag.StorageAfterDecision` | scripts/gtag.js:314-319 | accept/reject write exactly the three consent keys ("true", the decision, the timestamp of now); every other key keeps its value |
| `Gtag.StorageAfterReset` | scripts/gtag.js:420-423 | reset removes exactly the three consent keys and keeps every other key and value |
| `Gtag.ConsentEvent` | scripts/gtag.js:303-307 | the consent event: `cookie_consent`, category `engagement`, the action as label, value 1 |
| `Gtag.TagAfterTrack` | scripts/gtag.js:301-309 | without `gtag`, nothing changes; with it, exactly one `cookie_consent` event with the given label is appended |
| `Gtag.TagAfterInitialize` | scripts/gtag.js:271-296 | with `gtag` defined, nothing changes; otherwise gtag becomes defined, exactly one script with the tracking id is appended, the earlier queue is kept and `js`, `config` with the privacy flags, and `accept` are appended in that order |
| `Gtag.AfterHide` | scripts/gtag.js:342-353 | without a container, nothing; otherwise the container loses "active" and one removal timer with the fade-out delay is scheduled |
| `Gtag.AfterShow` | scripts/gtag.js:358-365 | without a container, nothing; otherwise the container gets "active"; no timer changes |
| `Gtag.AfterRemoval` | scripts/gtag.js:348-352 | the removal callback: without a container, nothing; otherwise the container ends detached |
| `Gtag.AfterTimer` | scripts/gtag.js:409-411 | a firing timer leaves the pending list (as a multiset, exactly that one); a reveal leaves the container active, a removal leaves it detached |
| `Gtag.AfterAccept` | scripts/gtag.js:314-323 | after accept, storage is exactly the three writes of the decision "true" at now with every other key kept, the consent is valid at that instant, gtag is defined, the clock is unchanged and the banner is no longer active |
| `Gtag.AfterReject` | scripts/gtag.js:328-337 | after reject, storage is exactly the three writes of the decision "false" at now with every other key kept, gtag and the scripts are as before and the banner is no longer active |
| `Gtag.AfterClick` | scripts/gtag.js:402-406 | a click changes the page only when the banner is attached and holds the clicked button |
| `Gtag.AfterInit` | scripts/gtag.js:384-415 | after init the instance is initialised and storage and clock are untouched; on an initialised instance init changes nothing |
| `Gtag.AfterReset` | scripts/gtag.js:420-425 | reset drops exactly the consent keys, keeps every other key with its value, requests the reload and leaves scripts and queue alone |
| `Gtag.Step` | scripts/gtag.js:405-411 | one click, timer, reset or clock step: keeps the invariant and `isInitialized`, and only a clock step moves the clock |
| `Gtag.Run` | scripts/gtag.js:405-411 | any sequence of steps keeps the invariant and `isInitialized`; without clock steps the clock stays put |
| `Gtag.CookieConsent.constructor` | scripts/gtag.js:27-48 | the new instance holds the merged configuration and is in the state `init` leaves from the unstarted fields |
| `Gtag.CookieConsent.InjectStyles` | scripts/gtag.js:53-55 | after the call the style marker is present; nothing else changes (idempotent) |
| `Gtag.CookieConsent.InitializeAnalytics` | scripts/gtag.js:271-296 | the window ends in the state `TagAfterInitialize` gives |
| `Gtag.CookieConsent.TrackConsentEvent` | scripts/gtag.js:301-309 | the window ends in the state `TagAfterTrack` gives |
| `Gtag.CookieConsent.HandleAccept` | scripts/gtag.js:314-323 | three writes, then analytics activation, then hide: the page ends as `AfterAccept` says |
| `Gtag.CookieConsent.HandleReject` | scripts/gtag.js:328-337 | three writes, then the decline event, then hide: the page ends as `AfterReject` says |
| `Gtag.CookieConsent.HideBanner` | scripts/gtag.js:342-353 | a no-op without a container; otherwise drops "active" and schedules the removal |
| `Gtag.CookieConsent.ShowBanner` | scripts/gtag.js:358-365 | a no-op without a container; otherwise sets "active" |
| `Gtag.CookieConsent.Init` | scripts/gtag.js:384-415 | the page ends as `AfterInit` says; a second call changes nothing |
| `Gtag.CookieConsent.ResetConsent` | scripts/gtag.js:420-425 | the removal loop deletes exactly the three keys, then the reload is requested |
| `Gtag.CookieConsent.Click` | scripts/gtag.js:405-406 | only an attached button with a listener reacts: accept runs `handleAccept`, reject runs `handleReject` |
| `Gtag.CookieConsent.RunTimer` | scripts/gtag.js:348-352 | the fired timer leaves the pending list; a reveal shows the banner, a removal detaches an attached container |
| `Gtag.CreateCookieConsent` | scripts/gtag.js:433-442 | no second instance when one exists; otherwise a fresh instance with the bootstrap options, initialised |
| `Gtag.ResetCookieConsent` | scripts/gtag.js:454-458 | resets through the instance when there is one |
| `GtagProperties.StoredTimestampValidity` | scripts/gtag.js:370-379 | a timestamp written at t is valid iff now − t < 365 days: exactly one year old is invalid, a future one is valid |
| `GtagProperties.InitDecisions` | scripts/gtag.js:389-412 | analytics load iff the allowed entry is exactly "true" and consent is valid; the banner is created iff the displayed entry is absent or empty or consent is invalid; init only reads storage |
| `GtagProperties.ExpiredConsentShowsBanner` | scripts/gtag.js:397-399 | a timestamp a year old or older brings the banner back whatever `analyticsIsAllowed` holds, and init loads nothing |
| `GtagProperties.InitIdempotent` | scripts/gtag.js:384-385 | after init `isInitialized` holds and a second init changes nothing |
| `GtagProperties.AcceptThenReload` | scripts/gtag.js:393-398 | after accept, a later load shows no banner and loads the tag exactly once iff less than a year has passed |
| `GtagProperties.RejectThenReload` | scripts/gtag.js:328-337 | after reject, no later load loads analytics; the banner stays away exactly while the decision is less than a year old |
| `GtagProperties.ResetThenReload` | scripts/gtag.js:420-425 | after reset, the next load shows the banner and loads nothing |
| `GtagProperties.ResetUndoesDecision` | scripts/gtag.js:420-423 | reset after a decision leaves the same storage as reset alone |
| `GtagProperties.RejectLoadsNothing` | scripts/gtag.js:328-337 | reject writes "true", "false", now; never defines gtag or appends a script; queues `decline` iff gtag was already defined |
| `GtagProperties.AcceptTwiceLoadsOnce` | scripts/gtag.js:272 | a second accept appends no script and queues nothing more |
| `GtagProperties.FreshVisitorAccepts` | scripts/gtag.js:398-411 | fresh visitor: banner created, revealed, accepted (storage holds the accept, one tag script), then detached |
| `GtagProperties.BannerLifecycle` | scripts/gtag.js:342-365 | shown, hidden, then the scheduled removal fires: the banner ends inactive and detached with the earlier pending timers only |
| `GtagProperties.StepLoadsAtMostOnce` | scripts/gtag.js:272 | any single click, timer, reset or clock step loads the tag at most once and only when gtag was undefined |
| `GtagProperties.RunLoadsAtMostOnce` | scripts/gtag.js:271-278 | whatever sequence of steps happens on one page, at most one tag script is appended |
| `GtagProperties.PageLoadsTagAtMostOnce` | scripts/gtag.js:271-278 | from a page's first load on, whatever the visitor does, the page holds at most one tag script |
| `GtagProperties.RunOnlyAppendsToQueue` | scripts/gtag.js:281-284 | whatever happens on one page, the analytics queue is only ever appended to |
| `Custom.WithDefaults` | assets/js/custom.js:33-38 | the defaults (tracking id, 1000 ms, 300 ms) apply to every key the options leave out; every given key wins |
| `Custom.ConsentValid` | assets/js/custom.js:331-340 | an absent or empty timestamp is never valid |
| `Custom.StorageAfterDecision` | assets/js/custom.js:275-280 | accept writes exactly the three consent keys; every other key keeps its value |
| `Custom.StorageAfterReset` | assets/js/custom.js:381-384 | reset removes exactly the three consent keys and keeps every other key and value |
| `Custom.ConsentEvent` | assets/js/custom.js:264-268 | the consent event: `cookie_consent`, category `engagement`, the action as label, value 1 |
| `Custom.TagAfterTrack` | assets/js/custom.js:262-270 | without `gtag`, nothing changes; with it, exactly one `cookie_consent` event is appended |
| `Custom.TagAfterInitialize` | assets/js/custom.js:232-257 | with `gtag` defined, nothing; otherwise one script appended, earlier queue kept, `js`, privacy `config`, `accept` appended in order |
| `Custom.TagAfterPreamble` | assets/js/custom.js:4-20 | the preamble appends one tag script, keeps any queue, appends `js` then `config` without options, and leaves `window.gtag` as it was |
| `Custom.AfterHide` | assets/js/custom.js:303-314 | without a container, nothing; otherwise the container loses "active" and one removal timer with the fade-out delay is scheduled |
| `Custom.AfterShow` | assets/js/custom.js:319-326 | without a container, nothing; otherwise the container gets "active"; no timer changes |
| `Custom.AfterRemoval` | assets/js/custom.js:309-313 | the removal callback: without a container, nothing; otherwise the container ends detached |
| `Custom.AfterTimer` | assets/js/custom.js:370-372 | a firing timer leaves the pending list (as a multiset, exactly that one); a reveal leaves the container active, a removal leaves it detached |
| `Custom.AfterAccept` | assets/js/custom.js:275-284 | after accept, storage is exactly the three writes of the decision "true" at now with every other key kept, the consent is valid at that instant, gtag is defined, the clock is unchanged and the banner is no longer active |
| `Custom.AfterReject` | assets/js/custom.js:289-298 | after reject, storage is exactly the three writes of the decision "false" at now with every other key kept, gtag and the scripts are as before and the banner is no longer active |
| `Custom.AfterClick` | assets/js/custom.js:363-367 | a click changes the page only when the banner is attached and holds the button; a reject click never changes it |
| `Custom.AfterInit` | assets/js/custom.js:345-376 | after init the instance is initialised and storage and clock are untouched; on an initialised instance init changes nothing |
| `Custom.AfterReset` | assets/js/custom.js:381-386 | reset drops exactly the consent keys, keeps every other key with its value, requests the reload and leaves scripts and queue alone |
| `Custom.Step` | assets/js/custom.js:366-372 | one click, timer, reset or clock step: keeps the invariant and `isInitialized`, and only a clock step moves the clock |
| `Custom.Run` | assets/js/custom.js:366-372 | any sequence of steps keeps the invariant and `isInitialized`; without clock steps the clock stays put |
| `Custom.CookieConsent.constructor` | assets/js/custom.js:31-51 | the new instance holds the merged configuration and is in the state `init` leaves |
| `Custom.CookieConsent.InjectStyles` | assets/js/custom.js:56-58 | after the call the style marker is present; nothing else changes |
| `Custom.CookieConsent.InitializeAnalytics` | assets/js/custom.js:232-257 | the window ends in the state `TagAfterInitialize` gives |
| `Custom.CookieConsent.TrackConsentEvent` | assets/js/custom.js:262-270 | the window ends in the state `TagAfterTrack` gives |
| `Custom.CookieConsent.HandleAccept` | assets/js/custom.js:275-284 | the page ends as `AfterAccept` says |
| `Custom.CookieConsent.HandleReject` | assets/js/custom.js:289-298 | the page ends as `AfterReject` says (the method is never called) |
| `Custom.CookieConsent.HideBanner` | assets/js/custom.js:303-314 | a no-op without a container; otherwise drops "active" and schedules the removal |
| `Custom.CookieConsent.ShowBanner` | assets/js/custom.js:319-326 | a no-op without a container; otherwise sets "active" |
| `Custom.CookieConsent.Init` | assets/js/custom.js:345-376 | the page ends as `AfterInit` says; a second call changes nothing |
| `Custom.CookieConsent.ResetConsent` | assets/js/custom.js:381-386 | the removal loop deletes exactly the three keys, then the reload is requested |
| `Custom.CookieConsent.Click` | assets/js/custom.js:363-367 | only the accept button has a listener; a click on anything else changes nothing |
| `Custom.CookieConsent.RunTimer` | assets/js/custom.js:309-313 | the fired timer leaves the pending list; a reveal shows the banner, a removal detaches an attached container |
| `Custom.AddGoogleAnalyticsTag` | assets/js/custom.js:4-20 | the window ends as `TagAfterPreamble` says |
| `Custom.CreateCookieConsent` | assets/js/custom.js:394-402 | no second instance when one exists; otherwise a fresh initialised instance |
| `Custom.ResetCookieConsent` | assets/js/custom.js:414-418 | resets through the instance when there is one |
| `Custom.LoadScript` | assets/js/custom.js:23 | loading the file runs the preamble, then the bootstrap |
| `CustomProperties.StoredTimestampValidity` | assets/js/custom.js:331-340 | a timestamp written at t is valid iff now − t < 365 days |
| `CustomProperties.InitDecisions` | assets/js/custom.js:350-373 | the same two decisions as in scripts/gtag.js; init only reads storage |
| `CustomProperties.InitIdempotent` | assets/js/custom.js:346 | a second init changes nothing |
| `CustomProperties.PreambleRunsWithoutConsent` | assets/js/custom.js:4-23 | whatever storage holds, loading the file appends the tag script and queues `js` and a plain `config` first |
| `CustomProperties.ReturningVisitorLoadsTagTwice` | assets/js/custom.js:242 | a returning visitor with valid consent gets two tag scripts and both `config` commands on every load |
| `CustomProperties.FreshVisitorAccepts` | assets/js/custom.js:232-257 | accepting after the preamble appends a second script and queues `js`, privacy `config`, `accept` after the preamble's entries |
| `CustomProperties.BannerLifecycle` | assets/js/custom.js:303-326 | shown, hidden, then the scheduled removal fires: the banner ends inactive and detached with the earlier pending timers only |
| `CustomProperties.AcceptThenReload` | assets/js/custom.js:354-359 | after accept, a later load within a year shows no banner and has two tag scripts; after a year the banner returns and only the preamble's script loads |
| `CustomProperties.ResetThenReload` | assets/js/custom.js:381-386 | after reset, the next load shows the banner; only the preamble's script is loaded |
| `CustomProperties.ResetUndoesDecision` | assets/js/custom.js:381-384 | reset after a decision leaves the same storage as reset alone |
| `CustomProperties.AcceptTwiceLoadsOnce` | assets/js/custom.js:233 | a second accept appends no script and queues nothing more |
| `CustomProperties.RejectClickIgnored` | assets/js/custom.js:363-367 | a click on a reject button changes nothing |
| `CustomProperties.FileLoadKeepsNotDeclined` | assets/js/custom.js:351-352 | loading the file never records a refusal |
| `CustomProperties.StepKeepsNotDeclined` | assets/js/custom.js:366 | no single step records a refusal |
| `CustomProperties.RunKeepsNotDeclined` | assets/js/custom.js:207-218 | no sequence of clicks, timers, resets and clock steps ever writes `analyticsIsAllowed = "false"` |
| `CustomProperties.StepLoadsAtMostOnce` | assets/js/custom.js:233 | one step loads the tag at most once |
| `CustomProperties.RunLoadsAtMostOnce` | assets/js/custom.js:232-239 | after the file has loaded, the consent manager adds at most one more tag script |
| `CustomProperties.PageLoadsTagAtMostTwice` | assets/js/custom.js:4-23 | loading the file and whatever the visitor does after it leave at most two tag scripts |
| `CustomProperties.RunOnlyAppendsToQueue` | assets/js/custom.js:242-245 | whatever happens on one page, the analytics queue is only ever appended to |

## Left out

- CSS: the style template and the banner's markup, text and ARIA attributes. The model keeps only the style marker and a banner that is attached, active or not, and has its wired buttons.
- Timing: the delays are recorded with each pending timer, but timers fire in any order the caller picks. The animation-frame callback of `showBanner` runs at once.
- Calendar formatting: `toISOString` and `new Date(s)` become a signed decimal count of milliseconds. A stored decimal numeral therefore reads as that many milliseconds, where JavaScript reads it as a calendar date (`"2024"` is the start of 2024) or as Invalid Date; every other string the scripts did not write reads as Invalid Date, where JavaScript may accept some date formats. Only values the scripts never write are affected: what they write reads back exactly.
- The clock does not advance during one synchronous handler, so `handleAccept` and `initializeAnalytics` see the same `now`.
- `document.readyState` and `DOMContentLoaded`: the bootstrap is modelled as running once the document is parsed.
- `window.location.reload()`: only the request is recorded. The next page load is a new `Window` over the same storage.
- The third-party tag script's behaviour once loaded, and failures to load it.
- Storage that is unavailable or throws, and races between tabs.
- Options given with the value `undefined`: a key in `options` is either absent or has a value.
- `privacyPolicyUrl` is carried in the configuration but never used, as in the source.
- scripts/minifier.py: file I/O around library calls, with no logic of its own.
- The commented-out block at scripts/gtag.js:1-20, which is dead code.
