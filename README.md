# Nilsun Studio site: a verified model of its navigation, reveal and contact logic

This project models the client-side logic of the Nilsun Studio bilingual
(Persian and English) website in Dafny and proves properties of it. It covers:

- **Locale routing** in the React app: the header's language toggle
  (`ToggledLanguage`, `ToggledPath`, `navigate(..., { replace: true })`), the
  mobile drawer's narrower toggle that writes the history with `pushState`, the
  route table of `App.tsx` and the document direction and language it sets.
- **Anchor navigation**: `navigateAndScroll` in `scrollUtils.ts`. It decides
  whether the page is already home, navigates otherwise, and polls for the
  target element every 100 ms, up to 20 retries. The poll chain is a loop in
  `ScrollUtils.RunNavigateAndScroll`, proved equal to a trace function. The
  trace's shape, timing and bounds are proved as lemmas about that function.
- **Reveal scheduling** on the static home page (`script.js`): the timers each
  section schedules when it intersects, the once-only flags, the effect of
  firing timers on the set of revealed elements, and the hero video's
  play-once flag. It also covers the static pages' menu, the back-to-top
  threshold and the same-page anchor test.
- **Contact forms**: the static page's submit handler (`contact.js`), which
  trims before measuring, and the React form (`ContactForm.tsx`), which does
  not trim. Both use the same e-mail pattern `^[^\s@]+@[^\s@]+\.[^\s@]+$`.
  The model covers validation, the busy state of the submit button, and the
  mapping from outcome to status and message. For the React form it also
  covers the e-mail it builds: the phone fallback and line feeds turned into
  `<br>`.

Layout: one module per source concern. `Text` holds `startsWith`, JavaScript
white space and `trim`. `Wrappers` holds `Option`. `Session` is the
browser-side state shared by the layout components: the i18n language, the
session history, the router's location and the body overflow. The other
modules are `Header`, `MobileMenu`, `App`, `ScrollUtils`, `Reveal`,
`PageScript`, `EmailPattern`, `ContactPage` and `ContactForm`.

Modelling choices:

- The language is any string, since `i18n.language` may hold any tag. The
  toggle maps `"fa"` to `"en"` and everything else to `"fa"`.
- The history is a sequence of paths. The current entry is the last one.
- Whether an element exists at the k-th lookup is an input sequence.
- Timers are data (`delay`, `targets`, `lookup`), not a clock.
- The promise of `video.play()` is given as a boolean per call.
- The fetch outcome is a datatype.

Where the code and the text around it disagree, the model follows the code:

- script.js:198 says the service cards appear at 500, 1000, 1500 and
  2000 ms. The code schedules them at 900, 1400, 1900 and 2400 ms
  (`900 + index * 500`). `Reveal.ServicesSchedule` states the code's delays.
- script.js:223 announces a 500 ms stagger for the stats. The code uses
  800 ms. `Reveal.StatsSchedule` states 0, 800, 1600 and 2400 ms.
- The header's English test is a raw `startsWith('/en')`. So `/english` counts
  as an English page, and switching it to Persian strips three characters and
  gives `glish`. `Header.PrefixTestQuirk` records this as the code behaves.
- Every form of `isEnglishPage` in this model is that same prefix test.

## Model

| member | source | states |
|---|---|---|
| Text.TrimStart | contact.js:103 | what is kept is no longer than the input, starts with a non-space or is empty, and everything dropped is JavaScript white space |
| Text.TrimEnd | contact.js:103 | the same at the end: what is kept ends with a non-space or is empty, and everything dropped is white space |
| Text.Trim | contact.js:103 | `trim()` never lengthens, and a non-empty result has no white space at either end |
| Text.TrimStartIsSuffix | contact.js:103 | what `TrimStart` keeps is a suffix of its input |
| Text.TrimEndIsPrefix | contact.js:119 | what `TrimEnd` keeps is a prefix of its input |
| Text.TrimIdempotent | contact.js:119 | trimming twice gives the same as trimming once |
| Text.TrimOfSpaceless | contact.js:119 | a string with no white space is its own trim |
| Text.TrimSkipsLeadingSpace | contact.js:103 | white space put in front of a string never changes its trim |
| EmailPattern.AssembledIsValid | contact.js:110-111 | any run, '@', run, '.', run (runs free of white space and '@') passes the scanning test |
| EmailPattern.ValidIsAssembled | contact.js:110-111 | every string the scanning test accepts splits into those three runs |
| EmailPattern.ValidEmailMatchesPattern | contact.js:110-111 | the scanning test accepts exactly the strings the regular expression matches (both directions) |
| EmailPattern.ValidEmailShape | contact.js:110-111 | an accepted address has no white space and exactly one '@', with at least one character before it |
| EmailPattern.ValidEmailNoSpace | contact.js:110-111 | one white-space character anywhere rules an address out |
| EmailPattern.ValidEmailNeedsOneAt | contact.js:110-111 | two '@' characters rule an address out |
| EmailPattern.AcceptedExamples | contact.js:110-111 | `a@b.c` passes, and so does `a@.b.c`, whose domain starts with a dot |
| EmailPattern.RejectedExamples | contact.js:110-111 | `a@b` (no dot), `a@b@c.d` (two '@') and `a b@c.d` (a space) fail |
| Session.Browser.constructor | src/components/layout/Header.tsx:8-9 | a session starts with one history entry, the router at that path, and the body overflow unset |
| Session.Browser.ChangeLanguage | src/components/layout/Header.tsx:15 | `i18n.changeLanguage` sets the language and nothing else |
| Session.Browser.Navigate | src/components/layout/Header.tsx:21 | router navigation: a replace swaps the current entry, a push appends one, and the router follows |
| Session.Browser.PushState | src/components/layout/MobileMenu.tsx:23 | a raw `pushState` appends an entry and leaves the router's location as it was |
| Header.ToggledLanguageFlips | src/components/layout/Header.tsx:13-14 | the new language is "en" exactly when the old one is "fa", and "fa" otherwise; toggling twice restores only "fa" or "en" |
| Header.ToEnglishFromRoot | src/components/layout/Header.tsx:19 | switching to English from `/` goes to `/en`, not `/en/` |
| Header.ToEnglishPrepends | src/components/layout/Header.tsx:19 | switching to English leaves an English path alone and prefixes `/en` to any other path but `/` |
| Header.ToEnglishIsEnglish | src/components/layout/Header.tsx:19 | after switching to English the path is always an English page |
| Header.ToPersianStrips | src/components/layout/Header.tsx:20 | switching to Persian removes exactly the leading `/en`, gives `/` for `/en`, leaves other paths alone, and never yields an empty path |
| Header.RoundTripFromPersian | src/components/layout/Header.tsx:17-20 | for a Persian path starting with '/', going to English and back returns the same path |
| Header.PrefixTestQuirk | src/components/layout/Header.tsx:20 | the raw prefix test counts `/english` as English and turns it into `glish` |
| Header.LinksKeepLocale | src/components/layout/Header.tsx:31-68 | the home link, the contact link and the section anchors stay in the current locale |
| Header.ToggleLanguage | src/components/layout/Header.tsx:12-22 | the language flips, the router's path is replaced by the toggled path, and the history length is unchanged |
| App.DirectionFollowsPage | src/App.tsx:16-17 | after a header toggle on any routed page, the direction is ltr exactly when the page navigated to is an English page, and `lang` is the new language |
| App.ToggleFlipsDirection | src/App.tsx:16 | every language toggle flips the document direction |
| App.DirectionMatchesLang | src/App.tsx:16-17 | the direction is rtl exactly when `lang` is "fa" |
| App.BothLocalesRoute | src/App.tsx:26-31 | home, contact and each project key route to the same page under `/` and under `/en` |
| App.RoutedPersianPath | src/App.tsx:26-28 | a routed non-English path is `/`, `/contact` or `/project/<key>` |
| App.RoutedEnglishPath | src/App.tsx:29-31 | a routed English path is `/en`, `/en/contact` or `/en/project/<key>` |
| App.MirrorToEnglish | src/components/layout/Header.tsx:18-19 | switching a routed Persian path to English lands on an English path that routes to the same page |
| App.MirrorToPersian | src/components/layout/Header.tsx:18-20 | switching a routed English path to Persian lands on a Persian path that routes to the same page |
| App.ToggleKeepsPage | src/components/layout/Header.tsx:12-21 | from any routed path, including a stale one the drawer left disagreeing with the language, the toggle keeps the page and leaves the new language and the new path agreeing |
| App.LinksResolve | src/components/layout/Header.tsx:43-69 | the home and contact links route to Home and Contact, and a link shows as active only on that page |
| MobileMenu.PushTargetDomain | src/components/layout/MobileMenu.tsx:21-33 | only `/`, `/contact`, `/en` and `/en/contact` are rewritten, each to its counterpart, and every other path is left alone |
| MobileMenu.PushTargetAgreesWithHeader | src/components/layout/MobileMenu.tsx:21-33 | wherever the drawer rewrites a path, it writes the same path as the header's toggle |
| MobileMenu.PushTargetRoundTrip | src/components/layout/MobileMenu.tsx:21-33 | a path the drawer switches to English comes back unchanged when switched to Persian |
| MobileMenu.NarrowerThanHeader | src/components/layout/MobileMenu.tsx:21-26 | on `/project/x` the drawer writes no history while the header would go to `/en/project/x` |
| MobileMenu.ToggleLanguage | src/components/layout/MobileMenu.tsx:15-34 | the language flips, one entry is pushed exactly when a rewrite applies, and the router's path stays stale |
| MobileMenu.Drawer.Mount | src/components/layout/MobileMenu.tsx:43-48 | the first render of a closed drawer sets the overflow to auto and registers no handler |
| MobileMenu.Drawer.SetOpen | src/components/layout/MobileMenu.tsx:43-53 | after a render the overflow is hidden exactly when the drawer is open, and Escape is listened for exactly then |
| MobileMenu.Drawer.KeyDown | src/components/layout/MobileMenu.tsx:37-41 | Escape closes an open drawer and restores scrolling; any other key, or a closed drawer, changes nothing |
| MobileMenu.Drawer.LanguageButton | src/components/layout/MobileMenu.tsx:116-119 | the language button toggles the language as the drawer does, pushes the rewritten path when one applies, leaves the router path stale, and closes the drawer |
| MobileMenu.Drawer.Unmount | src/components/layout/MobileMenu.tsx:50-53 | unmounting removes the handler and restores scrolling |
| ScrollUtils.CountsAppend | src/utils/scrollUtils.ts:66-77 | probe and scroll counts add up over concatenated traces |
| ScrollUtils.FoundFromNext | src/utils/scrollUtils.ts:70-76 | after a failed lookup, a later lookup within the budget still finding the element is what decides success |
| ScrollUtils.PollsCounts | src/utils/scrollUtils.ts:66-77 | from attempt n there are at most 21 - n lookups, and one scroll exactly when some lookup up to attempt 20 finds the element |
| ScrollUtils.PollsShape | src/utils/scrollUtils.ts:69-77 | each polling step is a lookup at its scheduled time within the budget, or, as the last step, the scroll at the time of the lookup before it |
| ScrollUtils.PollsRetryOnlyAfterMiss | src/utils/scrollUtils.ts:70-76 | a retry is scheduled only after a lookup that missed, so polling stops at the first find |
| ScrollUtils.PollsGiveUpOnlyAtBudget | src/utils/scrollUtils.ts:70-76 | polling ends without a scroll only after a missed lookup on the last attempt of the budget |
| ScrollUtils.PollsScrollAfterFind | src/utils/scrollUtils.ts:70-73 | the scroll comes right after a lookup that found the element |
| ScrollUtils.HomeScrollsAfterSettle | src/utils/scrollUtils.ts:55-59 | already at home, there is no navigation, one scroll at 100 ms when the element exists, and nothing otherwise (the early return of `smoothScrollToElement`, lines 6-12) |
| ScrollUtils.RootIsHomeInEitherLocale | src/utils/scrollUtils.ts:55 | from `/` there is never a navigation, even on an English page |
| ScrollUtils.AwayNavigatesThenPolls | src/utils/scrollUtils.ts:60-81 | away from home the first step navigates to the locale's home, there are at most 21 lookups, and one scroll exactly when some lookup finds the element |
| ScrollUtils.AwayTiming | src/utils/scrollUtils.ts:66-80 | away from home the i-th lookup happens at 200 + 100(i-1) ms and never after 2200 ms; only the last step may scroll |
| ScrollUtils.RunNavigateAndScroll | src/utils/scrollUtils.ts:45-82 | the retry loop produces exactly the trace of `NavigateAndScroll` |
| Reveal.ServicesSchedule | script.js:184-202 | services: the text at 0 ms, then cards 1 to 4 at 900, 1400, 1900 and 2400 ms, all looked up without a null check |
| Reveal.ProjectsSchedule | script.js:205-221 | projects: exactly two timers, the header at 0 ms looked up without a null check and the carousel wrapper at 900 ms skipped when missing |
| Reveal.StatsSchedule | script.js:224-236 | stats: items 1 to 4 at 0, 800, 1600 and 2400 ms, each skipped when missing |
| Reveal.TeamSchedule | script.js:239-253 | team: the header timer at 700 ms exists exactly when the header does, and the cards timer at 1400 ms exactly when a card does |
| Reveal.ScheduleOrdered | script.js:184-265 | in every section the delays never decrease, none exceeds 2400 ms, and each id-lookup timer names one element |
| Reveal.FiredIsUnion | script.js:189-263 | firing timers only adds their effects to the revealed set |
| Reveal.AllEffectsAppend | script.js:189-263 | the effects of two batches of timers are the union of their effects |
| Reveal.RefireChangesNothing | script.js:189-263 | firing a batch twice is firing it once, batch order does not matter, and nothing revealed is hidden again |
| Reveal.RevealsAtMostOnce | script.js:184-253 | a flagged section schedules its timers once, on the first intersecting entry, and never once played |
| Reveal.AboutRescheduleHarmless | script.js:256-265 | About reschedules on every intersection, but the revealed set ends as if it had been scheduled once |
| Reveal.Dom.constructor | script.js:115-121 | the page starts with nothing revealed |
| Reveal.Dom.Fire | script.js:189-263 | a callback throws exactly when an unguarded lookup misses, and the revealed set grows by exactly its effect |
| Reveal.Section.constructor | script.js:119-121 | a section starts unplayed with no timers |
| Reveal.Section.ScheduleEach | script.js:194-199 | the `forEach` over ids appends one timer per id, the i-th at start + i * step |
| Reveal.Section.Animate | script.js:184-265 | an animate call sets the once-only flag (not for About) and appends that section's schedule, unless it has already played |
| Reveal.Section.OnIntersect | script.js:279-334 | only an intersecting entry triggers the animate function |
| PageScript.FirstSuccess | script.js:170-178 | the index of the first fulfilled play: every earlier play failed, and the play at that index succeeded |
| PageScript.PlaysUntilFirstSuccess | script.js:170-178 | the video is played on every trigger up to and including the first successful play, and never afterwards |
| PageScript.HeroVideo.constructor | script.js:119 | the flag starts clear |
| PageScript.HeroVideo.PlayVideoOnce | script.js:170-178 | it plays only while the flag is clear, and the flag is set only when the play fulfils |
| PageScript.HeroVideo.OnVideoIntersect | script.js:268-276 | an intersecting entry plays the video under the same once-only rule, and other entries do nothing |
| PageScript.PageMenu.constructor | script.js:73-79 | the menu starts closed |
| PageScript.PageMenu.OpenMenu | script.js:80-84 | the menu and overlay open together and scrolling is locked |
| PageScript.PageMenu.CloseMenu | script.js:86-90 | the menu and overlay close together and scrolling is restored |
| PageScript.PageMenu.KeyDown | script.js:107-111 | Escape closes an open menu; anything else changes nothing |
| PageScript.BackToTopButton.OnScroll | script.js:7-10 | the button is hidden exactly when `scrollY` is at most 200 |
| PageScript.BackToTopMonotone | script.js:8 | scrolling further down never hides a shown button; 200 hides it and 201 shows it |
| PageScript.TakeoverCases | script.js:39-54 | `#` and `#0` are never taken over, a missing target falls through, and a link to another page is left to the browser |
| PageScript.SamePageEquivalence | script.js:44-47 | the same-page test is reflexive, symmetric and transitive, and ignores one leading slash |
| ContactPage.Failed | contact.js:100-123 | every check runs: each field is flagged exactly when its own check fails, and nothing is flagged exactly when all pass |
| ContactPage.FailedFieldsExact | contact.js:100-127 | the name, e-mail and message errors show exactly when the trimmed name is under 2, the pattern fails, or the trimmed message is under 10; the request goes out exactly when none shows |
| ContactPage.PhoneIgnored | contact.js:100-123 | the phone never affects validation |
| ContactPage.PaddingDoesNotCount | contact.js:103 | leading white space on a name or message never changes its verdict |
| ContactPage.BlankFails | contact.js:103 | a name or message of white space alone always fails |
| ContactPage.BannerCases | contact.js:145-157 | success only for a successful answer; otherwise the server's message, or the default when it has none; after a throw, the connection message; an error text is never empty |
| ContactPage.Page.constructor | contact.js:73-83 | the page starts with no errors, no banner and an enabled button |
| ContactPage.Page.Submit | contact.js:85-132 | old banners and field errors are cleared, the failing fields are flagged, and the button is disabled with the spinner shown exactly when the request goes out |
| ContactPage.Page.Complete | contact.js:145-163 | exactly one banner shows, the form resets only on success, and the button is enabled again whatever happened |
| ContactPage.SubmitAndComplete | contact.js:73-164 | an invalid form sends nothing and leaves the button enabled; a sent one ends with exactly one banner and an empty form exactly on success |
| ContactForm.RuleErrorsExact | src/components/contact/ContactForm.tsx:114-182 | a field is flagged exactly when the raw name is under 2, the e-mail fails the pattern, or the raw message is under 10; the phone has no rule |
| ContactForm.PageAcceptedIsAccepted | src/components/contact/ContactForm.tsx:114-117 | whatever the static page accepts, the React form accepts too |
| ContactForm.BlankNameAcceptedHereOnly | src/components/contact/ContactForm.tsx:114-117 | a name of two spaces passes the React form but not the static page |
| ContactForm.SettleCases | src/components/contact/ContactForm.tsx:36-82 | delivered exactly with an API key, an ok answer and an id; a missing key or a throw ends as the connection error; otherwise the server's refusal |
| ContactForm.Form.constructor | src/components/contact/ContactForm.tsx:16-20 | the form starts idle, not submitting, with no message |
| ContactForm.Form.Begin | src/components/contact/ContactForm.tsx:30-31 | submitting starts busy with the status reset to idle |
| ContactForm.Form.Finish | src/components/contact/ContactForm.tsx:33-85 | the status is success exactly when delivered, and only then is the form reset; the error text is the server's message or the translated default, or the connection text after a throw; never busy afterwards |
| ContactForm.Form.Submit | src/components/contact/ContactForm.tsx:102 | with a failing rule nothing runs and the flagged fields are returned; otherwise the handler runs to its end: never busy, never idle, success exactly on delivery with the form reset, and the refusal or connection error text otherwise |
| ContactForm.PhoneText | src/components/contact/ContactForm.tsx:56 | the phone line is never empty, and it is the phone itself when one was given |
| ContactForm.BreakLines | src/components/contact/ContactForm.tsx:58 | the HTML message has no line feed left and is never shorter than the message |
| ContactForm.BreakLinesAppend | src/components/contact/ContactForm.tsx:58 | the replacement works piece by piece over concatenation |
| ContactForm.BreakLinesIdentity | src/components/contact/ContactForm.tsx:58 | a message without line feeds is sent unchanged |
| ContactForm.BreakLinesRoundTrip | src/components/contact/ContactForm.tsx:58 | for a message with no '<', reading each `<br>` back as a line feed recovers the message |
| ContactForm.BreakLinesNotInjective | src/components/contact/ContactForm.tsx:58 | a typed `<br>` and a line feed give the same HTML |
| ContactForm.MailContents | src/components/contact/ContactForm.tsx:51-66 | the subject is the fixed prefix followed by the name, the phone line is never blank ("Not provided" when empty), the HTML body has no raw line feed, and the text body carries the message as typed |

## Left out

- Easing curves and `requestAnimationFrame` loops: script.js:13-31, contact.js:51-65, scrollUtils.ts:14-35 and the jQuery `animate` in script.js:56-66. These are floating-point motion driven by the browser's frame clock. A scroll is recorded as one step with its start time.
- `fetch`, JSON parsing, the mail API, its dev-server proxy and `contact-handler.php`: network I/O. The response is an abstract outcome value. `message` and `id` are strings, and "" stands for absent. Non-string JSON values are not modelled.
- react-router matching internals: case folding, trailing slashes and parameter decoding. The route table is matched literally, and a project key is one non-empty segment.
- i18next: `t()` lookups and the page title. The React form's translated texts are a translation function passed in. The static page's Persian texts are constants.
- react-hook-form's error plumbing and framer-motion props: these are external libraries. Only the declared rules are modelled.
- ContactForm.Form.Submit: the browser's own constraint validation is not modelled. The e-mail input is `type="email"` (ContactForm.tsx:136), and the form has no `noValidate` (ContactForm.tsx:102). So the browser checks the value against HTML's e-mail syntax before the submit event fires. Addresses that the shared pattern accepts but that syntax rejects never reach `handleSubmit`. Examples are `a@.b.c` (see `EmailPattern.AcceptedExamples`) and addresses with a non-ASCII local part. The contract says the handler runs whenever no react-hook-form rule fails, so for those addresses it promises more than the page does.
- Video lazy loading (script.js:124-167): it only swaps media sources.
- The video modal (script.js:351-424): opening it locks scrolling (lines 366 and 381), and closing it restores scrolling (line 405). A second document keydown handler closes the modal on every Escape (lines 420-424). So on the page, Escape sets the body overflow to `auto` even when the menu is closed. With the modal open and the menu closed, the overflow is `hidden`. `PageScript.PageMenu` treats the menu as the only writer of the body overflow, so its `Valid()` and its `KeyDown` contract do not cover the modal's effects.
- Real timers and promise scheduling: timers are scheduled data, and observer callbacks and promise settlements are sequential method calls.
- PageScript.PlaysUntilFirstSuccess: assumes each `video.play()` promise settles before the next trigger. In the page, `playVideoOnce` runs at load (script.js:181), and the video observer's first intersecting callback (script.js:270-272) can run before that first `play()` settles. Then `play()` is called twice although the first call succeeds. "Never afterwards" holds only in the sequential order the model uses.
- String lengths: Dafny characters are code points, while JavaScript's `length` counts UTF-16 units. The two differ for characters outside the Basic Multilingual Plane, such as emoji.
- The forward history stack (entries after the current one) and the browser's `popstate` handling.
- `scrollY` is an integer here; the browser reports fractional values.
- The markup and indentation of the e-mail templates (ContactForm.tsx:52-67): only the parts that depend on the form are modelled.
- The menu and back-to-top code of contact.js (lines 6-70, except lines 39-42): it is the same as the home page's and is modelled once, in `PageScript`.
- The contact header fade (contact.js:39-42): one timer that reveals `contactHeader` at 500 ms, looked up without a null check. It has no counterpart on the home page, and it is not modelled.
- The section components, pages, layout, footer, `BackToTop.tsx`, the Tailwind and Vite configuration: markup and declarative configuration with no logic of their own.
