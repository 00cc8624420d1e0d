# Bilingual portfolio site — a Dafny model

The site is a single-page portfolio in English and Polish. Its logic sits in
a few pure rules and a few small event-driven state machines, and this
project models them:

- **Language context.** The `lang` query parameter selects the language, with
  the browser locale as fallback. Translation keys are looked up in two
  44-entry tables, `t` is meant to echo a missing key (see Findings for a
  case where it does not), and `setLanguage` writes
  `lang=<code>` back into the query string.
- **Router shell.** The first path segment selects the language, `/`
  redirects to `/<language>`, and a path stored in session storage is
  replayed once.
- **Navigation bar.** The language toggle and its two labels, the `scrolled`
  flag, the mobile menu, and anchor scrolling with its menu-closing rule.
- **Contact form.** The `idle → loading → success | error → idle` states, the
  early-error paths that never return to idle, and what the button and the
  error line show in each state.
- **Hero section.** The three rotating roles and the typewriter, which types
  one character per interval tick.
- **Projects section.** Truncation of tech badges and feature bullets, the
  selection that opens a preview window, the window's reload counter,
  loading flag and size class, and the card spotlight.
- **Tooltip.** Hover rules on desktop, tap rules on mobile, and the document
  listener that closes an open mobile tooltip on a press outside it.
- **Content tables.** Navigation links, skills, projects, experience and the
  reasons to hire, with their per-language parity.

Browser inputs are parameters: the query string, the path, the locale, the
window width, the scroll offset, the element ids of the document, and the
outcome of the e-mail send. Timers and intervals are discrete events. Pure
rules are functions, with lemmas about them. Components that keep state are
classes whose methods change their fields.

Files, one per source file plus two support modules:

- `Strings.dfy`: JavaScript `split`, `join`, ASCII `toLowerCase` and
  `toUpperCase`, `startsWith`, and `replace` of a single character.
- `Query.dfy`: `URLSearchParams` as a list of name/value pairs.
- `LanguageContext.dfy`, `App.dfy`, `Navbar.dfy`, `Contact.dfy`, `Hero.dfy`,
  `Projects.dfy`, `Tooltip.dfy`, `Constants.dfy`.

## Model

| member | source | states |
|---|---|---|
| `Strings.Split` | App.tsx:13 | `split` returns at least one part, no part holds the separator, and there is one part more than there are separators |
| `Strings.SplitAtFirstSep` | App.tsx:13 | splitting at the first separator gives the text before it, then the split of the rest |
| `Strings.ToLower` | context/LanguageContext.tsx:117 | lower-casing keeps the length and maps each character (ASCII letters only) |
| `Strings.ToUpper` | components/Navbar.tsx:92 | upper-casing keeps the length and maps each character (ASCII letters only) |
| `Strings.RemoveFirst` | components/Navbar.tsx:26 | `replace('#', '')` leaves a text without `#` unchanged and otherwise shortens it by one |
| `Strings.RemoveFirstSplices` | components/Navbar.tsx:26 | only the first `#` is removed; everything before and after it is kept |
| `Query.Parse` | context/LanguageContext.tsx:110 | parsing a search string yields pairs whose names hold no `=` or `&` and whose values hold no `&` |
| `Query.Lookup` | context/LanguageContext.tsx:111 | `get` gives nothing exactly when the name is absent, and otherwise the value of the first pair with that name |
| `Query.Serialize` | context/LanguageContext.tsx:141 | `toString` is empty exactly when there are no pairs |
| `Query.SetParam` | context/LanguageContext.tsx:140 | after `set(name, value)`, `get(name)` returns `value` |
| `Query.SetParamFacts` | context/LanguageContext.tsx:140 | after `set` the name occurs exactly once, `get` returns the new value, and the pairs with other names are unchanged |
| `Query.SetParamAppends` | context/LanguageContext.tsx:140 | `set` of an absent name appends the new pair at the end and leaves every old pair in its place |
| `Query.SetParamKeepsPosition` | context/LanguageContext.tsx:140 | `set` replaces the first pair in place and drops the later pairs with that name |
| `Query.SetParamIdempotent` | context/LanguageContext.tsx:140 | setting the same value twice gives the same list as setting it once |
| `Query.ParseSerialize` | context/LanguageContext.tsx:139-141 | for well-formed pairs, serializing and then parsing `?` plus the text gives back the same pairs |
| `Query.SearchParams.constructor` | context/LanguageContext.tsx:139 | `new URLSearchParams(search)` holds the parsed pairs |
| `Query.SearchParams.Get` | context/LanguageContext.tsx:110 | `params.get` on the object gives nothing exactly when the name is absent, and otherwise the first pair's value |
| `Query.SearchParams.ToString` | context/LanguageContext.tsx:141 | `params.toString()` on the object is empty exactly when it holds no pairs |
| `Query.SearchParams.Set` | context/LanguageContext.tsx:140 | `params.set` updates the list in place; afterwards `get` gives the value and the other pairs are unchanged |
| `LanguageContext.Code` | context/LanguageContext.tsx:4 | a language code has two characters and holds no `&`, `=` or `/` |
| `LanguageContext.LocaleDefault` | context/LanguageContext.tsx:117-122 | a locale shorter than two characters always gives English |
| `LanguageContext.ResolveQuery` | context/LanguageContext.tsx:109-123 | the result is either the language named by the first `lang` pair or the locale fallback |
| `LanguageContext.LocaleDefaultRule` | context/LanguageContext.tsx:117-122 | the locale fallback gives Polish exactly when the first two characters are `p`/`P` and `l`/`L` |
| `LanguageContext.ExplicitLangWins` | context/LanguageContext.tsx:110-115 | a first `lang` value of exactly `en` or `pl` decides, whatever the locale |
| `LanguageContext.UnknownLangFallsThrough` | context/LanguageContext.tsx:113-122 | any other `lang` value, or none, leaves the decision to the locale |
| `LanguageContext.UpperCaseLangIgnored` | context/LanguageContext.tsx:113 | `?lang=PL` is ignored and the locale decides: the match is case-sensitive |
| `LanguageContext.UnsupportedLangIgnored` | context/LanguageContext.tsx:113-122 | `?lang=fr` is ignored and the locale decides |
| `LanguageContext.EmptyLangIgnored` | context/LanguageContext.tsx:113-122 | an empty `?lang=` is ignored and the locale decides |
| `LanguageContext.FirstLangPairCounts` | context/LanguageContext.tsx:111-122 | for `?lang=v&...` only the first pair is read: `v` decides as if it were alone, so `?lang=fr&lang=pl` is left to the locale |
| `LanguageContext.SearchAfterSet` | context/LanguageContext.tsx:139-141 | the query written by `setLanguage(l)` parses back with `get('lang')` equal to the code of `l` |
| `LanguageContext.SetLanguageResolves` | context/LanguageContext.tsx:137-141 | after `setLanguage(l)`, resolving the new query gives `l` for every old query and every locale |
| `LanguageContext.SetLanguageQuery` | context/LanguageContext.tsx:139-141 | the new query holds exactly one `lang` pair, keeps all other pairs in order, and a second identical `setLanguage` changes nothing |
| `LanguageContext.Keys` | context/LanguageContext.tsx:15-59 | a table has 44 keys, listed in source order |
| `LanguageContext.KeyDotted` | context/LanguageContext.tsx:15-106 | every table key is namespaced with a `.` |
| `LanguageContext.TablesAgree` | context/LanguageContext.tsx:15-106 | the English and Polish tables list the same 44 keys in the same order |
| `LanguageContext.Text` | context/LanguageContext.tsx:15-106 | no text in either table is empty, so `\|\| key` falls back only for keys that are missing |
| `LanguageContext.IndexOf` | context/LanguageContext.tsx:146 | a key is found exactly when it is in the table, and then at a position holding that key |
| `LanguageContext.Translate` | context/LanguageContext.tsx:144-147 | the intended `t`, with an own-property lookup: the table's text for a present key and the key itself for a missing one; the source as written differs for names inherited from `Object.prototype` (Findings) |
| `LanguageContext.TranslateKnownKey` | context/LanguageContext.tsx:16 | `nav.about` translates to `About` and to `O mnie` |
| `LanguageContext.UndottedKeyUnchanged` | context/LanguageContext.tsx:144-147 | a key without a namespace is in neither table and comes back unchanged |
| `LanguageContext.TranslateAsWritten` | context/LanguageContext.tsx:146 | the plain property read also finds members inherited from `Object.prototype`, which are truthy and are returned instead of the key |
| `LanguageContext.InheritedNameNotEchoed` | context/LanguageContext.tsx:146 | `t('constructor')` as written does not return the key, while `Translate` does |
| `LanguageContext.TranslationsAgreeOffPrototype` | context/LanguageContext.tsx:146 | the two lookups agree on every key that is not an inherited name |
| `LanguageContext.LanguageProvider.constructor` | context/LanguageContext.tsx:128 | the initial language is the query resolver applied to the current search |
| `LanguageContext.LanguageProvider.SetLanguage` | context/LanguageContext.tsx:137-142 | sets the language, keeps the path, rewrites the query with `lang=<code>`, and leaves language and location in agreement |
| `LanguageContext.LanguageProvider.Navigate` | context/LanguageContext.tsx:126 | a router navigation changes the location but not the language |
| `LanguageContext.LanguageProvider.SyncEffect` | context/LanguageContext.tsx:130-135 | after the effect the language equals the resolver applied to the search; it changes nothing when they already agree |
| `App.FirstSegment` | App.tsx:13 | the first segment is absent exactly when the path holds no `/`, and it never holds a `/` |
| `App.ResolvePath` | App.tsx:12-24 | the result is either the language named by the first path segment or the locale fallback |
| `App.RootRedirectTarget` | App.tsx:65-67 | the `/` route redirects to a path whose first segment is the code of the resolved language |
| `App.PathDependsOnFirstSegment` | App.tsx:12-24 | for `/<seg>` or `/<seg>/...` the result is `en` or `pl` when `seg` names it, and the locale fallback otherwise |
| `App.PathExamples` | App.tsx:13-16 | `/pl` and `/pl/x` give Polish for every locale; `/x/pl` and `/` fall through to the locale |
| `App.RootRedirectFixedPoint` | App.tsx:65-67 | resolving the redirect target `/<code>` gives the language the target was built from |
| `App.SchemesCanDisagree` | App.tsx:12-24 | `/pl` gives Polish by path, while an empty query under `en-US` gives English |
| `App.SessionStorage.GetItem` | App.tsx:50 | `getItem` returns the stored value, or nothing when the key is absent |
| `App.SessionStorage.RemoveItem` | App.tsx:52 | `removeItem` deletes that key only |
| `App.ConsumeRedirect` | App.tsx:49-55 | navigates exactly when a non-empty path is stored, to that path; then the store keeps every other key and value, adds none and loses the redirect key; otherwise the store is untouched; no replayable path is left behind, so a path is replayed at most once |
| `App.RedirectHandler` | App.tsx:49-55 | the effect reads the entry and removes it before navigating, as `ConsumeRedirect` describes |
| `Navbar.Opposite` | components/Navbar.tsx:20-22 | `toggleLang` always asks for a language other than the current one |
| `Navbar.ToggleTwice` | components/Navbar.tsx:21 | toggling twice returns to the starting language |
| `Navbar.DesktopToggleLabel` | components/Navbar.tsx:81 | the desktop button shows the upper-cased code of the opposite language |
| `Navbar.MobileToggleLabel` | components/Navbar.tsx:92 | the mobile button shows `PL` for Polish and `EN` for English, the current language |
| `Navbar.ToggleLabelsDisagree` | components/Navbar.tsx:81-92 | the desktop label is the mobile label of the opposite language, so the two buttons never show the same text |
| `Navbar.TargetId` | components/Navbar.tsx:26 | the target id is `href` with its first `#` removed |
| `Navbar.ScrollTarget` | components/Navbar.tsx:24-35 | scrolls to an element when one has the non-empty target id, to the top for a bare `#`, and otherwise does nothing |
| `Navbar.LogoScrollsToTop` | components/Navbar.tsx:47-49 | the logo's `#` always scrolls to the top |
| `Navbar.NavLinksReachSections` | components/Navbar.tsx:62-66 | each nav link scrolls to its page section whatever the labels say |
| `Navbar.NavbarState.constructor` | components/Navbar.tsx:8-9 | the menu starts closed and the bar starts unscrolled |
| `Navbar.NavbarState.HandleScroll` | components/Navbar.tsx:15 | `scrolled` holds exactly when `scrollY > 20` |
| `Navbar.NavbarState.ToggleMenu` | components/Navbar.tsx:96 | the menu button flips `isOpen` |
| `Navbar.NavbarState.ScrollToSection` | components/Navbar.tsx:24-35 | the menu closes exactly when the click scrolls somewhere; otherwise `isOpen` is kept |
| `Navbar.ToggleLang` | components/Navbar.tsx:20-22 | the provider switches to the other language and writes it into the query |
| `Contact.SubmitEnabled` | components/Contact.tsx:169 | the submit button is enabled only in `idle`; `HandleSubmit` requires it, since a disabled button cannot submit |
| `Contact.PendingEventDisablesSubmit` | components/Contact.tsx:12-175 | while a send or the timeout back to idle is pending, the button is disabled, and during a send it shows the spinner, so no second submission can start |
| `Contact.ErrorLine` | components/Contact.tsx:161-165 | the error line shows exactly in `error` |
| `Contact.ButtonFor` | components/Contact.tsx:172-185 | the send label shows exactly in `idle`, the spinner in `loading`, "Sent!" in `success`, and nothing in `error` |
| `Contact.OneFeedbackAtATime` | components/Contact.tsx:161-185 | exactly one feedback is on screen, and the button is enabled exactly when it shows the send label |
| `Contact.ContactForm.constructor` | components/Contact.tsx:9-10 | the form starts idle with its default values and nothing pending |
| `Contact.ContactForm.Edit` | components/Contact.tsx:108-158 | typing changes the field values only |
| `Contact.ContactForm.HandleSubmit` | components/Contact.tsx:12-29 | a submission first sets `loading`; a missing form or a missing or empty credential then sets `error` with no send and no timeout, otherwise a send starts |
| `Contact.ContactForm.SendSettled` | components/Contact.tsx:31-45 | success sets `success` and resets the fields; failure sets `error` and keeps them; both schedule the return to idle |
| `Contact.ContactForm.IdleTimerFires` | components/Contact.tsx:40-44 | the timeout sets `idle` |
| `Contact.StuckFormIsDisabled` | components/Contact.tsx:16-29 | after an early error the button stays disabled, the error line shows, and no event is pending |
| `Contact.SubmitAndSucceed` | components/Contact.tsx:12-40 | a successful submission goes through `loading`, `success` and `idle`, and ends with the fields reset |
| `Contact.SubmitAndFail` | components/Contact.tsx:12-44 | a failed submission goes through `loading`, `error` and `idle`, and keeps the fields |
| `Hero.Roles` | components/Hero.tsx:39-41 | each language has three non-empty roles |
| `Hero.RolesSameLength` | components/Hero.tsx:45-50 | both languages have the same number of roles, so switching language does not restart the rotation |
| `Hero.RoleRotator.constructor` | components/Hero.tsx:43 | the role index starts at 0 |
| `Hero.RoleRotator.Tick` | components/Hero.tsx:46-48 | each tick sets the index to `(prev + 1) % 3`; after n ticks it equals n mod 3 |
| `Hero.RoleRotator.CurrentRole` | components/Hero.tsx:83 | the role on screen is one of the current language's roles |
| `Hero.Typewriter.constructor` | components/Hero.tsx:8-12 | typing starts from the empty text at index 0 |
| `Hero.Typewriter.Reset` | components/Hero.tsx:10-12 | a new text clears the screen and restarts typing from 0 |
| `Hero.Typewriter.Tick` | components/Hero.tsx:13-20 | a tick appends the next character while one is left, and otherwise clears the interval with the full text shown; always `displayed == text[..min(ticks, \|text\|)]` |
| `Hero.RotateRole` | components/Hero.tsx:83 | a role change hands the new role to the typewriter, which starts over |
| `Projects.VisibleTechs` | components/Projects.tsx:266 | a card shows the first `min(3, n)` techs, in order |
| `Projects.TechOverflow` | components/Projects.tsx:271-273 | the `+k` counter appears exactly when `n > 3`, and then counts the hidden techs |
| `Projects.TechsAccounted` | components/Projects.tsx:266-273 | shown techs plus the counter equal `n` |
| `Projects.VisibleFeatures` | components/Projects.tsx:279 | a card shows exactly the first two features, or all of them when there are fewer, in order |
| `Projects.ShowsRevenueBadge` | components/Projects.tsx:243 | the `$ Rev` badge shows exactly when `isMonetized` is true; an absent flag is falsy |
| `Projects.RevenueBadgeOnlyOnDeeplomai` | components/Projects.tsx:243 | on either language's table the badge appears on the `deeplomai` card and on no other |
| `Projects.AddressBarText` | components/Projects.tsx:134 | the address bar shows the link, or `local://preview` when the link is absent or empty |
| `Projects.BodyFor` | components/Projects.tsx:160-184 | the iframe renders exactly when a link exists, with the spinner while loading |
| `Projects.CardsOfTable` | components/Projects.tsx:224-279 | each table card shows at most three techs and two features; only `helen-doron` cannot be opened |
| `Projects.FeaturesAtLeastTwo` | constants.ts:40-112 | every project lists at least two features |
| `Projects.ProjectsSection.constructor` | components/Projects.tsx:194 | nothing is selected at first |
| `Projects.ProjectsSection.WindowShown` | components/Projects.tsx:205 | the preview window shows exactly when a project is selected, and a shown window always renders the live iframe, never the no-preview notice |
| `Projects.ProjectsSection.HandleProjectClick` | components/Projects.tsx:196-200 | a click selects the project only if it has a link, so the window opens; otherwise the selection and whether the window shows are kept |
| `Projects.ProjectsSection.Close` | components/Projects.tsx:208 | closing clears the selection |
| `Projects.ClickCard` | components/Projects.tsx:234 | clicking a table card opens its preview, except for `helen-doron`, whose click changes nothing |
| `Projects.ProjectWindow.constructor` | components/Projects.tsx:69-82 | the window mounts loading, at key 0, with the size class measured once |
| `Projects.ProjectWindow.CheckScreenSize` | components/Projects.tsx:74-76 | mobile size holds exactly when `innerWidth < 1920` |
| `Projects.ProjectWindow.ReloadIframe` | components/Projects.tsx:84-87 | reload sets loading and increases the key by exactly one |
| `Projects.ProjectWindow.OnLoad` | components/Projects.tsx:174 | `onLoad` clears loading and keeps the key |
| `Projects.SpotlightCard.constructor` | components/Projects.tsx:17-18 | the spotlight starts hidden at position (0, 0) |
| `Projects.SpotlightCard.HandleFocus` | components/Projects.tsx:29-31 | focus shows the spotlight |
| `Projects.SpotlightCard.HandleBlur` | components/Projects.tsx:33-35 | blur hides the spotlight |
| `Projects.SpotlightCard.HandleMouseEnter` | components/Projects.tsx:37-39 | hover shows the spotlight |
| `Projects.SpotlightCard.HandleMouseLeave` | components/Projects.tsx:41-43 | leaving hides the spotlight |
| `Projects.SpotlightCard.HandleMouseMove` | components/Projects.tsx:20-27 | the spotlight follows the pointer relative to the card, and nothing happens before the card is mounted |
| `Tooltip.PointerEvents` | components/ui/Tooltip.tsx:58 | pointer events are `auto` on mobile and `none` on desktop |
| `Tooltip.BubbleInteractiveIffListening` | components/ui/Tooltip.tsx:23-58 | a visible bubble catches presses exactly while the outside-press listener is installed; on desktop it lets every press through and no listener runs |
| `Tooltip.TooltipState.constructor` | components/ui/Tooltip.tsx:10-21 | the tooltip starts hidden; mobile holds exactly when `innerWidth < 768` |
| `Tooltip.TooltipState.Resize` | components/ui/Tooltip.tsx:15-19 | a resize re-measures mobile and keeps visibility |
| `Tooltip.TooltipState.MouseEnter` | components/ui/Tooltip.tsx:44 | hovering shows the tooltip on desktop and does nothing on mobile |
| `Tooltip.TooltipState.MouseLeave` | components/ui/Tooltip.tsx:45 | leaving hides it on desktop and does nothing on mobile |
| `Tooltip.TooltipState.Click` | components/ui/Tooltip.tsx:35-38 | a click toggles visibility on mobile and does nothing on desktop |
| `Tooltip.TooltipState.DocumentMouseDown` | components/ui/Tooltip.tsx:23-32 | a press acts only while the tooltip is visible on mobile; then a press outside the bubble hides it and one inside keeps it |
| `Tooltip.TapElsewhere` | components/ui/Tooltip.tsx:24-28 | on mobile, a press elsewhere closes an open tooltip |
| `Tooltip.TapTriggerWhileOpen` | components/ui/Tooltip.tsx:23-46 | on mobile, tapping the trigger of an open tooltip leaves it open: the press closes it and the click reopens it |
| `Tooltip.TapBubble` | components/ui/Tooltip.tsx:23-46 | on mobile, tapping the bubble closes it through the wrapper's click |
| `Tooltip.TapTriggerWhileClosed` | components/ui/Tooltip.tsx:23-46 | on mobile, tapping a closed tooltip opens it and installs the outside-press listener |
| `Tooltip.DesktopClick` | components/ui/Tooltip.tsx:35-45 | on desktop, presses and clicks never change visibility |
| `Constants.GetNavLinks` | constants.ts:4-9 | four links, labelled by `t` of the `nav.*` keys, with hrefs `#about`, `#projects`, `#experience` and `#contact` in that order |
| `Constants.NavLinksIgnoreLabels` | constants.ts:4-9 | the hrefs do not depend on `t` |
| `Constants.GetSkills` | constants.ts:11-28 | each language lists four skill groups, each with at least two skills |
| `Constants.SkillsParity` | constants.ts:11-28 | both languages have four groups with identical skill lists |
| `Constants.GetProjects` | constants.ts:30-118 | each language lists six projects |
| `Constants.ProjectsParity` | constants.ts:30-118 | same ids in the same order in both languages; titles, categories, tech stacks, statuses, links and monetization agree, and feature lists have equal length |
| `Constants.ProjectIdsDistinct` | constants.ts:34-104 | the six project ids are distinct |
| `Constants.LinkAndMonetization` | constants.ts:30-118 | `helen-doron` is the only project without a link, and `deeplomai` is the only monetized one |
| `Constants.GetExperience` | constants.ts:120-192 | each language lists four positions |
| `Constants.ExperienceParity` | constants.ts:120-192 | the same four distinct ids in the same order, with three description bullets each, in both languages |
| `Constants.GetWhyHire` | constants.ts:194-209 | each language gives four reasons, none of them empty |
| `Constants.WhyHireParity` | constants.ts:194-209 | both languages give four reasons to hire |

## Left out

- Percent-decoding and `+` handling in `URLSearchParams` are not modelled. A
  query is split on `&` and `=` only, and `toString` joins the pairs back
  without encoding. The round trip is proved for pairs whose names hold no
  `=` or `&` and whose values hold no `&`.
- Case mapping of the locale covers ASCII letters only. Unicode case mapping
  is not modelled; the decision depends only on the first two characters.
- `Strings.ToLower`, `Strings.ToUpper`: do not model Unicode case mapping, for
  the same reason.
- `useLanguage` throwing outside a provider is not modelled. React context
  plumbing, hooks and router wiring are left out; every component is
  assumed to sit inside the provider.
- The browser's own `required` validation of the name, email and message
  fields (components/Contact.tsx:112, 125, 154) runs before `handleSubmit`
  and is not modelled: every submission that reaches the handler is taken
  as given.
- `emailjs.sendForm` is a foreign asynchronous call. It becomes the `ok`
  parameter of `SendSettled`, and its `console.error` logging is left out.
- The 3000 ms timeout, the 4000 ms role interval and the typewriter speed
  are not modelled. Each becomes a discrete event (`IdleTimerFires`, `Tick`),
  and durations are left out.
- Animations, CSS classes, badge styles, the `Background`, `Skills`,
  `Experience`, `NotFound` and `Badge` components, and the build
  configuration are not modelled: they only render.
- `scrollY` and `innerWidth` are taken as given numbers. The document's
  element ids are a set parameter, and `contains` on the bubble is a boolean
  parameter.
- `Navbar.NavbarState.ScrollToSection`: returns the scroll it triggers
  rather than performing smooth scrolling.
- The tables' keys are not proved pairwise distinct. `Translate` takes the
  first position of a key, which agrees with the object literal as long as
  no key repeats.
- `Hero.RoleRotator.Tick`: the role index is written modulo 3, the number of
  roles in both languages (`Hero.RolesSameLength`); the language itself
  never restarts the interval.
- `LanguageContext.LanguageProvider.T` is built on the corrected
  `Translate`, so the provider models the intended `t`, not the one as
  written: it does not return inherited `Object.prototype` members for their
  names. `TranslateAsWritten` models that lookup on its own (Findings).
- `Hero.Typewriter.Reset`: the reset runs in an effect, so for one render
  the old `displayedText` is shown beside the new text and is not a prefix
  of it; that render is merged into the reset step.
- `Tooltip.TooltipState.constructor`: the first render has `isMobile`
  false, from `useState(false)`, before the mount effect measures the
  window; that render is merged into the constructor.
- `Projects.ProjectWindow.constructor`: the window measures its size once on
  mount, and the first render, which shows `isMobileSize` as false before
  the effect runs, is merged into that step.
- `Constants.GetProjects`, `Constants.GetExperience`: each literal list is
  written as a list built position by position from one function per entry.
  The values are the same.

## Findings

| source | as written | input that shows it | evidently intended | confidence | as-written member | corrected member |
|---|---|---|---|---|---|---|
| context/LanguageContext.tsx:146 | `translations[language][key] \|\| key` reads the key as a plain property, so names inherited from `Object.prototype` are found too, and being truthy they are returned | `t('constructor')` returns the `Object` constructor function instead of the string `'constructor'` | a key missing from the table comes back unchanged (an own-property lookup) | not executed; no call in the site passes such a key | `LanguageContext.TranslateAsWritten` (`LanguageContext.InheritedNameNotEchoed`) | `LanguageContext.Translate` (`LanguageContext.UndottedKeyUnchanged`) |
