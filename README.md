# SPFx Locations: the cascading term selector, in Dafny

The Locations web part lets a user drill into a three-level taxonomy of the
SharePoint term store (division, then office, then location). Each selector
offers the children of a term, fetched from the term store. Choosing a term
clears every deeper level. The web part around the component picks a host
mode, a Fluent theme and an environment message.

This project models the component's selection state machine and the web
part's decision tables, and proves properties of them:

- `wrappers.dfy`: `Option`, `Result` and `Outcome`.
- `location_terms.dfy` (module `LocationTerms`): the term shape, the fixed
  group, set and anchor ids, the request URL and its inverse, the names the
  markup shows, and the details-panel lookup.
- `locations.dfy` (module `Locations`): the component state as a value
  (`ViewState`). It has the step functions for the first render, the three
  change handlers with the effects they trigger, and a finished fetch. The
  class `LocationsView` performs the same steps field by field. Each of its
  methods is proved equal to the matching step function.
- `location_traces.dfy` (module `LocationTraces`): runs of user choices and
  fetch arrivals in any order. It proves the cascade invariant, which the
  selectors' visibility keeps. It also proves the behaviours of the code
  listed below.
- `web_part.dfy` (module `LocationsWebPart`): the host-to-mode switch, the
  theme choice, the environment-message switch and the dark-flag update,
  with a class for the web part's fields.

Effects are modelled as "after each handler, compare the new level-1 and
level-2 selections with the previous ones". On the first render every effect
runs. A fetch is a `Request(parent, target level)` appended to an in-flight
list. Any in-flight fetch may finish next, with `Some(terms)` for an ok
response or `None` for a failed one.

Several behaviours of the code are proved outright:

- There is no stale-result check: every answer replaces its target list,
  even when its parent is no longer selected (`LastAnswerWins`,
  `StaleLevel2AnswerApplied`, `StaleLevel3AnswerShown`).
- Ids are not checked against the level's list: a handler stores any id it
  is given (`UncheckedId`).
- Re-choosing the current term is not a no-op. Re-choosing at level 1
  clears levels 2 and 3 and fetches nothing, so, when no level-2 fetch is
  in flight, level 2 stays empty (`ReselectStarvesLevel2`). Re-choosing at
  level 2 clears level 3 (`ReselectLevel2ClearsLevel3`).
- Level 1's list is fetched under level 1's own selection, the same parent
  as level 2, not under a fixed root (`MountFillsBothLists`,
  `NewLevel1FillsBothLists`). It is also refetched under the empty
  placeholder (`PlaceholderRefetchesLevel1`).
- A failed fetch is only logged and changes no list (`Locations.Complete`).

## Model

| member | source | states |
|---|---|---|
| `LocationTerms.UrlPrefix` | src/webparts/locations/components/Locations.tsx:25 | the part of a request URL before the parent id is the site URL, then `/_api/v2.1/termStore/groups/`, the fixed group id, `/sets/`, the fixed set id and `/terms/` |
| `LocationTerms.TermsUrl` | src/webparts/locations/components/Locations.tsx:25 | the request URL is that prefix, then the parent id, then `/children?select=*` |
| `LocationTerms.ParentOfTermsUrl` | src/webparts/locations/components/Locations.tsx:25 | reading the parent id back out of a request URL gives the id it was built from |
| `LocationTerms.TermsUrlOfParent` | src/webparts/locations/components/Locations.tsx:25 | every URL a parent can be read from is the request URL of that parent |
| `LocationTerms.TermsUrlInjective` | src/webparts/locations/components/Locations.tsx:25 | two requests on one site share a URL if and only if they share a parent |
| `LocationTerms.LabelOf` | src/webparts/locations/components/Locations.tsx:109 | a term's shown name is its first label's name, and there is none exactly when the term has no label |
| `LocationTerms.RenderedNames` | src/webparts/locations/components/Locations.tsx:72-80 | the names shown for a list are its terms' first labels, in order and one per term; rendering fails exactly when some term has no label |
| `LocationTerms.FindIndex` | src/webparts/locations/components/Locations.tsx:132 | `find` stops at the first term with the id, and finds nothing exactly when no term has it |
| `LocationTerms.SelectedTermDetails` | src/webparts/locations/components/Locations.tsx:129-134 | the panel is hidden exactly when level 3 has no selection; otherwise it shows nothing if no level-3 term has the id, else the label of the first such term, or fails on an unlabelled one |
| `Locations.RequestUrl` | src/webparts/locations/components/Locations.tsx:24-26 | every request is sent to the URL of its own parent's children |
| `Locations.Fired` | src/webparts/locations/components/Locations.tsx:35-49 | the level-1 refetch fires exactly when level 1 changed; level 2 is fetched exactly when level 1 changed to a non-empty id; level 3 exactly when level 2 changed to a non-empty id; level 3 under the level-2 id and the others under the level-1 id; at most one request per level |
| `Locations.Mounted` | src/webparts/locations/components/Locations.tsx:17-49 | first render: level 1 at the anchor, levels 2 and 3 unselected, all lists empty, and exactly two requests, both under the anchor, for levels 1 and 2 |
| `Locations.AfterLevel1` | src/webparts/locations/components/Locations.tsx:51-58 | level 1 becomes the id; levels 2 and 3 lose selection and list; level 1's list stays; a new id requests level 1's list and, when not empty, level 2's list under that id; the same id requests nothing |
| `Locations.AfterLevel2` | src/webparts/locations/components/Locations.tsx:60-65 | level 2 becomes the id; level 3 loses selection and list; level 1 and level 2's list stay; only a new, non-empty id requests level 3's list under it |
| `Locations.AfterLevel3` | src/webparts/locations/components/Locations.tsx:67-70 | only level 3's selection changes; re-choosing it changes nothing |
| `Locations.Complete` | src/webparts/locations/components/Locations.tsx:26-32 | the finished request leaves the in-flight list; an answer replaces its target list wholesale whatever is selected; a failure changes no list; selections never change |
| `Locations.CompleteRemovesOne` | src/webparts/locations/components/Locations.tsx:26-32 | the in-flight list after a completion plus the finished request is, as a multiset, the list before |
| `Locations.Shown` | src/webparts/locations/components/Locations.tsx:112-128 | level 1's selector is always shown, level 2's exactly when level 1 has a selection, level 3's exactly when level 2 has one |
| `Locations.LocationsView.Mount` | src/webparts/locations/components/Locations.tsx:17-49 | the constructed component is in the first-render state |
| `Locations.LocationsView.UrlOf` | src/webparts/locations/components/Locations.tsx:25-26 | an in-flight request is sent to the component's site, at the URL of its parent's children |
| `Locations.LocationsView.RunEffects` | src/webparts/locations/components/Locations.tsx:35-49 | appends exactly the requests the three effects fire |
| `Locations.LocationsView.SelectLevel1` | src/webparts/locations/components/Locations.tsx:51-58 | the new state is the level-1 step of the old one |
| `Locations.LocationsView.SelectLevel2` | src/webparts/locations/components/Locations.tsx:60-65 | the new state is the level-2 step of the old one |
| `Locations.LocationsView.SelectLevel3` | src/webparts/locations/components/Locations.tsx:67-70 | the new state is the level-3 step of the old one |
| `Locations.LocationsView.CompleteFetch` | src/webparts/locations/components/Locations.tsx:24-32 | the new state is the completion step of the old one |
| `LocationTraces.RunKeepsInvariants` | src/webparts/locations/components/Locations.tsx:51-70 | every run of visible choices and arrivals keeps the cascade and keeps level-2 and level-3 requests off the empty parent |
| `LocationTraces.CascadeInvariant` | src/webparts/locations/components/Locations.tsx:112-127 | in every reachable state, level 3 has a selection only if level 2 has one, and level 2 only if level 1 has one |
| `LocationTraces.HiddenChoiceBreaksCascade` | src/webparts/locations/components/Locations.tsx:120-127 | without the visibility rule, a level-3 choice could break the cascade |
| `LocationTraces.PlaceholderRefetchesLevel1` | src/webparts/locations/components/Locations.tsx:35-37 | choosing the placeholder at level 1 requests level 1's list under the empty id |
| `LocationTraces.UncheckedId` | src/webparts/locations/components/Locations.tsx:51-53 | an id missing from level 1's list still becomes the selection |
| `LocationTraces.Level2StaysEmpty` | src/webparts/locations/components/Locations.tsx:39-43 | with level 2 empty and unfetched, it stays empty while level 1 is only re-chosen at its value |
| `LocationTraces.ReselectStarvesLevel2` | src/webparts/locations/components/Locations.tsx:39-58 | re-choosing level 1's term with no level-2 fetch in flight leaves level 2 empty until level 1 changes |
| `LocationTraces.StaleLevel2AnswerApplied` | src/webparts/locations/components/Locations.tsx:27-29 | an answer for a level-1 parent no longer selected still replaces level 2's list |
| `LocationTraces.StaleLevel3AnswerShown` | src/webparts/locations/components/Locations.tsx:27-29 | after a level-2 term is chosen and then cleared, its late answer fills level 3's list while level 3's selector is hidden |
| `LocationTraces.LastAnswerWins` | src/webparts/locations/components/Locations.tsx:27-29 | level 1 moves to `a` then to `b`; if the answers arrive in reverse order, level 2 offers `a`'s children while `b` is selected |
| `LocationTraces.MountFillsBothLists` | src/webparts/locations/components/Locations.tsx:35-43 | the first two answers, both for the anchor, give levels 1 and 2 the same list |
| `LocationTraces.NewLevel1FillsBothLists` | src/webparts/locations/components/Locations.tsx:35-43 | a new level-1 id requests levels 1 and 2 at one URL; answered alike, both offer the children of that id |
| `LocationTraces.ReselectLevel2ClearsLevel3` | src/webparts/locations/components/Locations.tsx:60-65 | re-choosing the current level-2 term fetches nothing but clears level 3 |
| `LocationsWebPart.Lower` | src/webparts/locations/LocationsWebPart.ts:73 | lower-casing keeps the length, turns every ASCII capital into its own lower-case letter and leaves every other character alone |
| `LocationsWebPart.LowerIdempotent` | src/webparts/locations/LocationsWebPart.ts:73 | lower-casing twice is lower-casing once |
| `LocationsWebPart.ModeFor` | src/webparts/locations/LocationsWebPart.ts:70-79 | without Teams the mode is SharePoint or SharePointLocal; with Teams the lower-cased host name gives Teams, Office or Outlook and any other name fails with the unknown-host error; a mode is a localhost variant exactly when served from localhost |
| `LocationsWebPart.ModeForHostOf` | src/webparts/locations/LocationsWebPart.ts:70-79 | every mode is reached from its own host and localhost flag |
| `LocationsWebPart.ModeIgnoresCase` | src/webparts/locations/LocationsWebPart.ts:73 | the host switch gives the same result for a name and its lower-cased form |
| `LocationsWebPart.ThemeFor` | src/webparts/locations/LocationsWebPart.ts:52-56 | Teams modes get the Teams dark or light theme; SharePoint modes the web dark theme or the stored theme; other modes the web dark or light theme; by the dark flag |
| `LocationsWebPart.ThemeFollowsDarkFlag` | src/webparts/locations/LocationsWebPart.ts:32-56 | with the stored web light theme, the theme is dark if and only if the flag is set, and a Teams theme if and only if the mode is Teams |
| `LocationsWebPart.EnvironmentMessageFor` | src/webparts/locations/LocationsWebPart.ts:94-118 | the message is unknown exactly for a Teams host name other than Office, Outlook, Teams and TeamsModern, case-sensitively; otherwise it is the localhost variant exactly when served from localhost |
| `LocationsWebPart.MessageAgreesWithMode` | src/webparts/locations/LocationsWebPart.ts:73-118 | wherever the message switch knows the host (except TeamsModern), the mode switch does too, and the message describes that mode |
| `LocationsWebPart.TeamsModernDisagrees` | src/webparts/locations/LocationsWebPart.ts:73-108 | for TeamsModern the mode switch throws while the message is the Teams one |
| `LocationsWebPart.CaseDisagrees` | src/webparts/locations/LocationsWebPart.ts:73-111 | "TEAMS" is Teams to the mode switch and unknown to the message switch |
| `LocationsWebPart.DarkAfterThemeChange` | src/webparts/locations/LocationsWebPart.ts:121-126 | no theme leaves the flag; otherwise the flag is whether the theme is inverted |
| `LocationsWebPart.LocationsWebPart.constructor` | src/webparts/locations/LocationsWebPart.ts:29-32 | light, no message, SharePoint mode, web light theme stored |
| `LocationsWebPart.LocationsWebPart.RenderedTheme` | src/webparts/locations/LocationsWebPart.ts:52-56 | the rendered theme is dark exactly when the dark flag is set, and a Teams theme exactly in a Teams mode |
| `LocationsWebPart.LocationsWebPart.OnInit` | src/webparts/locations/LocationsWebPart.ts:64-92 | sets the mode the host switch gives, or fails with the unknown-host error and keeps the mode; nothing else changes |
| `LocationsWebPart.LocationsWebPart.OnThemeChanged` | src/webparts/locations/LocationsWebPart.ts:121-126 | the dark flag is updated as `DarkAfterThemeChange` says and nothing else changes |

## Left out

- The HTTP call, JSON parsing and the console error of `fetchTerms`: a fetch is an abstract request, and its completion is any `Option<seq<Term>>` at any time.
- React's scheduling: renders, batching and the `props.context` dependency of the first effect. A handler and the effects of the render it causes are one atomic step.
- The markup around the selectors: the welcome image, headings, `escape(...)` and the `value` attribute of each `<select>`.
- The choices a browser can hand to a handler: any string is allowed, not only the values of the shown options. This only widens the runs the invariants are proved for.
- `ReactDom.render` and `unmountComponentAtNode`, `SPComponentLoader.loadCss`, `require("bootstrap")`, the CSS custom properties set in `onThemeChanged`, `super.onInit`, `dataVersion` and the property pane: host and DOM plumbing.
- The Teams `getContext()` call: the host name is a parameter, and both calls in `onInit` and `_getEnvironmentMessage` are taken to report the same name.
- LocationsWebPart.Lower: models `toLowerCase` on ASCII letters only; other Unicode case mappings are not modelled.
- LocationsWebPart.LocationsWebPart.OnInit: the promise from `_getEnvironmentMessage` is not modelled, because its value is dropped (the assignment is commented out). `EnvironmentMessageFor` states what it would resolve to.
- The props handed to the component (description, user name, Teams flag): plain copies of host values.
- src/webparts/locations/components/ILocationsProps.ts: a type declaration with no behaviour.
