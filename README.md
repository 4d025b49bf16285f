# Portfolio site: SEO metadata builder and journey timeline map

This project models the two parts of the portfolio website that contain logic.

- **The SEO metadata builder** (`src/lib/seo.ts`, module `Seo` in `seo.dfy`). `generateSEO`
  turns optional page overrides into the page metadata: the title, description, keyword
  list, canonical address, Open Graph record, Twitter card and robots directive. Every
  omitted property takes its default. The keyword list is the 13 base keywords, then the
  caller's keywords, then the tags. Open Graph gets the publication time, modification time
  and section only when they are truthy in JavaScript terms, and the tags only when the list
  is non-empty (an empty list is truthy in JavaScript, yet it is left out). `generateArticleSchema`
  and `generateProjectSchema` build the JSON-LD records `Article` and `SoftwareApplication`.
  `Array.join` is modelled as `Join`.
- **The journey timeline next to the map** (`src/components/LeafletMap.tsx`, module
  `LeafletMap` in `leaflet_map.dfy`). `MapComponent` holds three React state cells:
  - `selectedIndex`: -1, or an index into the three `timelineData` entries;
  - `isTimelineOpen`;
  - `isMobile`.

  The class `MapComponent` has these cells as fields. Its methods are the handlers that set
  them: selecting an item, `toggleTimeline`, and the resize handler. What the component
  renders from the state is a set of functions of a `MapState` value: the `flyTo` target
  (zoom 15, 1.5 seconds), which item is active, whether the list is shown, and whether the
  "Open timeline" button is shown. `Step` gives the state after one event, and `Run` applies
  a sequence of events. Together they describe which states the user can reach.

Modelling choices:

- An omitted property (JavaScript `undefined`) is `None`. A default replaces only `None`, so
  a title given as `""` stays `""`. JavaScript truthiness of an optional string is
  `Truthy`: present and not `""`.
- An Open Graph key that the source adds with a conditional spread is an `Option` field of
  the result. `None` means the key is absent. It is never null.
- Each `generateSEO` lemma is proved for every table of texts (`SiteTexts`): the parameter
  defaults and the site name. `PortfolioTexts()` is the portfolio's own table, and
  `GenerateSEO(props)` is `GenerateSEOWith(PortfolioTexts(), props)`. So every lemma holds
  for the site.
- Long text constants of the timeline are written as concatenations of short literals. They
  are equal to the source's strings.
- Selection requires `0 <= index < 3`. The component only selects indices produced by
  `entries.map`, and for any other index `timelineData[index].location` would throw.
- The fly-to and selected-location views take the entry list as a parameter, as
  `TimelineContainer` does. Their lemmas hold for any list. The class uses `TimelineData()`.

What the code does, where a reader might expect otherwise:

- The component's on-screen hint says "Click markers or timeline items to explore!". The
  map markers only open their popups, though. Only timeline items change the selection, so
  the model has no marker selection.
- `isMobile` starts out `false`. The mount-time call of the resize handler then sets it from
  the window width. The model treats that call as an ordinary resize event.
- Nothing in the component closes the timeline. `toggleTimeline` is wired only to the
  "Open timeline" button, and that button is rendered only while the timeline is closed.
  The timeline starts open. `ReachableInvariant` proves that in every reachable state the
  list is open and the button is absent. `EveryReachableStateOccurs` proves that every
  state with the list open and a valid selection can be reached.

## Model

| member | source | states |
|---|---|---|
| Seo.GenerateSEO | src/lib/seo.ts:16-84 | with the site's own texts: the site name is always `Mudit Garg Portfolio`; with no argument the title, description, canonical address and Twitter image are the site's defaults and the keywords are exactly the base keywords |
| Seo.BaseKeywords | src/lib/seo.ts:28-42 | there are 13 base keywords and no two are equal |
| Seo.WhenTruthy | src/lib/seo.ts:68-70 | a conditional spread of an optional string: the key is either absent or the given value, never `""`, and present whenever the value is truthy |
| Seo.WhenNonEmpty | src/lib/seo.ts:71 | the `tags` spread: the key is either absent or the given list, never `[]`, and present whenever the list is non-empty |
| Seo.GenerateSEOWith | src/lib/seo.ts:16-84 | the Open Graph and Twitter titles and descriptions equal the page's; the canonical address equals the Open Graph url; there is exactly one Open Graph image; its alt is the title; Twitter shows that image's url; the keywords start with the base list |
| Seo.DefaultMetadata | src/lib/seo.ts:16-44 | with no argument: the default title, description, canonical url and image; type `website`; keywords exactly the 13 base keywords; no optional Open Graph key |
| Seo.KeywordConcatenation | src/lib/seo.ts:28-44 | keywords = base ++ keywords ++ tags: length 13 + \|keywords\| + \|tags\|; each part in its place; every duplicate kept (multiset sum) |
| Seo.KeywordOrderExample | src/lib/seo.ts:44 | keywords `["b"]` and tags `["a"]` give base ++ `["b", "a"]` |
| Seo.DuplicateKeywordKept | src/lib/seo.ts:44 | a keyword equal to a base keyword is kept a second time |
| Seo.SocialRecordsCopyInputs | src/lib/seo.ts:47-77 | the canonical address and the Open Graph url are the given url or its default; the top-level, Open Graph and Twitter titles and descriptions are the given ones or the defaults; the type is the given one or `website` |
| Seo.PreviewImage | src/lib/seo.ts:59-77 | the Open Graph images are exactly `[{image, 1200, 630, alt: title}]`; the Twitter images are exactly `[image]` |
| Seo.ConditionalOpenGraphFields | src/lib/seo.ts:68-71 | `publishedTime`, `modifiedTime` and `section` are present iff given and not `""`, and then unchanged; `tags` is present iff it is non-empty |
| Seo.EmptyTimeOmitted | src/lib/seo.ts:68 | a publication time of `""` gives the same Open Graph record as an omitted one |
| Seo.FixedDirectives | src/lib/seo.ts:58-82 | for every input: robots is `{index: true, follow: true}`, the card is `summary_large_image`, the locale is `en_US`, and the site name is fixed |
| Seo.Join | src/lib/seo.ts:152 | `join` length = sum of the part lengths + one separator between each pair of neighbours; the result starts with the first part |
| Seo.JoinAppend | src/lib/seo.ts:152 | joining two non-empty lists = joining each, with one separator between them |
| Seo.JoinSnoc | src/lib/seo.ts:152 | appending a part appends the separator and the part |
| Seo.GenerateArticleSchema | src/lib/seo.ts:86-121 | the publisher is the author; `dateModified` is `datePublished` or the given modification date; it is empty only if `datePublished` is |
| Seo.ArticleDefaults | src/lib/seo.ts:89-119 | `dateModified` is the given one when truthy, otherwise `datePublished` (also for `""`); the author defaults to `Mudit Garg` only when omitted; the publisher name equals the author name; the type is `Article` |
| Seo.ArticleExample | src/lib/seo.ts:113 | no `dateModified`, or `""`, gives `dateModified == "2024-01-01"` = `datePublished`; the author is `Mudit Garg` |
| Seo.GenerateProjectSchema | src/lib/seo.ts:123-154 | the keyword string has the technologies' total length plus two characters per separator, and starts with the first technology |
| Seo.ProjectFields | src/lib/seo.ts:138-153 | the type is `SoftwareApplication`; the category is `WebApplication`; the operating system is `Any`; the author is `Mudit Garg`; the keywords are `""` for no technology and the technology itself for one |
| Seo.ProjectKeywordsExample | src/lib/seo.ts:152 | technologies `["X", "Y"]` give keywords `"X, Y"` |
| Seo.ProjectKeywordsGrow | src/lib/seo.ts:152 | adding a technology appends `", "` and its name to the keywords |
| LeafletMap.TimelineData | src/components/LeafletMap.tsx:37-73 | the timeline has exactly 3 entries |
| LeafletMap.TimelineIdsDistinct | src/components/LeafletMap.tsx:37-73 | the entries' ids are pairwise distinct |
| LeafletMap.ActiveFlags | src/components/LeafletMap.tsx:119-126 | one `isActive` flag per timeline entry; item `k` is active iff `k` is the active index |
| LeafletMap.SelectedLocation | src/components/LeafletMap.tsx:132 | `selectedLocation` is null iff the selection is negative, and otherwise the location of one of the entries |
| LeafletMap.FlyToCommand | src/components/LeafletMap.tsx:194 | `FlyToLocation` is rendered iff an entry is selected; the map then flies to one of the entries' positions at zoom 15 over 1.5 seconds (the call at line 78) |
| LeafletMap.RenderedControls | src/components/LeafletMap.tsx:165-206 | the list (rendered while open) and the "Open timeline" button (rendered on mobile while closed) never show together |
| LeafletMap.Enabled | src/components/LeafletMap.tsx:165-201 | an item can be clicked only while the list is rendered and the button only while it is rendered; so the button is clicked only while the list is hidden, and an item only while the button is |
| LeafletMap.Step | src/components/LeafletMap.tsx:136-169 | the handlers: an enabled event keeps the selection in `{-1} ∪ [0, 3)`, and only the open button's handler changes whether the list is open |
| LeafletMap.MapComponent.constructor | src/components/LeafletMap.tsx:131-134 | initial state: `selectedIndex = -1`, timeline open, not mobile |
| LeafletMap.MapComponent.Select | src/components/LeafletMap.tsx:169 | sets `selectedIndex` to the index and leaves the other two cells alone; the fly-to target becomes that entry's location at zoom 15 over 1.5 seconds |
| LeafletMap.MapComponent.ToggleTimeline | src/components/LeafletMap.tsx:143 | negates `isTimelineOpen` and leaves the other two cells alone |
| LeafletMap.MapComponent.HandleResize | src/components/LeafletMap.tsx:136-138 | `isMobile := innerWidth < 768` and leaves the other two cells alone |
| LeafletMap.InitialState | src/components/LeafletMap.tsx:131-134 | initially there is no fly-to target and no active item; the list is shown and the open button is not |
| LeafletMap.SelectFliesToEntry | src/components/LeafletMap.tsx:75-81 | after selecting `i`, the selection is `i` and the fly-to command is `(entries[i].location, 15, 1.5)` |
| LeafletMap.FlyToOnlyWhenSelected | src/components/LeafletMap.tsx:132 | there is a fly-to target iff the selection is not -1, and it is the selected entry's location |
| LeafletMap.SingleActiveItem | src/components/LeafletMap.tsx:119-124 | at most one item is active, none for -1, and the selected one otherwise |
| LeafletMap.MobileThreshold | src/components/LeafletMap.tsx:137 | 767 and 320 are mobile; 768 and 1024 are not; a narrower width than a mobile one is mobile |
| LeafletMap.ToggleInvolution | src/components/LeafletMap.tsx:143 | toggling twice restores the state; toggling once negates `isTimelineOpen` |
| LeafletMap.StepFrames | src/components/LeafletMap.tsx:131-143 | each handler changes only its own state cell |
| LeafletMap.ReachableInvariant | src/components/LeafletMap.tsx:198-206 | along every sequence of enabled events, the selection stays valid, the timeline stays open and the open button never renders |
| LeafletMap.EveryReachableStateOccurs | src/components/LeafletMap.tsx:136-169 | every state with the timeline open and a valid selection is reached from the initial state by enabled events |

## Left out

- The page markup is not modelled: JSX, CSS classes, icons, images, the map tiles, markers and popups. These are presentation only.
- Leaflet itself is not modelled. The model computes the arguments passed to `map.flyTo` and does not animate the camera.
- React effect timing is not modelled: the resize listener's subscribe and unsubscribe, and re-renders. The model does not claim that selecting the already selected item flies again, because the effect's dependency is the same location array.
- `window.innerWidth` is a parameter of `HandleResize`.
- Coordinates are `real` constants that are only copied, never computed with, so floating point does not arise.
- Serialisation of the metadata and JSON-LD records into the page head is not modelled. The records are datatypes, and the `@context` and `@type` keys are string fields.
- Next.js's `Metadata` type is represented by the datatypes of `seo.dfy`. Keys it defines that `generateSEO` never sets are not modelled.
- `src/app/layout.tsx`, `src/app/ForceDarkTheme.tsx`, `src/sections/HeroSection.tsx` and `src/sections/projects.tsx` are not part of this model. They hold constants, theme I/O and presentation.
