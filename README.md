# Backend Apps catalogue: category tabs and search

This project models the behaviour of the documentation site's Backend Apps page
(`src/pages/BackendApps.tsx`). The page shows a fixed catalogue of twelve
backend applications. The catalogue can be viewed through four tabs ("All",
"Core", "Integration", "Infrastructure") and narrowed with a search box. Two
functions of the page decide what each tab shows:

- `getCategoryApps(category)` picks a sublist of the catalogue for a tab;
- `filterApps(apps)` keeps the apps whose name, purpose or model names contain
  the search text, ignoring case.

Every tab shows `filterApps(getCategoryApps(category))`.

The source is pure (conditionals plus `Array.filter`, `includes`, `some` and
`toLowerCase`), so the model is made of datatypes, functions and lemmas:

- `app_card.dfy`, module `AppCard`: the `DjangoApp` record type and its
  `{ name, description }` items (the `DjangoApp` interface of
  `src/components/AppCard.tsx`).
- `js_string.dfy`, module `JsString`: `toLowerCase` restricted to ASCII
  letters (`Lower`), and `String.prototype.includes` (`Includes`). `Includes`
  is proved equal to an index-based definition of occurrence (`OccursIn`).
- `js_array.dfy`, module `JsArray`: `Array.prototype.filter` (`Filter`) and
  the order-preserving subsequence relation (`IsSubsequence`), with the
  lemmas about filtering that the page relies on.
- `backend_apps.dfy`, module `BackendApps`: the catalogue (`DjangoApps`, one
  constant per app), the tab labels (`Categories`), the three fixed name lists,
  `CategoryApps` (`getCategoryApps`), `FilterApps` (`filterApps`) and `TabApps`
  (their composition on the page).
- `backend_apps_facts.dfy`, module `BackendAppsFacts`: lemmas about the page.
  They cover how the named tabs partition the catalogue, what the search keeps,
  idempotence, case-insensitivity, and why a named tab's result is always part
  of the "All" tab's result.

Modelling decisions:

- The search box's React state `searchQuery` is a parameter of `FilterApps`.
- `getCategoryApps` reads the `djangoApps` list it closes over. Here that list
  is the parameter `apps` of `CategoryApps`. `TabApps` always passes the
  catalogue `DjangoApps`, as the page does. The partition lemmas are proved
  for any list whose names are the catalogue's twelve names, in order
  (`CategoriesPartition`, `TabsListingExactlyOne`, `NoEmptyCategory`). They
  are then applied to `DjangoApps` itself (`CategoriesPartitionCatalogue`,
  `CatalogueAppInExactlyOneTab`, `NoEmptyTabWithoutQuery`).
- `!searchQuery` is false only for the empty string, because the query is
  always a string. So the model tests `searchQuery == ""`.
- The query is lower-cased once, and each app is then tested with `Matches`.
  `SearchTest` is that test written as the function `Filter` receives.

## Model

| member | source | states |
|---|---|---|
| `JsString.Lower` | src/pages/BackendApps.tsx:528-533 | `toLowerCase` keeps the length and every position. Each upper-case ASCII letter becomes its lower-case letter (code point plus 32). Every other character is unchanged. The result holds no upper-case ASCII letter. |
| `JsString.LowerIdempotent` | src/pages/BackendApps.tsx:528 | Lower-casing an already lower-cased string changes nothing. |
| `JsString.LowerFixedPoint` | src/pages/BackendApps.tsx:528 | A string equals its lower-case form exactly when it has no upper-case ASCII letter (both directions). |
| `JsString.LowerSlice` | src/pages/BackendApps.tsx:528-531 | Lower-casing a slice equals slicing the lower-cased string. |
| `JsString.IncludesIff` | src/pages/BackendApps.tsx:531-533 | The recursive `includes` search holds exactly when the substring occurs at some index (both directions). |
| `JsString.IncludesSelf` | src/pages/BackendApps.tsx:531 | Every string includes itself. |
| `JsString.IncludesSlice` | src/pages/BackendApps.tsx:531 | A string includes each of its contiguous slices. |
| `JsArray.SubsequenceReflexive` | src/pages/BackendApps.tsx:510 | A list is a subsequence of itself. This is what returning the list unchanged means. |
| `JsArray.SubsequenceMultiset` | src/pages/BackendApps.tsx:529-534 | Being a subsequence means nothing was added or duplicated: the multiset can only shrink. |
| `JsArray.FilterSubsequence` | src/pages/BackendApps.tsx:529-534 | `filter` returns a subsequence of its input, in input order. |
| `JsArray.FilterMembers` | src/pages/BackendApps.tsx:529-534 | An element is in the filtered list exactly when it is in the input and passes the test. |
| `JsArray.FilterCount` | src/pages/BackendApps.tsx:529-534 | A passing element occurs in the result as often as in the input. A failing one never occurs. |
| `JsArray.FilterAllPass` | src/pages/BackendApps.tsx:529-534 | Filtering a list whose elements all pass returns that list. |
| `JsArray.FilterIdempotent` | src/pages/BackendApps.tsx:529-534 | Filtering twice with the same test equals filtering once. |
| `JsArray.FilterMonotone` | src/pages/BackendApps.tsx:529-534 | Filtering preserves the subsequence relation. |
| `BackendApps.AppsNamed` | src/pages/BackendApps.tsx:512-521 | `apps.filter(app => names.includes(app.name))` is a subsequence of `apps`. It holds exactly the apps whose name is in `names`. Each app appears as often as in `apps`. |
| `BackendApps.CategoryApps` | src/pages/BackendApps.tsx:509-524 | "All" and every label outside the four tab labels return the list unchanged. "Core", "Integration" and "Infrastructure" return a subsequence of the list holding exactly the apps whose name is in that category's fixed list. |
| `BackendApps.FilterApps` | src/pages/BackendApps.tsx:526-535 | An empty query returns the input unchanged. Otherwise the result is a subsequence of the input. It holds exactly the input apps that match the lower-cased query. |
| `BackendAppsFacts.CatalogueNames` | src/pages/BackendApps.tsx:11-505 | The catalogue has 12 apps, with the twelve listed names in page order. |
| `BackendAppsFacts.CatalogueNamesDistinct` | src/pages/BackendApps.tsx:576 | No two catalogue apps share a name, so the cards' `key={app.name}` is unique. |
| `BackendAppsFacts.CategoryNameListsPartition` | src/pages/BackendApps.tsx:511-522 | The Core, Integration and Infrastructure name lists are pairwise disjoint. Together they name exactly the twelve catalogue apps. |
| `BackendAppsFacts.CatalogueAppName` | src/pages/BackendApps.tsx:11-505 | Every app of a list named like the catalogue carries one of the twelve names. |
| `BackendAppsFacts.TabsListingExactlyOne` | src/pages/BackendApps.tsx:509-524 | Over a list named like the catalogue, each of its apps is listed by exactly one named tab. An app outside it is listed by none. |
| `BackendAppsFacts.CategoriesPartitionAt` | src/pages/BackendApps.tsx:509-524 | Over a list named like the catalogue, the three named tabs together hold a given app exactly as often as the list does. |
| `BackendAppsFacts.CategoriesPartition` | src/pages/BackendApps.tsx:509-524 | Over a list named like the catalogue, the multisets of the three named tabs add up to the list's multiset. |
| `BackendAppsFacts.CategoriesPartitionCatalogue` | src/pages/BackendApps.tsx:544 | The page's three named tabs partition its catalogue as multisets. Their sizes add up to 12, the count the heading announces. |
| `BackendAppsFacts.CatalogueAppInExactlyOneTab` | src/pages/BackendApps.tsx:507-524 | Every catalogue app appears in exactly one of the three named tabs. |
| `BackendAppsFacts.NoEmptyCategory` | src/pages/BackendApps.tsx:509-524 | Over a list named like the catalogue, no category label yields an empty list. |
| `BackendAppsFacts.NoEmptyTabWithoutQuery` | src/pages/BackendApps.tsx:571-583 | With an empty search box each tab shows its whole category. No tab is empty, so the "No apps found" notice cannot appear. |
| `BackendAppsFacts.FilterAppsKeepsExactly` | src/pages/BackendApps.tsx:528-534 | For a non-empty query, an app is kept exactly when the lower-cased query occurs at some index of its lower-cased name, its lower-cased purpose, or the lower-cased name of one of its models. |
| `BackendAppsFacts.FilterAppsCounts` | src/pages/BackendApps.tsx:527-534 | The search keeps each matching app as often as it occurs in the input and drops every other app. Nothing is added or duplicated. |
| `BackendAppsFacts.SearchReadsOnlyNamePurposeModels` | src/pages/BackendApps.tsx:530-533 | Two apps that agree on name, purpose and model names match the same queries. Directory, icon, colour, key files and model descriptions are never searched. |
| `BackendAppsFacts.FilterAppsIdempotent` | src/pages/BackendApps.tsx:526-535 | Searching a search result again with the same text changes nothing. |
| `BackendAppsFacts.FilterAppsCaseInsensitive` | src/pages/BackendApps.tsx:528 | Two queries with the same lower-case form keep the same apps. |
| `BackendAppsFacts.SearchFindsNamePart` | src/pages/BackendApps.tsx:531 | Typing any contiguous part of an app's name keeps that app. |
| `BackendAppsFacts.SearchWithinAll` | src/pages/BackendApps.tsx:509-535 | For any list and search text, searching one category of the list keeps a subsequence of what searching the whole list keeps. Every app kept in the category is kept in the whole. |
| `BackendAppsFacts.TabWithinAllTab` | src/pages/BackendApps.tsx:571 | For every search text, a tab's filtered list is a subsequence of the "All" tab's filtered list. Every app it shows is also shown there. |

## Left out

- The `codeExample` field of each app (filename, language, code text) is not part of this model. It is only displayed and never searched.
- `Lower` models `toLowerCase` on ASCII letters only. JavaScript's full Unicode case mapping is not modelled. Every catalogue string is ASCII; a non-ASCII query is lower-cased here only on its ASCII letters.
- The React rendering of the page is not modelled: the tab bar, cards, search input and `useState` wiring. The "No apps found" notice is covered only by `NoEmptyTabWithoutQuery`.
- The exact contents of each named tab are not listed app by app. They follow from `CategoryApps` (a subsequence holding exactly the named apps) together with `CatalogueNamesDistinct`.
- src/components/MermaidDiagram.tsx is not part of this model. It calls the external `mermaid` library (`initialize`, asynchronous `render`), writes `innerHTML`, and makes render ids with `Math.random`. Its "initialized" flag is per-instance `useState` state (line 13), not a flag shared across the process.
- src/components/CodeBlock.tsx is not part of this model, because it is clipboard I/O with a `setTimeout` reset.
- src/components/Layout.tsx is not part of this model: a string equality for the active link and a boolean menu toggle.
- src/App.tsx, src/components/AppCard.tsx rendering, src/components/EndpointCard.tsx and the other pages are not part of this model. They are route registration and static content rendered as markup.
