# Amphibia portfolio catalog — a Dafny model

Amphibia is a small iOS presentation app for a digital agency. Its only logic is the
portfolio: a closed enumeration of six project categories, a fixed catalog of fifteen
portfolio entries, and the projects screen's category filter with its one-field selection
state (a strip of chips: "Все" (all) followed by one chip per category). This project
models that core and proves what the code promises about it:

- `categories.dfy` (module `Categories`): `ProjectCategory` with its raw-value labels,
  `id`, `icon`, `allCases` order and the failable `init(rawValue:)`.
- `projects.dfy` (module `Projects`): the `Project` record and `Project.allProjects`,
  one named constant per record literal, with the catalog's invariants.
- `projects_view.dfy` (module `ProjectsScreen`): `filteredProjects` as the pure function
  `Filter(catalog, selection)`, the chip strip and its `isSelected` expressions, and the
  class `ProjectsView` whose field `selectedCategory` the chip actions overwrite.
  `IsChipSelected` is that class's highlighting predicate. The client method `TapScenario`
  exercises the class's contracts: a new screen shows the whole catalog, repeated taps on a
  chip leave the same state, and only the tapped chip is highlighted.
- `home.dfy` (module `HomeScreen`): the home screen's featured strip, `prefix(4)` of the catalog.
- `wrappers.dfy` (module `Wrappers`): `Option`, for Swift's optionals.

Each record's identity (`let id = UUID()`) is an abstract natural number. Every record gets a
fresh value, and the catalog uses the record's position. The source does not validate the
catalog when the app starts. Instead, `ValidCatalog` states what a valid catalog is (filled-in
fields, unique identities), and `CatalogValid` proves the literal satisfies it.

## Model

| member | source | states |
|---|---|---|
| `Categories.AllCases` | Amphibia/Models/ProjectCategory.swift:3-9 | `allCases` has six pairwise distinct cases and lists every case |
| `Categories.CaseListed` | Amphibia/Models/ProjectCategory.swift:4-9 | each of the six declared cases is in the declaration-order list |
| `Categories.Ordinal` | Amphibia/Models/ProjectCategory.swift:3-9 | every case occurs in `allCases`, at its declaration index (below 6) |
| `Categories.AllCasesOrder` | Amphibia/Models/ProjectCategory.swift:4-9 | `allCases` follows the declaration order: financial, food, fashion, realEstate, logistics, commercial |
| `Categories.Label` | Amphibia/Models/ProjectCategory.swift:4-9 | every raw value is a non-empty string |
| `Categories.FromLabel` | Amphibia/Models/ProjectCategory.swift:3-9 | the raw-value initialiser yields case `c` exactly when `s` equals `c`'s label code point for code point, and nothing for any other string |
| `Categories.FromLabelOfLabel` | Amphibia/Models/ProjectCategory.swift:3-9 | looking up a case's own label gives back that case |
| `Categories.Id` | Amphibia/Models/ProjectCategory.swift:11 | the id (the raw value) identifies its case: looking it up gives back the case |
| `Categories.LabelInjective` | Amphibia/Models/ProjectCategory.swift:4-11 | distinct cases have distinct labels and distinct ids |
| `Categories.Icon` | Amphibia/Models/ProjectCategory.swift:13-22 | the `icon` switch is total and yields a non-empty name for every case |
| `Categories.IconInjective` | Amphibia/Models/ProjectCategory.swift:15-20 | distinct cases have distinct icon names |
| `Projects.AllProjects` | Amphibia/Models/Project.swift:10-112 | `allProjects` is the fifteen record literals, in display order |
| `Projects.CatalogLength` | Amphibia/Models/Project.swift:10-112 | the catalog has exactly 15 entries |
| `Projects.CatalogIds` | Amphibia/Models/Project.swift:4 | each entry's identity is its position, so no two entries share one |
| `Projects.CatalogValid` | Amphibia/Models/Project.swift:3-8 | every entry has a non-empty name, description and image name; identities are unique; no entry occurs twice |
| `Projects.CatalogDistinctNames` | Amphibia/Models/Project.swift:12-111 | names are pairwise distinct, and so are image names |
| `Projects.CatalogHead` | Amphibia/Models/Project.swift:12-17 | the catalog is non-empty and entry 0 is "Halyk Bank" (which the detail preview shows) |
| `Projects.AdjacentOrderIsGrouping` | Amphibia/Models/Project.swift:11-111 | if each entry's category is at or before its successor's in `allCases` order, then so is every earlier entry's category relative to every later one |
| `Projects.CatalogGrouped` | Amphibia/Models/Project.swift:11-111 | along the catalog the categories never go back in `allCases` order: entries are grouped by category |
| `ProjectsScreen.Filter` | Amphibia/Views/Projects/ProjectsView.swift:6-11 | with no selection the result is the catalog itself; the result is never longer than the catalog |
| `ProjectsScreen.FilterMembers` | Amphibia/Views/Projects/ProjectsView.swift:8 | an entry is in the filtered list iff it is in the catalog and has the selected category (soundness and completeness) |
| `ProjectsScreen.FilterSelection` | Amphibia/Views/Projects/ProjectsView.swift:8 | by position: every element of the result has the selected category, and every catalog entry of that category is in the result |
| `ProjectsScreen.FilterIsSubsequence` | Amphibia/Views/Projects/ProjectsView.swift:6-11 | the result is an order-preserving subsequence of the catalog, for either kind of selection |
| `ProjectsScreen.SubsequenceOfItself` | Amphibia/Views/Projects/ProjectsView.swift:10 | a list is a subsequence of itself (the no-selection case) |
| `ProjectsScreen.SubsequenceLength` | Amphibia/Views/Projects/ProjectsView.swift:8 | a subsequence is no longer than its source |
| `ProjectsScreen.SubsequenceMembers` | Amphibia/Views/Projects/ProjectsView.swift:8 | everything in a subsequence is in its source |
| `ProjectsScreen.SubsequenceDistinct` | Amphibia/Views/Projects/ProjectsView.swift:8 | a subsequence of a list without repeats has no repeats |
| `ProjectsScreen.FilterDistinct` | Amphibia/Views/Projects/ProjectsView.swift:8 | filtering a catalog without repeats introduces none |
| `ProjectsScreen.FilterIdempotent` | Amphibia/Views/Projects/ProjectsView.swift:8 | filtering the filtered list by the same selection returns it unchanged |
| `ProjectsScreen.FilterEmpty` | Amphibia/Views/Projects/ProjectsView.swift:8 | the result is empty iff no catalog entry has the selected category (the no-match case returns `[]`) |
| `ProjectsScreen.FilterAppend` | Amphibia/Views/Projects/ProjectsView.swift:8 | filtering a concatenation is concatenating the filtered parts |
| `ProjectsScreen.FilterAllMatch` | Amphibia/Views/Projects/ProjectsView.swift:8 | a list of only the selected category passes the filter whole |
| `ProjectsScreen.FilterGroup` | Amphibia/Views/Projects/ProjectsView.swift:8 | a single-category list filters to itself or to nothing |
| `ProjectsScreen.FilterBlocks` | Amphibia/Views/Projects/ProjectsView.swift:8 | a list of six single-category blocks in `allCases` order filters to the selected category's block |
| `ProjectsScreen.TotalFilteredCons` | Amphibia/Views/Projects/ProjectsView.swift:8 | adding one entry to a catalog adds, to each chip's filtered list, one entry for each time the entry's category is among the chips |
| `ProjectsScreen.OccurrencesAllCases` | Amphibia/Views/Projects/ProjectsView.swift:27 | every category is in the chip strip's `allCases` exactly once |
| `ProjectsScreen.ZeroTotal` | Amphibia/Views/Projects/ProjectsView.swift:8 | an empty catalog filters to nothing under every chip |
| `ProjectsScreen.FilterPartitionLengths` | Amphibia/Views/Projects/ProjectsView.swift:8 | for any catalog, the lengths of the six category filters sum to the catalog's length |
| `ProjectsScreen.FilterPartitionMembers` | Amphibia/Views/Projects/ProjectsView.swift:27 | each catalog entry is in the filtered list of exactly one category in `allCases`: its own |
| `ProjectsScreen.FilterCatalog` | Amphibia/Views/Projects/ProjectsView.swift:8 | for each category, the filtered catalog is exactly that category's entries, in catalog order |
| `ProjectsScreen.FilterFinancialScenario` | Amphibia/Views/Projects/ProjectsView.swift:8 | selecting financial shows exactly Halyk Bank, then Fincraft |
| `ProjectsScreen.FilterCommercialScenario` | Amphibia/Views/Projects/ProjectsView.swift:8 | selecting commercial shows exactly Keruen, SmartFacade, then X.O. Silk Road |
| `ProjectsScreen.CategoryCount` | Amphibia/Models/Project.swift:11-111 | per-category counts are 2, 2, 3, 3, 2, 3, so no category's filter is empty |
| `ProjectsScreen.Chips` | Amphibia/Views/Projects/ProjectsView.swift:20-34 | the strip is "Все" followed by one chip per case, in `allCases` order |
| `ProjectsScreen.ChipTitle` | Amphibia/Views/Projects/ProjectsView.swift:21-29 | every chip has a non-empty title; a category chip's title is its raw value, which looks up to that category; the all-chip's title "Все" is no category's label |
| `ProjectsScreen.Action` | Amphibia/Views/Projects/ProjectsView.swift:24-32 | the all-chip's action (and only it) clears the selection; any other chip's action selects that chip's category |
| `ProjectsScreen.IsSelected` | Amphibia/Views/Projects/ProjectsView.swift:22-30 | a chip is highlighted exactly when the selection is the one its own action writes |
| `ProjectsScreen.SelectedChipIndex` | Amphibia/Views/Projects/ProjectsView.swift:22-30 | every selection highlights the chip at this position of the strip |
| `ProjectsScreen.ExactlyOneChipSelected` | Amphibia/Views/Projects/ProjectsView.swift:22-30 | for every selection exactly one chip is highlighted: "Все" iff nothing is selected, a category chip iff its category is selected |
| `ProjectsScreen.ActionHighlightsOnlyItsChip` | Amphibia/Views/Projects/ProjectsView.swift:20-34 | after any chip's action, that chip and no other is highlighted |
| `ProjectsScreen.ProjectsView.constructor` | Amphibia/Views/Projects/ProjectsView.swift:4 | a new screen starts with no selection |
| `ProjectsScreen.ProjectsView.IsChipSelected` | Amphibia/Views/Projects/ProjectsView.swift:22-30 | a chip is highlighted exactly when the screen's current selection is the one its action writes |
| `ProjectsScreen.ProjectsView.FilteredProjects` | Amphibia/Views/Projects/ProjectsView.swift:6-11 | the grid shows the whole catalog while nothing is selected; otherwise only entries of the selected category, all of them, in catalog order |
| `ProjectsScreen.ProjectsView.SelectAll` | Amphibia/Views/Projects/ProjectsView.swift:24 | the "Все" action clears the selection, leaving only "Все" highlighted; the new state does not depend on the old, so the action is idempotent |
| `ProjectsScreen.ProjectsView.Select` | Amphibia/Views/Projects/ProjectsView.swift:32 | a category chip's action selects that category, leaving only its chip highlighted; idempotent likewise |
| `HomeScreen.Prefix` | Amphibia/Views/Home/HomeView.swift:31 | `prefix(n)` has min(n, count) elements and is the head of the list |
| `HomeScreen.FeaturedProjects` | Amphibia/Views/Home/HomeView.swift:31 | the featured strip has four entries, the catalog's first four |
| `HomeScreen.FeaturedAreFirstFour` | Amphibia/Views/Home/HomeView.swift:31 | the featured strip is the first four entries: Halyk Bank, Fincraft, Manga Sushi, Малевич |

## Left out

- SwiftUI layout and styling (navigation, scroll views, grids, fonts, capsules, the bodies of `CategoryChip`, `ProjectCard` and `FeaturedProjectCard`). These are presentation only.
- Image loading (`Image(project.imageName)`): the image name is an opaque key. Whether the asset exists is not modelled.
- Opening the e-mail URL from the home screen (`UIApplication.shared.open`): a platform side effect.
- `CompanyInfo` (static strings and floating-point map coordinates), the tab container, the contacts stub, the project detail screen and the rest of the home screen: these hold no logic.
- Real UUID generation: identities are abstract naturals (the entry's position), not random 128-bit values.
- SwiftUI's re-rendering when `@State` changes: the model gives the state and the derived list, not the view update.
- Categories.FromLabel: strings are compared code point for code point. Swift's `String ==` uses Unicode canonical equivalence, so a canonically equivalent spelling of a label (for instance a decomposed й in "Мода и ритейл") yields that case in Swift but nothing in the model. Dafny strings carry no normalisation. No caller in the app uses the initialiser.
- Label text: the Cyrillic labels are kept literally. No proof depends on their content beyond their being distinct and non-empty.
