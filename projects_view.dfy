/** The projects screen's logic (Amphibia/Views/Projects/ProjectsView.swift): the
    category filter behind `filteredProjects`, the chip strip, and the selection state. */
module ProjectsScreen {
  import opened Wrappers
  import opened Categories
  import opened Projects

  /** `filteredProjects` over a given catalog: with no selection the catalog itself,
      with a selection the entries of that category (`Array.filter`). */
  function Filter(catalog: seq<Project>, selection: Option<ProjectCategory>): (r: seq<Project>)
    ensures selection == None ==> r == catalog
    ensures |r| <= |catalog|
  {
    match selection
    case None => catalog
    case Some(c) =>
      if catalog == [] then []
      else (if catalog[0].category == c then [catalog[0]] else []) + Filter(catalog[1..], selection)
  }

  /** `r` is `s` with some entries dropped and the rest kept in their order. */
  ghost predicate IsSubsequence(r: seq<Project>, s: seq<Project>)
    decreases |s|
  {
    r == [] || (s != [] && ((r[0] == s[0] && IsSubsequence(r[1..], s[1..])) || IsSubsequence(r, s[1..])))
  }

  /** An entry is in the filtered list exactly when it is in the catalog with the selected
      category. */
  lemma {:induction false} FilterMembers(catalog: seq<Project>, c: ProjectCategory, p: Project)
    ensures p in Filter(catalog, Some(c)) <==> p in catalog && p.category == c
  {
    if catalog != [] {
      FilterMembers(catalog[1..], c, p);
      assert catalog == [catalog[0]] + catalog[1..];
    }
  }

  /** Index form of `FilterMembers`: what the filtered list holds is of the selected category,
      and every catalog entry of the selected category is in it. */
  lemma FilterSelection(catalog: seq<Project>, selection: Option<ProjectCategory>)
    ensures selection.Some? ==> forall i :: 0 <= i < |Filter(catalog, selection)| ==>
      Filter(catalog, selection)[i].category == selection.value
    ensures forall i :: 0 <= i < |catalog| && selection == Some(catalog[i].category) ==>
      catalog[i] in Filter(catalog, selection)
  {
    if selection.Some? {
      var r := Filter(catalog, selection);
      forall i | 0 <= i < |r| ensures r[i].category == selection.value {
        FilterMembers(catalog, selection.value, r[i]);
      }
      forall i | 0 <= i < |catalog| && selection == Some(catalog[i].category)
        ensures catalog[i] in r
      {
        FilterMembers(catalog, selection.value, catalog[i]);
      }
    }
  }

  /** The filtered list keeps the catalog's order. */
  lemma {:induction false} FilterIsSubsequence(catalog: seq<Project>, selection: Option<ProjectCategory>)
    ensures IsSubsequence(Filter(catalog, selection), catalog)
  {
    match selection
    case None => SubsequenceOfItself(catalog);
    case Some(c) =>
      if catalog != [] {
        FilterIsSubsequence(catalog[1..], selection);
        var r := Filter(catalog, selection);
        if catalog[0].category == c {
          assert r[0] == catalog[0] && r[1..] == Filter(catalog[1..], selection);
        } else {
          assert r == Filter(catalog[1..], selection);
        }
      }
  }

  /** Every list is a subsequence of itself. */
  lemma {:induction false} SubsequenceOfItself(s: seq<Project>)
    ensures IsSubsequence(s, s)
  {
    if s != [] {
      SubsequenceOfItself(s[1..]);
    }
  }

  /** A subsequence is no longer than what it is drawn from. */
  lemma {:induction false} SubsequenceLength(r: seq<Project>, s: seq<Project>)
    requires IsSubsequence(r, s)
    ensures |r| <= |s|
    decreases |s|
  {
    if r != [] {
      if r[0] == s[0] && IsSubsequence(r[1..], s[1..]) {
        SubsequenceLength(r[1..], s[1..]);
      } else {
        SubsequenceLength(r, s[1..]);
      }
    }
  }

  /** Every entry of a subsequence comes from what it is drawn from. */
  lemma {:induction false} SubsequenceMembers(r: seq<Project>, s: seq<Project>, p: Project)
    requires IsSubsequence(r, s)
    ensures p in r ==> p in s
    decreases |s|
  {
    if r != [] {
      if r[0] == s[0] && IsSubsequence(r[1..], s[1..]) {
        SubsequenceMembers(r[1..], s[1..], p);
        assert r == [r[0]] + r[1..];
      } else {
        SubsequenceMembers(r, s[1..], p);
      }
    }
  }

  /** A subsequence of a list without repeats has no repeats. */
  lemma {:induction false} SubsequenceDistinct(r: seq<Project>, s: seq<Project>)
    requires IsSubsequence(r, s)
    requires Distinct(s)
    ensures Distinct(r)
    decreases |s|
  {
    if r != [] {
      assert Distinct(s[1..]) by {
        forall i, j | 0 <= i < j < |s[1..]| ensures s[1..][i] != s[1..][j] {
          assert s[1..][i] == s[i + 1] && s[1..][j] == s[j + 1];
        }
      }
      if r[0] == s[0] && IsSubsequence(r[1..], s[1..]) {
        SubsequenceDistinct(r[1..], s[1..]);
        assert s[0] !in s[1..] by {
          forall k | 0 <= k < |s[1..]| ensures s[1..][k] != s[0] {
            assert s[1..][k] == s[k + 1];
          }
        }
        SubsequenceMembers(r[1..], s[1..], r[0]);
        forall i, j | 0 <= i < j < |r| ensures r[i] != r[j] {
          if i == 0 {
            assert r[j] == r[1..][j - 1];
          } else {
            assert r[i] == r[1..][i - 1] && r[j] == r[1..][j - 1];
          }
        }
      } else {
        SubsequenceDistinct(r, s[1..]);
      }
    }
  }

  /** Filtering never duplicates an entry of a catalog without repeats. */
  lemma FilterDistinct(catalog: seq<Project>, selection: Option<ProjectCategory>)
    requires Distinct(catalog)
    ensures Distinct(Filter(catalog, selection))
  {
    FilterIsSubsequence(catalog, selection);
    SubsequenceDistinct(Filter(catalog, selection), catalog);
  }

  /** Filtering an already filtered list by the same selection changes nothing. */
  lemma {:induction false} FilterIdempotent(catalog: seq<Project>, selection: Option<ProjectCategory>)
    ensures Filter(Filter(catalog, selection), selection) == Filter(catalog, selection)
  {
    match selection
    case None =>
    case Some(c) =>
      if catalog != [] {
        FilterIdempotent(catalog[1..], selection);
        var rest := Filter(catalog[1..], selection);
        if catalog[0].category == c {
          var r := [catalog[0]] + rest;
          assert r[0] == catalog[0] && r[1..] == rest;
          assert Filter(r, selection) == [catalog[0]] + Filter(rest, selection);
        } else {
          assert Filter(catalog, selection) == [] + rest == rest;
        }
      }
  }

  /** The filtered list is empty exactly when no entry has the selected category. */
  lemma FilterEmpty(catalog: seq<Project>, c: ProjectCategory)
    ensures Filter(catalog, Some(c)) == [] <==> forall p :: p in catalog ==> p.category != c
  {
    forall p | p in catalog && p.category == c ensures p in Filter(catalog, Some(c)) {
      FilterMembers(catalog, c, p);
    }
  }

  /** Filtering distributes over concatenation. */
  lemma {:induction false} FilterAppend(a: seq<Project>, b: seq<Project>, c: ProjectCategory)
    ensures Filter(a + b, Some(c)) == Filter(a, Some(c)) + Filter(b, Some(c))
  {
    if a == [] {
      assert a + b == b;
    } else {
      FilterAppend(a[1..], b, c);
      var head := if a[0].category == c then [a[0]] else [];
      assert (a + b)[0] == a[0] && (a + b)[1..] == a[1..] + b;
      calc {
        Filter(a + b, Some(c));
        head + Filter(a[1..] + b, Some(c));
        head + (Filter(a[1..], Some(c)) + Filter(b, Some(c)));
        (head + Filter(a[1..], Some(c))) + Filter(b, Some(c));
      }
    }
  }

  /** Filtering keeps a list only of the selected category whole. */
  lemma {:induction false} FilterAllMatch(s: seq<Project>, c: ProjectCategory)
    requires forall i :: 0 <= i < |s| ==> s[i].category == c
    ensures Filter(s, Some(c)) == s
  {
    if s != [] {
      FilterAllMatch(s[1..], c);
      assert s == [s[0]] + s[1..];
    }
  }

  /** Sum of the lengths of the filtered lists for each category of `cats`. */
  function TotalFiltered(catalog: seq<Project>, cats: seq<ProjectCategory>): nat
  {
    if cats == [] then 0 else |Filter(catalog, Some(cats[0]))| + TotalFiltered(catalog, cats[1..])
  }

  /** How often `c` occurs in `cats`. */
  function Occurrences(cats: seq<ProjectCategory>, c: ProjectCategory): nat
  {
    if cats == [] then 0 else (if cats[0] == c then 1 else 0) + Occurrences(cats[1..], c)
  }

  /** One more entry adds to the total once per occurrence of its category in `cats`. */
  lemma {:induction false} TotalFilteredCons(p: Project, rest: seq<Project>, cats: seq<ProjectCategory>)
    ensures TotalFiltered([p] + rest, cats) == TotalFiltered(rest, cats) + Occurrences(cats, p.category)
  {
    if cats != [] {
      TotalFilteredCons(p, rest, cats[1..]);
      assert ([p] + rest)[0] == p && ([p] + rest)[1..] == rest;
    }
  }

  /** Every category occurs exactly once in `AllCases`. */
  lemma OccurrencesAllCases(c: ProjectCategory)
    ensures Occurrences(AllCases(), c) == 1
  {
    var a := AllCases();
    assert a[1..] == [Food, Fashion, RealEstate, Logistics, Commercial];
    assert a[2..] == [Fashion, RealEstate, Logistics, Commercial];
    assert a[3..] == [RealEstate, Logistics, Commercial];
    assert a[4..] == [Logistics, Commercial];
    assert a[5..] == [Commercial];
    assert a[6..] == [];
    assert a[1..][1..] == a[2..] && a[2..][1..] == a[3..] && a[3..][1..] == a[4..];
    assert a[4..][1..] == a[5..] && a[5..][1..] == a[6..];
  }

  /** The filtered lists of the six categories together are as long as the catalog. */
  lemma {:induction false} FilterPartitionLengths(catalog: seq<Project>)
    ensures TotalFiltered(catalog, AllCases()) == |catalog|
  {
    if catalog == [] {
      assert TotalFiltered(catalog, AllCases()) == 0 by {
        ZeroTotal(AllCases());
      }
    } else {
      FilterPartitionLengths(catalog[1..]);
      assert catalog == [catalog[0]] + catalog[1..];
      TotalFilteredCons(catalog[0], catalog[1..], AllCases());
      OccurrencesAllCases(catalog[0].category);
    }
  }

  /** An empty catalog filters to nothing under every category. */
  lemma {:induction false} ZeroTotal(cats: seq<ProjectCategory>)
    ensures TotalFiltered([], cats) == 0
  {
    if cats != [] {
      ZeroTotal(cats[1..]);
    }
  }

  /** Each catalog entry is in the filtered list of exactly one chip of `AllCases`:
      the one for its own category. */
  lemma FilterPartitionMembers(catalog: seq<Project>, i: nat, k: nat)
    requires i < |catalog| && k < |AllCases()|
    ensures catalog[i] in Filter(catalog, Some(AllCases()[k])) <==> k == Ordinal(catalog[i].category)
  {
    FilterMembers(catalog, AllCases()[k], catalog[i]);
  }

  /** Filtering a list that holds one category only: all of it or nothing. */
  lemma FilterGroup(g: seq<Project>, d: ProjectCategory, c: ProjectCategory)
    requires forall i :: 0 <= i < |g| ==> g[i].category == d
    ensures Filter(g, Some(c)) == if c == d then g else []
  {
    if c == d {
      FilterAllMatch(g, c);
    } else {
      FilterEmpty(g, c);
    }
  }

  /** Filtering a list made of six single-category blocks, one per case in `AllCases` order,
      yields the block of the selected category. */
  lemma FilterBlocks(g0: seq<Project>, g1: seq<Project>, g2: seq<Project>, g3: seq<Project>,
                     g4: seq<Project>, g5: seq<Project>, c: ProjectCategory)
    requires forall i :: 0 <= i < |g0| ==> g0[i].category == Financial
    requires forall i :: 0 <= i < |g1| ==> g1[i].category == Food
    requires forall i :: 0 <= i < |g2| ==> g2[i].category == Fashion
    requires forall i :: 0 <= i < |g3| ==> g3[i].category == RealEstate
    requires forall i :: 0 <= i < |g4| ==> g4[i].category == Logistics
    requires forall i :: 0 <= i < |g5| ==> g5[i].category == Commercial
    ensures Filter(g0 + g1 + g2 + g3 + g4 + g5, Some(c)) ==
      match c
      case Financial => g0
      case Food => g1
      case Fashion => g2
      case RealEstate => g3
      case Logistics => g4
      case Commercial => g5
  {
    var sel := Some(c);
    assert Filter(g0 + g1 + g2 + g3 + g4 + g5, sel) ==
      Filter(g0, sel) + Filter(g1, sel) + Filter(g2, sel) + Filter(g3, sel) + Filter(g4, sel) + Filter(g5, sel) by {
      FilterAppend(g0 + g1 + g2 + g3 + g4, g5, c);
      FilterAppend(g0 + g1 + g2 + g3, g4, c);
      FilterAppend(g0 + g1 + g2, g3, c);
      FilterAppend(g0 + g1, g2, c);
      FilterAppend(g0, g1, c);
    }
    FilterGroup(g0, Financial, c);
    FilterGroup(g1, Food, c);
    FilterGroup(g2, Fashion, c);
    FilterGroup(g3, RealEstate, c);
    FilterGroup(g4, Logistics, c);
    FilterGroup(g5, Commercial, c);
    var e: seq<Project> := [];
    match c
    case Financial => assert g0 + e + e + e + e + e == g0;
    case Food => assert e + g1 + e + e + e + e == g1;
    case Fashion => assert e + e + g2 + e + e + e == g2;
    case RealEstate => assert e + e + e + g3 + e + e == g3;
    case Logistics => assert e + e + e + e + g4 + e == g4;
    case Commercial => assert e + e + e + e + e + g5 == g5;
  }

  /** Each category's filtered catalog is that category's block of the catalog. */
  lemma FilterCatalog(c: ProjectCategory)
    ensures Filter(AllProjects(), Some(c)) ==
      match c
      case Financial => [HalykBank, Fincraft]
      case Food => [MangaSushi, Malevich]
      case Fashion => [Zardozi, SaksFifthAvenue, Viled]
      case RealEstate => [Bazis, BazisRu, Jazz]
      case Logistics => [Atasu, Kcp]
      case Commercial => [Keruen, SmartFacade, XoSilkRoad]
  {
    var g0, g1, g2 := [HalykBank, Fincraft], [MangaSushi, Malevich], [Zardozi, SaksFifthAvenue, Viled];
    var g3, g4, g5 := [Bazis, BazisRu, Jazz], [Atasu, Kcp], [Keruen, SmartFacade, XoSilkRoad];
    assert AllProjects() == g0 + g1 + g2 + g3 + g4 + g5;
    FilterBlocks(g0, g1, g2, g3, g4, g5, c);
  }

  /** Selecting "financial" shows Halyk Bank, then Fincraft. */
  lemma FilterFinancialScenario()
    ensures var r := Filter(AllProjects(), Some(Financial));
      |r| == 2 && r[0].name == "Halyk Bank" && r[1].name == "Fincraft"
  {
    FilterCatalog(Financial);
    assert Filter(AllProjects(), Some(Financial)) == [HalykBank, Fincraft];
  }

  /** Selecting "commercial" shows Keruen, SmartFacade, then X.O. Silk Road. */
  lemma FilterCommercialScenario()
    ensures var r := Filter(AllProjects(), Some(Commercial));
      |r| == 3 && r[0].name == "Keruen" && r[1].name == "SmartFacade" && r[2].name == "X.O. Silk Road"
  {
    FilterCatalog(Commercial);
    assert Filter(AllProjects(), Some(Commercial)) == [Keruen, SmartFacade, XoSilkRoad];
  }

  /** The number of entries of each category; none is empty. */
  lemma CategoryCount(c: ProjectCategory)
    ensures |Filter(AllProjects(), Some(c))| ==
      match c
      case Financial => 2
      case Food => 2
      case Fashion => 3
      case RealEstate => 3
      case Logistics => 2
      case Commercial => 3
    ensures |Filter(AllProjects(), Some(c))| > 0
  {
    FilterCatalog(c);
  }

  /** A chip of the filter strip: "Все" (all) or one category's chip. */
  datatype Chip = AllChip | CategoryChip(category: ProjectCategory)

  /** The strip: "Все" first, then one chip per case of `AllCases`. */
  function Chips(): (r: seq<Chip>)
    ensures |r| == 1 + |AllCases()| && r[0] == AllChip
    ensures forall k :: 0 <= k < |AllCases()| ==> r[k + 1] == CategoryChip(AllCases()[k])
  {
    [AllChip] + seq(|AllCases()|, k requires 0 <= k < |AllCases()| => CategoryChip(AllCases()[k]))
  }

  /** The chip's title: "Все" for the all-chip, the category's raw value otherwise. */
  function ChipTitle(chip: Chip): (t: string)
    ensures |t| > 0
    ensures chip.CategoryChip? ==> FromLabel(t) == Some(chip.category)
    ensures chip == AllChip <==> FromLabel(t) == None
  {
    match chip
    case AllChip => "Все"
    case CategoryChip(c) => Label(c)
  }

  /** The selection a chip's action writes: nothing for the all-chip, else its category. */
  function Action(chip: Chip): (selection: Option<ProjectCategory>)
    ensures selection == None <==> chip == AllChip
    ensures selection.Some? ==> chip == CategoryChip(selection.value)
  {
    match chip
    case AllChip => None
    case CategoryChip(c) => Some(c)
  }

  /** The chip's `isSelected` expression: a chip is highlighted exactly when the current
      selection is the one its own action writes. */
  function IsSelected(selection: Option<ProjectCategory>, chip: Chip): (b: bool)
    ensures b <==> Action(chip) == selection
  {
    match chip
    case AllChip => selection == None
    case CategoryChip(c) => selection == Some(c)
  }

  /** The position in `Chips` of the chip that a selection highlights. */
  function SelectedChipIndex(selection: Option<ProjectCategory>): (k: nat)
    ensures k < |Chips()| && IsSelected(selection, Chips()[k])
  {
    match selection
    case None => 0
    case Some(c) => 1 + Ordinal(c)
  }

  /** Whatever the selection, exactly one chip of the strip is highlighted. */
  lemma ExactlyOneChipSelected(selection: Option<ProjectCategory>)
    ensures forall j :: 0 <= j < |Chips()| ==>
      (IsSelected(selection, Chips()[j]) <==> j == SelectedChipIndex(selection))
  {
    var chips := Chips();
    forall j | 0 <= j < |chips|
      ensures IsSelected(selection, chips[j]) <==> j == SelectedChipIndex(selection)
    {
      if j > 0 && IsSelected(selection, chips[j]) {
        var k := SelectedChipIndex(selection);
        assert chips[j] == CategoryChip(AllCases()[j - 1]);
        assert k > 0 && chips[k] == CategoryChip(AllCases()[k - 1]);
      }
    }
  }

  /** After a chip's action, that chip and no other is highlighted. */
  lemma ActionHighlightsOnlyItsChip(chip: Chip, other: Chip)
    ensures IsSelected(Action(chip), other) <==> other == chip
  {
  }

  /** The state of one projects screen: the chosen category, initially none. */
  class ProjectsView {
    var selectedCategory: Option<ProjectCategory>

    constructor ()
      ensures selectedCategory == None
    {
      selectedCategory := None;
    }

    /** Whether a chip is drawn highlighted: its action would write the current selection. */
    function IsChipSelected(chip: Chip): (b: bool)
      reads this
      ensures b <==> Action(chip) == selectedCategory
    {
      IsSelected(selectedCategory, chip)
    }

    /** The entries the grid shows: the whole catalog while "Все" is highlighted, and
        otherwise exactly the catalog's entries of the highlighted category, in catalog order. */
    function FilteredProjects(): (r: seq<Project>)
      reads this
      ensures selectedCategory == None ==> r == AllProjects()
      ensures selectedCategory.Some? ==> forall i :: 0 <= i < |r| ==> r[i].category == selectedCategory.value
      ensures forall i :: 0 <= i < |AllProjects()| && IsChipSelected(CategoryChip(AllProjects()[i].category)) ==>
        AllProjects()[i] in r
      ensures IsSubsequence(r, AllProjects())
    {
      FilterIsSubsequence(AllProjects(), selectedCategory);
      FilterSelection(AllProjects(), selectedCategory);
      Filter(AllProjects(), selectedCategory)
    }

    /** The "Все" chip's action: clear the selection. */
    method SelectAll()
      modifies this
      ensures selectedCategory == Action(AllChip)
      ensures IsChipSelected(AllChip) && forall chip :: IsChipSelected(chip) ==> chip == AllChip
    {
      selectedCategory := None;
    }

    /** A category chip's action: select that category. */
    method Select(c: ProjectCategory)
      modifies this
      ensures selectedCategory == Action(CategoryChip(c))
      ensures forall chip :: IsChipSelected(chip) <==> chip == CategoryChip(c)
    {
      selectedCategory := Some(c);
    }
  }

  /** A use of the screen state: taps select what they name, tapping twice is tapping once,
      and the grid follows the selection. */
  method TapScenario(c: ProjectCategory)
  {
    var view := new ProjectsView();
    assert view.FilteredProjects() == AllProjects();
    view.Select(c);
    view.Select(c);
    assert view.selectedCategory == Some(c) && view.IsChipSelected(CategoryChip(c));
    CategoryCount(c);
    assert |view.FilteredProjects()| > 0;
    view.SelectAll();
    view.SelectAll();
    assert view.IsChipSelected(AllChip) && !view.IsChipSelected(CategoryChip(c));
    assert view.FilteredProjects() == AllProjects();
  }
}
