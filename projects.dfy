/** The portfolio record and the fixed catalog (Amphibia/Models/Project.swift). */
module Projects {
  import opened Categories

  /** A portfolio entry. The source gives every record a fresh `UUID()`; here the
      identity is an abstract natural number, and the catalog uses the entry's position. */
  datatype Project = Project(
    id: nat,
    name: string,
    description: string,
    category: ProjectCategory,
    imageName: string)

  // The entries of `Project.allProjects`, one constant per record literal.

  // Financial
  const HalykBank := Project(0, "Halyk Bank", "Веб-платформа для крупнейшего банка страны", Financial, "halyk-bank")
  const Fincraft := Project(1, "Fincraft", "Корпоративный сайт для инвестиционной компании из топ-3", Financial, "fincraft")
  // Food & Beverage
  const MangaSushi := Project(2, "Manga Sushi", "Сайт доставки и мобильное приложение для сети ресторанов", Food, "manga-sushi")
  const Malevich := Project(3, "Малевич", "Минималистичный сайт доставки для кондитерской", Food, "malevich")
  // Fashion & Retail
  const Zardozi := Project(4, "Zardozi", "E-commerce платформа для казахстанского бренда", Fashion, "zardozi")
  const SaksFifthAvenue := Project(5, "Saks Fifth Avenue", "Легендарная американская сеть", Fashion, "saks")
  const Viled := Project(6, "VILED", "Корпоративный сайт для ювелирной сети", Fashion, "viled")
  // Real Estate
  const Bazis := Project(7, "Bazis", "Корпоративный сайт девелопера", RealEstate, "bazis")
  const BazisRu := Project(8, "Bazis ru", "Сайт российского подразделения", RealEstate, "bazis-ru")
  const Jazz := Project(9, "Jazz", "Презентационный сайт жилого комплекса", RealEstate, "jazz")
  // Logistics
  const Atasu := Project(10, "Atasu", "Корпоративный сайт логистической группы", Logistics, "atasu")
  const Kcp := Project(11, "KCP", "Корпоративный сайт для оператора нефтепровода", Logistics, "kcp")
  // Commercial
  const Keruen := Project(12, "Keruen", "Сайт торгового центра", Commercial, "keruen")
  const SmartFacade := Project(13, "SmartFacade", "Презентационный сайт фасадной компании", Commercial, "smartfacade")
  const XoSilkRoad := Project(14, "X.O. Silk Road", "Международная арт-кампания Hennessy", Commercial, "xo-silk-road")

  /** `Project.allProjects`: the fifteen entries in display order. */
  function AllProjects(): (r: seq<Project>)
    ensures |r| == 15
  {
    [HalykBank, Fincraft, MangaSushi, Malevich, Zardozi, SaksFifthAvenue, Viled,
     Bazis, BazisRu, Jazz, Atasu, Kcp, Keruen, SmartFacade, XoSilkRoad]
  }

  /** The required text fields of an entry are filled in. */
  predicate FieldsNonEmpty(p: Project)
  {
    |p.name| > 0 && |p.description| > 0 && |p.imageName| > 0
  }

  /** No two entries share an identity. */
  predicate DistinctIds(s: seq<Project>)
  {
    forall i, j :: 0 <= i < j < |s| ==> s[i].id != s[j].id
  }

  /** No two entries share a name. */
  predicate DistinctNames(s: seq<Project>)
  {
    forall i, j :: 0 <= i < j < |s| ==> s[i].name != s[j].name
  }

  /** No two entries share an image key. */
  predicate DistinctImageNames(s: seq<Project>)
  {
    forall i, j :: 0 <= i < j < |s| ==> s[i].imageName != s[j].imageName
  }

  /** No entry occurs twice. */
  predicate Distinct(s: seq<Project>)
  {
    forall i, j :: 0 <= i < j < |s| ==> s[i] != s[j]
  }

  /** Entries of one category are contiguous, and the groups follow `AllCases` order. */
  predicate GroupedByCategory(s: seq<Project>)
  {
    forall i, j :: 0 <= i < j < |s| ==> Ordinal(s[i].category) <= Ordinal(s[j].category)
  }

  /** Neighbouring entries are in `AllCases` order. */
  predicate AdjacentInCategoryOrder(s: seq<Project>)
  {
    forall i :: 0 <= i < |s| - 1 ==> Ordinal(s[i].category) <= Ordinal(s[i + 1].category)
  }

  /** A catalog satisfying the record invariants: filled-in fields and unique identities. */
  predicate ValidCatalog(s: seq<Project>)
  {
    (forall i :: 0 <= i < |s| ==> FieldsNonEmpty(s[i])) && DistinctIds(s)
  }

  /** The catalog has fifteen entries. */
  lemma CatalogLength()
    ensures |AllProjects()| == 15
  {
  }

  /** Each entry's identity is its position in the catalog. */
  lemma CatalogIds()
    ensures forall i :: 0 <= i < |AllProjects()| ==> AllProjects()[i].id == i
  {
    var s := AllProjects();
    forall i | 0 <= i < |s| ensures s[i].id == i {
      assert i in {0, 1, 2, 3, 4, 5, 6, 7, 8, 9, 10, 11, 12, 13, 14};
    }
  }

  /** Every entry has a name, a description and an image key, and identities are unique. */
  lemma CatalogValid()
    ensures ValidCatalog(AllProjects())
    ensures Distinct(AllProjects())
  {
    CatalogIds();
  }

  /** Names and image keys are unique across the catalog. */
  lemma CatalogDistinctNames()
    ensures DistinctNames(AllProjects())
    ensures DistinctImageNames(AllProjects())
  {
    var s := AllProjects();
    forall i, j | 0 <= i < j < |s|
      ensures s[i].name != s[j].name && s[i].imageName != s[j].imageName
    {
      assert i in {0, 1, 2, 3, 4, 5, 6, 7, 8, 9, 10, 11, 12, 13};
      assert j in {1, 2, 3, 4, 5, 6, 7, 8, 9, 10, 11, 12, 13, 14};
    }
  }

  /** The first entry, which the detail screen's preview shows, is "Halyk Bank". */
  lemma CatalogHead()
    ensures |AllProjects()| > 0 && AllProjects()[0] == HalykBank && AllProjects()[0].name == "Halyk Bank"
  {
  }

  /** Order between neighbours extends to order between any two entries. */
  lemma {:induction false} AdjacentOrderIsGrouping(s: seq<Project>)
    requires AdjacentInCategoryOrder(s)
    ensures GroupedByCategory(s)
  {
    if |s| > 1 {
      AdjacentOrderIsGrouping(s[1..]);
      forall j | 0 < j < |s|
        ensures Ordinal(s[0].category) <= Ordinal(s[j].category)
      {
        assert Ordinal(s[0].category) <= Ordinal(s[1].category);
        if j > 1 {
          assert s[1] == s[1..][0] && s[j] == s[1..][j - 1];
        }
      }
      forall i, j | 0 <= i < j < |s|
        ensures Ordinal(s[i].category) <= Ordinal(s[j].category)
      {
        if i > 0 {
          assert s[i] == s[1..][i - 1] && s[j] == s[1..][j - 1];
        }
      }
    }
  }

  /** The catalog lists its categories group by group, in `AllCases` order. */
  lemma CatalogGrouped()
    ensures GroupedByCategory(AllProjects())
  {
    var s := AllProjects();
    forall i | 0 <= i < |s| - 1
      ensures Ordinal(s[i].category) <= Ordinal(s[i + 1].category)
    {
      assert i in {0, 1, 2, 3, 4, 5, 6, 7, 8, 9, 10, 11, 12, 13};
    }
    AdjacentOrderIsGrouping(s);
  }
}
