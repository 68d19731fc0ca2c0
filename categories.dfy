/** The closed enumeration of portfolio categories
    (Amphibia/Models/ProjectCategory.swift). */
module Categories {
  import opened Wrappers

  /** The six cases, in declaration order. */
  datatype ProjectCategory = Financial | Food | Fashion | RealEstate | Logistics | Commercial

  /** `ProjectCategory.allCases`: every case exactly once, in declaration order. */
  function AllCases(): (r: seq<ProjectCategory>)
    ensures |r| == 6
    ensures forall c :: c in r
    ensures forall i, j :: 0 <= i < j < |r| ==> r[i] != r[j]
  {
    var r := [Financial, Food, Fashion, RealEstate, Logistics, Commercial];
    assert forall c :: c in r by {
      forall c | true ensures c in r {
        CaseListed(c, r);
      }
    }
    r
  }

  /** Each case is an element of the declaration-order list. */
  lemma CaseListed(c: ProjectCategory, r: seq<ProjectCategory>)
    requires r == [Financial, Food, Fashion, RealEstate, Logistics, Commercial]
    ensures c in r
  {
    match c
    case Financial => assert r[0] == c;
    case Food => assert r[1] == c;
    case Fashion => assert r[2] == c;
    case RealEstate => assert r[3] == c;
    case Logistics => assert r[4] == c;
    case Commercial => assert r[5] == c;
  }

  /** The position of a case in `AllCases`, i.e. its declaration index. */
  function Ordinal(c: ProjectCategory): (k: nat)
    ensures k < |AllCases()| && AllCases()[k] == c
  {
    match c
    case Financial => 0
    case Food => 1
    case Fashion => 2
    case RealEstate => 3
    case Logistics => 4
    case Commercial => 5
  }

  /** The raw value of a case: its display label. */
  function Label(c: ProjectCategory): (r: string)
    ensures |r| > 0
  {
    match c
    case Financial => "Финансы"
    case Food => "Еда и напитки"
    case Fashion => "Мода и ритейл"
    case RealEstate => "Недвижимость"
    case Logistics => "Логистика"
    case Commercial => "Коммерция"
  }

  /** The failable raw-value initialiser `ProjectCategory(rawValue:)`: it yields the case
      whose label is `s`, and nothing when no label is `s`. Strings are compared code point
      for code point. */
  function FromLabel(s: string): (r: Option<ProjectCategory>)
    ensures forall c :: r == Some(c) <==> Label(c) == s
  {
    if s == Label(Financial) then Some(Financial)
    else if s == Label(Food) then Some(Food)
    else if s == Label(Fashion) then Some(Fashion)
    else if s == Label(RealEstate) then Some(RealEstate)
    else if s == Label(Logistics) then Some(Logistics)
    else if s == Label(Commercial) then Some(Commercial)
    else None
  }

  /** The `Identifiable` id: the raw value, which identifies the case. */
  function Id(c: ProjectCategory): (r: string)
    ensures FromLabel(r) == Some(c)
  {
    Label(c)
  }

  /** The SF Symbols name shown on the category's chip. */
  function Icon(c: ProjectCategory): (r: string)
    ensures |r| > 0
  {
    match c
    case Financial => "banknote"
    case Food => "fork.knife"
    case Fashion => "bag"
    case RealEstate => "building.2"
    case Logistics => "shippingbox"
    case Commercial => "storefront"
  }

  /** `allCases` lists the cases in the order the enum declares them. */
  lemma AllCasesOrder()
    ensures AllCases() == [Financial, Food, Fashion, RealEstate, Logistics, Commercial]
  {
  }

  /** Distinct cases have distinct labels, and so distinct ids. */
  lemma LabelInjective(c: ProjectCategory, d: ProjectCategory)
    ensures Label(c) == Label(d) ==> c == d
    ensures Id(c) == Id(d) ==> c == d
  {
    assert FromLabel(Label(c)) == Some(c);
    assert FromLabel(Label(d)) == Some(d);
  }

  /** Distinct cases have distinct icons. */
  lemma IconInjective(c: ProjectCategory, d: ProjectCategory)
    ensures Icon(c) == Icon(d) ==> c == d
  {
  }

  /** Looking a label up gives back its case. */
  lemma FromLabelOfLabel(c: ProjectCategory)
    ensures FromLabel(Label(c)) == Some(c)
  {
  }
}
