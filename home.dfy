/** The one piece of logic on the home screen (Amphibia/Views/Home/HomeView.swift):
    the featured strip shows the head of the catalog. */
module HomeScreen {
  import opened Projects

  /** Swift's `prefix(n)`: the first `n` elements, or all of them when there are fewer. */
  function Prefix<T>(s: seq<T>, n: nat): (r: seq<T>)
    ensures |r| == if |s| < n then |s| else n
    ensures r == s[..|r|]
  {
    if |s| <= n then s else s[..n]
  }

  /** `Project.allProjects.prefix(4)`. */
  function FeaturedProjects(): (r: seq<Project>)
    ensures |r| == 4 && r == AllProjects()[..4]
  {
    Prefix(AllProjects(), 4)
  }

  /** The featured strip is the first four catalog entries, in catalog order. */
  lemma FeaturedAreFirstFour()
    ensures FeaturedProjects() == AllProjects()[..4]
    ensures FeaturedProjects() == [HalykBank, Fincraft, MangaSushi, Malevich]
  {
    CatalogLength();
  }
}
