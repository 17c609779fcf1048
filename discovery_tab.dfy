/**
 * The inventory tab: the category list, the filtered view of the compounds and the
 * header figures. The three filter settings are the tab's only state, and everything it
 * shows is computed from them and the compounds it is given.
 */
module DiscoveryTab {
  import opened Catalog
  import opened JsBuiltins

  /** The tab's state: `searchTerm`, `selectedCategory` and `showDiscoveredOnly`. */
  datatype Filters = Filters(searchTerm: string, selectedCategory: string, showDiscoveredOnly: bool)

  /** The settings a freshly opened tab starts with. */
  function InitialFilters(): Filters
  {
    Filters("", "All", false)
  }

  /** `a` is `b` with some elements left out and the rest kept in order. */
  predicate IsSubsequence<T(==)>(a: seq<T>, b: seq<T>)
    decreases |b|
  {
    if a == [] then true
    else if b == [] then false
    else (a[0] == b[0] && IsSubsequence(a[1..], b[1..])) || IsSubsequence(a, b[1..])
  }

  // ---------------------------------------------------------------------------
  // categories
  // ---------------------------------------------------------------------------

  /** `compounds.map(c => c.category)` */
  function CategoryList(cs: seq<Compound>): (r: seq<string>)
    ensures |r| == |cs| && forall i :: 0 <= i < |cs| ==> r[i] == cs[i].category
  {
    if cs == [] then [] else [cs[0].category] + CategoryList(cs[1..])
  }

  /** `['All', ...new Set(compounds.map(c => c.category))]` */
  function Categories(cs: seq<Compound>): seq<string>
  {
    ["All"] + Dedup(CategoryList(cs))
  }

  /**
   * The list starts with `All`, then names each category of the compounds exactly once,
   * in the order the categories first appear.
   */
  lemma CategoriesShape(cs: seq<Compound>)
    ensures |Categories(cs)| >= 1 && Categories(cs)[0] == "All"
    ensures forall x :: x in Categories(cs)[1..] <==> exists i :: 0 <= i < |cs| && cs[i].category == x
    ensures forall i, j :: 1 <= i < j < |Categories(cs)| ==> Categories(cs)[i] != Categories(cs)[j]
    ensures forall i, j :: 1 <= i < j < |Categories(cs)| ==>
      Categories(cs)[i] in CategoryList(cs) && Categories(cs)[j] in CategoryList(cs) &&
      FirstIndex(CategoryList(cs), Categories(cs)[i]) < FirstIndex(CategoryList(cs), Categories(cs)[j])
  {
    var names := CategoryList(cs);
    var d := Dedup(names);
    DedupMembers(names);
    DedupDistinct(names);
    DedupFirstAppearanceOrder(names);
    assert Categories(cs)[1..] == d;
    forall x
      ensures x in d <==> exists i :: 0 <= i < |cs| && cs[i].category == x
    {
      if x in names {
        var i :| 0 <= i < |names| && names[i] == x;
        assert cs[i].category == x;
      }
    }
    forall i, j | 1 <= i < j < |Categories(cs)|
      ensures Categories(cs)[i] != Categories(cs)[j]
    {
      assert Categories(cs)[i] == d[i - 1] && Categories(cs)[j] == d[j - 1];
    }
    forall i, j | 1 <= i < j < |Categories(cs)|
      ensures Categories(cs)[i] in names && Categories(cs)[j] in names &&
        FirstIndex(names, Categories(cs)[i]) < FirstIndex(names, Categories(cs)[j])
    {
      assert Categories(cs)[i] == d[i - 1] && Categories(cs)[j] == d[j - 1];
    }
  }

  // ---------------------------------------------------------------------------
  // filteredCompounds
  // ---------------------------------------------------------------------------

  /** `matchesSearch`: the lower-cased name or symbol contains the lower-cased term. */
  predicate MatchesSearch(c: Compound, searchTerm: string)
  {
    Includes(Lower(c.name), Lower(searchTerm)) || Includes(Lower(c.symbol), Lower(searchTerm))
  }

  /** `matchesCategory` */
  predicate MatchesCategory(c: Compound, selectedCategory: string)
  {
    selectedCategory == "All" || c.category == selectedCategory
  }

  /** `matchesDiscovered` */
  predicate MatchesDiscovered(c: Compound, showDiscoveredOnly: bool)
  {
    !showDiscoveredOnly || c.discovered
  }

  /** The filter's callback: all three conditions. */
  predicate Keep(c: Compound, f: Filters)
  {
    MatchesSearch(c, f.searchTerm) && MatchesCategory(c, f.selectedCategory) &&
    MatchesDiscovered(c, f.showDiscoveredOnly)
  }

  /** `filteredCompounds` */
  function Filtered(cs: seq<Compound>, f: Filters): (r: seq<Compound>)
    ensures |r| <= |cs|
    ensures forall c :: c in r <==> c in cs && Keep(c, f)
  {
    if cs == [] then []
    else
      var rest := Filtered(cs[1..], f);
      assert forall c :: c in cs <==> c == cs[0] || c in cs[1..];
      if Keep(cs[0], f) then [cs[0]] + rest else rest
  }

  /** The view keeps the compounds it shows in their original order. */
  lemma {:induction false} FilteredIsSubsequence(cs: seq<Compound>, f: Filters)
    ensures IsSubsequence(Filtered(cs, f), cs)
  {
    if cs != [] {
      FilteredIsSubsequence(cs[1..], f);
      var r := Filtered(cs, f);
      if Keep(cs[0], f) {
        assert r[0] == cs[0] && r[1..] == Filtered(cs[1..], f);
      } else if r != [] {
        assert r == Filtered(cs[1..], f);
      }
    }
  }

  /** The initial settings show every compound. */
  lemma {:induction false} InitialFiltersShowAll(cs: seq<Compound>)
    ensures Filtered(cs, InitialFilters()) == cs
  {
    if cs != [] {
      assert Lower("") == "";
      IncludesEmpty(Lower(cs[0].name));
      InitialFiltersShowAll(cs[1..]);
      assert cs == [cs[0]] + cs[1..];
    }
  }

  /** Searching for a term or for its lower-cased form shows the same compounds. */
  lemma {:induction false} SearchIgnoresCase(cs: seq<Compound>, f: Filters)
    ensures Filtered(cs, f.(searchTerm := Lower(f.searchTerm))) == Filtered(cs, f)
  {
    LowerIdempotent(f.searchTerm);
    if cs != [] {
      SearchIgnoresCase(cs[1..], f);
    }
  }

  /** Turning "discovered only" on shows a subsequence of what it shows off. */
  lemma {:induction false} DiscoveredOnlyNarrows(cs: seq<Compound>, f: Filters)
    ensures IsSubsequence(Filtered(cs, f.(showDiscoveredOnly := true)),
                          Filtered(cs, f.(showDiscoveredOnly := false)))
  {
    var on, off := f.(showDiscoveredOnly := true), f.(showDiscoveredOnly := false);
    if cs != [] {
      DiscoveredOnlyNarrows(cs[1..], f);
      var a, b := Filtered(cs, on), Filtered(cs, off);
      if Keep(cs[0], on) {
        assert Keep(cs[0], off);
        assert a[0] == b[0] && a[1..] == Filtered(cs[1..], on) && b[1..] == Filtered(cs[1..], off);
      } else if Keep(cs[0], off) {
        assert a == Filtered(cs[1..], on) && b[1..] == Filtered(cs[1..], off);
        if a != [] {
          assert IsSubsequence(a, b[1..]);
        }
      } else {
        assert a == Filtered(cs[1..], on) && b == Filtered(cs[1..], off);
      }
    }
  }

  // ---------------------------------------------------------------------------
  // Header figures
  // ---------------------------------------------------------------------------

  /** `totalCompounds`, `discoveredCount` and `totalPoints`. */
  datatype Stats = Stats(totalCompounds: nat, discoveredCount: nat, totalPoints: nat)

  /** `compounds.filter(c => c.discovered)` */
  function DiscoveredList(cs: seq<Compound>): (r: seq<Compound>)
    ensures forall c :: c in r <==> c in cs && c.discovered
  {
    if cs == [] then []
    else
      var rest := DiscoveredList(cs[1..]);
      assert forall c :: c in cs <==> c == cs[0] || c in cs[1..];
      if cs[0].discovered then [cs[0]] + rest else rest
  }

  function TabStats(cs: seq<Compound>): Stats
  {
    Stats(|cs|, |DiscoveredList(cs)|, PointsSum(DiscoveredList(cs)))
  }

  /**
   * The discovered count never exceeds the total, and the points figure is the sum of the
   * points of the discovered compounds.
   */
  lemma {:induction false} StatsAgree(cs: seq<Compound>)
    ensures TabStats(cs).discoveredCount == DiscoveredCount(cs) <= TabStats(cs).totalCompounds
    ensures TabStats(cs).totalPoints == DiscoveredPoints(cs)
  {
    if cs != [] {
      StatsAgree(cs[1..]);
      if cs[0].discovered {
        assert DiscoveredList(cs)[1..] == DiscoveredList(cs[1..]);
      }
    }
  }
}
