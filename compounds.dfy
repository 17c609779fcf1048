/**
 * The records and constant tables of the lab's data file: compounds, reactions and
 * achievements. Only the fields the game logic reads are kept; descriptions, molecular
 * weights, uses, icons, requirement texts and synthesis hints are dropped.
 * Also the list queries (`filter`, `find`, `reduce`) that several components run over a
 * compound list.
 */
module Catalog {
  import opened Optional

  datatype Rarity = Common | Uncommon | Rare | Epic | Legendary

  datatype Compound = Compound(
    id: string,
    name: string,
    symbol: string,
    category: string,
    rarity: Rarity,
    points: nat,
    discovered: bool)

  /** A recipe: the multiset of compound ids in `inputs` produces the compound `output`. */
  datatype Reaction = Reaction(id: string, inputs: seq<string>, output: string)

  datatype Achievement = Achievement(id: string, name: string, points: nat)

  // ---------------------------------------------------------------------------
  // The tables, in their order in the data file
  // ---------------------------------------------------------------------------

  /**
   * The initial compound table, in data-file order: 40 entries, the elements already
   * discovered. It is written as four parts of ten so that counts over it can be
   * established part by part.
   */
  function CompoundTable(): (cs: seq<Compound>)
    ensures |cs| == 40
  {
    CompoundsPart0() + CompoundsPart1() + CompoundsPart2() + CompoundsPart3()
  }

  function CompoundsPart0(): (cs: seq<Compound>)
    ensures |cs| == 10
  {
    [
      Compound("h", "Hydrogen", "H", "Element", Common, 0, true),
      Compound("o", "Oxygen", "O", "Element", Common, 0, true),
      Compound("c", "Carbon", "C", "Element", Common, 0, true),
      Compound("na", "Sodium", "Na", "Element", Common, 0, true),
      Compound("cl", "Chlorine", "Cl", "Element", Common, 0, true),
      Compound("s", "Sulfur", "S", "Element", Common, 0, true),
      Compound("n", "Nitrogen", "N", "Element", Common, 0, true),
      Compound("ca", "Calcium", "Ca", "Element", Common, 0, true),
      Compound("h2o", "Water", "H₂O", "Mineral", Common, 10, false),
      Compound("co2", "Carbon Dioxide", "CO₂", "Gas", Common, 15, false)
    ]
  }

  function CompoundsPart1(): (cs: seq<Compound>)
    ensures |cs| == 10
  {
    [
      Compound("nacl", "Sodium Chloride", "NaCl", "Salt", Common, 20, false),
      Compound("hcl", "Hydrochloric Acid", "HCl", "Acid", Uncommon, 25, false),
      Compound("naoh", "Sodium Hydroxide", "NaOH", "Base", Uncommon, 25, false),
      Compound("h2so4", "Sulfuric Acid", "H₂SO₄", "Acid", Rare, 40, false),
      Compound("h2co3", "Carbonic Acid", "H₂CO₃", "Acid", Uncommon, 35, false),
      Compound("na2co3", "Sodium Carbonate", "Na₂CO₃", "Salt", Uncommon, 30, false),
      Compound("cao", "Calcium Oxide", "CaO", "Base", Uncommon, 25, false),
      Compound("nh3", "Ammonia", "NH₃", "Base", Uncommon, 30, false),
      Compound("ch4", "Methane", "CH₄", "Organic", Common, 20, false),
      Compound("c2h4", "Ethylene", "C₂H₄", "Organic", Uncommon, 35, false)
    ]
  }

  function CompoundsPart2(): (cs: seq<Compound>)
    ensures |cs| == 10
  {
    [
      Compound("c2h2", "Acetylene", "C₂H₂", "Organic", Rare, 45, false),
      Compound("c2h6o", "Ethanol", "C₂H₆O", "Organic", Uncommon, 35, false),
      Compound("c6h12o6", "Glucose", "C₆H₁₂O₆", "Organic", Epic, 100, false),
      Compound("p", "Phosphorus", "P", "Element", Common, 0, true),
      Compound("k", "Potassium", "K", "Element", Common, 0, true),
      Compound("mg", "Magnesium", "Mg", "Element", Common, 0, true),
      Compound("hno3", "Nitric Acid", "HNO₃", "Acid", Rare, 50, false),
      Compound("h3po4", "Phosphoric Acid", "H₃PO₄", "Acid", Rare, 45, false),
      Compound("koh", "Potassium Hydroxide", "KOH", "Base", Uncommon, 30, false),
      Compound("mgoh2", "Magnesium Hydroxide", "Mg(OH)₂", "Base", Uncommon, 25, false)
    ]
  }

  function CompoundsPart3(): (cs: seq<Compound>)
    ensures |cs| == 10
  {
    [
      Compound("kcl", "Potassium Chloride", "KCl", "Salt", Common, 20, false),
      Compound("mgcl2", "Magnesium Chloride", "MgCl₂", "Salt", Common, 25, false),
      Compound("cacl2", "Calcium Chloride", "CaCl₂", "Salt", Common, 25, false),
      Compound("so2", "Sulfur Dioxide", "SO₂", "Gas", Uncommon, 30, false),
      Compound("so3", "Sulfur Trioxide", "SO₃", "Gas", Rare, 40, false),
      Compound("no", "Nitrogen Oxide", "NO", "Gas", Uncommon, 25, false),
      Compound("co", "Carbon Monoxide", "CO", "Gas", Uncommon, 25, false),
      Compound("p2o5", "Phosphorus Pentoxide", "P₂O₅", "Oxide", Rare, 40, false),
      Compound("mgo", "Magnesium Oxide", "MgO", "Oxide", Uncommon, 25, false),
      Compound("k2o", "Potassium Oxide", "K₂O", "Oxide", Uncommon, 30, false)
    ]
  }

  /** The recipe table, in data-file order: 29 entries, written as three parts. */
  function ReactionTable(): (rs: seq<Reaction>)
    ensures |rs| == 29
  {
    ReactionsPart0() + ReactionsPart1() + ReactionsPart2()
  }

  function ReactionsPart0(): (rs: seq<Reaction>)
    ensures |rs| == 10
  {
    [
      Reaction("water", ["h", "h", "o"], "h2o"),
      Reaction("salt", ["na", "cl"], "nacl"),
      Reaction("co2", ["c", "o", "o"], "co2"),
      Reaction("co", ["c", "o"], "co"),
      Reaction("hcl", ["h", "cl"], "hcl"),
      Reaction("cao", ["ca", "o"], "cao"),
      Reaction("mgo", ["mg", "o"], "mgo"),
      Reaction("k2o", ["k", "k", "o"], "k2o"),
      Reaction("naoh", ["na", "h2o"], "naoh"),
      Reaction("koh", ["k", "h2o"], "koh")
    ]
  }

  function ReactionsPart1(): (rs: seq<Reaction>)
    ensures |rs| == 10
  {
    [
      Reaction("mgoh2", ["mg", "h2o", "h2o"], "mgoh2"),
      Reaction("kcl", ["k", "cl"], "kcl"),
      Reaction("mgcl2", ["mg", "cl", "cl"], "mgcl2"),
      Reaction("cacl2", ["ca", "cl", "cl"], "cacl2"),
      Reaction("nh3", ["n", "h", "h", "h"], "nh3"),
      Reaction("ch4", ["c", "h", "h", "h", "h"], "ch4"),
      Reaction("so2", ["s", "o", "o"], "so2"),
      Reaction("so3", ["so2", "o"], "so3"),
      Reaction("no", ["n", "o"], "no"),
      Reaction("p2o5", ["p", "p", "o", "o", "o", "o", "o"], "p2o5")
    ]
  }

  function ReactionsPart2(): (rs: seq<Reaction>)
    ensures |rs| == 9
  {
    [
      Reaction("h2so4", ["so3", "h2o"], "h2so4"),
      Reaction("hno3", ["no", "h2o", "o"], "hno3"),
      Reaction("h3po4", ["p2o5", "h2o", "h2o", "h2o"], "h3po4"),
      Reaction("h2co3", ["co2", "h2o"], "h2co3"),
      Reaction("na2co3", ["h2co3", "naoh", "naoh"], "na2co3"),
      Reaction("c2h2", ["co", "h", "h"], "c2h2"),
      Reaction("c2h4", ["c2h2", "h", "h"], "c2h4"),
      Reaction("c2h6o", ["c2h4", "h2o"], "c2h6o"),
      Reaction("c6h12o6", ["co2", "co2", "co2", "co2", "co2", "co2", "h2o", "h2o", "h2o", "h2o", "h2o", "h2o"], "c6h12o6")
    ]
  }

  /** The achievement table, in data-file order: 12 entries. */
  function AchievementTable(): (t: seq<Achievement>)
    ensures |t| == 12
  {
    [
      Achievement("first_discovery", "First Discovery", 10),
      Achievement("element_master", "Element Master", 50),
      Achievement("acid_master", "Acid Master", 100),
      Achievement("base_master", "Base Master", 100),
      Achievement("salt_master", "Salt Master", 100),
      Achievement("organic_master", "Organic Master", 150),
      Achievement("gas_master", "Gas Master", 100),
      Achievement("reaction_novice", "Reaction Novice", 50),
      Achievement("reaction_expert", "Reaction Expert", 150),
      Achievement("reaction_master", "Reaction Master", 300),
      Achievement("compound_collector", "Compound Collector", 500),
      Achievement("chemistry_legend", "Chemistry Legend", 1000)
    ]
  }

  // ---------------------------------------------------------------------------
  // Queries over a compound list
  // ---------------------------------------------------------------------------

  /** No two entries share an id. */
  predicate DistinctIds(cs: seq<Compound>)
  {
    forall i, j :: 0 <= i < j < |cs| ==> cs[i].id != cs[j].id
  }

  /** `cs.find(c => c.id === id)`: the first compound with that id, if any. */
  function FindById(cs: seq<Compound>, id: string): (r: Option<Compound>)
    ensures r.Some? ==> r.value in cs && r.value.id == id
    ensures r.None? <==> forall i :: 0 <= i < |cs| ==> cs[i].id != id
  {
    if cs == [] then None
    else if cs[0].id == id then Some(cs[0])
    else FindById(cs[1..], id)
  }

  /** `find` returns the first entry with the id: every entry before it has another id. */
  lemma {:induction false} FindByIdFirst(cs: seq<Compound>, id: string)
    ensures FindById(cs, id).Some? ==>
      exists k :: 0 <= k < |cs| && cs[k] == FindById(cs, id).value &&
        forall j :: 0 <= j < k ==> cs[j].id != id
  {
    if cs != [] && cs[0].id != id {
      FindByIdFirst(cs[1..], id);
      if FindById(cs, id).Some? {
        var k :| 0 <= k < |cs[1..]| && cs[1..][k] == FindById(cs[1..], id).value &&
          forall j :: 0 <= j < k ==> cs[1..][j].id != id;
        assert cs[k + 1] == FindById(cs, id).value;
        assert forall j :: 0 < j < k + 1 ==> cs[j].id == cs[1..][j - 1].id;
      }
    } else if cs != [] {
      assert cs[0] == FindById(cs, id).value;
    }
  }

  /** With distinct ids, `find` returns the one entry carrying the id. */
  lemma FindByIdUnique(cs: seq<Compound>, k: nat)
    requires DistinctIds(cs) && k < |cs|
    ensures FindById(cs, cs[k].id) == Some(cs[k])
  {
    FindByIdFirst(cs, cs[k].id);
    var j :| 0 <= j < |cs| && cs[j] == FindById(cs, cs[k].id).value &&
      forall i :: 0 <= i < j ==> cs[i].id != cs[k].id;
    assert j == k;
  }

  /** `cs.filter(c => c.discovered).length` */
  function DiscoveredCount(cs: seq<Compound>): (n: nat)
    ensures n <= |cs|
  {
    if cs == [] then 0 else (if cs[0].discovered then 1 else 0) + DiscoveredCount(cs[1..])
  }

  /** `cs.filter(c => c.category === category).length` */
  function CategorySize(cs: seq<Compound>, category: string): (n: nat)
    ensures n <= |cs|
  {
    if cs == [] then 0
    else (if cs[0].category == category then 1 else 0) + CategorySize(cs[1..], category)
  }

  /** Counting a category over two lists laid end to end adds the two counts. */
  lemma {:induction false} CategorySizeAppend(a: seq<Compound>, b: seq<Compound>, category: string)
    ensures CategorySize(a + b, category) == CategorySize(a, category) + CategorySize(b, category)
  {
    if a == [] {
      assert a + b == b;
    } else {
      assert (a + b)[0] == a[0];
      assert (a + b)[1..] == a[1..] + b;
      CategorySizeAppend(a[1..], b, category);
    }
  }

  /** `cs.filter(c => c.category === category && c.discovered).length` */
  function DiscoveredInCategory(cs: seq<Compound>, category: string): (n: nat)
    ensures n <= CategorySize(cs, category) && n <= DiscoveredCount(cs)
  {
    if cs == [] then 0
    else
      (if cs[0].category == category && cs[0].discovered then 1 else 0)
      + DiscoveredInCategory(cs[1..], category)
  }

  /** Sum of `points` over every entry, discovered or not. */
  function PointsSum(cs: seq<Compound>): nat
  {
    if cs == [] then 0 else cs[0].points + PointsSum(cs[1..])
  }

  /** `cs.filter(c => c.discovered).reduce((sum, c) => sum + c.points, 0)` */
  function DiscoveredPoints(cs: seq<Compound>): (p: nat)
    ensures p <= PointsSum(cs)
  {
    if cs == [] then 0
    else (if cs[0].discovered then cs[0].points else 0) + DiscoveredPoints(cs[1..])
  }

  /** The ids of a list of compounds, in order (`list.map(c => c.id)`). */
  function Ids(cs: seq<Compound>): (ids: seq<string>)
    ensures |ids| == |cs| && forall i :: 0 <= i < |cs| ==> ids[i] == cs[i].id
  {
    if cs == [] then [] else [cs[0].id] + Ids(cs[1..])
  }

  /** Sum of `points` over a list of achievements. */
  function AchievementPointsSum(achs: seq<Achievement>): nat
  {
    if achs == [] then 0 else achs[0].points + AchievementPointsSum(achs[1..])
  }

  /** Every entry is counted as discovered exactly when all entries are discovered. */
  lemma {:induction false} DiscoveredCountFull(cs: seq<Compound>)
    ensures DiscoveredCount(cs) == |cs| <==> forall i :: 0 <= i < |cs| ==> cs[i].discovered
  {
    if cs != [] {
      DiscoveredCountFull(cs[1..]);
      assert forall i :: 0 < i < |cs| ==> cs[i] == cs[1..][i - 1];
    }
  }

  /** A category is complete exactly when each of its entries is discovered. */
  lemma {:induction false} CategoryComplete(cs: seq<Compound>, category: string)
    ensures DiscoveredInCategory(cs, category) == CategorySize(cs, category) <==>
      forall i :: 0 <= i < |cs| && cs[i].category == category ==> cs[i].discovered
  {
    if cs != [] {
      CategoryComplete(cs[1..], category);
      assert forall i :: 0 < i < |cs| ==> cs[i] == cs[1..][i - 1];
    }
  }

  /** Marking one entry discovered raises the count by one and the points by its points, if it was not yet discovered. */
  lemma {:induction false} DiscoverAtCounts(cs: seq<Compound>, k: nat)
    requires k < |cs|
    ensures DiscoveredCount(cs[k := cs[k].(discovered := true)]) ==
      DiscoveredCount(cs) + (if cs[k].discovered then 0 else 1)
    ensures DiscoveredPoints(cs[k := cs[k].(discovered := true)]) ==
      DiscoveredPoints(cs) + (if cs[k].discovered then 0 else cs[k].points)
  {
    var after := cs[k := cs[k].(discovered := true)];
    if k > 0 {
      DiscoverAtCounts(cs[1..], k - 1);
      assert after[1..] == cs[1..][k - 1 := cs[k].(discovered := true)];
    } else {
      assert after[1..] == cs[1..];
    }
  }

  /**
   * `after` is `before` with zero or more compounds switched from undiscovered to
   * discovered, and nothing else changed.
   */
  predicate Grows(before: seq<Compound>, after: seq<Compound>)
  {
    |before| == |after| &&
    forall i :: 0 <= i < |before| ==>
      after[i] == before[i] || (!before[i].discovered && after[i] == before[i].(discovered := true))
  }

  lemma GrowsTransitive(a: seq<Compound>, b: seq<Compound>, c: seq<Compound>)
    requires Grows(a, b) && Grows(b, c)
    ensures Grows(a, c)
  {
  }

  /** Discovering compounds never lowers a count or a point sum, and leaves category sizes alone. */
  lemma {:induction false} GrowsCounts(before: seq<Compound>, after: seq<Compound>, category: string)
    requires Grows(before, after)
    ensures DiscoveredCount(before) <= DiscoveredCount(after)
    ensures CategorySize(before, category) == CategorySize(after, category)
    ensures DiscoveredInCategory(before, category) <= DiscoveredInCategory(after, category)
    ensures DiscoveredPoints(before) <= DiscoveredPoints(after)
    ensures |after| == |before|
  {
    if before != [] {
      assert after[0] == before[0] || after[0] == before[0].(discovered := true);
      assert Grows(before[1..], after[1..]) by {
        forall i | 0 <= i < |before[1..]|
          ensures after[1..][i] == before[1..][i] ||
            (!before[1..][i].discovered && after[1..][i] == before[1..][i].(discovered := true))
        {
          assert before[1..][i] == before[i + 1] && after[1..][i] == after[i + 1];
        }
      }
      GrowsCounts(before[1..], after[1..], category);
    }
  }
}
