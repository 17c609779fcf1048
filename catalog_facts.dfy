/**
 * Well-formedness of the data file's tables: ids are unique, every reference resolves,
 * every recipe takes at least two inputs and never its own output, no two recipes take
 * the same multiset of inputs, the recipes come in dependency order, and every compound
 * that is not discovered at the start is the output of some recipe.
 *
 * The facts are established row by row: each row is checked against lookup functions
 * written as a `match` on the row's key, and the all-rows statements follow from the
 * row checks.
 *
 * `CatalogPosition`, `CatalogId`, `RecipePosition`, `RecipeOutput` and `Producer` list
 * the tables' keys a second time. They are proof indices only, not a second definition
 * of the data: `AllCompoundRows` and `AllRecipeRows` prove that they agree with
 * `CompoundTable()` and `ReactionTable()` at every position.
 */
module CatalogFacts {
  import opened Catalog

  // ---------------------------------------------------------------------------
  // Lookup functions keyed on ids
  // ---------------------------------------------------------------------------

  /** Position of a compound id in the compound table, or -1. */
  function CatalogPosition(id: string): int
  {
    match id
    case "h" => 0
    case "o" => 1
    case "c" => 2
    case "na" => 3
    case "cl" => 4
    case "s" => 5
    case "n" => 6
    case "ca" => 7
    case "h2o" => 8
    case "co2" => 9
    case "nacl" => 10
    case "hcl" => 11
    case "naoh" => 12
    case "h2so4" => 13
    case "h2co3" => 14
    case "na2co3" => 15
    case "cao" => 16
    case "nh3" => 17
    case "ch4" => 18
    case "c2h4" => 19
    case "c2h2" => 20
    case "c2h6o" => 21
    case "c6h12o6" => 22
    case "p" => 23
    case "k" => 24
    case "mg" => 25
    case "hno3" => 26
    case "h3po4" => 27
    case "koh" => 28
    case "mgoh2" => 29
    case "kcl" => 30
    case "mgcl2" => 31
    case "cacl2" => 32
    case "so2" => 33
    case "so3" => 34
    case "no" => 35
    case "co" => 36
    case "p2o5" => 37
    case "mgo" => 38
    case "k2o" => 39
    case _ => -1
  }

  /** Position of a reaction id in the recipe table, or -1. */
  function RecipePosition(id: string): int
  {
    match id
    case "water" => 0
    case "salt" => 1
    case "co2" => 2
    case "co" => 3
    case "hcl" => 4
    case "cao" => 5
    case "mgo" => 6
    case "k2o" => 7
    case "naoh" => 8
    case "koh" => 9
    case "mgoh2" => 10
    case "kcl" => 11
    case "mgcl2" => 12
    case "cacl2" => 13
    case "nh3" => 14
    case "ch4" => 15
    case "so2" => 16
    case "so3" => 17
    case "no" => 18
    case "p2o5" => 19
    case "h2so4" => 20
    case "hno3" => 21
    case "h3po4" => 22
    case "h2co3" => 23
    case "na2co3" => 24
    case "c2h2" => 25
    case "c2h4" => 26
    case "c2h6o" => 27
    case "c6h12o6" => 28
    case _ => -1
  }

  /** Position of the recipe producing a compound id, or -1. */
  function Producer(id: string): int
  {
    match id
    case "h2o" => 0
    case "nacl" => 1
    case "co2" => 2
    case "co" => 3
    case "hcl" => 4
    case "cao" => 5
    case "mgo" => 6
    case "k2o" => 7
    case "naoh" => 8
    case "koh" => 9
    case "mgoh2" => 10
    case "kcl" => 11
    case "mgcl2" => 12
    case "cacl2" => 13
    case "nh3" => 14
    case "ch4" => 15
    case "so2" => 16
    case "so3" => 17
    case "no" => 18
    case "p2o5" => 19
    case "h2so4" => 20
    case "hno3" => 21
    case "h3po4" => 22
    case "h2co3" => 23
    case "na2co3" => 24
    case "c2h2" => 25
    case "c2h4" => 26
    case "c2h6o" => 27
    case "c6h12o6" => 28
    case _ => -1
  }

  /** A distinct prime per compound id (1 for any other string). */
  function Prime(id: string): nat
  {
    match id
    case "h" => 2
    case "o" => 3
    case "c" => 5
    case "na" => 7
    case "cl" => 11
    case "s" => 13
    case "n" => 17
    case "ca" => 19
    case "h2o" => 23
    case "co2" => 29
    case "nacl" => 31
    case "hcl" => 37
    case "naoh" => 41
    case "h2so4" => 43
    case "h2co3" => 47
    case "na2co3" => 53
    case "cao" => 59
    case "nh3" => 61
    case "ch4" => 67
    case "c2h4" => 71
    case "c2h2" => 73
    case "c2h6o" => 79
    case "c6h12o6" => 83
    case "p" => 89
    case "k" => 97
    case "mg" => 101
    case "hno3" => 103
    case "h3po4" => 107
    case "koh" => 109
    case "mgoh2" => 113
    case "kcl" => 127
    case "mgcl2" => 131
    case "cacl2" => 137
    case "so2" => 139
    case "so3" => 149
    case "no" => 151
    case "co" => 157
    case "p2o5" => 163
    case "mgo" => 167
    case "k2o" => 173
    case _ => 1
  }

  /** The product of the primes of a list of ids: it depends only on the multiset of the ids. */
  function Fingerprint(ids: seq<string>): nat
  {
    if ids == [] then 1 else Prime(ids[0]) * Fingerprint(ids[1..])
  }

  /** Position of the recipe whose inputs have the given fingerprint, or -1. */
  function FingerprintOwner(f: nat): int
  {
    match f
    case 12 => 0
    case 77 => 1
    case 45 => 2
    case 15 => 3
    case 22 => 4
    case 57 => 5
    case 303 => 6
    case 28227 => 7
    case 161 => 8
    case 2231 => 9
    case 53429 => 10
    case 1067 => 11
    case 12221 => 12
    case 2299 => 13
    case 136 => 14
    case 80 => 15
    case 117 => 16
    case 417 => 17
    case 51 => 18
    case 1924803 => 19
    case 3427 => 20
    case 10419 => 21
    case 1983221 => 22
    case 667 => 23
    case 79007 => 24
    case 628 => 25
    case 292 => 26
    case 1633 => 27
    case 88055199122167369 => 28
    case _ => -1
  }

  /**
   * Position of the recipe taking this list of inputs, or -1. One recipe each takes five,
   * seven and twelve inputs; the others are told apart by their fingerprint.
   */
  function RecipeOwner(ids: seq<string>): int
  {
    if |ids| == 5 then 15
    else if |ids| == 7 then 19
    else if |ids| == 12 then 28
    else FingerprintOwner(Fingerprint(ids))
  }

  /** The id of the compound at a position of the compound table ("" past its end). */
  function CatalogId(k: int): string
  {
    match k
    case 0 => "h"
    case 1 => "o"
    case 2 => "c"
    case 3 => "na"
    case 4 => "cl"
    case 5 => "s"
    case 6 => "n"
    case 7 => "ca"
    case 8 => "h2o"
    case 9 => "co2"
    case 10 => "nacl"
    case 11 => "hcl"
    case 12 => "naoh"
    case 13 => "h2so4"
    case 14 => "h2co3"
    case 15 => "na2co3"
    case 16 => "cao"
    case 17 => "nh3"
    case 18 => "ch4"
    case 19 => "c2h4"
    case 20 => "c2h2"
    case 21 => "c2h6o"
    case 22 => "c6h12o6"
    case 23 => "p"
    case 24 => "k"
    case 25 => "mg"
    case 26 => "hno3"
    case 27 => "h3po4"
    case 28 => "koh"
    case 29 => "mgoh2"
    case 30 => "kcl"
    case 31 => "mgcl2"
    case 32 => "cacl2"
    case 33 => "so2"
    case 34 => "so3"
    case 35 => "no"
    case 36 => "co"
    case 37 => "p2o5"
    case 38 => "mgo"
    case 39 => "k2o"
    case _ => ""
  }

  /** The output of the recipe at a position of the recipe table ("" past its end). */
  function RecipeOutput(k: int): string
  {
    match k
    case 0 => "h2o"
    case 1 => "nacl"
    case 2 => "co2"
    case 3 => "co"
    case 4 => "hcl"
    case 5 => "cao"
    case 6 => "mgo"
    case 7 => "k2o"
    case 8 => "naoh"
    case 9 => "koh"
    case 10 => "mgoh2"
    case 11 => "kcl"
    case 12 => "mgcl2"
    case 13 => "cacl2"
    case 14 => "nh3"
    case 15 => "ch4"
    case 16 => "so2"
    case 17 => "so3"
    case 18 => "no"
    case 19 => "p2o5"
    case 20 => "h2so4"
    case 21 => "hno3"
    case 22 => "h3po4"
    case 23 => "h2co3"
    case 24 => "na2co3"
    case 25 => "c2h2"
    case 26 => "c2h4"
    case 27 => "c2h6o"
    case 28 => "c6h12o6"
    case _ => ""
  }

  // ---------------------------------------------------------------------------
  // Row checks
  // ---------------------------------------------------------------------------

  /** The id maps to a position of the compound table whose id maps back to it. */
  predicate Resolves(id: string)
  {
    0 <= CatalogPosition(id) < 40 && CatalogId(CatalogPosition(id)) == id
  }

  predicate AllResolve(ids: seq<string>)
  {
    ids == [] || (Resolves(ids[0]) && AllResolve(ids[1..]))
  }

  /**
   * Every id of the list is available before row `k`: its producing recipe comes earlier,
   * or it has none (`Producer` gives -1), which the compound rows tie to being discovered
   * at the start.
   */
  predicate AllAvailableBefore(ids: seq<string>, k: nat)
  {
    ids == [] || (Producer(ids[0]) < k && AllAvailableBefore(ids[1..], k))
  }

  /**
   * Compound row `k`: its id and its position map to each other; it is discovered exactly
   * when it is an element, and then worth no points and made by no recipe; otherwise it
   * is worth points and recipe `Producer(c.id)` makes it.
   */
  predicate CompoundRowOk(c: Compound, k: nat)
  {
    CatalogPosition(c.id) == k && CatalogId(k) == c.id &&
    (c.discovered <==> c.category == "Element") &&
    (c.discovered ==> c.points == 0 && Producer(c.id) == -1) &&
    (!c.discovered ==>
      c.points > 0 && 0 <= Producer(c.id) < 29 && RecipeOutput(Producer(c.id)) == c.id)
  }

  /**
   * Recipe row `k`, keys: its id and its output map back to `k`, its output is a compound,
   * it takes two or more inputs other than its output, and its inputs identify it.
   */
  predicate RecipeKeysOk(r: Reaction, k: nat)
  {
    RecipePosition(r.id) == k &&
    Producer(r.output) == k && RecipeOutput(k) == r.output &&
    Resolves(r.output) &&
    |r.inputs| >= 2 &&
    r.output !in r.inputs &&
    RecipeOwner(r.inputs) == k
  }

  /** Recipe row `k`, inputs: each is a compound available before row `k`. */
  predicate RecipeInputsOk(r: Reaction, k: nat)
  {
    AllResolve(r.inputs) && AllAvailableBefore(r.inputs, k)
  }

  // ---------------------------------------------------------------------------
  // The row checks, one row at a time
  // ---------------------------------------------------------------------------

  lemma CompoundRow0()
    ensures CompoundRowOk(CompoundTable()[0], 0)
  {
    assert CompoundTable()[0] == Compound("h", "Hydrogen", "H", "Element", Common, 0, true);
  }

  lemma CompoundRow1()
    ensures CompoundRowOk(CompoundTable()[1], 1)
  {
    assert CompoundTable()[1] == Compound("o", "Oxygen", "O", "Element", Common, 0, true);
  }

  lemma CompoundRow2()
    ensures CompoundRowOk(CompoundTable()[2], 2)
  {
    assert CompoundTable()[2] == Compound("c", "Carbon", "C", "Element", Common, 0, true);
  }

  lemma CompoundRow3()
    ensures CompoundRowOk(CompoundTable()[3], 3)
  {
    assert CompoundTable()[3] == Compound("na", "Sodium", "Na", "Element", Common, 0, true);
  }

  lemma CompoundRow4()
    ensures CompoundRowOk(CompoundTable()[4], 4)
  {
    assert CompoundTable()[4] == Compound("cl", "Chlorine", "Cl", "Element", Common, 0, true);
  }

  lemma CompoundRow5()
    ensures CompoundRowOk(CompoundTable()[5], 5)
  {
    assert CompoundTable()[5] == Compound("s", "Sulfur", "S", "Element", Common, 0, true);
  }

  lemma CompoundRow6()
    ensures CompoundRowOk(CompoundTable()[6], 6)
  {
    assert CompoundTable()[6] == Compound("n", "Nitrogen", "N", "Element", Common, 0, true);
  }

  lemma CompoundRow7()
    ensures CompoundRowOk(CompoundTable()[7], 7)
  {
    assert CompoundTable()[7] == Compound("ca", "Calcium", "Ca", "Element", Common, 0, true);
  }

  lemma CompoundRow8()
    ensures CompoundRowOk(CompoundTable()[8], 8)
  {
    assert CompoundTable()[8] == Compound("h2o", "Water", "H₂O", "Mineral", Common, 10, false);
  }

  lemma CompoundRow9()
    ensures CompoundRowOk(CompoundTable()[9], 9)
  {
    assert CompoundTable()[9] == Compound("co2", "Carbon Dioxide", "CO₂", "Gas", Common, 15, false);
  }

  lemma CompoundRow10()
    ensures CompoundRowOk(CompoundTable()[10], 10)
  {
    assert CompoundTable()[10] == Compound("nacl", "Sodium Chloride", "NaCl", "Salt", Common, 20, false);
  }

  lemma CompoundRow11()
    ensures CompoundRowOk(CompoundTable()[11], 11)
  {
    assert CompoundTable()[11] == Compound("hcl", "Hydrochloric Acid", "HCl", "Acid", Uncommon, 25, false);
  }

  lemma CompoundRow12()
    ensures CompoundRowOk(CompoundTable()[12], 12)
  {
    assert CompoundTable()[12] == Compound("naoh", "Sodium Hydroxide", "NaOH", "Base", Uncommon, 25, false);
  }

  lemma CompoundRow13()
    ensures CompoundRowOk(CompoundTable()[13], 13)
  {
    assert CompoundTable()[13] == Compound("h2so4", "Sulfuric Acid", "H₂SO₄", "Acid", Rare, 40, false);
  }

  lemma CompoundRow14()
    ensures CompoundRowOk(CompoundTable()[14], 14)
  {
    assert CompoundTable()[14] == Compound("h2co3", "Carbonic Acid", "H₂CO₃", "Acid", Uncommon, 35, false);
  }

  lemma CompoundRow15()
    ensures CompoundRowOk(CompoundTable()[15], 15)
  {
    assert CompoundTable()[15] == Compound("na2co3", "Sodium Carbonate", "Na₂CO₃", "Salt", Uncommon, 30, false);
  }

  lemma CompoundRow16()
    ensures CompoundRowOk(CompoundTable()[16], 16)
  {
    assert CompoundTable()[16] == Compound("cao", "Calcium Oxide", "CaO", "Base", Uncommon, 25, false);
  }

  lemma CompoundRow17()
    ensures CompoundRowOk(CompoundTable()[17], 17)
  {
    assert CompoundTable()[17] == Compound("nh3", "Ammonia", "NH₃", "Base", Uncommon, 30, false);
  }

  lemma CompoundRow18()
    ensures CompoundRowOk(CompoundTable()[18], 18)
  {
    assert CompoundTable()[18] == Compound("ch4", "Methane", "CH₄", "Organic", Common, 20, false);
  }

  lemma CompoundRow19()
    ensures CompoundRowOk(CompoundTable()[19], 19)
  {
    assert CompoundTable()[19] == Compound("c2h4", "Ethylene", "C₂H₄", "Organic", Uncommon, 35, false);
  }

  lemma CompoundRow20()
    ensures CompoundRowOk(CompoundTable()[20], 20)
  {
    assert CompoundTable()[20] == Compound("c2h2", "Acetylene", "C₂H₂", "Organic", Rare, 45, false);
  }

  lemma CompoundRow21()
    ensures CompoundRowOk(CompoundTable()[21], 21)
  {
    assert CompoundTable()[21] == Compound("c2h6o", "Ethanol", "C₂H₆O", "Organic", Uncommon, 35, false);
  }

  lemma CompoundRow22()
    ensures CompoundRowOk(CompoundTable()[22], 22)
  {
    assert CompoundTable()[22] == Compound("c6h12o6", "Glucose", "C₆H₁₂O₆", "Organic", Epic, 100, false);
  }

  lemma CompoundRow23()
    ensures CompoundRowOk(CompoundTable()[23], 23)
  {
    assert CompoundTable()[23] == Compound("p", "Phosphorus", "P", "Element", Common, 0, true);
  }

  lemma CompoundRow24()
    ensures CompoundRowOk(CompoundTable()[24], 24)
  {
    assert CompoundTable()[24] == Compound("k", "Potassium", "K", "Element", Common, 0, true);
  }

  lemma CompoundRow25()
    ensures CompoundRowOk(CompoundTable()[25], 25)
  {
    assert CompoundTable()[25] == Compound("mg", "Magnesium", "Mg", "Element", Common, 0, true);
  }

  lemma CompoundRow26()
    ensures CompoundRowOk(CompoundTable()[26], 26)
  {
    assert CompoundTable()[26] == Compound("hno3", "Nitric Acid", "HNO₃", "Acid", Rare, 50, false);
  }

  lemma CompoundRow27()
    ensures CompoundRowOk(CompoundTable()[27], 27)
  {
    assert CompoundTable()[27] == Compound("h3po4", "Phosphoric Acid", "H₃PO₄", "Acid", Rare, 45, false);
  }

  lemma CompoundRow28()
    ensures CompoundRowOk(CompoundTable()[28], 28)
  {
    assert CompoundTable()[28] == Compound("koh", "Potassium Hydroxide", "KOH", "Base", Uncommon, 30, false);
  }

  lemma CompoundRow29()
    ensures CompoundRowOk(CompoundTable()[29], 29)
  {
    assert CompoundTable()[29] == Compound("mgoh2", "Magnesium Hydroxide", "Mg(OH)₂", "Base", Uncommon, 25, false);
  }

  lemma CompoundRow30()
    ensures CompoundRowOk(CompoundTable()[30], 30)
  {
    assert CompoundTable()[30] == Compound("kcl", "Potassium Chloride", "KCl", "Salt", Common, 20, false);
  }

  lemma CompoundRow31()
    ensures CompoundRowOk(CompoundTable()[31], 31)
  {
    assert CompoundTable()[31] == Compound("mgcl2", "Magnesium Chloride", "MgCl₂", "Salt", Common, 25, false);
  }

  lemma CompoundRow32()
    ensures CompoundRowOk(CompoundTable()[32], 32)
  {
    assert CompoundTable()[32] == Compound("cacl2", "Calcium Chloride", "CaCl₂", "Salt", Common, 25, false);
  }

  lemma CompoundRow33()
    ensures CompoundRowOk(CompoundTable()[33], 33)
  {
    assert CompoundTable()[33] == Compound("so2", "Sulfur Dioxide", "SO₂", "Gas", Uncommon, 30, false);
  }

  lemma CompoundRow34()
    ensures CompoundRowOk(CompoundTable()[34], 34)
  {
    assert CompoundTable()[34] == Compound("so3", "Sulfur Trioxide", "SO₃", "Gas", Rare, 40, false);
  }

  lemma CompoundRow35()
    ensures CompoundRowOk(CompoundTable()[35], 35)
  {
    assert CompoundTable()[35] == Compound("no", "Nitrogen Oxide", "NO", "Gas", Uncommon, 25, false);
  }

  lemma CompoundRow36()
    ensures CompoundRowOk(CompoundTable()[36], 36)
  {
    assert CompoundTable()[36] == Compound("co", "Carbon Monoxide", "CO", "Gas", Uncommon, 25, false);
  }

  lemma CompoundRow37()
    ensures CompoundRowOk(CompoundTable()[37], 37)
  {
    assert CompoundTable()[37] == Compound("p2o5", "Phosphorus Pentoxide", "P₂O₅", "Oxide", Rare, 40, false);
  }

  lemma CompoundRow38()
    ensures CompoundRowOk(CompoundTable()[38], 38)
  {
    assert CompoundTable()[38] == Compound("mgo", "Magnesium Oxide", "MgO", "Oxide", Uncommon, 25, false);
  }

  lemma CompoundRow39()
    ensures CompoundRowOk(CompoundTable()[39], 39)
  {
    assert CompoundTable()[39] == Compound("k2o", "Potassium Oxide", "K₂O", "Oxide", Uncommon, 30, false);
  }

  lemma RecipeRow0()
    ensures RecipeKeysOk(ReactionTable()[0], 0) && RecipeInputsOk(ReactionTable()[0], 0)
  {
    assert ReactionTable()[0] == Reaction("water", ["h", "h", "o"], "h2o");
    assert RecipeKeysOk(Reaction("water", ["h", "h", "o"], "h2o"), 0);
    assert RecipeInputsOk(Reaction("water", ["h", "h", "o"], "h2o"), 0);
  }

  lemma RecipeRow1()
    ensures RecipeKeysOk(ReactionTable()[1], 1) && RecipeInputsOk(ReactionTable()[1], 1)
  {
    assert ReactionTable()[1] == Reaction("salt", ["na", "cl"], "nacl");
    assert RecipeKeysOk(Reaction("salt", ["na", "cl"], "nacl"), 1);
    assert RecipeInputsOk(Reaction("salt", ["na", "cl"], "nacl"), 1);
  }

  lemma RecipeRow2()
    ensures RecipeKeysOk(ReactionTable()[2], 2) && RecipeInputsOk(ReactionTable()[2], 2)
  {
    assert ReactionTable()[2] == Reaction("co2", ["c", "o", "o"], "co2");
    assert RecipeKeysOk(Reaction("co2", ["c", "o", "o"], "co2"), 2);
    assert RecipeInputsOk(Reaction("co2", ["c", "o", "o"], "co2"), 2);
  }

  lemma RecipeRow3()
    ensures RecipeKeysOk(ReactionTable()[3], 3) && RecipeInputsOk(ReactionTable()[3], 3)
  {
    assert ReactionTable()[3] == Reaction("co", ["c", "o"], "co");
    assert RecipeKeysOk(Reaction("co", ["c", "o"], "co"), 3);
    assert RecipeInputsOk(Reaction("co", ["c", "o"], "co"), 3);
  }

  lemma RecipeRow4()
    ensures RecipeKeysOk(ReactionTable()[4], 4) && RecipeInputsOk(ReactionTable()[4], 4)
  {
    assert ReactionTable()[4] == Reaction("hcl", ["h", "cl"], "hcl");
    assert RecipeKeysOk(Reaction("hcl", ["h", "cl"], "hcl"), 4);
    assert RecipeInputsOk(Reaction("hcl", ["h", "cl"], "hcl"), 4);
  }

  lemma RecipeRow5()
    ensures RecipeKeysOk(ReactionTable()[5], 5) && RecipeInputsOk(ReactionTable()[5], 5)
  {
    assert ReactionTable()[5] == Reaction("cao", ["ca", "o"], "cao");
    assert RecipeKeysOk(Reaction("cao", ["ca", "o"], "cao"), 5);
    assert RecipeInputsOk(Reaction("cao", ["ca", "o"], "cao"), 5);
  }

  lemma RecipeRow6()
    ensures RecipeKeysOk(ReactionTable()[6], 6) && RecipeInputsOk(ReactionTable()[6], 6)
  {
    assert ReactionTable()[6] == Reaction("mgo", ["mg", "o"], "mgo");
    assert RecipeKeysOk(Reaction("mgo", ["mg", "o"], "mgo"), 6);
    assert RecipeInputsOk(Reaction("mgo", ["mg", "o"], "mgo"), 6);
  }

  lemma RecipeRow7()
    ensures RecipeKeysOk(ReactionTable()[7], 7) && RecipeInputsOk(ReactionTable()[7], 7)
  {
    assert ReactionTable()[7] == Reaction("k2o", ["k", "k", "o"], "k2o");
    assert RecipeKeysOk(Reaction("k2o", ["k", "k", "o"], "k2o"), 7);
    assert RecipeInputsOk(Reaction("k2o", ["k", "k", "o"], "k2o"), 7);
  }

  lemma RecipeRow8()
    ensures RecipeKeysOk(ReactionTable()[8], 8) && RecipeInputsOk(ReactionTable()[8], 8)
  {
    assert ReactionTable()[8] == Reaction("naoh", ["na", "h2o"], "naoh");
    assert RecipeKeysOk(Reaction("naoh", ["na", "h2o"], "naoh"), 8);
    assert RecipeInputsOk(Reaction("naoh", ["na", "h2o"], "naoh"), 8);
  }

  lemma RecipeRow9()
    ensures RecipeKeysOk(ReactionTable()[9], 9) && RecipeInputsOk(ReactionTable()[9], 9)
  {
    assert ReactionTable()[9] == Reaction("koh", ["k", "h2o"], "koh");
    assert RecipeKeysOk(Reaction("koh", ["k", "h2o"], "koh"), 9);
    assert RecipeInputsOk(Reaction("koh", ["k", "h2o"], "koh"), 9);
  }

  lemma RecipeRow10()
    ensures RecipeKeysOk(ReactionTable()[10], 10) && RecipeInputsOk(ReactionTable()[10], 10)
  {
    assert ReactionTable()[10] == Reaction("mgoh2", ["mg", "h2o", "h2o"], "mgoh2");
    assert RecipeKeysOk(Reaction("mgoh2", ["mg", "h2o", "h2o"], "mgoh2"), 10);
    assert RecipeInputsOk(Reaction("mgoh2", ["mg", "h2o", "h2o"], "mgoh2"), 10);
  }

  lemma RecipeRow11()
    ensures RecipeKeysOk(ReactionTable()[11], 11) && RecipeInputsOk(ReactionTable()[11], 11)
  {
    assert ReactionTable()[11] == Reaction("kcl", ["k", "cl"], "kcl");
    assert RecipeKeysOk(Reaction("kcl", ["k", "cl"], "kcl"), 11);
    assert RecipeInputsOk(Reaction("kcl", ["k", "cl"], "kcl"), 11);
  }

  lemma RecipeRow12()
    ensures RecipeKeysOk(ReactionTable()[12], 12) && RecipeInputsOk(ReactionTable()[12], 12)
  {
    assert ReactionTable()[12] == Reaction("mgcl2", ["mg", "cl", "cl"], "mgcl2");
    assert RecipeKeysOk(Reaction("mgcl2", ["mg", "cl", "cl"], "mgcl2"), 12);
    assert RecipeInputsOk(Reaction("mgcl2", ["mg", "cl", "cl"], "mgcl2"), 12);
  }

  lemma RecipeRow13()
    ensures RecipeKeysOk(ReactionTable()[13], 13) && RecipeInputsOk(ReactionTable()[13], 13)
  {
    assert ReactionTable()[13] == Reaction("cacl2", ["ca", "cl", "cl"], "cacl2");
    assert RecipeKeysOk(Reaction("cacl2", ["ca", "cl", "cl"], "cacl2"), 13);
    assert RecipeInputsOk(Reaction("cacl2", ["ca", "cl", "cl"], "cacl2"), 13);
  }

  lemma RecipeRow14()
    ensures RecipeKeysOk(ReactionTable()[14], 14) && RecipeInputsOk(ReactionTable()[14], 14)
  {
    assert ReactionTable()[14] == Reaction("nh3", ["n", "h", "h", "h"], "nh3");
    assert RecipeKeysOk(Reaction("nh3", ["n", "h", "h", "h"], "nh3"), 14);
    assert RecipeInputsOk(Reaction("nh3", ["n", "h", "h", "h"], "nh3"), 14);
  }

  lemma RecipeRow15Literal()
    ensures ReactionTable()[15] == Reaction("ch4", ["c", "h", "h", "h", "h"], "ch4")
  {
  }

  lemma RecipeKeys15()
    ensures RecipeKeysOk(ReactionTable()[15], 15)
  {
    RecipeRow15Literal();
    assert RecipeKeysOk(Reaction("ch4", ["c", "h", "h", "h", "h"], "ch4"), 15);
  }

  lemma RecipeInputs15()
    ensures RecipeInputsOk(ReactionTable()[15], 15)
  {
    RecipeRow15Literal();
    assert RecipeInputsOk(Reaction("ch4", ["c", "h", "h", "h", "h"], "ch4"), 15);
  }

  lemma RecipeRow16()
    ensures RecipeKeysOk(ReactionTable()[16], 16) && RecipeInputsOk(ReactionTable()[16], 16)
  {
    assert ReactionTable()[16] == Reaction("so2", ["s", "o", "o"], "so2");
    assert RecipeKeysOk(Reaction("so2", ["s", "o", "o"], "so2"), 16);
    assert RecipeInputsOk(Reaction("so2", ["s", "o", "o"], "so2"), 16);
  }

  lemma RecipeRow17()
    ensures RecipeKeysOk(ReactionTable()[17], 17) && RecipeInputsOk(ReactionTable()[17], 17)
  {
    assert ReactionTable()[17] == Reaction("so3", ["so2", "o"], "so3");
    assert RecipeKeysOk(Reaction("so3", ["so2", "o"], "so3"), 17);
    assert RecipeInputsOk(Reaction("so3", ["so2", "o"], "so3"), 17);
  }

  lemma RecipeRow18()
    ensures RecipeKeysOk(ReactionTable()[18], 18) && RecipeInputsOk(ReactionTable()[18], 18)
  {
    assert ReactionTable()[18] == Reaction("no", ["n", "o"], "no");
    assert RecipeKeysOk(Reaction("no", ["n", "o"], "no"), 18);
    assert RecipeInputsOk(Reaction("no", ["n", "o"], "no"), 18);
  }

  lemma RecipeRow19Literal()
    ensures ReactionTable()[19] == Reaction("p2o5", ["p", "p", "o", "o", "o", "o", "o"], "p2o5")
  {
  }

  lemma RecipeKeys19()
    ensures RecipeKeysOk(ReactionTable()[19], 19)
  {
    RecipeRow19Literal();
    assert RecipeKeysOk(Reaction("p2o5", ["p", "p", "o", "o", "o", "o", "o"], "p2o5"), 19);
  }

  lemma RecipeInputs19()
    ensures RecipeInputsOk(ReactionTable()[19], 19)
  {
    RecipeRow19Literal();
    assert RecipeInputsOk(Reaction("p2o5", ["p", "p", "o", "o", "o", "o", "o"], "p2o5"), 19);
  }

  lemma RecipeRow20()
    ensures RecipeKeysOk(ReactionTable()[20], 20) && RecipeInputsOk(ReactionTable()[20], 20)
  {
    assert ReactionTable()[20] == Reaction("h2so4", ["so3", "h2o"], "h2so4");
    assert RecipeKeysOk(Reaction("h2so4", ["so3", "h2o"], "h2so4"), 20);
    assert RecipeInputsOk(Reaction("h2so4", ["so3", "h2o"], "h2so4"), 20);
  }

  lemma RecipeRow21()
    ensures RecipeKeysOk(ReactionTable()[21], 21) && RecipeInputsOk(ReactionTable()[21], 21)
  {
    assert ReactionTable()[21] == Reaction("hno3", ["no", "h2o", "o"], "hno3");
    assert RecipeKeysOk(Reaction("hno3", ["no", "h2o", "o"], "hno3"), 21);
    assert RecipeInputsOk(Reaction("hno3", ["no", "h2o", "o"], "hno3"), 21);
  }

  lemma RecipeRow22()
    ensures RecipeKeysOk(ReactionTable()[22], 22) && RecipeInputsOk(ReactionTable()[22], 22)
  {
    assert ReactionTable()[22] == Reaction("h3po4", ["p2o5", "h2o", "h2o", "h2o"], "h3po4");
    assert RecipeKeysOk(Reaction("h3po4", ["p2o5", "h2o", "h2o", "h2o"], "h3po4"), 22);
    assert RecipeInputsOk(Reaction("h3po4", ["p2o5", "h2o", "h2o", "h2o"], "h3po4"), 22);
  }

  lemma RecipeRow23()
    ensures RecipeKeysOk(ReactionTable()[23], 23) && RecipeInputsOk(ReactionTable()[23], 23)
  {
    assert ReactionTable()[23] == Reaction("h2co3", ["co2", "h2o"], "h2co3");
    assert RecipeKeysOk(Reaction("h2co3", ["co2", "h2o"], "h2co3"), 23);
    assert RecipeInputsOk(Reaction("h2co3", ["co2", "h2o"], "h2co3"), 23);
  }

  lemma RecipeRow24()
    ensures RecipeKeysOk(ReactionTable()[24], 24) && RecipeInputsOk(ReactionTable()[24], 24)
  {
    assert ReactionTable()[24] == Reaction("na2co3", ["h2co3", "naoh", "naoh"], "na2co3");
    assert RecipeKeysOk(Reaction("na2co3", ["h2co3", "naoh", "naoh"], "na2co3"), 24);
    assert RecipeInputsOk(Reaction("na2co3", ["h2co3", "naoh", "naoh"], "na2co3"), 24);
  }

  lemma RecipeRow25()
    ensures RecipeKeysOk(ReactionTable()[25], 25) && RecipeInputsOk(ReactionTable()[25], 25)
  {
    assert ReactionTable()[25] == Reaction("c2h2", ["co", "h", "h"], "c2h2");
    assert RecipeKeysOk(Reaction("c2h2", ["co", "h", "h"], "c2h2"), 25);
    assert RecipeInputsOk(Reaction("c2h2", ["co", "h", "h"], "c2h2"), 25);
  }

  lemma RecipeRow26()
    ensures RecipeKeysOk(ReactionTable()[26], 26) && RecipeInputsOk(ReactionTable()[26], 26)
  {
    assert ReactionTable()[26] == Reaction("c2h4", ["c2h2", "h", "h"], "c2h4");
    assert RecipeKeysOk(Reaction("c2h4", ["c2h2", "h", "h"], "c2h4"), 26);
    assert RecipeInputsOk(Reaction("c2h4", ["c2h2", "h", "h"], "c2h4"), 26);
  }

  lemma RecipeRow27()
    ensures RecipeKeysOk(ReactionTable()[27], 27) && RecipeInputsOk(ReactionTable()[27], 27)
  {
    assert ReactionTable()[27] == Reaction("c2h6o", ["c2h4", "h2o"], "c2h6o");
    assert RecipeKeysOk(Reaction("c2h6o", ["c2h4", "h2o"], "c2h6o"), 27);
    assert RecipeInputsOk(Reaction("c2h6o", ["c2h4", "h2o"], "c2h6o"), 27);
  }

  lemma RecipeRow28Literal()
    ensures ReactionTable()[28] == Reaction("c6h12o6", ["co2", "co2", "co2", "co2", "co2", "co2", "h2o", "h2o", "h2o", "h2o", "h2o", "h2o"], "c6h12o6")
  {
  }

  lemma RecipeKeys28Literal()
    ensures RecipeKeysOk(Reaction("c6h12o6", ["co2", "co2", "co2", "co2", "co2", "co2", "h2o", "h2o", "h2o", "h2o", "h2o", "h2o"], "c6h12o6"), 28)
  {
  }

  lemma RecipeResolve28Literal()
    ensures AllResolve(["co2", "co2", "co2", "co2", "co2", "co2", "h2o", "h2o", "h2o", "h2o", "h2o", "h2o"])
  {
  }

  lemma RecipeAvailable28Literal()
    ensures AllAvailableBefore(["co2", "co2", "co2", "co2", "co2", "co2", "h2o", "h2o", "h2o", "h2o", "h2o", "h2o"], 28)
  {
  }

  lemma RecipeKeys28()
    ensures RecipeKeysOk(ReactionTable()[28], 28)
  {
    RecipeRow28Literal();
    RecipeKeys28Literal();
  }

  lemma RecipeInputs28()
    ensures RecipeInputsOk(ReactionTable()[28], 28)
  {
    RecipeRow28Literal();
    RecipeResolve28Literal();
    RecipeAvailable28Literal();
  }

  // ---------------------------------------------------------------------------
  // Whole-table statements
  // ---------------------------------------------------------------------------

  lemma AllCompoundRows()
    ensures forall k :: 0 <= k < 40 ==> CompoundRowOk(CompoundTable()[k], k)
  {
    forall k | 0 <= k < 40
      ensures CompoundRowOk(CompoundTable()[k], k)
    {
      if k == 0 {
        CompoundRow0();
      } else if k == 1 {
        CompoundRow1();
      } else if k == 2 {
        CompoundRow2();
      } else if k == 3 {
        CompoundRow3();
      } else if k == 4 {
        CompoundRow4();
      } else if k == 5 {
        CompoundRow5();
      } else if k == 6 {
        CompoundRow6();
      } else if k == 7 {
        CompoundRow7();
      } else if k == 8 {
        CompoundRow8();
      } else if k == 9 {
        CompoundRow9();
      } else if k == 10 {
        CompoundRow10();
      } else if k == 11 {
        CompoundRow11();
      } else if k == 12 {
        CompoundRow12();
      } else if k == 13 {
        CompoundRow13();
      } else if k == 14 {
        CompoundRow14();
      } else if k == 15 {
        CompoundRow15();
      } else if k == 16 {
        CompoundRow16();
      } else if k == 17 {
        CompoundRow17();
      } else if k == 18 {
        CompoundRow18();
      } else if k == 19 {
        CompoundRow19();
      } else if k == 20 {
        CompoundRow20();
      } else if k == 21 {
        CompoundRow21();
      } else if k == 22 {
        CompoundRow22();
      } else if k == 23 {
        CompoundRow23();
      } else if k == 24 {
        CompoundRow24();
      } else if k == 25 {
        CompoundRow25();
      } else if k == 26 {
        CompoundRow26();
      } else if k == 27 {
        CompoundRow27();
      } else if k == 28 {
        CompoundRow28();
      } else if k == 29 {
        CompoundRow29();
      } else if k == 30 {
        CompoundRow30();
      } else if k == 31 {
        CompoundRow31();
      } else if k == 32 {
        CompoundRow32();
      } else if k == 33 {
        CompoundRow33();
      } else if k == 34 {
        CompoundRow34();
      } else if k == 35 {
        CompoundRow35();
      } else if k == 36 {
        CompoundRow36();
      } else if k == 37 {
        CompoundRow37();
      } else if k == 38 {
        CompoundRow38();
      } else {
        CompoundRow39();
      }
    }
  }

  lemma AllRecipeRows()
    ensures forall k :: 0 <= k < 29 ==>
      RecipeKeysOk(ReactionTable()[k], k) && RecipeInputsOk(ReactionTable()[k], k)
  {
    forall k | 0 <= k < 29
      ensures RecipeKeysOk(ReactionTable()[k], k) && RecipeInputsOk(ReactionTable()[k], k)
    {
      if k == 0 {
        RecipeRow0();
      } else if k == 1 {
        RecipeRow1();
      } else if k == 2 {
        RecipeRow2();
      } else if k == 3 {
        RecipeRow3();
      } else if k == 4 {
        RecipeRow4();
      } else if k == 5 {
        RecipeRow5();
      } else if k == 6 {
        RecipeRow6();
      } else if k == 7 {
        RecipeRow7();
      } else if k == 8 {
        RecipeRow8();
      } else if k == 9 {
        RecipeRow9();
      } else if k == 10 {
        RecipeRow10();
      } else if k == 11 {
        RecipeRow11();
      } else if k == 12 {
        RecipeRow12();
      } else if k == 13 {
        RecipeRow13();
      } else if k == 14 {
        RecipeRow14();
      } else if k == 15 {
        RecipeKeys15();
        RecipeInputs15();
      } else if k == 16 {
        RecipeRow16();
      } else if k == 17 {
        RecipeRow17();
      } else if k == 18 {
        RecipeRow18();
      } else if k == 19 {
        RecipeKeys19();
        RecipeInputs19();
      } else if k == 20 {
        RecipeRow20();
      } else if k == 21 {
        RecipeRow21();
      } else if k == 22 {
        RecipeRow22();
      } else if k == 23 {
        RecipeRow23();
      } else if k == 24 {
        RecipeRow24();
      } else if k == 25 {
        RecipeRow25();
      } else if k == 26 {
        RecipeRow26();
      } else if k == 27 {
        RecipeRow27();
      } else {
        RecipeKeys28();
        RecipeInputs28();
      }
    }
  }

  lemma {:induction false} AllResolveEach(ids: seq<string>)
    ensures AllResolve(ids) <==> forall i :: 0 <= i < |ids| ==> Resolves(ids[i])
  {
    if ids != [] {
      AllResolveEach(ids[1..]);
      assert forall i :: 0 < i < |ids| ==> ids[i] == ids[1..][i - 1];
    }
  }

  lemma {:induction false} AllAvailableBeforeEach(ids: seq<string>, k: nat)
    ensures AllAvailableBefore(ids, k) <==>
      forall i :: 0 <= i < |ids| ==> Producer(ids[i]) < k
  {
    if ids != [] {
      AllAvailableBeforeEach(ids[1..], k);
      assert forall i :: 0 < i < |ids| ==> ids[i] == ids[1..][i - 1];
    }
  }

  lemma Part0ElementCount()
    ensures CategorySize(CompoundsPart0(), "Element") == 8
  {
  }

  lemma Part1ElementCount()
    ensures CategorySize(CompoundsPart1(), "Element") == 0
  {
  }

  lemma Part2ElementCount()
    ensures CategorySize(CompoundsPart2(), "Element") == 3
  {
  }

  lemma Part3ElementCount()
    ensures CategorySize(CompoundsPart3(), "Element") == 0
  {
  }

  lemma Part0AcidCount()
    ensures CategorySize(CompoundsPart0(), "Acid") == 0
  {
  }

  lemma Part1AcidCount()
    ensures CategorySize(CompoundsPart1(), "Acid") == 3
  {
  }

  lemma Part2AcidCount()
    ensures CategorySize(CompoundsPart2(), "Acid") == 2
  {
  }

  lemma Part3AcidCount()
    ensures CategorySize(CompoundsPart3(), "Acid") == 0
  {
  }

  lemma Part0BaseCount()
    ensures CategorySize(CompoundsPart0(), "Base") == 0
  {
  }

  lemma Part1BaseCount()
    ensures CategorySize(CompoundsPart1(), "Base") == 3
  {
  }

  lemma Part2BaseCount()
    ensures CategorySize(CompoundsPart2(), "Base") == 2
  {
  }

  lemma Part3BaseCount()
    ensures CategorySize(CompoundsPart3(), "Base") == 0
  {
  }

  lemma Part0SaltCount()
    ensures CategorySize(CompoundsPart0(), "Salt") == 0
  {
  }

  lemma Part1SaltCount()
    ensures CategorySize(CompoundsPart1(), "Salt") == 2
  {
  }

  lemma Part2SaltCount()
    ensures CategorySize(CompoundsPart2(), "Salt") == 0
  {
  }

  lemma Part3SaltCount()
    ensures CategorySize(CompoundsPart3(), "Salt") == 3
  {
  }

  lemma Part0OrganicCount()
    ensures CategorySize(CompoundsPart0(), "Organic") == 0
  {
  }

  lemma Part1OrganicCount()
    ensures CategorySize(CompoundsPart1(), "Organic") == 2
  {
  }

  lemma Part2OrganicCount()
    ensures CategorySize(CompoundsPart2(), "Organic") == 3
  {
  }

  lemma Part3OrganicCount()
    ensures CategorySize(CompoundsPart3(), "Organic") == 0
  {
  }

  lemma Part0GasCount()
    ensures CategorySize(CompoundsPart0(), "Gas") == 1
  {
  }

  lemma Part1GasCount()
    ensures CategorySize(CompoundsPart1(), "Gas") == 0
  {
  }

  lemma Part2GasCount()
    ensures CategorySize(CompoundsPart2(), "Gas") == 0
  {
  }

  lemma Part3GasCount()
    ensures CategorySize(CompoundsPart3(), "Gas") == 4
  {
  }

}
