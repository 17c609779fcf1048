/**
 * The data file's tables are well formed. Each statement below is about the whole table
 * and follows from the row checks of `CatalogFacts`.
 */
module CatalogProperties {
  import opened Optional
  import opened Catalog
  import opened CatalogFacts

  /** Some recipe before row `k` of the recipe table produces `id`. */
  predicate MadeBefore(id: string, k: nat)
  {
    exists j :: 0 <= j < k && j < 29 && ReactionTable()[j].output == id
  }

  /** `id` names a compound discovered in the initial table. */
  predicate DiscoveredAtStart(id: string)
  {
    FindById(CompoundTable(), id).Some? && FindById(CompoundTable(), id).value.discovered
  }

  // ---------------------------------------------------------------------------
  // Ids and references
  // ---------------------------------------------------------------------------

  /** Compound ids are pairwise distinct. */
  lemma CompoundIdsDistinct()
    ensures DistinctIds(CompoundTable())
  {
    AllCompoundRows();
  }

  /** Recipe ids are pairwise distinct. */
  lemma RecipeIdsDistinct()
    ensures forall i, j :: 0 <= i < j < 29 ==> ReactionTable()[i].id != ReactionTable()[j].id
  {
    AllRecipeRows();
  }

  /** No two recipes have the same output. */
  lemma RecipeOutputsDistinct()
    ensures forall i, j :: 0 <= i < j < 29 ==> ReactionTable()[i].output != ReactionTable()[j].output
  {
    AllRecipeRows();
  }

  /** An id that passes the row check is found in the compound table, at its position. */
  lemma ResolvesFound(id: string)
    requires Resolves(id)
    ensures FindById(CompoundTable(), id) == Some(CompoundTable()[CatalogPosition(id)])
  {
    AllCompoundRows();
    CompoundIdsDistinct();
    FindByIdUnique(CompoundTable(), CatalogPosition(id));
  }

  /** Every recipe input and every recipe output names a compound of the table. */
  lemma RecipeReferencesResolve()
    ensures forall k :: 0 <= k < 29 ==> FindById(CompoundTable(), ReactionTable()[k].output).Some?
    ensures forall k, i :: 0 <= k < 29 && 0 <= i < |ReactionTable()[k].inputs| ==>
      FindById(CompoundTable(), ReactionTable()[k].inputs[i]).Some?
  {
    AllRecipeRows();
    forall k | 0 <= k < 29
      ensures FindById(CompoundTable(), ReactionTable()[k].output).Some?
    {
      ResolvesFound(ReactionTable()[k].output);
    }
    forall k, i | 0 <= k < 29 && 0 <= i < |ReactionTable()[k].inputs|
      ensures FindById(CompoundTable(), ReactionTable()[k].inputs[i]).Some?
    {
      AllResolveEach(ReactionTable()[k].inputs);
      ResolvesFound(ReactionTable()[k].inputs[i]);
    }
  }

  /** Every recipe takes at least two inputs, the flask's minimum, and never its own output. */
  lemma RecipeShape()
    ensures forall k :: 0 <= k < 29 ==>
      |ReactionTable()[k].inputs| >= 2 && ReactionTable()[k].output !in ReactionTable()[k].inputs
  {
    AllRecipeRows();
  }

  // ---------------------------------------------------------------------------
  // Recipes are told apart by the multiset of their inputs
  // ---------------------------------------------------------------------------

  lemma MulSwap(a: nat, b: nat, c: nat)
    ensures a * (b * c) == b * (a * c)
  {
    calc {
      a * (b * c);
      (a * b) * c;
      (b * a) * c;
      b * (a * c);
    }
  }

  /** Taking one id out of a list divides its fingerprint by that id's prime. */
  lemma {:induction false} FingerprintWithout(ids: seq<string>, i: nat)
    requires i < |ids|
    ensures Fingerprint(ids) == Prime(ids[i]) * Fingerprint(ids[..i] + ids[i + 1..])
  {
    if i == 0 {
      assert ids[..0] + ids[1..] == ids[1..];
    } else {
      var rest := ids[..i] + ids[i + 1..];
      FingerprintWithout(ids[1..], i - 1);
      assert ids[1..][..i - 1] + ids[1..][i..] == rest[1..];
      assert rest[0] == ids[0];
      assert Fingerprint(rest) == Prime(ids[0]) * Fingerprint(rest[1..]);
      assert Fingerprint(ids[1..]) == Prime(ids[i]) * Fingerprint(rest[1..]);
      MulSwap(Prime(ids[0]), Prime(ids[i]), Fingerprint(rest[1..]));
    }
  }

  /** The fingerprint depends only on the multiset of the ids. */
  lemma {:induction false} FingerprintPermutation(a: seq<string>, b: seq<string>)
    requires multiset(a) == multiset(b)
    ensures Fingerprint(a) == Fingerprint(b)
    decreases |a|
  {
    if a != [] {
      assert a[0] in multiset(b);
      var i :| 0 <= i < |b| && b[i] == a[0];
      assert b == b[..i] + [b[i]] + b[i + 1..];
      assert a == [a[0]] + a[1..];
      assert multiset(b) == multiset(b[..i]) + multiset{b[i]} + multiset(b[i + 1..]);
      assert multiset(a) == multiset{a[0]} + multiset(a[1..]);
      assert multiset(a[1..]) == multiset(a) - multiset{a[0]};
      assert multiset(b[..i] + b[i + 1..]) == multiset(b) - multiset{b[i]};
      FingerprintPermutation(a[1..], b[..i] + b[i + 1..]);
      FingerprintWithout(b, i);
    } else {
      assert |b| == |multiset(b)| == 0;
    }
  }

  /** The recipe that a list of inputs names depends only on their multiset. */
  lemma RecipeOwnerPermutation(a: seq<string>, b: seq<string>)
    requires multiset(a) == multiset(b)
    ensures RecipeOwner(a) == RecipeOwner(b)
  {
    assert |a| == |multiset(a)| == |multiset(b)| == |b|;
    FingerprintPermutation(a, b);
  }

  /** No two recipes take the same multiset of inputs, so a first-match lookup is unambiguous. */
  lemma InputsDetermineRecipe()
    ensures forall i, j :: 0 <= i < 29 && 0 <= j < 29 ==>
      multiset(ReactionTable()[i].inputs) == multiset(ReactionTable()[j].inputs) ==> i == j
  {
    AllRecipeRows();
    forall i, j | 0 <= i < 29 && 0 <= j < 29 &&
      multiset(ReactionTable()[i].inputs) == multiset(ReactionTable()[j].inputs)
      ensures i == j
    {
      RecipeOwnerPermutation(ReactionTable()[i].inputs, ReactionTable()[j].inputs);
    }
  }

  // ---------------------------------------------------------------------------
  // The initial state and reachability
  // ---------------------------------------------------------------------------

  /**
   * At the start exactly the elements are discovered; they are worth no points, and every
   * other compound is worth some.
   */
  lemma InitialDiscoveries()
    ensures forall k :: 0 <= k < 40 ==>
      (CompoundTable()[k].discovered <==> CompoundTable()[k].category == "Element")
    ensures forall k :: 0 <= k < 40 ==>
      (CompoundTable()[k].discovered ==> CompoundTable()[k].points == 0) &&
      (!CompoundTable()[k].discovered ==> CompoundTable()[k].points > 0)
  {
    AllCompoundRows();
  }

  /** Every compound not discovered at the start is the output of some recipe. */
  lemma EveryCompoundProduced()
    ensures forall k :: 0 <= k < 40 ==>
      CompoundTable()[k].discovered || MadeBefore(CompoundTable()[k].id, 29)
  {
    AllCompoundRows();
    AllRecipeRows();
    forall k | 0 <= k < 40 && !CompoundTable()[k].discovered
      ensures MadeBefore(CompoundTable()[k].id, 29)
    {
      var j := Producer(CompoundTable()[k].id);
      assert ReactionTable()[j].output == RecipeOutput(j) == CompoundTable()[k].id;
    }
  }

  /**
   * The recipes are listed in dependency order: each input of recipe `k` is discovered at
   * the start or made by a recipe listed before `k`.
   */
  lemma DependencyOrder()
    ensures forall k, i :: 0 <= k < 29 && 0 <= i < |ReactionTable()[k].inputs| ==>
      DiscoveredAtStart(ReactionTable()[k].inputs[i]) || MadeBefore(ReactionTable()[k].inputs[i], k)
  {
    AllRecipeRows();
    AllCompoundRows();
    forall k, i | 0 <= k < 29 && 0 <= i < |ReactionTable()[k].inputs|
      ensures DiscoveredAtStart(ReactionTable()[k].inputs[i]) || MadeBefore(ReactionTable()[k].inputs[i], k)
    {
      var x := ReactionTable()[k].inputs[i];
      AllResolveEach(ReactionTable()[k].inputs);
      AllAvailableBeforeEach(ReactionTable()[k].inputs, k);
      ResolvesFound(x);
      var p := CatalogPosition(x);
      if !CompoundTable()[p].discovered {
        var j := Producer(x);
        assert ReactionTable()[j].output == RecipeOutput(j) == x;
      }
    }
  }

  // ---------------------------------------------------------------------------
  // Table sizes
  // ---------------------------------------------------------------------------

  lemma CategorySizeByParts(category: string)
    ensures CategorySize(CompoundTable(), category) ==
      CategorySize(CompoundsPart0(), category) + CategorySize(CompoundsPart1(), category) +
      CategorySize(CompoundsPart2(), category) + CategorySize(CompoundsPart3(), category)
  {
    CategorySizeAppend(CompoundsPart0(), CompoundsPart1(), category);
    CategorySizeAppend(CompoundsPart0() + CompoundsPart1(), CompoundsPart2(), category);
    CategorySizeAppend(CompoundsPart0() + CompoundsPart1() + CompoundsPart2(), CompoundsPart3(), category);
  }

  /** 29 recipes, 40 compounds and 12 achievements. */
  lemma TableLengths()
    ensures |ReactionTable()| == 29 && |CompoundTable()| == 40 && |AchievementTable()| == 12
  {
  }

  lemma ElementCount()
    ensures CategorySize(CompoundTable(), "Element") == 11
  {
    CategorySizeByParts("Element");
    Part0ElementCount(); Part1ElementCount(); Part2ElementCount(); Part3ElementCount();
  }

  lemma AcidCount()
    ensures CategorySize(CompoundTable(), "Acid") == 5
  {
    CategorySizeByParts("Acid");
    Part0AcidCount(); Part1AcidCount(); Part2AcidCount(); Part3AcidCount();
  }

  lemma BaseCount()
    ensures CategorySize(CompoundTable(), "Base") == 5
  {
    CategorySizeByParts("Base");
    Part0BaseCount(); Part1BaseCount(); Part2BaseCount(); Part3BaseCount();
  }

  lemma SaltCount()
    ensures CategorySize(CompoundTable(), "Salt") == 5
  {
    CategorySizeByParts("Salt");
    Part0SaltCount(); Part1SaltCount(); Part2SaltCount(); Part3SaltCount();
  }

  lemma OrganicCount()
    ensures CategorySize(CompoundTable(), "Organic") == 5
  {
    CategorySizeByParts("Organic");
    Part0OrganicCount(); Part1OrganicCount(); Part2OrganicCount(); Part3OrganicCount();
  }

  lemma GasCount()
    ensures CategorySize(CompoundTable(), "Gas") == 5
  {
    CategorySizeByParts("Gas");
    Part0GasCount(); Part1GasCount(); Part2GasCount(); Part3GasCount();
  }
}
