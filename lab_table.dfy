/**
 * The lab's reaction step on the data file's recipe table: which submissions succeed,
 * and a few worked cases.
 */
module LabTable {
  import opened Optional
  import opened Catalog
  import opened CatalogFacts
  import opened CatalogProperties
  import Lab

  /** Recipe `k` of the table is found exactly for the submissions with its multiset of inputs. */
  lemma TableSelects(ids: seq<string>, k: nat)
    requires k < 29
    ensures Lab.FindReaction(ReactionTable(), ids) == Some(ReactionTable()[k]) <==>
      multiset(ReactionTable()[k].inputs) == multiset(ids)
  {
    InputsDetermineRecipe();
    Lab.FindReactionSelects(ReactionTable(), ids, k);
  }

  /** A submission whose fingerprint names no recipe matches none of them. */
  lemma UnownedMatchesNothing(ids: seq<string>)
    requires RecipeOwner(ids) == -1
    ensures Lab.FindReaction(ReactionTable(), ids).None?
  {
    AllRecipeRows();
    forall k | 0 <= k < 29
      ensures multiset(ReactionTable()[k].inputs) != multiset(ids)
    {
      if multiset(ReactionTable()[k].inputs) == multiset(ids) {
        RecipeOwnerPermutation(ReactionTable()[k].inputs, ids);
      }
    }
  }

  /** Matching counts repetitions: one hydrogen and one oxygen make nothing. */
  lemma HydrogenOxygenMakesNothing()
    ensures Lab.FindReaction(ReactionTable(), ["h", "o"]).None?
  {
    assert RecipeOwner(["h", "o"]) == -1;
    UnownedMatchesNothing(["h", "o"]);
  }

  /** Two hydrogens and an oxygen, in any order, make water. */
  lemma WaterInAnyOrder(ids: seq<string>)
    requires multiset(ids) == multiset{"h", "h", "o"}
    ensures Lab.FindReaction(ReactionTable(), ids) == Some(ReactionTable()[0])
    ensures ReactionTable()[0].output == "h2o"
  {
    assert ReactionTable()[0].inputs == ["h", "h", "o"];
    assert multiset(ReactionTable()[0].inputs) == multiset{"h", "h", "o"};
    Lab.FindReactionFirst(ReactionTable(), ids, 0);
  }
}
