/**
 * The flask the lab renders. It behaves like the other flask, but a drop is refused once
 * three compounds are in it, so recipes with more than three inputs cannot be completed
 * through it.
 */
module Flask {
  import opened Optional
  import opened Catalog
  import opened JsBuiltins
  import opened CatalogFacts
  import opened CatalogProperties
  import Lab

  /** The most compounds the flask accepts. */
  const Capacity: nat := 3

  class ReactionFlask {
    /** `droppedCompounds`, in the order they were dropped. */
    var dropped: seq<Compound>

    /** The flask never holds more than `Capacity` compounds. */
    predicate Valid()
      reads this
    {
      |dropped| <= Capacity
    }

    /** A new flask is empty. */
    constructor ()
      ensures dropped == [] && Valid()
    {
      dropped := [];
    }

    /** `canReact`: the React button is enabled from two compounds on. */
    predicate CanReact()
      reads this
    {
      |dropped| >= 2
    }

    /**
     * `handleDrop`: adds the first compound of `compounds` with the dropped id, but only
     * while the flask holds fewer than three; otherwise nothing changes.
     */
    method HandleDrop(compounds: seq<Compound>, compoundId: string)
      modifies this
      ensures FindById(compounds, compoundId).Some? && |old(dropped)| < Capacity ==>
        dropped == old(dropped) + [FindById(compounds, compoundId).value]
      ensures FindById(compounds, compoundId).None? || |old(dropped)| >= Capacity ==>
        dropped == old(dropped)
      ensures old(Valid()) ==> Valid()
    {
      var compound := FindById(compounds, compoundId);
      if compound.Some? && |dropped| < Capacity {
        dropped := dropped + [compound.value];
      }
    }

    /** `removeCompound(index)`: drops exactly that position; any other index changes nothing. */
    method RemoveCompound(index: int)
      modifies this
      ensures 0 <= index < |old(dropped)| ==> dropped == old(dropped)[..index] + old(dropped)[index + 1..]
      ensures !(0 <= index < |old(dropped)|) ==> dropped == old(dropped)
      ensures old(Valid()) ==> Valid()
    {
      DropPositionRemovesExactlyOne(dropped, index);
      dropped := DropPosition(dropped, index);
    }

    /** `clearFlask`. */
    method ClearFlask()
      modifies this
      ensures dropped == [] && Valid()
    {
      dropped := [];
    }

    /**
     * The synchronous part of `performReaction`: below two compounds nothing happens and
     * nothing is submitted; otherwise the ids are submitted in flask order, the lab takes
     * its step, and the flask is emptied on success and kept on failure.
     */
    method PerformReaction(session: Lab.Session) returns (submitted: Option<seq<string>>)
      modifies this, session
      ensures !old(CanReact()) ==>
        submitted == None && dropped == old(dropped) &&
        session.compounds == old(session.compounds) &&
        session.completedReactions == old(session.completedReactions)
      ensures old(CanReact()) ==>
        submitted == Some(Ids(old(dropped))) &&
        var outcome := Lab.Step(session.recipes, old(session.compounds), old(session.completedReactions), Ids(old(dropped)));
        session.compounds == outcome.compounds &&
        session.completedReactions == outcome.completedReactions &&
        dropped == (if outcome.result.success then [] else old(dropped))
      ensures old(Valid()) ==> Valid()
      ensures old(session.Valid()) ==> session.Valid()
      ensures old(Valid() && session.Valid() && LongOutputsUndiscovered(session.compounds)) ==>
        LongOutputsUndiscovered(session.compounds)
    {
      if |dropped| < 2 {
        return None;
      }
      var ids := Ids(dropped);
      ghost var before := session.compounds;
      ghost var completed := session.completedReactions;
      ghost var wasValid := session.Valid();
      var result := session.HandleReaction(ids);
      if |ids| <= Capacity && wasValid && LongOutputsUndiscovered(before) {
        FlaskStepKeepsLongOutputsUndiscovered(session.recipes, before, completed, ids);
      }
      if result.success {
        dropped := [];
      }
      submitted := Some(ids);
    }
  }

  /**
   * When no two recipes share an output, a submission of at most three ids never selects
   * a recipe that makes the output of a recipe with more than three inputs.
   */
  lemma CappedSubmissionMisses(recipes: seq<Reaction>, ids: seq<string>, k: nat)
    requires forall i, j :: 0 <= i < j < |recipes| ==> recipes[i].output != recipes[j].output
    requires |ids| <= Capacity
    requires k < |recipes| && |recipes[k].inputs| > Capacity
    ensures Lab.FindReaction(recipes, ids).None? ||
      Lab.FindReaction(recipes, ids).value.output != recipes[k].output
  {
    var found := Lab.FindReaction(recipes, ids);
    if found.Some? {
      var j :| 0 <= j < |recipes| && recipes[j] == found.value;
      assert |found.value.inputs| == |multiset(found.value.inputs)| == |multiset(ids)| == |ids|;
      assert j != k;
    }
  }

  /**
   * So a lab step on at most three ids leaves the `discovered` flag of such a recipe's
   * output as it was.
   */
  lemma CappedStepKeeps(recipes: seq<Reaction>, cs: seq<Compound>, completed: nat, ids: seq<string>, k: nat)
    requires forall i, j :: 0 <= i < j < |recipes| ==> recipes[i].output != recipes[j].output
    requires |ids| <= Capacity
    requires k < |recipes| && |recipes[k].inputs| > Capacity
    ensures var after := Lab.Step(recipes, cs, completed, ids).compounds;
      |after| == |cs| &&
      forall i :: 0 <= i < |cs| && cs[i].id == recipes[k].output ==> after[i] == cs[i]
  {
    CappedSubmissionMisses(recipes, ids, k);
  }

  /**
   * Through this flask the lab's recipe table never discovers ammonia, methane, P2O5,
   * phosphoric acid or glucose: their recipes take more than three inputs.
   */
  lemma FlaskNeverDiscoversLongRecipeOutputs(cs: seq<Compound>, completed: nat, ids: seq<string>, k: nat)
    requires |ids| <= Capacity
    requires k in {14, 15, 19, 22, 28}
    ensures var after := Lab.Step(ReactionTable(), cs, completed, ids).compounds;
      |after| == |cs| &&
      forall i :: 0 <= i < |cs| && cs[i].id == ReactionTable()[k].output ==> after[i] == cs[i]
  {
    RecipeOutputsDistinct();
    LongRecipes();
    CappedStepKeeps(ReactionTable(), cs, completed, ids, k);
  }

  /** The compounds whose recipes take more than three inputs. */
  const LongOutputs: set<string> := {"nh3", "ch4", "p2o5", "h3po4", "c6h12o6"}

  /** No compound of `cs` whose id is in `outs` is discovered. */
  predicate NoneDiscovered(cs: seq<Compound>, outs: set<string>)
  {
    forall i :: 0 <= i < |cs| && cs[i].id in outs ==> !cs[i].discovered
  }

  /** None of the five is discovered in `cs`. */
  predicate LongOutputsUndiscovered(cs: seq<Compound>)
  {
    NoneDiscovered(cs, LongOutputs)
  }

  /**
   * A lab step on at most three ids keeps undiscovered every compound that only recipes
   * with more than three inputs make.
   */
  lemma CappedStepKeepsUndiscovered(recipes: seq<Reaction>, cs: seq<Compound>, completed: nat, ids: seq<string>, outs: set<string>)
    requires |ids| <= Capacity
    requires forall k :: 0 <= k < |recipes| && recipes[k].output in outs ==> |recipes[k].inputs| > Capacity
    requires NoneDiscovered(cs, outs)
    ensures NoneDiscovered(Lab.Step(recipes, cs, completed, ids).compounds, outs)
  {
    var found := Lab.FindReaction(recipes, ids);
    if found.Some? {
      var j :| 0 <= j < |recipes| && recipes[j] == found.value;
      assert |found.value.inputs| == |multiset(found.value.inputs)| == |multiset(ids)| == |ids|;
      assert found.value.output !in outs;
    }
  }

  /** In the recipe table only recipes with more than three inputs make the five. */
  lemma LongOutputsNeedLongRecipes()
    ensures forall k :: 0 <= k < |ReactionTable()| && ReactionTable()[k].output in LongOutputs ==>
      |ReactionTable()[k].inputs| > Capacity
  {
    TableLengths();
    LongRecipes();
    AllRecipeRows();
    forall k | 0 <= k < 29 && ReactionTable()[k].output in LongOutputs
      ensures |ReactionTable()[k].inputs| > Capacity
    {
      LongOutputProducer(ReactionTable()[k].output);
    }
  }

  /** The recipe rows that make the five. */
  lemma LongOutputProducer(id: string)
    requires id in LongOutputs
    ensures Producer(id) == 14 || Producer(id) == 15 || Producer(id) == 19 || Producer(id) == 22 || Producer(id) == 28
  {
  }

  /** A new session has discovered none of the five. */
  lemma InitialLongOutputsUndiscovered()
    ensures LongOutputsUndiscovered(CompoundTable())
  {
    TableLengths();
    AllCompoundRows();
    forall i | 0 <= i < 40 && CompoundTable()[i].id in LongOutputs
      ensures !CompoundTable()[i].discovered
    {
      LongOutputProducer(CompoundTable()[i].id);
    }
  }

  /** And a lab step on what this flask can hold discovers none of them. */
  lemma FlaskStepKeepsLongOutputsUndiscovered(recipes: seq<Reaction>, cs: seq<Compound>, completed: nat, ids: seq<string>)
    requires recipes == ReactionTable()
    requires |ids| <= Capacity && LongOutputsUndiscovered(cs)
    ensures LongOutputsUndiscovered(Lab.Step(recipes, cs, completed, ids).compounds)
  {
    LongOutputsNeedLongRecipes();
    CappedStepKeepsUndiscovered(recipes, cs, completed, ids, LongOutputs);
  }

  /** The recipes with more than three inputs: ammonia, methane, P2O5, phosphoric acid and glucose. */
  lemma LongRecipes()
    ensures ReactionTable()[14].output == "nh3" && |ReactionTable()[14].inputs| == 4
    ensures ReactionTable()[15].output == "ch4" && |ReactionTable()[15].inputs| == 5
    ensures ReactionTable()[19].output == "p2o5" && |ReactionTable()[19].inputs| == 7
    ensures ReactionTable()[22].output == "h3po4" && |ReactionTable()[22].inputs| == 4
    ensures ReactionTable()[28].output == "c6h12o6" && |ReactionTable()[28].inputs| == 12
  {
  }
}
