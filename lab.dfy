/**
 * The lab component: the reaction engine (`handleReaction`, `discoverCompound`) over a
 * session holding the compound list and the completed-reaction counter, and the lab's
 * own achievement rules and point totals.
 */
module Lab {
  import opened Optional
  import opened JsBuiltins
  import opened Catalog

  // ---------------------------------------------------------------------------
  // Matching a submission against the recipes
  // ---------------------------------------------------------------------------

  /**
   * The recipe test of `handleReaction`: the recipe's inputs and the submitted ids, each
   * sorted, have the same length and agree position by position.
   */
  predicate Matches(r: Reaction, ids: seq<string>)
  {
    var sortedInputs := Sort(r.inputs);
    var sortedIds := Sort(ids);
    |sortedInputs| == |sortedIds| &&
    forall i :: 0 <= i < |sortedInputs| ==> sortedInputs[i] == sortedIds[i]
  }

  /** A recipe matches exactly when its inputs and the ids are the same multiset. */
  lemma MatchesIffSameMultiset(r: Reaction, ids: seq<string>)
    ensures Matches(r, ids) <==> multiset(r.inputs) == multiset(ids)
  {
    if Matches(r, ids) {
      assert Sort(r.inputs) == Sort(ids);
    }
    if multiset(r.inputs) == multiset(ids) {
      SortDependsOnlyOnMultiset(r.inputs, ids);
    }
  }

  /** `recipes.find(r => Matches(r, ids))`. */
  function FindReaction(recipes: seq<Reaction>, ids: seq<string>): (r: Option<Reaction>)
    ensures r.Some? ==> r.value in recipes && multiset(r.value.inputs) == multiset(ids)
    ensures r.None? <==> forall k :: 0 <= k < |recipes| ==> multiset(recipes[k].inputs) != multiset(ids)
  {
    if recipes == [] then None
    else
      MatchesIffSameMultiset(recipes[0], ids);
      if Matches(recipes[0], ids) then Some(recipes[0])
      else
        var rest := FindReaction(recipes[1..], ids);
        assert forall k :: 0 < k < |recipes| ==> recipes[k] == recipes[1..][k - 1];
        rest
  }

  /** One step of the search: the head is taken exactly when it takes the same multiset of ids. */
  lemma FindReactionUnfold(recipes: seq<Reaction>, ids: seq<string>)
    requires recipes != []
    ensures FindReaction(recipes, ids) ==
      if multiset(recipes[0].inputs) == multiset(ids) then Some(recipes[0]) else FindReaction(recipes[1..], ids)
  {
    MatchesIffSameMultiset(recipes[0], ids);
  }

  /** `find` returns the first matching recipe: the one at the first position whose inputs match. */
  lemma {:induction false} FindReactionFirst(recipes: seq<Reaction>, ids: seq<string>, k: nat)
    requires k < |recipes| && multiset(recipes[k].inputs) == multiset(ids)
    requires forall j :: 0 <= j < k ==> multiset(recipes[j].inputs) != multiset(ids)
    ensures FindReaction(recipes, ids) == Some(recipes[k])
  {
    if k == 0 {
      FindReactionUnfold(recipes, ids);
    } else {
      var rest := recipes[1..];
      assert multiset(recipes[0].inputs) != multiset(ids);
      FindReactionUnfold(recipes, ids);
      assert FindReaction(recipes, ids) == FindReaction(rest, ids);
      forall j | 0 <= j < k - 1
        ensures multiset(rest[j].inputs) != multiset(ids)
      {
        assert rest[j] == recipes[j + 1];
      }
      assert rest[k - 1] == recipes[k];
      FindReactionFirst(rest, ids, k - 1);
    }
  }

  /**
   * When no two recipes take the same multiset of inputs, recipe `k` is found exactly for
   * the submissions whose multiset is its inputs'.
   */
  lemma FindReactionSelects(recipes: seq<Reaction>, ids: seq<string>, k: nat)
    requires forall i, j :: 0 <= i < |recipes| && 0 <= j < |recipes| ==>
      multiset(recipes[i].inputs) == multiset(recipes[j].inputs) ==> i == j
    requires k < |recipes|
    ensures FindReaction(recipes, ids) == Some(recipes[k]) <==> multiset(recipes[k].inputs) == multiset(ids)
  {
    if multiset(recipes[k].inputs) == multiset(ids) {
      FindReactionFirst(recipes, ids, k);
    }
  }

  /** The recipe found depends only on the multiset of submitted ids, not on their order. */
  lemma {:induction false} FindReactionOrderIndependent(recipes: seq<Reaction>, a: seq<string>, b: seq<string>)
    requires multiset(a) == multiset(b)
    ensures FindReaction(recipes, a) == FindReaction(recipes, b)
  {
    if recipes != [] {
      FindReactionUnfold(recipes, a);
      FindReactionUnfold(recipes, b);
      FindReactionOrderIndependent(recipes[1..], a, b);
    }
  }

  // ---------------------------------------------------------------------------
  // Discovery
  // ---------------------------------------------------------------------------

  /**
   * The list `discoverCompound(id)` stores: every entry with that id becomes discovered,
   * and nothing else changes.
   */
  function Discover(cs: seq<Compound>, id: string): (r: seq<Compound>)
    ensures |r| == |cs|
    ensures forall i :: 0 <= i < |cs| ==>
      r[i] == cs[i].(discovered := cs[i].discovered || cs[i].id == id)
  {
    if cs == [] then []
    else
      var head := if cs[0].id == id && !cs[0].discovered then cs[0].(discovered := true) else cs[0];
      var rest := Discover(cs[1..], id);
      assert forall i :: 0 < i < |cs| ==> ([head] + rest)[i] == rest[i - 1] && cs[i] == cs[1..][i - 1];
      [head] + rest
  }

  /** Discovering twice is discovering once. */
  lemma DiscoverIdempotent(cs: seq<Compound>, id: string)
    ensures Discover(Discover(cs, id), id) == Discover(cs, id)
  {
  }

  /** Discovery only ever switches entries from undiscovered to discovered. */
  lemma DiscoverGrows(cs: seq<Compound>, id: string)
    ensures Grows(cs, Discover(cs, id))
  {
  }

  /** With distinct ids, discovering an undiscovered entry changes that entry alone. */
  lemma DiscoverOne(cs: seq<Compound>, k: nat)
    requires DistinctIds(cs) && k < |cs|
    ensures Discover(cs, cs[k].id) == cs[k := cs[k].(discovered := true)]
  {
    var r, t := Discover(cs, cs[k].id), cs[k := cs[k].(discovered := true)];
    forall i | 0 <= i < |cs|
      ensures r[i] == t[i]
    {
      if i != k {
        assert cs[i].id != cs[k].id;
      }
    }
  }

  // ---------------------------------------------------------------------------
  // handleReaction as a function of the session state
  // ---------------------------------------------------------------------------

  /** The object `handleReaction` returns; `discoveredCompound` is `undefined` when absent. */
  datatype ReactionResult = ReactionResult(success: bool, message: string, discoveredCompound: Option<string>)

  /** What a reaction attempt leaves behind: the new session state and the returned result. */
  datatype Outcome = Outcome(compounds: seq<Compound>, completedReactions: nat, result: ReactionResult)

  function NoReaction(): ReactionResult
  {
    ReactionResult(false, "These compounds don't react together", None)
  }

  /**
   * One call of `handleReaction(ids)` on a session holding `compounds` and `completed`.
   * A match whose product is not in the list reports success, with the product's name
   * `undefined`, and changes nothing.
   */
  function Step(recipes: seq<Reaction>, compounds: seq<Compound>, completed: nat, ids: seq<string>): Outcome
  {
    match FindReaction(recipes, ids)
    case None => Outcome(compounds, completed, NoReaction())
    case Some(reaction) =>
      match FindById(compounds, reaction.output)
      case None => Outcome(compounds, completed, ReactionResult(true, "Created undefined!", None))
      case Some(product) =>
        var result := ReactionResult(true, "Created " + product.name + "!", Some(product.name));
        if !product.discovered then Outcome(Discover(compounds, reaction.output), completed + 1, result)
        else Outcome(compounds, completed + 1, result)
  }

  /** A reaction attempt succeeds exactly when some recipe takes the submitted multiset of ids. */
  lemma StepSucceedsIffRecipeExists(recipes: seq<Reaction>, compounds: seq<Compound>, completed: nat, ids: seq<string>)
    ensures Step(recipes, compounds, completed, ids).result.success <==>
      exists k :: 0 <= k < |recipes| && multiset(recipes[k].inputs) == multiset(ids)
  {
  }

  /** Reordering the submitted ids changes nothing about the attempt. */
  lemma StepOrderIndependent(recipes: seq<Reaction>, compounds: seq<Compound>, completed: nat, a: seq<string>, b: seq<string>)
    requires multiset(a) == multiset(b)
    ensures Step(recipes, compounds, completed, a) == Step(recipes, compounds, completed, b)
  {
    FindReactionOrderIndependent(recipes, a, b);
  }

  /** A failed attempt leaves the compounds and the counter alone and reports the failure message. */
  lemma StepFailureChangesNothing(recipes: seq<Reaction>, compounds: seq<Compound>, completed: nat, ids: seq<string>)
    ensures !Step(recipes, compounds, completed, ids).result.success ==>
      Step(recipes, compounds, completed, ids) == Outcome(compounds, completed, NoReaction())
  {
  }

  /**
   * A match whose product is undiscovered discovers exactly that compound, raises the
   * counter by one, and adds the product's points to the discovered points.
   */
  lemma StepNewDiscovery(recipes: seq<Reaction>, compounds: seq<Compound>, completed: nat, ids: seq<string>, k: nat)
    requires DistinctIds(compounds) && k < |compounds| && !compounds[k].discovered
    requires FindReaction(recipes, ids).Some? && FindReaction(recipes, ids).value.output == compounds[k].id
    ensures Step(recipes, compounds, completed, ids) == Outcome(
      compounds[k := compounds[k].(discovered := true)], completed + 1,
      ReactionResult(true, "Created " + compounds[k].name + "!", Some(compounds[k].name)))
    ensures DiscoveredCount(Step(recipes, compounds, completed, ids).compounds) == DiscoveredCount(compounds) + 1
    ensures DiscoveredPoints(Step(recipes, compounds, completed, ids).compounds) ==
      DiscoveredPoints(compounds) + compounds[k].points
  {
    FindByIdUnique(compounds, k);
    DiscoverOne(compounds, k);
    DiscoverAtCounts(compounds, k);
  }

  /** A match whose product is already discovered leaves the compounds alone and raises the counter by one. */
  lemma StepRepeat(recipes: seq<Reaction>, compounds: seq<Compound>, completed: nat, ids: seq<string>, k: nat)
    requires DistinctIds(compounds) && k < |compounds| && compounds[k].discovered
    requires FindReaction(recipes, ids).Some? && FindReaction(recipes, ids).value.output == compounds[k].id
    ensures Step(recipes, compounds, completed, ids) == Outcome(compounds, completed + 1,
      ReactionResult(true, "Created " + compounds[k].name + "!", Some(compounds[k].name)))
  {
    FindByIdUnique(compounds, k);
  }

  /** A match whose product is missing from the list reports success and changes nothing. */
  lemma StepMissingProduct(recipes: seq<Reaction>, compounds: seq<Compound>, completed: nat, ids: seq<string>)
    requires FindReaction(recipes, ids).Some?
    requires forall i :: 0 <= i < |compounds| ==> compounds[i].id != FindReaction(recipes, ids).value.output
    ensures Step(recipes, compounds, completed, ids) ==
      Outcome(compounds, completed, ReactionResult(true, "Created undefined!", None))
  {
  }

  /** An attempt only ever discovers compounds, and raises the counter by at most one. */
  lemma StepGrows(recipes: seq<Reaction>, compounds: seq<Compound>, completed: nat, ids: seq<string>)
    ensures Grows(compounds, Step(recipes, compounds, completed, ids).compounds)
    ensures completed <= Step(recipes, compounds, completed, ids).completedReactions <= completed + 1
  {
    match FindReaction(recipes, ids)
    case None =>
    case Some(reaction) =>
      DiscoverGrows(compounds, reaction.output);
  }

  /** So a list grown from `base` is still grown from `base` after a step. */
  lemma StepGrowsFrom(base: seq<Compound>, recipes: seq<Reaction>, compounds: seq<Compound>, completed: nat, ids: seq<string>)
    requires Grows(base, compounds)
    ensures Grows(base, Step(recipes, compounds, completed, ids).compounds)
  {
    StepGrows(recipes, compounds, completed, ids);
    GrowsTransitive(base, compounds, Step(recipes, compounds, completed, ids).compounds);
  }

  // ---------------------------------------------------------------------------
  // The lab's achievement rules and totals
  // ---------------------------------------------------------------------------

  function Min(a: nat, b: nat): (m: nat)
    ensures m <= a && m <= b && (m == a || m == b)
  {
    if a < b then a else b
  }

  /** The ids the lab's progress rules know; any other id falls to the default case. */
  predicate LabKnownId(id: string)
  {
    id in ["first_discovery", "element_master", "acid_master", "base_master", "salt_master",
           "organic_master", "gas_master", "reaction_novice", "reaction_expert",
           "reaction_master", "compound_collector", "chemistry_legend"]
  }

  /** `calculateAchievementProgress`, over the session's compounds and counter. */
  function LabProgress(id: string, cs: seq<Compound>, completed: nat, reactionCount: nat): nat
  {
    match id
    case "first_discovery" => Min(DiscoveredCount(cs), 1)
    case "element_master" => DiscoveredInCategory(cs, "Element")
    case "acid_master" => DiscoveredInCategory(cs, "Acid")
    case "base_master" => DiscoveredInCategory(cs, "Base")
    case "salt_master" => DiscoveredInCategory(cs, "Salt")
    case "organic_master" => DiscoveredInCategory(cs, "Organic")
    case "gas_master" => DiscoveredInCategory(cs, "Gas")
    case "reaction_novice" => Min(completed, 5)
    case "reaction_expert" => Min(completed, 20)
    case "reaction_master" => Min(completed, 50)
    case "compound_collector" => DiscoveredCount(cs)
    case "chemistry_legend" => Min(completed, reactionCount)
    case _ => 0
  }

  /** `getAchievementTarget`. */
  function LabTarget(id: string, cs: seq<Compound>, reactionCount: nat): nat
  {
    match id
    case "first_discovery" => 1
    case "element_master" => CategorySize(cs, "Element")
    case "acid_master" => CategorySize(cs, "Acid")
    case "base_master" => CategorySize(cs, "Base")
    case "salt_master" => CategorySize(cs, "Salt")
    case "organic_master" => CategorySize(cs, "Organic")
    case "gas_master" => CategorySize(cs, "Gas")
    case "reaction_novice" => 5
    case "reaction_expert" => 20
    case "reaction_master" => 50
    case "compound_collector" => |cs|
    case "chemistry_legend" => reactionCount
    case _ => 1
  }

  /** The lab counts an achievement as unlocked once its progress reaches its target. */
  predicate LabUnlocked(a: Achievement, cs: seq<Compound>, completed: nat, reactionCount: nat)
  {
    LabProgress(a.id, cs, completed, reactionCount) >= LabTarget(a.id, cs, reactionCount)
  }

  /** `achievements.filter(a => progress >= target)`. */
  function LabUnlockedList(achs: seq<Achievement>, cs: seq<Compound>, completed: nat, reactionCount: nat): (u: seq<Achievement>)
    ensures |u| <= |achs|
    ensures forall a :: a in u <==> a in achs && LabUnlocked(a, cs, completed, reactionCount)
    ensures forall a :: multiset(u)[a] == if LabUnlocked(a, cs, completed, reactionCount) then multiset(achs)[a] else 0
  {
    if achs == [] then []
    else
      var rest := LabUnlockedList(achs[1..], cs, completed, reactionCount);
      assert achs == [achs[0]] + achs[1..];
      assert forall a :: a in achs <==> a == achs[0] || a in achs[1..];
      if LabUnlocked(achs[0], cs, completed, reactionCount) then [achs[0]] + rest else rest
  }

  /** `achievementPoints`: the points of the unlocked achievements. */
  function LabAchievementPoints(achs: seq<Achievement>, cs: seq<Compound>, completed: nat, reactionCount: nat): (p: nat)
    ensures p <= AchievementPointsSum(achs)
  {
    if achs == [] then 0
    else
      (if LabUnlocked(achs[0], cs, completed, reactionCount) then achs[0].points else 0)
      + LabAchievementPoints(achs[1..], cs, completed, reactionCount)
  }

  /** The header's achievement points are exactly the points of the achievements it lists as unlocked. */
  lemma {:induction false} LabAchievementPointsIsSumOfUnlocked(achs: seq<Achievement>, cs: seq<Compound>, completed: nat, reactionCount: nat)
    ensures LabAchievementPoints(achs, cs, completed, reactionCount)
         == AchievementPointsSum(LabUnlockedList(achs, cs, completed, reactionCount))
  {
    if achs != [] {
      LabAchievementPointsIsSumOfUnlocked(achs[1..], cs, completed, reactionCount);
    }
  }

  /** The header's "Total Points": discovered compounds' points plus unlocked achievements' points. */
  function LabTotalPoints(achs: seq<Achievement>, cs: seq<Compound>, completed: nat, reactionCount: nat): (p: nat)
    ensures p <= PointsSum(cs) + AchievementPointsSum(achs)
  {
    DiscoveredPoints(cs) + LabAchievementPoints(achs, cs, completed, reactionCount)
  }

  /** Progress never exceeds the target, whatever the id. */
  lemma LabProgressWithinTarget(id: string, cs: seq<Compound>, completed: nat, reactionCount: nat)
    ensures LabProgress(id, cs, completed, reactionCount) <= LabTarget(id, cs, reactionCount)
  {
  }

  /** An id the rules do not know has progress 0 and target 1, so it is never unlocked. */
  lemma LabUnknownNeverUnlocked(a: Achievement, cs: seq<Compound>, completed: nat, reactionCount: nat)
    requires !LabKnownId(a.id)
    ensures LabProgress(a.id, cs, completed, reactionCount) == 0 && LabTarget(a.id, cs, reactionCount) == 1
    ensures !LabUnlocked(a, cs, completed, reactionCount)
  {
  }

  /** Discovering compounds and completing reactions never locks an unlocked achievement again. */
  lemma LabUnlockMonotone(a: Achievement, cs: seq<Compound>, cs': seq<Compound>, completed: nat, completed': nat, reactionCount: nat)
    requires Grows(cs, cs') && completed <= completed'
    requires LabUnlocked(a, cs, completed, reactionCount)
    ensures LabUnlocked(a, cs', completed', reactionCount)
  {
    GrowsCounts(cs, cs', "");
    match a.id
    case "element_master" => GrowsCounts(cs, cs', "Element");
    case "acid_master" => GrowsCounts(cs, cs', "Acid");
    case "base_master" => GrowsCounts(cs, cs', "Base");
    case "salt_master" => GrowsCounts(cs, cs', "Salt");
    case "organic_master" => GrowsCounts(cs, cs', "Organic");
    case "gas_master" => GrowsCounts(cs, cs', "Gas");
    case _ =>
  }

  /** The unlocked point sum never drops as the session advances. */
  lemma {:induction false} LabAchievementPointsMonotone(achs: seq<Achievement>, cs: seq<Compound>, cs': seq<Compound>, completed: nat, completed': nat, reactionCount: nat)
    requires Grows(cs, cs') && completed <= completed'
    ensures LabAchievementPoints(achs, cs, completed, reactionCount) <= LabAchievementPoints(achs, cs', completed', reactionCount)
  {
    if achs != [] {
      if LabUnlocked(achs[0], cs, completed, reactionCount) {
        LabUnlockMonotone(achs[0], cs, cs', completed, completed', reactionCount);
      }
      LabAchievementPointsMonotone(achs[1..], cs, cs', completed, completed', reactionCount);
    }
  }

  /** The displayed total never drops as the session advances. */
  lemma LabTotalMonotone(achs: seq<Achievement>, cs: seq<Compound>, cs': seq<Compound>, completed: nat, completed': nat, reactionCount: nat)
    requires Grows(cs, cs') && completed <= completed'
    ensures LabTotalPoints(achs, cs, completed, reactionCount) <= LabTotalPoints(achs, cs', completed', reactionCount)
  {
    GrowsCounts(cs, cs', "");
    LabAchievementPointsMonotone(achs, cs, cs', completed, completed', reactionCount);
  }

  /** No reaction attempt lowers the displayed total. */
  lemma StepNeverLowersTotal(recipes: seq<Reaction>, achs: seq<Achievement>, compounds: seq<Compound>, completed: nat, ids: seq<string>)
    ensures LabTotalPoints(achs, compounds, completed, |recipes|) <=
      LabTotalPoints(achs, Step(recipes, compounds, completed, ids).compounds,
        Step(recipes, compounds, completed, ids).completedReactions, |recipes|)
  {
    StepGrows(recipes, compounds, completed, ids);
    var o := Step(recipes, compounds, completed, ids);
    LabTotalMonotone(achs, compounds, o.compounds, completed, o.completedReactions, |recipes|);
  }

  // ---------------------------------------------------------------------------
  // The session
  // ---------------------------------------------------------------------------

  /** The lab's state: the compound list and the number of completed reactions. */
  class Session {
    /** The recipe table the lab matches against. */
    const recipes: seq<Reaction>
    var compounds: seq<Compound>
    var completedReactions: nat
    /** The compound list the session started from. */
    ghost const start: seq<Compound>

    /**
     * The session matches against the data file's recipe table, and its compound list is
     * the data file's list with some entries switched to discovered.
     */
    ghost predicate Valid()
      reads this
    {
      recipes == ReactionTable() && start == CompoundTable() && Grows(start, compounds)
    }

    /** A new session: the data file's tables and no completed reactions. */
    constructor ()
      ensures recipes == ReactionTable() && compounds == CompoundTable() && completedReactions == 0
      ensures Valid()
    {
      recipes := ReactionTable();
      compounds := CompoundTable();
      start := CompoundTable();
      completedReactions := 0;
    }

    /** `discoverCompound(id)`: rewrites the list entry by entry. */
    method DiscoverCompound(compoundId: string)
      modifies this
      ensures compounds == Discover(old(compounds), compoundId)
      ensures completedReactions == old(completedReactions)
    {
      ghost var before := compounds;
      var next: seq<Compound> := [];
      var i := 0;
      while i < |compounds|
        invariant 0 <= i <= |compounds| && |next| == i
        invariant forall j :: 0 <= j < i ==>
          next[j] == compounds[j].(discovered := compounds[j].discovered || compounds[j].id == compoundId)
      {
        var c := compounds[i];
        if c.id == compoundId && !c.discovered {
          next := next + [c.(discovered := true)];
        } else {
          next := next + [c];
        }
        i := i + 1;
      }
      compounds := next;
      DiscoverGrows(before, compoundId);
      if Grows(start, before) {
        GrowsTransitive(start, before, compounds);
      }
    }

    /** `handleReaction(compoundIds)`. */
    method HandleReaction(compoundIds: seq<string>) returns (result: ReactionResult)
      modifies this
      ensures Outcome(compounds, completedReactions, result) ==
        Step(recipes, old(compounds), old(completedReactions), compoundIds)
      ensures old(Valid()) ==> Valid()
    {
      ghost var before := compounds;
      ghost var completedBefore := completedReactions;
      var reaction := FindReaction(recipes, compoundIds);
      if reaction.Some? {
        var product := FindById(compounds, reaction.value.output);
        if product.Some? && !product.value.discovered {
          DiscoverCompound(reaction.value.output);
          completedReactions := completedReactions + 1;
        } else if product.Some? && product.value.discovered {
          completedReactions := completedReactions + 1;
        }
        if product.Some? {
          result := ReactionResult(true, "Created " + product.value.name + "!", Some(product.value.name));
        } else {
          result := ReactionResult(true, "Created undefined!", None);
        }
      } else {
        result := NoReaction();
      }
      if Grows(start, before) {
        StepGrowsFrom(start, recipes, before, completedBefore, compoundIds);
      }
    }
  }
}
