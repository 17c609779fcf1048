/**
 * The achievements panel: its own progress and target rules, which know only five
 * achievement ids and count `reaction_expert` up to 10, and the unlocked count and
 * point sum it displays.
 */
module AchievementsPanel {
  import opened Catalog
  import Lab

  /** The ids the panel's rules know; any other id falls to the default case. */
  predicate PanelKnownId(id: string)
  {
    id in ["first_discovery", "element_master", "acid_master", "reaction_expert", "compound_collector"]
  }

  /** `calculateProgress`. */
  function CalculateProgress(id: string, cs: seq<Compound>, completed: nat): nat
  {
    match id
    case "first_discovery" => Lab.Min(DiscoveredCount(cs), 1)
    case "element_master" => DiscoveredInCategory(cs, "Element")
    case "acid_master" => DiscoveredInCategory(cs, "Acid")
    case "reaction_expert" => Lab.Min(completed, 10)
    case "compound_collector" => DiscoveredCount(cs)
    case _ => 0
  }

  /** `getRequirementTarget`. */
  function RequirementTarget(id: string, cs: seq<Compound>): nat
  {
    match id
    case "first_discovery" => 1
    case "element_master" => CategorySize(cs, "Element")
    case "acid_master" => CategorySize(cs, "Acid")
    case "reaction_expert" => 10
    case "compound_collector" => |cs|
    case _ => 1
  }

  /** `isUnlocked`: progress has reached the target. */
  predicate IsUnlocked(a: Achievement, cs: seq<Compound>, completed: nat)
  {
    CalculateProgress(a.id, cs, completed) >= RequirementTarget(a.id, cs)
  }

  /** `achievements.filter(a => isUnlocked(a))`. */
  function UnlockedList(achs: seq<Achievement>, cs: seq<Compound>, completed: nat): (u: seq<Achievement>)
    ensures |u| <= |achs|
    ensures forall a :: a in u <==> a in achs && IsUnlocked(a, cs, completed)
    ensures forall a :: multiset(u)[a] == if IsUnlocked(a, cs, completed) then multiset(achs)[a] else 0
  {
    if achs == [] then []
    else
      var rest := UnlockedList(achs[1..], cs, completed);
      assert achs == [achs[0]] + achs[1..];
      assert forall a :: a in achs <==> a == achs[0] || a in achs[1..];
      if IsUnlocked(achs[0], cs, completed) then [achs[0]] + rest else rest
  }

  /** The "Achievement Points" figure: the points of the unlocked achievements. */
  function UnlockedPoints(achs: seq<Achievement>, cs: seq<Compound>, completed: nat): (p: nat)
    ensures p <= AchievementPointsSum(achs)
  {
    if achs == [] then 0
    else
      (if IsUnlocked(achs[0], cs, completed) then achs[0].points else 0)
      + UnlockedPoints(achs[1..], cs, completed)
  }

  /** The panel's earned points are exactly the points of the achievements it shows as unlocked. */
  lemma {:induction false} UnlockedPointsIsSumOfUnlocked(achs: seq<Achievement>, cs: seq<Compound>, completed: nat)
    ensures UnlockedPoints(achs, cs, completed) == AchievementPointsSum(UnlockedList(achs, cs, completed))
  {
    if achs != [] {
      UnlockedPointsIsSumOfUnlocked(achs[1..], cs, completed);
    }
  }

  /** Progress never exceeds the target, whatever the id. */
  lemma ProgressWithinTarget(id: string, cs: seq<Compound>, completed: nat)
    ensures CalculateProgress(id, cs, completed) <= RequirementTarget(id, cs)
  {
  }

  /** An id other than the five known ones has progress 0 and target 1, so it is never unlocked. */
  lemma UnknownNeverUnlocked(a: Achievement, cs: seq<Compound>, completed: nat)
    requires !PanelKnownId(a.id)
    ensures CalculateProgress(a.id, cs, completed) == 0 && RequirementTarget(a.id, cs) == 1
    ensures !IsUnlocked(a, cs, completed)
  {
  }

  /** `reaction_expert` is unlocked exactly from the tenth completed reaction on. */
  lemma ReactionExpertUnlockedIff(a: Achievement, cs: seq<Compound>, completed: nat)
    requires a.id == "reaction_expert"
    ensures IsUnlocked(a, cs, completed) <==> completed >= 10
  {
  }

  /**
   * `element_master` (`acid_master`) is unlocked exactly when every element (acid) is
   * discovered; with none in the list it is unlocked from the start.
   */
  lemma CategoryMasterUnlockedIff(a: Achievement, cs: seq<Compound>, completed: nat, category: string)
    requires (a.id == "element_master" && category == "Element") || (a.id == "acid_master" && category == "Acid")
    ensures IsUnlocked(a, cs, completed) <==>
      forall i :: 0 <= i < |cs| && cs[i].category == category ==> cs[i].discovered
  {
    CategoryComplete(cs, category);
  }

  /** `compound_collector` is unlocked exactly when every compound is discovered. */
  lemma CompoundCollectorUnlockedIff(a: Achievement, cs: seq<Compound>, completed: nat)
    requires a.id == "compound_collector"
    ensures IsUnlocked(a, cs, completed) <==> forall i :: 0 <= i < |cs| ==> cs[i].discovered
  {
    DiscoveredCountFull(cs);
  }

  /** The unlocked count is at most the number of achievements, the unlocked points at most their total. */
  lemma UnlockedBounds(achs: seq<Achievement>, cs: seq<Compound>, completed: nat)
    ensures |UnlockedList(achs, cs, completed)| <= |achs|
    ensures UnlockedPoints(achs, cs, completed) <= AchievementPointsSum(achs)
  {
  }

  /** Discovering compounds and completing reactions never locks an unlocked achievement again. */
  lemma UnlockMonotone(a: Achievement, cs: seq<Compound>, cs': seq<Compound>, completed: nat, completed': nat)
    requires Grows(cs, cs') && completed <= completed'
    requires IsUnlocked(a, cs, completed)
    ensures IsUnlocked(a, cs', completed')
  {
    GrowsCounts(cs, cs', "");
    match a.id
    case "element_master" => GrowsCounts(cs, cs', "Element");
    case "acid_master" => GrowsCounts(cs, cs', "Acid");
    case _ =>
  }

  /**
   * The panel and the lab's header disagree on `reaction_expert`: with ten completed
   * reactions the panel shows it unlocked and the header does not count it.
   */
  lemma ReactionExpertRulesDisagree(a: Achievement, cs: seq<Compound>, reactionCount: nat)
    requires a.id == "reaction_expert"
    ensures IsUnlocked(a, cs, 10) && !Lab.LabUnlocked(a, cs, 10, reactionCount)
  {
  }

  /** The panel never shows `salt_master` unlocked, whatever the lab's header counts. */
  lemma SaltMasterNeverShown(a: Achievement, cs: seq<Compound>, completed: nat)
    requires a.id == "salt_master"
    ensures !IsUnlocked(a, cs, completed)
  {
  }
}
