# Virtual chemistry lab — a verified model of its game logic

The lab is a browser game. The player drops compounds they have already discovered into a
flask and presses React. The lab sorts the submitted ids and compares them with each
recipe's sorted inputs. If a recipe matches, its product becomes discovered and a counter of
completed reactions goes up.

Two sets of achievement rules read the compounds and the counter:

- the lab's header uses one set for its "Total Points" and "Achievements" figures;
- the achievements panel uses its own five-rule set.

An inventory tab filters the compounds by search term, category and a "discovered only"
toggle.

The model has these parts:

- `Catalog` (compounds.dfy): the `Compound`, `Reaction` and `Achievement` records, the three
  tables from the data file, and the counting queries over a list of compounds.
- `CatalogFacts` and `CatalogProperties` (catalog_facts.dfy, catalog_properties.dfy): the
  tables are well formed. Ids are distinct and every reference resolves. No two recipes take
  the same multiset of inputs or share an output. The recipes are listed in dependency order,
  and every compound not discovered at the start is the output of some recipe in the table
  (`CatalogProperties.EveryCompoundProduced`). The category sizes are proved too. `CatalogFacts` checks
  each row against a few small lookup functions.
  - `RecipeOwner` maps a multiset of ids to the one recipe that takes it. It uses a
    prime-product fingerprint.
- `JsBuiltins` (js_builtins.dfy): the JavaScript built-ins the logic relies on:
  - the default string `sort`;
  - an ASCII `toLowerCase`;
  - `includes`;
  - `filter` by position;
  - the insertion-ordered `new Set(...)`.
- `Lab` (lab.dfy): `handleReaction` and `discoverCompound`.
  - A pure `Step` function says what one attempt does to the session.
  - The `Session` class holds `compounds` and `completedReactions`. It modifies them in methods
    that are proved to follow `Step`. Its `Valid` predicate says that it matches against the
    recipe table and that its compound list is the data file's list with some entries
    switched to discovered; the constructor establishes it and every method keeps it.
  - The header's achievement rules and totals also live here.
- `LabTable` (lab_table.dfy): the reaction step on the real recipe table.
- `AchievementsPanel` (achievements_panel.dfy): the panel's five rules, its unlocked count and
  its point sum. It is kept apart from the lab's rules because they differ.
- `FlaskRef` and `Flask` (flask_ref.dfy, flask.dfy): the two flask components. Each is a
  class over a `seq<Compound>` buffer. `ReactionFlask.tsx` is the one the lab imports. It caps
  the flask at three compounds.
- `DiscoveryTab` (discovery_tab.dfy): the category list, the filtered view and the header
  figures.

Clocks, sounds, toasts and rendering are left out. A reaction attempt is one atomic step, and
the flask's `performReaction` is modelled without its 1.5 s delay.

Some behaviours of the code are worth stating outright:

- **Missing product.** When a recipe matches but its product is not in the compound list,
  `handleReaction` still reports success (`"Created undefined!"`, no discovered name). It
  changes nothing and does not raise the counter (`Lab.StepMissingProduct`). With the
  shipped tables this cannot arise (`CatalogProperties.RecipeReferencesResolve`).
- **Short submissions.** A submission of fewer than two ids has no outcome of its own; it
  simply fails to match (`Lab.StepSucceedsIffRecipeExists`). The flasks do not submit one.
- **Result shape.** The result is `{success, message, discoveredCompound}`.
- **`chemistry_legend`.** Its rule is `min(completedReactions, reactions.length)` against
  `reactions.length`. It is not a meta-rule over the other achievements, whatever its
  requirement text says.

The data and the rules disagree in several places. These are recorded here as observations,
with the lemmas that establish the table side:

- The salt, organic and gas requirement texts say "all 6". Each of those categories has 5
  compounds (`CatalogProperties.SaltCount`, `OrganicCount`, `GasCount`).
- `reaction_expert`'s text says 15 reactions. The header's rule needs 20 and the panel's needs
  10, so with ten completed reactions the panel shows it unlocked and the header does not
  count it (`AchievementsPanel.ReactionExpertRulesDisagree`).
- The panel knows only five achievement ids, so it never shows `salt_master` and the other six
  as unlocked (`AchievementsPanel.SaltMasterNeverShown`).
- `reaction_master`'s text says "all 29 reactions", but its target is 50 completed reactions.
  Repeats count, so it is still reachable.
- The lab's flask accepts at most three compounds. So five recipes that take more than three
  inputs can never be completed through it: ammonia (4 inputs), methane (5), P2O5 (7),
  phosphoric acid (4) and glucose (12). A new session has discovered none of the five
  (`Flask.InitialLongOutputsUndiscovered`), and `Flask.ReactionFlask.PerformReaction` keeps
  them undiscovered for any valid session it is handed, so a game played through this flask
  never discovers them.

## Model

| member | source | states |
|---|---|---|
| Catalog.CompoundTable | src/data/compounds.ts:34-546 | the compound table, in file order, has 40 entries |
| Catalog.ReactionTable | src/data/compounds.ts:548-753 | the recipe table, in file order, has 29 entries |
| Catalog.AchievementTable | src/data/compounds.ts:755-852 | the achievement table has 12 entries |
| Catalog.FindById | src/components/VirtualChemistryLab.tsx:291 | `find` by id returns an entry with that id, and returns nothing exactly when no entry has it |
| Catalog.FindByIdFirst | src/components/VirtualChemistryLab.tsx:291 | the entry found is the first with that id |
| Catalog.FindByIdUnique | src/components/VirtualChemistryLab.tsx:291 | with distinct ids, `find` returns the one entry carrying the id |
| Catalog.DiscoveredCount | src/components/VirtualChemistryLab.tsx:329 | the discovered count is at most the list length |
| Catalog.CategorySize | src/components/VirtualChemistryLab.tsx:57-70 | a category's size is at most the list length |
| Catalog.DiscoveredInCategory | src/components/VirtualChemistryLab.tsx:26-37 | the discovered count of a category is at most its size and at most the discovered count |
| Catalog.DiscoveredPoints | src/components/VirtualChemistryLab.tsx:328 | the discovered compounds' points are at most the points of all compounds |
| Catalog.Ids | src/components/ReactionFlask.tsx:45 | `map(c => c.id)` keeps the length and gives each entry's id at its position |
| Catalog.DiscoveredCountFull | src/components/VirtualChemistryLab.tsx:44-76 | the discovered count equals the length exactly when every compound is discovered |
| Catalog.CategoryComplete | src/components/VirtualChemistryLab.tsx:26-70 | a category's discovered count equals its size exactly when each of its compounds is discovered |
| Catalog.CategorySizeAppend | src/data/compounds.ts:34-546 | counting a category over two lists end to end adds the two counts |
| Catalog.DiscoverAtCounts | src/components/VirtualChemistryLab.tsx:246-277 | discovering entry k raises the count by one and the points by its points when it was undiscovered, and otherwise changes neither |
| Catalog.GrowsTransitive | src/components/VirtualChemistryLab.tsx:246-277 | "only discovers, changes nothing else" composes |
| Catalog.GrowsCounts | src/components/VirtualChemistryLab.tsx:21-82 | under growth the discovered count, each category's discovered count and the points never drop, and category sizes stay the same |
| CatalogProperties.CompoundIdsDistinct | src/data/compounds.ts:34-546 | compound ids are pairwise distinct |
| CatalogProperties.RecipeIdsDistinct | src/data/compounds.ts:548-753 | recipe ids are pairwise distinct |
| CatalogProperties.RecipeOutputsDistinct | src/data/compounds.ts:548-753 | no two recipes share an output |
| CatalogProperties.ResolvesFound | src/data/compounds.ts:34-546 | an id that passes the row check is found in the compound table at its position |
| CatalogProperties.RecipeReferencesResolve | src/data/compounds.ts:548-753 | every recipe input and output names a compound of the table |
| CatalogProperties.RecipeShape | src/data/compounds.ts:548-753 | every recipe takes at least two inputs and never its own output |
| CatalogProperties.FingerprintWithout | src/data/compounds.ts:548-753 | taking one id out divides the fingerprint by that id's prime |
| CatalogProperties.FingerprintPermutation | src/data/compounds.ts:548-753 | the fingerprint depends only on the multiset of ids |
| CatalogProperties.RecipeOwnerPermutation | src/data/compounds.ts:548-753 | the recipe a multiset names does not depend on the order of the ids |
| CatalogProperties.InputsDetermineRecipe | src/data/compounds.ts:548-753 | two recipes with the same input multiset are the same recipe |
| CatalogProperties.InitialDiscoveries | src/data/compounds.ts:34-546 | initially exactly the elements are discovered; they are worth 0 points, every other compound more than 0 |
| CatalogProperties.EveryCompoundProduced | src/data/compounds.ts:34-753 | every compound not discovered at the start is some recipe's output |
| CatalogProperties.DependencyOrder | src/data/compounds.ts:548-753 | each recipe's inputs are discovered at the start or made by an earlier recipe |
| CatalogProperties.CategorySizeByParts | src/data/compounds.ts:34-546 | a category's size over the table is the sum over its four parts |
| CatalogProperties.TableLengths | src/data/compounds.ts:34-852 | 29 recipes, 40 compounds, 12 achievements (the 29 of the text at line 832) |
| CatalogProperties.ElementCount | src/data/compounds.ts:768 | 11 elements, as the requirement text says |
| CatalogProperties.AcidCount | src/data/compounds.ts:776 | 5 acids, as the requirement text says |
| CatalogProperties.BaseCount | src/data/compounds.ts:784 | 5 bases, as the requirement text says |
| CatalogProperties.SaltCount | src/data/compounds.ts:792 | 5 salts, one fewer than the requirement text's 6 |
| CatalogProperties.OrganicCount | src/data/compounds.ts:800 | 5 organic compounds, one fewer than the text's 6 |
| CatalogProperties.GasCount | src/data/compounds.ts:808 | 5 gases, one fewer than the text's 6 |
| JsBuiltins.Sort | src/components/VirtualChemistryLab.tsx:283-284 | `[...s].sort()` returns a sorted permutation of its input |
| JsBuiltins.Insert | src/components/VirtualChemistryLab.tsx:283-284 | inserting adds exactly that element to the multiset |
| JsBuiltins.InsertSorted | src/components/VirtualChemistryLab.tsx:283-284 | inserting into a sorted list keeps it sorted |
| JsBuiltins.SortedUnique | src/components/VirtualChemistryLab.tsx:285-286 | two sorted lists with the same multiset are equal |
| JsBuiltins.SortDependsOnlyOnMultiset | src/components/VirtualChemistryLab.tsx:283-286 | sorting two lists with the same multiset gives the same list |
| JsBuiltins.StrLeTotal | src/components/VirtualChemistryLab.tsx:283-284 | the default string order is total |
| JsBuiltins.StrLeAntisymmetric | src/components/VirtualChemistryLab.tsx:283-284 | the default string order is antisymmetric |
| JsBuiltins.StrLeTransitive | src/components/VirtualChemistryLab.tsx:283-284 | the default string order is transitive |
| JsBuiltins.Lower | src/components/DiscoveryTab.tsx:24-25 | lower-casing keeps the length and folds each character |
| JsBuiltins.LowerIdempotent | src/components/DiscoveryTab.tsx:24-25 | lower-casing twice is lower-casing once |
| JsBuiltins.IncludesEmpty | src/components/DiscoveryTab.tsx:15-25 | every string includes the empty string |
| JsBuiltins.DropPositionRemovesExactlyOne | src/components/ReactionFlaskRef.tsx:47-49 | filtering out position i removes exactly that position and keeps the rest in order; an out-of-range i removes nothing |
| JsBuiltins.DedupMembers | src/components/DiscoveryTab.tsx:20 | the de-duplicated list has exactly the elements of the input |
| JsBuiltins.DedupDistinct | src/components/DiscoveryTab.tsx:20 | the de-duplicated list holds each element once |
| JsBuiltins.DedupFirstAppearanceOrder | src/components/DiscoveryTab.tsx:20 | the de-duplicated list follows the order of first appearance |
| Lab.MatchesIffSameMultiset | src/components/VirtualChemistryLab.tsx:282-287 | equal sorted lists of equal length means equal multisets, and conversely |
| Lab.FindReaction | src/components/VirtualChemistryLab.tsx:282-287 | a found recipe is in the table and takes the submitted multiset; nothing is found exactly when no recipe takes it |
| Lab.FindReactionFirst | src/components/VirtualChemistryLab.tsx:282-287 | `find` returns the first recipe whose inputs match |
| Lab.FindReactionSelects | src/components/VirtualChemistryLab.tsx:282-287 | with unambiguous recipes, recipe k is found exactly for submissions with its multiset |
| Lab.FindReactionOrderIndependent | src/components/VirtualChemistryLab.tsx:282-287 | permuting the submitted ids selects the same recipe |
| Lab.Discover | src/components/VirtualChemistryLab.tsx:245-278 | entries with the id become discovered, every other field and entry stays the same |
| Lab.DiscoverIdempotent | src/components/VirtualChemistryLab.tsx:247 | discovering twice is discovering once |
| Lab.DiscoverGrows | src/components/VirtualChemistryLab.tsx:246-277 | discovery never switches a compound back to undiscovered |
| Lab.DiscoverOne | src/components/VirtualChemistryLab.tsx:246-277 | with distinct ids, discovery changes exactly the one entry |
| Lab.StepSucceedsIffRecipeExists | src/components/VirtualChemistryLab.tsx:280-325 | an attempt succeeds exactly when some recipe takes the submitted multiset |
| Lab.StepOrderIndependent | src/components/VirtualChemistryLab.tsx:282-287 | an attempt's whole outcome does not depend on the order of the ids |
| Lab.StepFailureChangesNothing | src/components/VirtualChemistryLab.tsx:313-324 | a failed attempt changes nothing and returns the failure message |
| Lab.StepNewDiscovery | src/components/VirtualChemistryLab.tsx:291-312 | a match with an undiscovered product discovers exactly it, adds one to the counter, adds its points once and reports its name |
| Lab.StepRepeat | src/components/VirtualChemistryLab.tsx:301-312 | a match with a discovered product only adds one to the counter |
| Lab.StepMissingProduct | src/components/VirtualChemistryLab.tsx:291-312 | a match with an absent product reports success with no name and changes nothing |
| Lab.StepGrows | src/components/VirtualChemistryLab.tsx:280-325 | an attempt only discovers and raises the counter by at most one |
| Lab.StepGrowsFrom | src/components/VirtualChemistryLab.tsx:280-325 | a list grown from some starting list is still grown from it after an attempt |
| Lab.Min | src/components/VirtualChemistryLab.tsx:25 | `Math.min` is at most both arguments and equals one |
| Lab.LabProgressWithinTarget | src/components/VirtualChemistryLab.tsx:21-82 | progress never exceeds target, for every id |
| Lab.LabUnknownNeverUnlocked | src/components/VirtualChemistryLab.tsx:48-80 | an unknown id has progress 0 and target 1 and is never unlocked |
| Lab.LabUnlockedList | src/components/VirtualChemistryLab.tsx:376-380 | the unlocked list holds each unlocked achievement as often as the table does and nothing else, and is no longer than the table |
| Lab.LabAchievementPoints | src/components/VirtualChemistryLab.tsx:329-334 | the unlocked achievements' points are at most the sum over all achievements |
| Lab.LabAchievementPointsIsSumOfUnlocked | src/components/VirtualChemistryLab.tsx:329-334 | the header's achievement points are the point sum of exactly its unlocked list |
| Lab.LabTotalPoints | src/components/VirtualChemistryLab.tsx:328-363 | the displayed total is at most all compound points plus all achievement points |
| Lab.LabUnlockMonotone | src/components/VirtualChemistryLab.tsx:21-82 | discovering more or completing more never locks an achievement again |
| Lab.LabAchievementPointsMonotone | src/components/VirtualChemistryLab.tsx:329-334 | the unlocked points never drop as the session advances |
| Lab.LabTotalMonotone | src/components/VirtualChemistryLab.tsx:328-363 | the displayed total never drops as the session advances |
| Lab.StepNeverLowersTotal | src/components/VirtualChemistryLab.tsx:280-335 | no reaction attempt lowers the displayed total |
| Lab.Session.constructor | src/components/VirtualChemistryLab.tsx:13-16 | a session starts from the data file's tables with no completed reactions, and is valid |
| Lab.Session.DiscoverCompound | src/components/VirtualChemistryLab.tsx:245-278 | rewrites the list entry by entry to `Discover` of the old list; the counter is untouched; a valid session stays valid |
| Lab.Session.HandleReaction | src/components/VirtualChemistryLab.tsx:280-325 | the new compounds, counter and result are exactly `Step` on the old state; a valid session stays valid |
| LabTable.TableSelects | src/components/VirtualChemistryLab.tsx:282-287 | on the real table, recipe k is found exactly for submissions with its multiset |
| LabTable.UnownedMatchesNothing | src/components/VirtualChemistryLab.tsx:282-287 | a submission whose fingerprint names no recipe matches nothing |
| LabTable.HydrogenOxygenMakesNothing | src/components/VirtualChemistryLab.tsx:285-286 | matching counts repetitions: `h, o` matches no recipe |
| LabTable.WaterInAnyOrder | src/components/VirtualChemistryLab.tsx:282-287 | two `h` and one `o`, in any order, select the water recipe |
| AchievementsPanel.UnlockedList | src/components/Achievements.tsx:163 | the unlocked list holds each unlocked achievement as often as the table does and nothing else, and is no longer than the table |
| AchievementsPanel.UnlockedPoints | src/components/Achievements.tsx:171 | the unlocked points are at most the sum over all achievements |
| AchievementsPanel.UnlockedPointsIsSumOfUnlocked | src/components/Achievements.tsx:171 | the panel's earned points are the point sum of exactly its unlocked list |
| AchievementsPanel.ProgressWithinTarget | src/components/Achievements.tsx:12-52 | progress never exceeds target, for every id |
| AchievementsPanel.UnknownNeverUnlocked | src/components/Achievements.tsx:32-50 | an id other than the five has progress 0 and target 1 and is never unlocked |
| AchievementsPanel.ReactionExpertUnlockedIff | src/components/Achievements.tsx:26-58 | `reaction_expert` is unlocked exactly when at least 10 reactions are completed |
| AchievementsPanel.CategoryMasterUnlockedIff | src/components/Achievements.tsx:18-58 | `element_master` (`acid_master`) is unlocked exactly when every element (acid) is discovered, vacuously when there is none |
| AchievementsPanel.CompoundCollectorUnlockedIff | src/components/Achievements.tsx:29-58 | `compound_collector` is unlocked exactly when every compound is discovered |
| AchievementsPanel.UnlockedBounds | src/components/Achievements.tsx:163-171 | unlocked count at most the number of achievements, unlocked points at most their total |
| AchievementsPanel.UnlockMonotone | src/components/Achievements.tsx:12-58 | discovering more or completing more never locks an achievement again |
| AchievementsPanel.ReactionExpertRulesDisagree | src/components/Achievements.tsx:26-46 | at 10 completed reactions the panel shows `reaction_expert` unlocked and the header's rule does not |
| AchievementsPanel.SaltMasterNeverShown | src/components/Achievements.tsx:32-50 | the panel never shows `salt_master` unlocked |
| FlaskRef.ReactionFlaskRef.constructor | src/components/ReactionFlaskRef.tsx:16 | a new flask is empty |
| FlaskRef.ReactionFlaskRef.AddToFlask | src/components/ReactionFlaskRef.tsx:21-27 | appends at the end with no cap; earlier entries are unchanged |
| FlaskRef.ReactionFlaskRef.HandleDrop | src/components/ReactionFlaskRef.tsx:37-45 | adds the compound found by id, or changes nothing when the id is not among the compounds |
| FlaskRef.ReactionFlaskRef.RemoveCompound | src/components/ReactionFlaskRef.tsx:47-49 | removes exactly position i, keeping the order; an out-of-range i changes nothing |
| FlaskRef.ReactionFlaskRef.ClearFlask | src/components/ReactionFlaskRef.tsx:51-53 | the flask becomes empty |
| FlaskRef.ReactionFlaskRef.PerformReaction | src/components/ReactionFlaskRef.tsx:55-85 | below two compounds nothing is submitted and nothing changes; otherwise the ids are submitted in flask order, the session takes `Step`, and the flask empties on success and is kept on failure; a valid session stays valid |
| Flask.ReactionFlask.constructor | src/components/ReactionFlask.tsx:12 | a new flask is empty |
| Flask.ReactionFlask.HandleDrop | src/components/ReactionFlask.tsx:20-28 | adds the compound found by id only while fewer than three are in the flask, otherwise nothing changes; never more than three |
| Flask.ReactionFlask.RemoveCompound | src/components/ReactionFlask.tsx:30-32 | removes exactly position i, keeping the order; an out-of-range i changes nothing |
| Flask.ReactionFlask.ClearFlask | src/components/ReactionFlask.tsx:34-36 | the flask becomes empty |
| Flask.ReactionFlask.PerformReaction | src/components/ReactionFlask.tsx:38-62 | below two compounds nothing is submitted and nothing changes; otherwise the ids are submitted in flask order, the session takes `Step`, and the flask empties on success and is kept on failure; a valid session stays valid, and one that has not discovered ammonia, methane, P2O5, phosphoric acid or glucose still has not |
| Flask.CappedSubmissionMisses | src/components/ReactionFlask.tsx:23-27 | at most three ids never select a recipe making the output of a recipe with more inputs |
| Flask.CappedStepKeeps | src/components/ReactionFlask.tsx:23-45 | a step on at most three ids leaves such an output's entries unchanged |
| Flask.FlaskNeverDiscoversLongRecipeOutputs | src/components/ReactionFlask.tsx:23-27 | a step on the recipe table with at most three ids leaves the entries of each of the five long recipes' products unchanged |
| Flask.CappedStepKeepsUndiscovered | src/components/ReactionFlask.tsx:23-45 | a step on at most three ids keeps undiscovered every compound made only by recipes with more than three inputs |
| Flask.LongOutputsNeedLongRecipes | src/data/compounds.ts:548-753 | in the recipe table every recipe making one of the five takes more than three inputs |
| Flask.InitialLongOutputsUndiscovered | src/data/compounds.ts:34-546 | a new session has discovered none of the five |
| Flask.FlaskStepKeepsLongOutputsUndiscovered | src/components/ReactionFlask.tsx:23-45 | a step on the recipe table with what the flask can hold discovers none of the five |
| Flask.LongRecipes | src/data/compounds.ts:548-753 | the recipes for ammonia, methane, P2O5, phosphoric acid and glucose take 4, 5, 7, 4 and 12 inputs |
| DiscoveryTab.CategoryList | src/components/DiscoveryTab.tsx:20 | `map(c => c.category)` keeps the length and gives each entry's category |
| DiscoveryTab.CategoriesShape | src/components/DiscoveryTab.tsx:20 | `All` first, then each category of the compounds exactly once, in first-appearance order |
| DiscoveryTab.Filtered | src/components/DiscoveryTab.tsx:23-30 | a compound is shown exactly when it is in the list and passes all three conditions |
| DiscoveryTab.FilteredIsSubsequence | src/components/DiscoveryTab.tsx:23-30 | the view is an order-preserving subsequence of the compounds |
| DiscoveryTab.InitialFiltersShowAll | src/components/DiscoveryTab.tsx:15-30 | with the initial settings every compound is shown |
| DiscoveryTab.SearchIgnoresCase | src/components/DiscoveryTab.tsx:24-25 | a term and its lower-cased form show the same compounds |
| DiscoveryTab.DiscoveredOnlyNarrows | src/components/DiscoveryTab.tsx:27 | "discovered only" shows a subsequence of what it shows off |
| DiscoveryTab.DiscoveredList | src/components/DiscoveryTab.tsx:34-35 | the discovered filter keeps exactly the discovered compounds |
| DiscoveryTab.StatsAgree | src/components/DiscoveryTab.tsx:33-35 | the discovered count is at most the total and equals the lab's count; the points are the discovered compounds' points |

## Left out

- Sound (oscillators, music, effects) and toasts, including the delayed "new achievement"
  toast check inside `discoverCompound`: they only produce output and do not change the
  session state.
- The reaction delay, the `isReacting` and `shakeError` flags and their timers: the flask's
  `performReaction` is one synchronous step.
- Drag-and-drop plumbing and `dataTransfer`: a drop is "add the compound with this id".
- The compound card and modal components, the reaction guide, the progress-bar percentage
  (a float division) and all rendering.
- Descriptive fields (`description`, `mw`, `uses`, `icon`, `requirement`, `synthesisHint`,
  and the recipe's `name`): no logic reads them.
- React state batching and stale closures: each `handleReaction` is one atomic update, and
  the session's current compounds are the ones the product is looked up in.
- `ReactionFlask.tsx` declares `onReaction` as returning `{success, product}`, while the lab
  passes `handleReaction`; only `success` is read, which both shapes carry.
- JsBuiltins.Lower: folds only the ASCII capitals, not the full Unicode `toLowerCase`.
- JsBuiltins.StrLe: compares characters by code point, not by UTF-16 code unit; the two
  orders agree on the ids in the tables, which are ASCII.
- Lab.Session.HandleReaction: the session holds the recipe table as a field set by the
  constructor rather than reading the module-level constant.
