/**
 * The flask with the imperative `addToFlask` handle. Its buffer of dropped compounds has
 * no cap and may hold the same compound several times.
 */
module FlaskRef {
  import opened Optional
  import opened Catalog
  import opened JsBuiltins
  import Lab

  class ReactionFlaskRef {
    /** `droppedCompounds`, in the order they were added. */
    var dropped: seq<Compound>

    /** A new flask is empty. */
    constructor ()
      ensures dropped == []
    {
      dropped := [];
    }

    /** `canReact`: the React button is enabled from two compounds on. */
    predicate CanReact()
      reads this
    {
      |dropped| >= 2
    }

    /** `addToFlask`: appends at the end; earlier entries stay as they were. */
    method AddToFlask(compound: Compound)
      modifies this
      ensures dropped == old(dropped) + [compound]
      ensures |dropped| == |old(dropped)| + 1 && dropped[..|old(dropped)|] == old(dropped)
    {
      dropped := dropped + [compound];
    }

    /** `handleDrop`: adds the first compound of `compounds` with the dropped id, if there is one. */
    method HandleDrop(compounds: seq<Compound>, compoundId: string)
      modifies this
      ensures FindById(compounds, compoundId).Some? ==>
        dropped == old(dropped) + [FindById(compounds, compoundId).value]
      ensures FindById(compounds, compoundId).None? ==> dropped == old(dropped)
      ensures |dropped| > |old(dropped)| ==>
        exists i :: 0 <= i < |compounds| && compounds[i].id == compoundId && dropped[|dropped| - 1] == compounds[i]
    {
      var compound := FindById(compounds, compoundId);
      if compound.Some? {
        AddToFlask(compound.value);
      }
    }

    /** `removeCompound(index)`: drops exactly that position; any other index changes nothing. */
    method RemoveCompound(index: int)
      modifies this
      ensures 0 <= index < |old(dropped)| ==> dropped == old(dropped)[..index] + old(dropped)[index + 1..]
      ensures !(0 <= index < |old(dropped)|) ==> dropped == old(dropped)
    {
      DropPositionRemovesExactlyOne(dropped, index);
      dropped := DropPosition(dropped, index);
    }

    /** `clearFlask`. */
    method ClearFlask()
      modifies this
      ensures dropped == []
    {
      dropped := [];
    }

    /**
     * The synchronous part of `performReaction`: below two compounds nothing happens and
     * nothing is submitted; otherwise the ids are submitted in flask order, the lab takes
     * its step, and the flask is emptied on success and kept on failure.
     */
    method PerformReaction(session: Lab.Session) returns (submitted: Option<seq<string>>)
      modifies this, session
      ensures !old(CanReact()) ==>
        submitted == None && dropped == old(dropped) &&
        session.compounds == old(session.compounds) &&
        session.completedReactions == old(session.completedReactions)
      ensures old(CanReact()) ==>
        submitted == Some(Ids(old(dropped))) &&
        var outcome := Lab.Step(session.recipes, old(session.compounds), old(session.completedReactions), Ids(old(dropped)));
        session.compounds == outcome.compounds &&
        session.completedReactions == outcome.completedReactions &&
        dropped == (if outcome.result.success then [] else old(dropped))
      ensures old(session.Valid()) ==> session.Valid()
    {
      if !CanReact() {
        return None;
      }
      var ids := Ids(dropped);
      var result := session.HandleReaction(ids);
      if result.success {
        dropped := [];
      }
      submitted := Some(ids);
    }
  }
}
