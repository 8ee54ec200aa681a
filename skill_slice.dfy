/** The `skills` slice of the client store (src/redux/features/SkillSlice.tsx). */
module SkillSlice {
  import opened Entities
  import opened SliceSpec

  class Skills {
    var state: seq<Skill>

    /** The initial state is the empty list. */
    constructor ()
      ensures state == []
    {
      state := [];
    }

    /** `setSkills`: the payload becomes the state. */
    method SetSkills(payload: seq<Skill>)
      modifies this
      ensures state == payload
    {
      state := payload;
    }

    /** `deleteSkill`: every skill whose `_id` is the payload is dropped. */
    method DeleteSkill(id: string)
      modifies this
      ensures state == RemoveAll(old(state), SkillId, id)
    {
      state := RemoveAll(state, SkillId, id);
    }

    /** `updateSkillDetails`: the first skill with the payload's `_id` is replaced. */
    method UpdateSkillDetails(payload: Skill)
      modifies this
      ensures state == ReplaceFirst(old(state), SkillId, payload)
    {
      var index := FindIndex(state, SkillId, payload.id);
      if index != -1 {
        state := state[index := payload];
      }
    }

    /** `addNewSkill`: `push`, so unlike the other slices the new skill comes last. */
    method AddNewSkill(payload: Skill)
      modifies this
      ensures state == old(state) + [payload]
      ensures |state| == |old(state)| + 1
    {
      state := state + [payload];
    }
  }
}
