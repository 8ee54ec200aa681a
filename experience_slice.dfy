/** The `experiences` slice of the client store (src/redux/features/ExperienceSlice.tsx). */
module ExperienceSlice {
  import opened Entities
  import opened SliceSpec

  class Experiences {
    var state: seq<Experience>

    /** The initial state is the empty list. */
    constructor ()
      ensures state == []
    {
      state := [];
    }

    /** `setExperiences`: the payload becomes the state. */
    method SetExperiences(payload: seq<Experience>)
      modifies this
      ensures state == payload
    {
      state := payload;
    }

    /** `deleteExperience`: every experience whose `_id` is the payload is dropped. */
    method DeleteExperience(id: string)
      modifies this
      ensures state == RemoveAll(old(state), ExperienceId, id)
    {
      state := RemoveAll(state, ExperienceId, id);
    }

    /** `updateExperienceDetails`: the first experience with the payload's `_id` is replaced. */
    method UpdateExperienceDetails(payload: Experience)
      modifies this
      ensures state == ReplaceFirst(old(state), ExperienceId, payload)
    {
      var index := FindIndex(state, ExperienceId, payload.id);
      if index != -1 {
        state := state[index := payload];
      }
    }

    /** `addNewExperience`: `unshift`, so the new experience comes first. */
    method AddNewExperience(payload: Experience)
      modifies this
      ensures state == [payload] + old(state)
      ensures |state| == |old(state)| + 1
    {
      state := [payload] + state;
    }
  }
}
