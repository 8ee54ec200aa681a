/**
 * The `educations` slice of the client store (src/redux/features/EducationSlice.tsx).
 * Its update matches with `==` rather than `===`; for ids that are strings or
 * `undefined` the two agree, so the match is plain equality of optional ids.
 */
module EducationSlice {
  import opened Entities
  import opened SliceSpec

  class Educations {
    var state: seq<Education>

    /** The initial state is the empty list. */
    constructor ()
      ensures state == []
    {
      state := [];
    }

    /** `setEducation`: the payload becomes the state. */
    method SetEducation(payload: seq<Education>)
      modifies this
      ensures state == payload
    {
      state := payload;
    }

    /** `deleteEducation`: every qualification whose `_id` is the payload is dropped. */
    method DeleteEducation(id: string)
      modifies this
      ensures state == RemoveAll(old(state), EducationId, id)
    {
      state := RemoveAll(state, EducationId, id);
    }

    /** `addNewEducation`: `unshift`, so the new qualification comes first. */
    method AddNewEducation(payload: Education)
      modifies this
      ensures state == [payload] + old(state)
      ensures |state| == |old(state)| + 1
    {
      state := [payload] + state;
    }

    /** `updateEducationDetails`: the first qualification with the payload's `_id` is replaced. */
    method UpdateEducationDetails(payload: Education)
      modifies this
      ensures state == ReplaceFirst(old(state), EducationId, payload)
    {
      var index := FindIndex(state, EducationId, payload.id);
      if index != -1 {
        state := state[index := payload];
      }
    }
  }
}
