/** The `projects` slice of the client store (src/redux/features/ProjectSlice.tsx). */
module ProjectSlice {
  import opened Entities
  import opened SliceSpec

  class Projects {
    var state: seq<Project>

    /** The initial state is the empty list. */
    constructor ()
      ensures state == []
    {
      state := [];
    }

    /** `setProjects`: the payload becomes the state, whatever was there before. */
    method SetProjects(payload: seq<Project>)
      modifies this
      ensures state == payload
    {
      state := payload;
    }

    /** `updateProjectDetail`: the first project with the payload's `_id` is replaced by the payload. */
    method UpdateProjectDetail(payload: Project)
      modifies this
      ensures state == ReplaceFirst(old(state), ProjectId, payload)
    {
      var index := FindIndex(state, ProjectId, payload.id);
      if index != -1 {
        state := state[index := payload];
      }
    }

    /** `addNewProject`: `unshift`, so the new project comes first. */
    method AddNewProject(payload: Project)
      modifies this
      ensures state == [payload] + old(state)
      ensures |state| == |old(state)| + 1
    {
      state := [payload] + state;
    }

    /** `deleteProject`: every project whose `_id` is the payload is dropped. */
    method DeleteProject(id: string)
      modifies this
      ensures state == RemoveAll(old(state), ProjectId, id)
    {
      state := RemoveAll(state, ProjectId, id);
    }
  }
}
