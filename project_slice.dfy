/** The `project` slice of the Redux store: the project opened from the list. */
module ProjectSlice {
  import opened Common

  /** A project as listed by `get-all-projects`. */
  datatype Project = Project(projectId: string, projectTitle: string)

  class ProjectStore {
    var project: Option<Project>

    constructor ()
      ensures project == None
    {
      project := None;
    }

    method SetProject(payload: Option<Project>)
      modifies this
      ensures project == payload
    {
      project := payload;
    }

    method ClearProject()
      modifies this
      ensures project == None
    {
      project := None;
    }
  }
}
