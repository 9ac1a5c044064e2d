/**
 * The command that lists the user's software projects: a fixed header
 * line, then one description per software project, in list order.
 */
module ViewSoftwareProjectsCommand {
  import opened Results
  import opened Projects
  import opened Users

  /** One description line per project, in list order. */
  function Listing(projects: seq<Project>, describe: Project -> string): (lines: seq<Line>)
    ensures |lines| == |projects|
    ensures forall i :: 0 <= i < |projects| ==> lines[i] == Text(describe(projects[i]))
  {
    if projects == [] then []
    else Listing(projects[..|projects| - 1], describe) + [Text(describe(projects[|projects| - 1]))]
  }

  /**
   * `execute`: the header, then each software project's description
   * (`toDescription`, not part of this model, is `describe`); always
   * successful, and nothing is changed. A list without a "software" key
   * would throw; a `ProjectList` always has one.
   */
  method Execute(user: UserProfile, describe: Project -> string) returns (result: CommandResult)
    requires "software" in user.projects.projectMap
    ensures result.isSuccessful
    ensures |result.feedback| == 1 + |user.projects.projectMap["software"]|
    ensures result.feedback[0] == Formatted(ProjectsViewSuccess, [])
    ensures result.feedback[1..] == Listing(user.projects.projectMap["software"], describe)
  {
    var feedback: seq<Line> := [Formatted(ProjectsViewSuccess, [])];
    var software := user.projects.projectMap["software"];
    var i := 0;
    while i < |software|
      invariant 0 <= i <= |software|
      invariant feedback == [Formatted(ProjectsViewSuccess, [])] + Listing(software[..i], describe)
    {
      assert software[..i + 1][..i] == software[..i];
      feedback := feedback + [Text(describe(software[i]))];
      i := i + 1;
    }
    assert software[..i] == software;
    result := CommandResult(feedback, true);
  }
}
