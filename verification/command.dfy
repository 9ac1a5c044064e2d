/**
 * The command contract: every command holds a parameter map that the
 * parser replaces before each run, validates it, executes against the
 * internship list and the user profile, and names the kind of data it
 * works on.
 */
module Commands {
  import opened Results
  import opened Projects
  import opened Users
  import opened Internships
  import DeleteCommand
  import ViewSoftwareProjectsCommand
  import ViewUserCommand

  /** The concrete commands of this model. */
  datatype CommandKind = Delete | ViewSoftwareProjects | ViewUser

  /**
   * Code a command calls that is not part of this model: the index
   * resolver, an internship's `toString` and a project's `toDescription`.
   */
  datatype Collaborators = Collaborators(
    validateIndex: DeleteCommand.Resolver,
    showInternship: Internship -> string,
    describeProject: Project -> string)

  class Command {
    const kind: CommandKind
    var parameters: map<string, string>

    /** A new command has no parameters. */
    constructor (kind: CommandKind)
      ensures this.kind == kind && parameters == map[]
    {
      this.kind := kind;
      parameters := map[];
    }

    /** `setParameters`: the given map replaces the old one entirely; nothing is merged. */
    method SetParameters(parameters: map<string, string>)
      modifies this
      ensures this.parameters == parameters
    {
      this.parameters := parameters;
    }

    /** `getParameters`: the map most recently set. */
    function GetParameters(): (p: map<string, string>)
      reads this
      ensures p == parameters
    {
      parameters
    }

    /** `isValidParameters`: the delete command needs "/index" alone; the view commands accept anything. */
    function IsValidParameters(): (valid: bool)
      reads this
      ensures kind.Delete? ==> (valid <==> parameters.Keys == {"/index"})
      ensures !kind.Delete? ==> valid
    {
      match kind
      case Delete => DeleteCommand.IsValidParameters(parameters)
      case ViewSoftwareProjects => true
      case ViewUser => true
    }

    /** `getCommandType`: "internship" for the delete command, "user" for the view commands. */
    function GetCommandType(): (t: string)
      ensures t == "internship" <==> kind.Delete?
      ensures t == "user" <==> !kind.Delete?
    {
      match kind
      case Delete => "internship"
      case ViewSoftwareProjects => "user"
      case ViewUser => "user"
    }

    /**
     * `execute`: run the command. Only the delete command changes the
     * internship list; no command changes the user profile.
     */
    method Execute(internships: InternshipList, user: UserProfile, env: Collaborators) returns (out: Outcome<CommandResult>)
      requires kind.ViewSoftwareProjects? ==> "software" in user.projects.projectMap
      modifies internships
      ensures kind.Delete? ==>
                var run := DeleteCommand.DeleteSpec(parameters, old(internships.internshipMap), internships.saveError,
                                                    env.validateIndex, env.showInternship);
                out == run.outcome && internships.internshipMap == run.internshipMap
      ensures !kind.Delete? ==> internships.internshipMap == old(internships.internshipMap)
      ensures internships.interviews == old(internships.interviews)
      ensures kind.ViewSoftwareProjects? ==>
                out.Returned? && out.value.isSuccessful
                && out.value.feedback == [Formatted(ProjectsViewSuccess, [])]
                   + ViewSoftwareProjectsCommand.Listing(user.projects.projectMap["software"], env.describeProject)
      ensures kind.ViewUser? ==> out == Returned(ViewUserCommand.Execute(user))
    {
      match kind
      case Delete =>
        out := DeleteCommand.Execute(parameters, internships, env.validateIndex, env.showInternship);
      case ViewSoftwareProjects =>
        var result := ViewSoftwareProjectsCommand.Execute(user, env.describeProject);
        assert result.feedback == [result.feedback[0]] + result.feedback[1..];
        out := Returned(result);
      case ViewUser =>
        out := Returned(ViewUserCommand.Execute(user));
    }
  }
}
