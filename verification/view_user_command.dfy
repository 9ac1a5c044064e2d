/**
 * The command that shows the user profile: a fixed header line and the
 * profile's extended text.
 */
module ViewUserCommand {
  import opened Results
  import opened Users

  /**
   * `execute`: exactly two lines, the header then the profile as
   * `toExtendedString` renders it; always successful, and as a function
   * of the profile it changes neither the profile nor the internships.
   */
  function Execute(user: UserProfile): (result: CommandResult)
    reads user
    ensures result.isSuccessful && |result.feedback| == 2
    ensures result.feedback[0] == Formatted(UserViewSuccess, [])
    ensures result.feedback[1] == Text(user.toExtendedString(user.fields))
  {
    CommandResult([Formatted(UserViewSuccess, []), Text(user.toExtendedString(user.fields))], true)
  }
}
