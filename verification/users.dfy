/**
 * The user profile: eight text fields set through setters, the user's
 * project list, and the two renderings of the profile the storage handler
 * and the view command use.
 */
module Users {
  import opened Projects

  /** The profile fields the profile file stores, one line each. */
  datatype Field =
    | Name
    | YearlyGoals
    | MonthlyGoals
    | PreferredIndustries
    | PreferredCompanies
    | PreferredRoles
    | TargetStipendRange
    | InternshipDateRange

  /** The fields set since the profile was created; a field not in the map keeps its new-profile default. */
  type ProfileFields = map<Field, string>

  class UserProfile {
    var fields: ProfileFields
    const projects: ProjectList
    /** `toFormattedString` and `toExtendedString`: how the profile is written out, not part of this model. */
    const toFormattedString: ProfileFields -> string
    const toExtendedString: ProfileFields -> string

    /** `new UserProfile()`: every field at its default. */
    constructor (projects: ProjectList, toFormattedString: ProfileFields -> string, toExtendedString: ProfileFields -> string)
      ensures fields == map[]
      ensures this.projects == projects
      ensures this.toFormattedString == toFormattedString && this.toExtendedString == toExtendedString
    {
      fields := map[];
      this.projects := projects;
      this.toFormattedString := toFormattedString;
      this.toExtendedString := toExtendedString;
    }

    /** The setters `setName`, `setYearlyGoals`, ...: one field takes the value, the others keep theirs. */
    method SetField(field: Field, value: string)
      modifies this
      ensures fields == old(fields)[field := value]
    {
      fields := fields[field := value];
    }
  }
}
