/**
 * The profile storage handler: it writes the user profile as text, one
 * "Prefix: value" line per field, and reads it back by matching each line
 * against eight fixed prefixes and keeping the text after the prefix.
 *
 * The offset the loader cuts at is, for every field but one, the length
 * of the prefix; for "Preferred Roles: " (17 characters) it is 18, so the
 * first character of the value is lost and a line holding exactly the
 * prefix makes the cut throw. The model keeps this as written.
 */
module ProfileStorage {
  import opened Results
  import opened Files
  import opened Projects
  import opened Users

  // ---------------------------------------------------------------------------
  // The line rule

  /** The prefix that marks a field's line. */
  function Prefix(f: Field): string
  {
    match f
    case Name => "Name: "
    case YearlyGoals => "Yearly Goals: "
    case MonthlyGoals => "Monthly Goals: "
    case PreferredIndustries => "Preferred Industries: "
    case PreferredCompanies => "Preferred Companies: "
    case PreferredRoles => "Preferred Roles: "
    case TargetStipendRange => "Target Stipend Range: "
    case InternshipDateRange => "Internship Date Range: "
  }

  /** Where the loader cuts a field's line, as written. */
  function Offset(f: Field): nat
  {
    match f
    case Name => 6
    case YearlyGoals => 14
    case MonthlyGoals => 15
    case PreferredIndustries => 22
    case PreferredCompanies => 21
    case PreferredRoles => 18
    case TargetStipendRange => 22
    case InternshipDateRange => 23
  }

  /** The cut is right after the prefix for every field except Preferred Roles, where it is one further. */
  lemma OffsetAgainstPrefix(f: Field)
    ensures f != PreferredRoles ==> Offset(f) == |Prefix(f)|
    ensures f == PreferredRoles ==> Offset(f) == |Prefix(f)| + 1
  {
  }

  /** The else-if chain of the loader: the field of the first prefix, in source order, that the line starts with. */
  function MatchLine(line: string): Option<Field>
  {
    if Prefix(Name) <= line then Some(Name)
    else if Prefix(YearlyGoals) <= line then Some(YearlyGoals)
    else if Prefix(MonthlyGoals) <= line then Some(MonthlyGoals)
    else if Prefix(PreferredIndustries) <= line then Some(PreferredIndustries)
    else if Prefix(PreferredCompanies) <= line then Some(PreferredCompanies)
    else if Prefix(PreferredRoles) <= line then Some(PreferredRoles)
    else if Prefix(TargetStipendRange) <= line then Some(TargetStipendRange)
    else if Prefix(InternshipDateRange) <= line then Some(InternshipDateRange)
    else None
  }

  /** No line starts with two different prefixes. */
  lemma PrefixesExclusive(line: string, f: Field, g: Field)
    requires Prefix(f) <= line && Prefix(g) <= line
    ensures f == g
  {
    assert Prefix(f)[0] == line[0] == Prefix(g)[0];
    if line[0] == 'P' {
      assert Prefix(f)[10] == line[10] == Prefix(g)[10];
    }
  }

  /** A line is assigned to a field exactly when it starts with that field's prefix: the order of the tests does not matter. */
  lemma MatchLineIffPrefix(line: string, f: Field)
    ensures MatchLine(line) == Some(f) <==> Prefix(f) <= line
  {
    MatchLineSound(line);
    if Prefix(f) <= line {
      MatchLineComplete(line, f);
      PrefixesExclusive(line, f, MatchLine(line).value);
    }
  }

  /** The field a line is assigned to has its prefix at the start of the line. */
  lemma MatchLineSound(line: string)
    ensures MatchLine(line).Some? ==> Prefix(MatchLine(line).value) <= line
  {
  }

  /** A line that starts with some field's prefix is assigned to a field. */
  lemma MatchLineComplete(line: string, f: Field)
    requires Prefix(f) <= line
    ensures MatchLine(line).Some?
  {
  }

  /** One turn of the loader's loop: set the matched field to the line cut at its offset, or throw if the line is too short. */
  function ApplyLine(fields: ProfileFields, line: string): Outcome<ProfileFields>
  {
    match MatchLine(line)
    case None => Returned(fields)
    case Some(f) =>
      if Offset(f) <= |line| then Returned(fields[f := line[Offset(f)..]]) else Thrown(IndexOutOfBounds)
  }

  /** The loader's loop over its lines, in order; the first line that throws ends it. */
  function ApplyLines(fields: ProfileFields, lines: seq<string>): Outcome<ProfileFields>
  {
    if lines == [] then Returned(fields)
    else match ApplyLines(fields, lines[..|lines| - 1])
      case Thrown(e) => Thrown(e)
      case Returned(fs) => ApplyLine(fs, lines[|lines| - 1])
  }

  /** The last line that starts with the field's prefix, if any: the reference for what the loader keeps. */
  function LastMatch(lines: seq<string>, f: Field): (r: Option<string>)
    ensures r.Some? ==> r.value in lines && Prefix(f) <= r.value
  {
    if lines == [] then None
    else if Prefix(f) <= lines[|lines| - 1] then Some(lines[|lines| - 1])
    else LastMatch(lines[..|lines| - 1], f)
  }

  /** Lines starting with a prefix other than `f`'s, or with none, leave `f` as it was. */
  lemma ApplyLineOther(fields: ProfileFields, line: string, f: Field)
    requires !(Prefix(f) <= line) && ApplyLine(fields, line).Returned?
    ensures var r := ApplyLine(fields, line).value;
            (f in r <==> f in fields) && (f in fields ==> r[f] == fields[f])
  {
    MatchLineIffPrefix(line, f);
  }

  /**
   * When a field's prefix starts several lines the last one wins; a field
   * no line names keeps what it had before the loop.
   */
  lemma {:induction false} LastOccurrenceWins(fields: ProfileFields, lines: seq<string>, f: Field)
    requires ApplyLines(fields, lines).Returned?
    ensures var r := ApplyLines(fields, lines).value;
            match LastMatch(lines, f)
            case Some(line) => f in r && Offset(f) <= |line| && r[f] == line[Offset(f)..]
            case None => (f in r <==> f in fields) && (f in fields ==> r[f] == fields[f])
  {
    if lines != [] {
      var front := lines[..|lines| - 1];
      var last := lines[|lines| - 1];
      assert ApplyLines(fields, front).Returned?;
      LastOccurrenceWins(fields, front, f);
      if Prefix(f) <= last {
        MatchLineIffPrefix(last, f);
      } else {
        ApplyLineOther(ApplyLines(fields, front).value, last, f);
      }
    }
  }

  /** A single line makes the loop throw exactly when it is the bare "Preferred Roles: " line. */
  lemma LineThrowsIff(fields: ProfileFields, line: string)
    ensures ApplyLine(fields, line).Thrown? <==> line == Prefix(PreferredRoles)
    ensures ApplyLine(fields, line).Thrown? ==> ApplyLine(fields, line).failure == IndexOutOfBounds
  {
    MatchLineIffPrefix(line, PreferredRoles);
    if MatchLine(line).Some? {
      var f := MatchLine(line).value;
      MatchLineIffPrefix(line, f);
      OffsetAgainstPrefix(f);
      if f == PreferredRoles && |line| < Offset(f) {
        assert line == line[..|Prefix(f)|] == Prefix(f);
      }
    }
  }

  /** The whole loop throws exactly when some line is the bare "Preferred Roles: " line, and then with an index error. */
  lemma {:induction false} LoadThrowsIff(fields: ProfileFields, lines: seq<string>)
    ensures ApplyLines(fields, lines).Thrown? <==> Prefix(PreferredRoles) in lines
    ensures ApplyLines(fields, lines).Thrown? ==> ApplyLines(fields, lines).failure == IndexOutOfBounds
  {
    if lines != [] {
      var front := lines[..|lines| - 1];
      var last := lines[|lines| - 1];
      assert lines == front + [last];
      LoadThrowsIff(fields, front);
      if ApplyLines(fields, front).Returned? {
        LineThrowsIff(ApplyLines(fields, front).value, last);
      }
    }
  }

  /** Every field but Preferred Roles stores its line with exactly the prefix removed. */
  lemma ExactPrefixRemoved(fields: ProfileFields, f: Field, value: string)
    requires f != PreferredRoles
    ensures ApplyLine(fields, Prefix(f) + value) == Returned(fields[f := value])
  {
    MatchLineIffPrefix(Prefix(f) + value, f);
    OffsetAgainstPrefix(f);
    assert (Prefix(f) + value)[|Prefix(f)|..] == value;
  }

  /** Preferred Roles loses the first character after its prefix. */
  lemma RolesLoseFirstCharacter(fields: ProfileFields, c: char, value: string)
    ensures ApplyLine(fields, Prefix(PreferredRoles) + [c] + value) == Returned(fields[PreferredRoles := value])
  {
    var line := Prefix(PreferredRoles) + [c] + value;
    MatchLineIffPrefix(line, PreferredRoles);
    assert line[18..] == value;
  }

  /** The line "Preferred Roles: Engineer" stores "ngineer". */
  lemma RolesExample()
    ensures ApplyLine(map[], "Preferred Roles: Engineer") == Returned(map[PreferredRoles := "ngineer"])
  {
    assert "Preferred Roles: Engineer" == Prefix(PreferredRoles) + ['E'] + "ngineer";
    RolesLoseFirstCharacter(map[], 'E', "ngineer");
  }

  /** Once the loop has thrown, later lines change nothing. */
  lemma {:induction false} ApplyLinesStaysThrown(fields: ProfileFields, lines: seq<string>, n: nat)
    requires n <= |lines| && ApplyLines(fields, lines[..n]).Thrown?
    ensures ApplyLines(fields, lines) == ApplyLines(fields, lines[..n])
    decreases |lines|
  {
    if n < |lines| {
      var front := lines[..|lines| - 1];
      assert front[..n] == lines[..n];
      ApplyLinesStaysThrown(fields, front, n);
    } else {
      assert lines[..n] == lines;
    }
  }

  // ---------------------------------------------------------------------------
  // String.split("\n")

  /** The pieces of `s` between "\n" characters, empty ones included. */
  function Pieces(s: string): (ps: seq<string>)
    ensures |ps| >= 1
  {
    if s == [] then [[]]
    else
      var ps := Pieces(s[..|s| - 1]);
      if s[|s| - 1] == '\n' then ps + [[]]
      else ps[..|ps| - 1] + [ps[|ps| - 1] + [s[|s| - 1]]]
  }

  function DropTrailingEmpty(ps: seq<string>): seq<string>
  {
    if ps != [] && ps[|ps| - 1] == [] then DropTrailingEmpty(ps[..|ps| - 1]) else ps
  }

  /**
   * `s.split("\n")`: the text itself when it holds no "\n"; otherwise its
   * pieces with the trailing empty ones removed.
   */
  function JavaSplitNewline(s: string): seq<string>
  {
    if '\n' !in s then [s] else DropTrailingEmpty(Pieces(s))
  }

  /** `ps` with `t` appended to its last piece. */
  function ExtendLast(ps: seq<string>, t: string): (r: seq<string>)
    requires |ps| >= 1
    ensures |r| == |ps|
  {
    ps[..|ps| - 1] + [ps[|ps| - 1] + t]
  }

  lemma ExtendLastTwice(ps: seq<string>, a: string, b: string)
    requires |ps| >= 1
    ensures ExtendLast(ExtendLast(ps, a), b) == ExtendLast(ps, a + b)
  {
    var k := |ps| - 1;
    var once := ExtendLast(ps, a);
    assert once[..k] == ps[..k] && once[k] == ps[k] + a;
    assert ps[k] + a + b == ps[k] + (a + b);
  }

  /** A character other than "\n" extends the last piece. */
  lemma PiecesAppendChar(x: string, c: char)
    requires c != '\n'
    ensures Pieces(x + [c]) == ExtendLast(Pieces(x), [c])
  {
    assert (x + [c])[..|x|] == x;
  }

  /** Text without "\n" extends the last piece. */
  lemma {:induction false} PiecesAppendText(x: string, t: string)
    requires NoLineBreak(t)
    ensures Pieces(x + t) == ExtendLast(Pieces(x), t)
    decreases |t|
  {
    if t == [] {
      PiecesAppendNothing(x, t);
    } else {
      var t', c := DropLastChar(t);
      PiecesAppendText(x, t');
      PiecesAppendChar(x + t', c);
      ExtendLastTwice(Pieces(x), t', [c]);
      assert x + t' + [c] == x + t;
    }
  }

  lemma PiecesAppendNothing(x: string, t: string)
    requires t == []
    ensures Pieces(x + t) == ExtendLast(Pieces(x), t)
  {
    var px := Pieces(x);
    assert x + t == x;
    assert px[|px| - 1] + t == px[|px| - 1];
    assert px[..|px| - 1] + [px[|px| - 1]] == px;
  }

  /** Text without line breaks is shorter text without line breaks and one more character that is not "\n". */
  lemma DropLastChar(t: string) returns (t': string, c: char)
    requires NoLineBreak(t) && t != []
    ensures NoLineBreak(t') && c != '\n' && t' + [c] == t && |t'| < |t|
  {
    t', c := t[..|t| - 1], t[|t| - 1];
    assert !IsLineBreak(t[|t| - 1]);
    forall i | 0 <= i < |t'| ensures !IsLineBreak(t'[i]) {
      assert t'[i] == t[i];
    }
  }

  /** The text the profile read loop builds splits back into its lines and one empty piece. */
  lemma {:induction false} PiecesTerminated(lines: seq<string>)
    requires forall k :: 0 <= k < |lines| ==> NoLineBreak(lines[k])
    ensures Pieces(ConcatTerminated(lines)) == lines + [[]]
  {
    if lines != [] {
      var front := lines[..|lines| - 1];
      var last := lines[|lines| - 1];
      var x := ConcatTerminated(front);
      PiecesTerminated(front);
      PiecesAppendText(x, last);
      ExtendEmptyLast(front, last);
      var s := x + last + "\n";
      assert ConcatTerminated(lines) == s;
      assert s[..|s| - 1] == x + last && s[|s| - 1] == '\n';
      assert front + [last] == lines;
    }
  }

  lemma ExtendEmptyLast(ps: seq<string>, t: string)
    ensures ExtendLast(ps + [[]], t) == ps + [t]
  {
    assert (ps + [[]])[..|ps|] == ps;
    assert [] + t == t;
  }

  /** An empty line starts with no prefix, so it changes nothing. */
  lemma EmptyLineIgnored(fields: ProfileFields)
    ensures ApplyLine(fields, []) == Returned(fields)
  {
    if MatchLine([]).Some? {
      MatchLineIffPrefix([], MatchLine([]).value);
    }
  }

  lemma {:induction false} DropTrailingEmptyIgnored(fields: ProfileFields, lines: seq<string>)
    ensures ApplyLines(fields, DropTrailingEmpty(lines)) == ApplyLines(fields, lines)
  {
    if lines != [] && lines[|lines| - 1] == [] {
      DropTrailingEmptyIgnored(fields, lines[..|lines| - 1]);
      if ApplyLines(fields, lines[..|lines| - 1]).Returned? {
        EmptyLineIgnored(ApplyLines(fields, lines[..|lines| - 1]).value);
      }
    }
  }

  /** Splitting the rebuilt text and looping over the pieces is looping over the lines read. */
  lemma SplitTerminatedLines(fields: ProfileFields, lines: seq<string>)
    requires forall k :: 0 <= k < |lines| ==> NoLineBreak(lines[k])
    ensures ApplyLines(fields, JavaSplitNewline(ConcatTerminated(lines))) == ApplyLines(fields, lines)
  {
    if lines == [] {
      EmptyLineIgnored(fields);
      var only: seq<string> := [[]];
      assert only[..0] == [];
    } else {
      var s := ConcatTerminated(lines);
      assert s[|s| - 1] == '\n';
      PiecesTerminated(lines);
      DropTrailingEmptyIgnored(fields, lines + [[]]);
      assert (lines + [[]])[..|lines|] == lines;
      if ApplyLines(fields, lines).Returned? {
        EmptyLineIgnored(ApplyLines(fields, lines).value);
      }
    }
  }

  // ---------------------------------------------------------------------------
  // Load and save outcomes

  /** The loop's result as `loadUserProfile` gives it: a thrown exception propagates, fields become a profile. */
  function AsLoaded(o: Outcome<ProfileFields>): Outcome<Option<ProfileFields>>
  {
    match o
    case Thrown(e) => Thrown(e)
    case Returned(fields) => Returned(Some(fields))
  }

  /** What `loadUserProfile` returns or throws for a file in state `st`: no profile when it holds no data. */
  function LoadProfileSpec(st: FileState, readable: bool): (r: Outcome<Option<ProfileFields>>)
    ensures r.Returned? && r.value.None? <==> HoldsNoData(st)
    ensures r.Thrown? ==> r.failure == (if readable then IndexOutOfBounds else Runtime(Formatted(UnableToLoadProfile, [])))
  {
    if HoldsNoData(st) then Returned(None)
    else if !readable then Thrown(Runtime(Formatted(UnableToLoadProfile, [])))
    else
      var lines := JavaSplitNewline(ConcatTerminated(ReadLines(st.content)));
      LoadThrowsIff(map[], lines);
      AsLoaded(ApplyLines(map[], lines))
  }

  /** Reading a file is the line rule applied to its lines in order, starting from a new profile. */
  lemma ProfileIsFoldOverLines(content: string)
    requires content != []
    ensures LoadProfileSpec(Present(content), true) == AsLoaded(ApplyLines(map[], ReadLines(content)))
  {
    ReadLinesJoined(content);
    SplitTerminatedLines(map[], ReadLines(content));
  }

  /** The exception `saveUserProfile` raises on a file in this state, if any. */
  function ProfileSaveFailure(f: DataFile): Option<Failure>
    reads f
  {
    if f.state.Absent? && !f.parentExists then
      if !f.canMakeDirectories then Some(Runtime(Formatted(UnableToCreateDirectory, [])))
      else if !f.canCreate then Some(Runtime(Formatted(UnableToCreateFile, [])))
      else if !f.writable then Some(Runtime(Formatted(UnableToSaveProfile, [f.absolutePath])))
      else None
    else if !f.writable then Some(Runtime(Formatted(UnableToSaveProfile, [f.absolutePath])))
    else None
  }

  // ---------------------------------------------------------------------------
  // The storage handler

  class ProfileStorageHandler {
    /** The handler's file; the source keeps it in a static field, so every handler shares it. */
    const file: DataFile
    /** What `new UserProfile()` is given here: the project list and renderings of a new profile. */
    const projects: ProjectList
    const toFormattedString: ProfileFields -> string
    const toExtendedString: ProfileFields -> string

    constructor (file: DataFile, projects: ProjectList,
                 toFormattedString: ProfileFields -> string, toExtendedString: ProfileFields -> string)
      ensures this.file == file && this.projects == projects
      ensures this.toFormattedString == toFormattedString && this.toExtendedString == toExtendedString
    {
      this.file := file;
      this.projects := projects;
      this.toFormattedString := toFormattedString;
      this.toExtendedString := toExtendedString;
    }

    /** `saveProfileOnStart`: save the profile, and do nothing at all when there is none. */
    method SaveProfileOnStart(userProfile: UserProfile?) returns (failure: Option<Failure>)
      modifies file
      ensures userProfile == null ==> failure.None? && file.state == old(file.state) && file.parentExists == old(file.parentExists)
      ensures userProfile != null ==> failure == old(ProfileSaveFailure(file))
      ensures userProfile != null && failure.None? ==>
                file.state == Present(userProfile.toFormattedString(userProfile.fields))
    {
      failure := None;
      if userProfile != null {
        failure := SaveUserProfile(userProfile);
      }
    }

    /**
     * `createUserProfileFile`: only when the parent directory is missing
     * does it make the directory and then the file; the messages carry no
     * path.
     */
    method CreateUserProfileFile() returns (failure: Option<Failure>)
      modifies file
      ensures old(file.parentExists) ==> failure.None? && file.parentExists && file.state == old(file.state)
      ensures !old(file.parentExists) ==>
        failure == (if !file.canMakeDirectories then Some(Runtime(Formatted(UnableToCreateDirectory, [])))
                    else if old(file.state).Present? || !file.canCreate then Some(Runtime(Formatted(UnableToCreateFile, [])))
                    else None)
        && file.parentExists == file.canMakeDirectories
        && file.state == (if failure.None? then Present([]) else old(file.state))
    {
      failure := None;
      if !file.parentExists {
        if !file.canMakeDirectories {
          return Some(Runtime(Formatted(UnableToCreateDirectory, [])));
        }
        file.parentExists := true;
        if file.state.Present? || !file.canCreate {
          return Some(Runtime(Formatted(UnableToCreateFile, [])));
        }
        file.state := Present([]);
      }
    }

    /** `saveUserProfile`: overwrite the file with the profile's formatted text, creating it first if needed. */
    method SaveUserProfile(userProfile: UserProfile) returns (failure: Option<Failure>)
      modifies file
      ensures failure == old(ProfileSaveFailure(file))
      ensures failure.None? ==> file.state == Present(userProfile.toFormattedString(userProfile.fields))
    {
      var data := userProfile.toFormattedString(userProfile.fields);
      if file.state.Absent? {
        failure := CreateUserProfileFile();
        if failure.Some? {
          return;
        }
      }
      if !file.writable {
        var unknown: FileState :| true;
        file.state := unknown;
        return Some(Runtime(Formatted(UnableToSaveProfile, [file.absolutePath])));
      }
      file.state := Present(data);
      failure := None;
    }

    /**
     * `loadUserProfile`: no profile for a file that holds no data;
     * otherwise a new profile whose fields are set line by line.
     */
    method LoadUserProfile() returns (out: Outcome<Option<UserProfile>>)
      ensures var spec := LoadProfileSpec(file.state, file.readable);
              (out.Thrown? <==> spec.Thrown?)
              && (out.Thrown? ==> out.failure == spec.failure)
              && (out.Returned? ==> (out.value.Some? <==> spec.value.Some?))
              && (out.Returned? && out.value.Some? ==>
                    fresh(out.value.value)
                    && out.value.value.fields == spec.value.value
                    && out.value.value.projects == projects)
    {
      if HoldsNoData(file.state) {
        return Returned(None);
      }
      if !file.readable {
        return Thrown(Runtime(Formatted(UnableToLoadProfile, [])));
      }
      var data := ReadTerminated(file.state.content);
      var profile := new UserProfile(projects, toFormattedString, toExtendedString);
      var lines := JavaSplitNewline(data);
      var i := 0;
      while i < |lines|
        invariant 0 <= i <= |lines|
        invariant ApplyLines(map[], lines[..i]) == Returned(profile.fields)
      {
        assert lines[..i + 1][..i] == lines[..i];
        var line := lines[i];
        var field := MatchLine(line);
        if field.Some? {
          var f := field.value;
          if |line| < Offset(f) {
            ApplyLinesStaysThrown(map[], lines, i + 1);
            return Thrown(IndexOutOfBounds);
          }
          profile.SetField(f, line[Offset(f)..]);
        }
        i := i + 1;
      }
      assert lines[..i] == lines;
      return Returned(Some(profile));
    }
  }
}
