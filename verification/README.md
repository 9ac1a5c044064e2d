# InternSprint storage and command core in Dafny

InternSprint is a command-line tracker for internship applications. It
also keeps the user's profile and portfolio projects. This project models
the part of it that keeps data and runs commands.

## What is modelled

- **The project list** (`Projects.ProjectList`): a map seeded with the
  categories `software`, `hardware` and `general`, plus a running project
  count. `addProject` appends to the project's own category, counts it
  and saves the whole list. The invariant `Valid` says three things:
  - the keys are exactly the three categories;
  - every project is filed under its own type;
  - the count is the total number of projects.
- **The project storage handler** (`Projects.ProjectStorageHandler`):
  - `saveProjects` flattens the categories, in the HashMap's iteration
    order, into one JSON array.
  - `loadProjects` reads the file, parses it and adds each record through
    `addProject`. An empty array is rejected. A record of unknown type
    throws out of the loop after the earlier records were added.
  - `createFile` makes the file only when the parent directory was
    missing.
- **The interview storage handler** (`InterviewStorage`):
  - `save` writes every interview to one array.
  - `load` adds the records that convert and skips those that do not. It
    reports each skipped record with its one-based position and its text,
    between a header line and a closing line that names the file.
  - An element that is not an object throws.
  - A parsed empty array is accepted only when the text read was `[]`.
- **The profile storage handler** (`ProfileStorage`):
  - Lines are matched against eight prefixes in a fixed order and cut at
    fixed offsets. The last line for a field wins.
  - `Preferred Roles` is cut one character past its prefix, as written.
    So a bare `Preferred Roles: ` line throws.
  - Both the read loop and Java's `split("\n")` are modelled. Loading is
    proved to be a fold of the line rule over the lines read.
- **The commands** (`Commands.Command` and its three concrete kinds):
  - the parameter map and its validation;
  - the type tag;
  - `execute`. For delete it validates, resolves the index, captures the
    internship, removes it, saves and reports; a failed save does not
    restore the internship. The two view commands give their fixed
    results.

### How the environment is modelled

- Files are `Files.DataFile` objects: a state (absent, or present with
  text) plus fixed flags.
  - The flags say whether the disk lets a read, a write, a directory
    creation or a file creation succeed.
  - A failed write leaves the file in an unknown state.
- `BufferedReader.readLine` is modelled exactly: the terminators are
  "\n", "\r" and "\r\n".
- These are values of function type that the callers supply:
  - JSON parsing and printing (`Json.Codec`);
  - the entities' JSON conversions (`ProjectJson`, `InterviewJson`);
  - the index resolver (`DeleteCommand.Resolver`);
  - the text renderings (`toString`, `toDescription`,
    `toFormattedString`, `toExtendedString`).
- Round-trip lemmas take the properties they need of these functions as
  hypotheses (`ReadsBackRendered`, `ProjectJsonRoundTrips`,
  `InterviewJsonRoundTrips`).
- Java exceptions are `Results.Outcome.Thrown` values.
- Message constants are `Formatted` lines. Their text is not part of
  this model.

## Model

| member | source | states |
|---|---|---|
| Projects.SeededMap | src/main/java/seedu/internsprint/model/userprofile/project/ProjectList.java:16-20 | a new map holds exactly the three category keys |
| Projects.ProjectList.constructor | src/main/java/seedu/internsprint/model/userprofile/project/ProjectList.java:12-20 | a new list maps software, hardware and general to empty lists, has count 0 and satisfies the invariant |
| Projects.ProjectList.AddProject | src/main/java/seedu/internsprint/model/userprofile/project/ProjectList.java:27-34 | the project is appended to its own category only; the count grows by one; afterwards `contains` holds and the count is positive; the invariant is kept; the save failure is exactly that of the file; on success the file holds the whole list |
| Projects.ProjectList.GetProjectCount | src/main/java/seedu/internsprint/model/userprofile/project/ProjectList.java:58-60 | the count of a valid list is the total of its three categories |
| Projects.ProjectList.SaveProjects | src/main/java/seedu/internsprint/model/userprofile/project/ProjectList.java:50-52 | saving hands the whole list to the handler: the failure is the file's, and on success the file holds the rendered records |
| Projects.Add | src/main/java/seedu/internsprint/model/userprofile/project/ProjectList.java:29 | defines one `addProject` on the map: the project appended to the list of its own type; `AddOne` states what it keeps |
| Projects.AddAll | src/main/java/seedu/internsprint/model/userprofile/project/ProjectList.java:27-31 | successive additions never change the set of categories |
| Projects.ProjectList.Contains | src/main/java/seedu/internsprint/model/userprofile/project/ProjectList.java:42-45 | defines `contains` as membership in the list of the project's own type; `AddProject` ensures it holds after an addition and `CategoryOfType` shows no other category could hold the project |
| Projects.AddOne | src/main/java/seedu/internsprint/model/userprofile/project/ProjectList.java:27-31 | one addition keeps every project filed under its type and raises the total by one |
| Projects.AddAllCategory | src/main/java/seedu/internsprint/model/userprofile/project/ProjectList.java:27-29 | after any additions, each category is its old list followed by the added projects of that type, in order |
| Projects.AddAllInvariant | src/main/java/seedu/internsprint/model/userprofile/project/ProjectList.java:27-31 | any number of additions keeps the filing invariant and raises the total by their number |
| Projects.TotalIsSumOfCategories | src/main/java/seedu/internsprint/model/userprofile/project/ProjectList.java:12-13 | the total is the sum of the three category lengths |
| Projects.CategoryOfType | src/main/java/seedu/internsprint/model/userprofile/project/ProjectList.java:42-45 | in a well-filed map, every project in category k has type k, which is why `contains` need only look at the project's own category |
| Projects.SumPermutation | src/main/java/seedu/internsprint/storage/ProjectStorageHandler.java:73-75 | summing the category lengths in any order of the same keys gives the same total |
| Projects.FlattenCountsEveryProject | src/main/java/seedu/internsprint/storage/ProjectStorageHandler.java:72-75 | `saveProjects` emits exactly one record per project, whatever order the HashMap iterates in |
| Projects.FlattenKeepsCategories | src/main/java/seedu/internsprint/storage/ProjectStorageHandler.java:72-75 | the projects of each type in the saved array are exactly that category's list, in list order |
| Projects.FlattenWellTyped | src/main/java/seedu/internsprint/storage/ProjectStorageHandler.java:72-75 | every saved project has one of the three types |
| Projects.ToRecordsAppend | src/main/java/seedu/internsprint/storage/ProjectStorageHandler.java:73-75 | the records of two lists put together are their records put together |
| Projects.Flatten | src/main/java/seedu/internsprint/storage/ProjectStorageHandler.java:72-75 | defines the array `saveProjects` builds: the categories in iteration order, each in its list order; `FlattenCountsEveryProject` and `FlattenKeepsCategories` state what it keeps |
| Projects.SaveFailure | src/main/java/seedu/internsprint/storage/ProjectStorageHandler.java:76-86 | defines the exception `saveProjects` raises: with the file absent and the parent missing, the directory, then the create, then the write failure; otherwise only the write failure (`UNABLE_TO_WRITE_FILE` with the path) |
| Projects.ProjectStorageHandler.BuildRecords | src/main/java/seedu/internsprint/storage/ProjectStorageHandler.java:72-75 | the nested loop builds exactly the array of the flattened list |
| Projects.ProjectStorageHandler.AppendRecords | src/main/java/seedu/internsprint/storage/ProjectStorageHandler.java:74 | the inner loop appends one object per project of the category, in order |
| Projects.ProjectStorageHandler.CreateFile | src/main/java/seedu/internsprint/storage/ProjectStorageHandler.java:44-63 | with the parent present nothing happens, even when the file is missing; otherwise the directory is made, then the file, with the directory, already-exists or create message on each failure |
| Projects.ProjectStorageHandler.SaveProjects | src/main/java/seedu/internsprint/storage/ProjectStorageHandler.java:70-87 | the failure is the one the file state calls for (create failures, then the write failure); on success the file holds the rendered records of the whole list |
| Projects.ProjectFromJson | src/main/java/seedu/internsprint/storage/ProjectStorageHandler.java:151-166 | a decoded project's type is the record's "type" string, one of the three, with the details of that variant's conversion; any other type string throws "Unknown project type: " followed by the type |
| Projects.DecodeProjects | src/main/java/seedu/internsprint/storage/ProjectStorageHandler.java:121-124 | the loop decodes at most one project per record, stops with an exception exactly when it decodes fewer, and every decoded project has one of the three types |
| Projects.DecodeStops | src/main/java/seedu/internsprint/storage/ProjectStorageHandler.java:121-124 | after a record throws, later records are never looked at |
| Projects.DecodeExtends | src/main/java/seedu/internsprint/storage/ProjectStorageHandler.java:121-124 | more records only extend the projects decoded so far |
| Projects.DecodedAt | src/main/java/seedu/internsprint/storage/ProjectStorageHandler.java:121-124 | when nothing throws, the i-th decoded project is the i-th record's |
| Projects.DecodeRecordsRoundTrip | src/main/java/seedu/internsprint/storage/ProjectStorageHandler.java:121-124 | the records saved for well-typed projects decode back to exactly those projects, in order |
| Projects.ErrorReadingFile | src/main/java/seedu/internsprint/storage/ProjectStorageHandler.java:136-143 | one unformatted "unable to read" line, unsuccessful |
| Projects.LoadProjectsSpec | src/main/java/seedu/internsprint/storage/ProjectStorageHandler.java:95-129 | every project a load adds has one of the three types |
| Projects.LoadRecords | src/main/java/seedu/internsprint/storage/ProjectStorageHandler.java:121-128 | every project the load loop adds has one of the three types |
| Projects.LoadRecordsStops | src/main/java/seedu/internsprint/storage/ProjectStorageHandler.java:121-124 | the load throws what record i throws, keeping the projects added before it |
| Projects.LoadRecordsWriteFails | src/main/java/seedu/internsprint/storage/ProjectStorageHandler.java:81-86 | on a file that rejects writes, the save inside the first addition throws the write failure after that one project was added |
| Projects.LoadProjectsFirstRun | src/main/java/seedu/internsprint/storage/ProjectStorageHandler.java:98-102 | an absent or empty file is a successful first run that adds nothing |
| Projects.LoadProjectsRejectsEmptyArray | src/main/java/seedu/internsprint/storage/ProjectStorageHandler.java:116-119 | a parsed empty array, "[]" included, gives the single "unable to read" line, unsuccessful, and adds nothing |
| Projects.LoadProjectsAllRecords | src/main/java/seedu/internsprint/storage/ProjectStorageHandler.java:121-128 | when every record decodes, all are added in array order and the load succeeds |
| Projects.LoadProjectsUnknownType | src/main/java/seedu/internsprint/storage/ProjectStorageHandler.java:151-166 | an unknown type at record k throws "Unknown project type", with exactly the k earlier projects added |
| Projects.SeededThenFlattened | src/main/java/seedu/internsprint/storage/ProjectStorageHandler.java:72-75 | adding projects to a new list and saving it keeps every project once, and per category in the order added |
| Projects.SeededRebuilds | src/main/java/seedu/internsprint/storage/ProjectStorageHandler.java:121-124 | adding a list's saved projects to a new list rebuilds that list exactly |
| Projects.SameCategories | src/main/java/seedu/internsprint/model/userprofile/project/ProjectList.java:16-19 | two maps over the three categories that agree on each category are equal |
| Projects.SaveLoadRoundTrip | src/main/java/seedu/internsprint/storage/ProjectStorageHandler.java:70-129 | loading what saving a non-empty list wrote succeeds and rebuilds the list exactly, in every iteration order |
| Projects.EmptySaveIsUnreadable | src/main/java/seedu/internsprint/storage/ProjectStorageHandler.java:116-119 | saving an empty list writes an array the loader then rejects as unreadable |
| Projects.AbortedLoadTruncatesFile | src/main/java/seedu/internsprint/storage/ProjectStorageHandler.java:121-124 | when record k throws, the load throws exactly that record's exception, having added exactly the k projects decoded from the records before it; the list the last save flattened holds those alone, per category in order; for k = 0 nothing is added, so no save runs and the file keeps every record |
| Projects.AbortedLoadReloadsPrefix | src/main/java/seedu/internsprint/storage/ProjectStorageHandler.java:121-124 | when record k > 0 throws on a writable file, the load added exactly the k projects decoded from the records before it, and the file the new list was last saved to loads back successfully as exactly those projects, per category: the records from k on are gone from disk |
| Projects.ProjectStorageHandler.LoadProjects | src/main/java/seedu/internsprint/storage/ProjectStorageHandler.java:95-129 | the result or exception is the load specification's; the list is the old one plus the added projects, with the count raised by their number; the file is unchanged when nothing was added; after a writable load that added something the file holds the whole list, which for a new list is the seeded map plus the added projects |
| Projects.ProjectStorageHandler.AddRecords | src/main/java/seedu/internsprint/storage/ProjectStorageHandler.java:121-128 | the loop's outcome, additions and file state are those of the load-loop specification |
| Projects.ProjectStorageHandler.AddRecord | src/main/java/seedu/internsprint/storage/ProjectStorageHandler.java:122-123 | one record is decoded and added, or the loop stops with exactly the specification's exception |
| Projects.ProjectStorageHandler.AddLoaded | src/main/java/seedu/internsprint/storage/ProjectStorageHandler.java:155-161 | one decoded project is added through `addProject`; the save fails exactly when the file rejects writes, and otherwise the file mirrors the list |
| Json.GetString | src/main/java/seedu/internsprint/storage/ProjectStorageHandler.java:152 | `getString` yields a value exactly when the member exists and is a string, and yields that string |
| Files.ReadLines | src/main/java/seedu/internsprint/storage/ProjectStorageHandler.java:105-109 | defines the lines `readLine` returns, one after another, until null; `ReadLinesJoined` states they have no terminators and rejoin to the text without terminators |
| Files.LinesFrom | src/main/java/seedu/internsprint/storage/ProjectStorageHandler.java:107 | defines `readLine` on the line in progress: a line ends at "\n", "\r" or "\r\n", and text after the last terminator is one more line |
| Files.ReadJoined | src/main/java/seedu/internsprint/storage/InterviewStorageHandler.java:111-116 | the read loop builds the file's text with every line terminator removed |
| Files.ReadLinesJoined | src/main/java/seedu/internsprint/storage/ProjectStorageHandler.java:104-109 | the lines `readLine` returns have no terminators and, joined, are the text without terminators |
| Files.ReadTerminated | src/main/java/seedu/internsprint/storage/ProfileStorageHandler.java:89-94 | the profile read loop builds each line followed by "\n" |
| Internships.RemoveAt | src/main/java/seedu/internsprint/logic/command/internship/DeleteCommand.java:90 | the list loses exactly the element at the index; those before keep their places, those after move down one |
| Internships.InternshipList.DeleteInternship | src/main/java/seedu/internsprint/logic/command/internship/DeleteCommand.java:90 | only the named category changes, by removing that position |
| Internships.InternshipList.SaveInternships | src/main/java/seedu/internsprint/logic/command/internship/DeleteCommand.java:92-94 | the save throws an IOException with the store's message exactly when the store's write fails |
| Internships.InternshipList.AddInterview | src/main/java/seedu/internsprint/storage/InterviewStorageHandler.java:166-169 | the interview is appended and the internships are untouched |
| InterviewStorage.InterviewRecords | src/main/java/seedu/internsprint/storage/InterviewStorageHandler.java:75-76 | one object per interview, in list order |
| InterviewStorage.ScanRecords | src/main/java/seedu/internsprint/storage/InterviewStorageHandler.java:134-144 | every record is added or skipped, none twice, and a completed loop accounts for every record |
| InterviewStorage.FaultsAreFailures | src/main/java/seedu/internsprint/storage/InterviewStorageHandler.java:134-144 | every skipped record is an object of the array whose conversion fails |
| InterviewStorage.FailingRecordsReported | src/main/java/seedu/internsprint/storage/InterviewStorageHandler.java:136-143 | conversely, a completed loop reports every object whose conversion fails, with its position |
| InterviewStorage.FaultPositionsIncrease | src/main/java/seedu/internsprint/storage/InterviewStorageHandler.java:134-144 | skipped records are reported in array order, each once |
| InterviewStorage.AbortsIffNonObject | src/main/java/seedu/internsprint/storage/InterviewStorageHandler.java:134-138 | the loop throws exactly when some element is not an object |
| InterviewStorage.ScanStaysAborted | src/main/java/seedu/internsprint/storage/InterviewStorageHandler.java:134-135 | once an element has thrown, later elements change nothing |
| InterviewStorage.ScanAbortsAt | src/main/java/seedu/internsprint/storage/InterviewStorageHandler.java:135 | the first non-object throws and keeps what was added before it |
| InterviewStorage.ScanStep | src/main/java/seedu/internsprint/storage/InterviewStorageHandler.java:136-143 | one more object either adds its interview or becomes the next skipped record |
| InterviewStorage.ScanRoundTrip | src/main/java/seedu/internsprint/storage/InterviewStorageHandler.java:134-144 | the records `save` writes all convert back, in order, with nothing skipped |
| InterviewStorage.EntryLines | src/main/java/seedu/internsprint/storage/InterviewStorageHandler.java:141-142 | defines the two lines of a skipped record: its one-based position in decimal, then its text; `FaultReportAt` places them in the report |
| InterviewStorage.CorruptionReport | src/main/java/seedu/internsprint/storage/InterviewStorageHandler.java:146-152 | the corruption result is unsuccessful, with a header, two lines per skipped record and the closing line |
| InterviewStorage.LoadInterviewsSpec | src/main/java/seedu/internsprint/storage/InterviewStorageHandler.java:102-158 | every exception of a load is the JSON error of `new JSONArray` or `getJSONObject`; interviews are added only from a readable file that holds data |
| InterviewStorage.InterviewSaveFailure | src/main/java/seedu/internsprint/storage/InterviewStorageHandler.java:73-93 | defines the exception `save` raises: a missing directory that cannot be made, a missing file that cannot be created (both runtime), or a failed write as an IOException with `UNABLE_TO_CREATE_FILE` |
| InterviewStorage.FaultReport | src/main/java/seedu/internsprint/storage/InterviewStorageHandler.java:141-142 | two report lines per skipped record |
| InterviewStorage.FaultReportAt | src/main/java/seedu/internsprint/storage/InterviewStorageHandler.java:141-142 | lines 2j and 2j+1 are "Error at JSON entry index: " with the one-based position and "Faulty entry: " with the record's text |
| Results.DecimalRoundTrip | src/main/java/seedu/internsprint/storage/InterviewStorageHandler.java:141 | the decimal text of a position reads back as that number |
| Results.NatToStringInjective | src/main/java/seedu/internsprint/storage/InterviewStorageHandler.java:141 | different positions are reported with different texts |
| InterviewStorage.ErrorReadingFile | src/main/java/seedu/internsprint/storage/InterviewStorageHandler.java:176-183 | one "unable to read" line naming the file, unsuccessful |
| InterviewStorage.EmptyArrayAcceptedOnlyAsBrackets | src/main/java/seedu/internsprint/storage/InterviewStorageHandler.java:121-127 | a parsed empty array succeeds exactly when the text read is two characters, and is otherwise "unable to read"; nothing is added |
| InterviewStorage.CorruptionBracket | src/main/java/seedu/internsprint/storage/InterviewStorageHandler.java:146-152 | over an array of objects, success holds exactly when nothing was skipped; otherwise the feedback is the header, two lines per skipped record, then the line naming the file |
| InterviewStorage.OnlyFault | src/main/java/seedu/internsprint/storage/InterviewStorageHandler.java:134-144 | when only record k fails to convert, it is the one skipped record |
| InterviewStorage.OneFaultReport | src/main/java/seedu/internsprint/storage/InterviewStorageHandler.java:146-149 | the report of a single skipped record is its four lines |
| InterviewStorage.SingleFaultyRecord | src/main/java/seedu/internsprint/storage/InterviewStorageHandler.java:134-152 | one bad record among objects: every other record is added, and the feedback is exactly header, "index k+1", its text, and the file line |
| InterviewStorage.NonObjectAborts | src/main/java/seedu/internsprint/storage/InterviewStorageHandler.java:134-138 | a non-object element throws, keeping the interviews before it |
| InterviewStorage.SaveLoadRoundTrip | src/main/java/seedu/internsprint/storage/InterviewStorageHandler.java:73-158 | loading what `save` wrote succeeds and adds every interview in order, for an empty list too |
| InterviewStorage.InterviewStorageHandler.CreateFile | src/main/java/seedu/internsprint/storage/InterviewStorageHandler.java:44-65 | a missing directory is made, then a missing file, each failure with its message naming the directory or the file; when both exist nothing changes |
| InterviewStorage.InterviewStorageHandler.Save | src/main/java/seedu/internsprint/storage/InterviewStorageHandler.java:73-93 | the failure is the one the file state calls for; on success the file holds the array of every interview |
| InterviewStorage.InterviewStorageHandler.BuildRecords | src/main/java/seedu/internsprint/storage/InterviewStorageHandler.java:75-76 | the loop builds exactly the array of the interviews |
| InterviewStorage.InterviewStorageHandler.Load | src/main/java/seedu/internsprint/storage/InterviewStorageHandler.java:102-158 | the result or exception is the load specification's; the interviews are the old ones plus those it adds; internships are untouched |
| InterviewStorage.InterviewStorageHandler.AddRecords | src/main/java/seedu/internsprint/storage/InterviewStorageHandler.java:132-157 | a throw, the corruption report or success, each exactly when the record loop calls for it |
| InterviewStorage.InterviewStorageHandler.ScanInto | src/main/java/seedu/internsprint/storage/InterviewStorageHandler.java:132-144 | the loop throws exactly when the scan aborts; otherwise it leaves the report lines and the corruption flag of the scan; the interviews it adds are the scan's |
| InterviewStorage.InterviewStorageHandler.AddRecord | src/main/java/seedu/internsprint/storage/InterviewStorageHandler.java:136-143 | one loop turn on an object moves the loop state one record on |
| ProfileStorage.MatchLine | src/main/java/seedu/internsprint/storage/ProfileStorageHandler.java:100-116 | defines the else-if chain: the first field, in source order, whose prefix starts the line; `MatchLineIffPrefix` states that order does not matter |
| ProfileStorage.ApplyLine | src/main/java/seedu/internsprint/storage/ProfileStorageHandler.java:100-116 | defines one loop turn: the matched field set to the line cut at its offset, an index exception when the line is shorter than the offset; `LineThrowsIff`, `ApplyLineOther` and `ExactPrefixRemoved` state its behaviour |
| ProfileStorage.ApplyLines | src/main/java/seedu/internsprint/storage/ProfileStorageHandler.java:99-117 | defines the loop over the split lines in order, ended by the first line that throws; `LastOccurrenceWins` and `LoadThrowsIff` state its result |
| ProfileStorage.JavaSplitNewline | src/main/java/seedu/internsprint/storage/ProfileStorageHandler.java:98 | defines `split("\n")`: the text itself when it has no newline, otherwise its pieces without the trailing empty ones; `SplitTerminatedLines` states what it gives on the rebuilt text |
| ProfileStorage.LoadProfileSpec | src/main/java/seedu/internsprint/storage/ProfileStorageHandler.java:84-123 | no profile exactly when the file holds no data; the only exceptions are the "unable to load" runtime exception on a read error and the index exception of a bare roles line |
| ProfileStorage.ProfileSaveFailure | src/main/java/seedu/internsprint/storage/ProfileStorageHandler.java:65-78 | defines the exception `saveUserProfile` raises: unformatted directory or create failures when the file and its parent are missing, then `UNABLE_TO_SAVE_PROFILE` with the path on a failed write |
| ProfileStorage.OffsetAgainstPrefix | src/main/java/seedu/internsprint/storage/ProfileStorageHandler.java:100-115 | every cut is right after its prefix, except Preferred Roles, which is one further |
| ProfileStorage.PrefixesExclusive | src/main/java/seedu/internsprint/storage/ProfileStorageHandler.java:100-114 | no line starts with two different prefixes |
| ProfileStorage.MatchLineIffPrefix | src/main/java/seedu/internsprint/storage/ProfileStorageHandler.java:99-117 | a line sets a field exactly when it starts with that field's prefix, so the order of the tests does not matter |
| ProfileStorage.LastMatch | src/main/java/seedu/internsprint/storage/ProfileStorageHandler.java:99-117 | the reference line for a field is one of the lines and starts with the field's prefix |
| ProfileStorage.ApplyLineOther | src/main/java/seedu/internsprint/storage/ProfileStorageHandler.java:99-117 | a line without a field's prefix leaves that field as it was |
| ProfileStorage.LastOccurrenceWins | src/main/java/seedu/internsprint/storage/ProfileStorageHandler.java:99-117 | a field takes the value of the last line with its prefix, cut at its offset; a field no line names keeps its old value or default |
| ProfileStorage.LineThrowsIff | src/main/java/seedu/internsprint/storage/ProfileStorageHandler.java:110-111 | a line throws exactly when it is the bare "Preferred Roles: ", with an index error |
| ProfileStorage.LoadThrowsIff | src/main/java/seedu/internsprint/storage/ProfileStorageHandler.java:99-117 | the loop throws exactly when some line is the bare "Preferred Roles: ", with an index error |
| ProfileStorage.ExactPrefixRemoved | src/main/java/seedu/internsprint/storage/ProfileStorageHandler.java:100-115 | every field but Preferred Roles stores its line with exactly the prefix removed |
| ProfileStorage.RolesLoseFirstCharacter | src/main/java/seedu/internsprint/storage/ProfileStorageHandler.java:110-111 | Preferred Roles loses the first character after its prefix |
| ProfileStorage.RolesExample | src/main/java/seedu/internsprint/storage/ProfileStorageHandler.java:110-111 | "Preferred Roles: Engineer" stores "ngineer" |
| ProfileStorage.ApplyLinesStaysThrown | src/main/java/seedu/internsprint/storage/ProfileStorageHandler.java:99-117 | once a line has thrown, later lines change nothing |
| ProfileStorage.Pieces | src/main/java/seedu/internsprint/storage/ProfileStorageHandler.java:98 | splitting at "\n" gives at least one piece |
| ProfileStorage.PiecesAppendText | src/main/java/seedu/internsprint/storage/ProfileStorageHandler.java:98 | text without a terminator extends the last piece |
| ProfileStorage.PiecesTerminated | src/main/java/seedu/internsprint/storage/ProfileStorageHandler.java:93-98 | the rebuilt text splits into the lines read plus one empty piece |
| ProfileStorage.EmptyLineIgnored | src/main/java/seedu/internsprint/storage/ProfileStorageHandler.java:99-117 | an empty line changes nothing |
| ProfileStorage.DropTrailingEmptyIgnored | src/main/java/seedu/internsprint/storage/ProfileStorageHandler.java:98-117 | the trailing empty pieces `split` drops would have changed nothing |
| ProfileStorage.SplitTerminatedLines | src/main/java/seedu/internsprint/storage/ProfileStorageHandler.java:93-117 | looping over the split of the rebuilt text is looping over the lines read |
| ProfileStorage.ProfileIsFoldOverLines | src/main/java/seedu/internsprint/storage/ProfileStorageHandler.java:89-118 | loading a readable file is the line rule applied to its lines in order, from a new profile |
| ProfileStorage.ProfileStorageHandler.SaveProfileOnStart | src/main/java/seedu/internsprint/storage/ProfileStorageHandler.java:35-40 | with no profile nothing at all happens; otherwise it is a save |
| ProfileStorage.ProfileStorageHandler.CreateUserProfileFile | src/main/java/seedu/internsprint/storage/ProfileStorageHandler.java:45-59 | acts only when the parent directory is missing: make it, then the file, each failure with its unformatted message |
| ProfileStorage.ProfileStorageHandler.SaveUserProfile | src/main/java/seedu/internsprint/storage/ProfileStorageHandler.java:65-78 | the failure is the one the file state calls for; on success the file holds the formatted profile |
| ProfileStorage.ProfileStorageHandler.LoadUserProfile | src/main/java/seedu/internsprint/storage/ProfileStorageHandler.java:84-123 | no profile for a file without data; the "unable to load" exception on a read error; the index exception of a bare roles line; otherwise a new profile whose fields are the load specification's |
| Users.UserProfile.constructor | src/main/java/seedu/internsprint/storage/ProfileStorageHandler.java:96 | a new profile has every field at its default |
| Users.UserProfile.SetField | src/main/java/seedu/internsprint/storage/ProfileStorageHandler.java:100-115 | a setter changes its field alone |
| DeleteCommand.IsValidParameters | src/main/java/seedu/internsprint/logic/command/internship/DeleteCommand.java:36-39 | valid exactly when "/index" is the one parameter |
| DeleteCommand.SingleKey | src/main/java/seedu/internsprint/logic/command/internship/DeleteCommand.java:37-38 | a one-entry map containing a key has that key alone, and conversely |
| DeleteCommand.DeleteSpec | src/main/java/seedu/internsprint/logic/command/internship/DeleteCommand.java:55-107 | the categories never change; a thrown exception leaves the map as it was; success needs valid parameters and a good save |
| DeleteCommand.NothingDeletedBeforeResolution | src/main/java/seedu/internsprint/logic/command/internship/DeleteCommand.java:63-82 | invalid parameters or a failed resolution leave the map alone and fail: the feedback is exactly the missing-index line and the usage text, or exactly the message of the resolver's exception |
| DeleteCommand.ExactlyOneDeletion | src/main/java/seedu/internsprint/logic/command/internship/DeleteCommand.java:84-104 | a resolved position removes exactly that internship, as a multiset, and no other category changes; the removal stays after a failed save; success and its one line naming the internship come exactly with a good save |
| DeleteCommand.SoundResolverNeverThrows | src/main/java/seedu/internsprint/logic/command/internship/DeleteCommand.java:84-90 | with a resolver that names only existing positions, `execute` never throws |
| DeleteCommand.Execute | src/main/java/seedu/internsprint/logic/command/internship/DeleteCommand.java:55-107 | the result and the new map are those of the delete specification; interviews are untouched |
| ViewSoftwareProjectsCommand.Listing | src/main/java/seedu/internsprint/command/ViewSoftwareProjectsCommand.java:39-41 | one description per project, in list order |
| ViewSoftwareProjectsCommand.Execute | src/main/java/seedu/internsprint/command/ViewSoftwareProjectsCommand.java:33-45 | successful; the header, then exactly the software projects' descriptions in order, so 1 + n lines |
| ViewUserCommand.Execute | src/main/java/seedu/internsprint/logic/command/user/ViewUserCommand.java:43-52 | successful; exactly the header and the profile's extended text |
| Commands.Command.constructor | src/main/java/seedu/internsprint/logic/command/Command.java:15 | a new command has an empty parameter map |
| Commands.Command.SetParameters | src/main/java/seedu/internsprint/logic/command/Command.java:17-19 | the map given replaces the old one, with no merging |
| Commands.Command.GetParameters | src/main/java/seedu/internsprint/logic/command/Command.java:21-23 | returns the map most recently set |
| Commands.Command.IsValidParameters | src/main/java/seedu/internsprint/logic/command/Command.java:30 | delete needs "/index" alone; both view commands accept any map |
| Commands.Command.GetCommandType | src/main/java/seedu/internsprint/logic/command/Command.java:41 | "internship" exactly for delete, "user" exactly for the view commands |
| Commands.Command.Execute | src/main/java/seedu/internsprint/logic/command/Command.java:39 | delete follows its specification; only delete changes the internship map; no command changes the interviews; the view commands give their fixed results |

## Left out

- Real file I/O is not modelled: paths, `mkdirs`, `createNewFile`,
  readers and writers are a file state with fixed success flags. A
  failed write leaves the file in an unknown state.
- org.json parsing and printing are not modelled. They are supplied
  functions, and round trips assume `ReadsBackRendered`.
- `Interview`, `HardwareProject`, `SoftwareProject` and `GeneralProject`
  JSON conversions are not modelled. These classes are not part of this
  model; their conversions are supplied functions.
- Failures of `addInterview` are not modelled separately. They fold into
  `InterviewJson.fromJson` returning None.
- `toString`, `toDescription`, `toFormattedString` and `toExtendedString`
  are supplied functions. `UserProfile` is not part of this model, so no
  profile save/load round trip is stated.
- `CommandParser.validateIndex` is a supplied resolver. It returns a
  category and an int directly, so the `Integer.parseInt` of its second
  string is not modelled.
- `InternshipList` is not part of this model. It has the smallest bodies
  that meet its callers' contracts. Whether `deleteInternship` also
  removes the internship's interviews is not modelled: the model keeps the
  interviews unchanged.
- The HashMap's iteration order over the three categories is a fixed but
  unknown permutation (`IterationOrder`). Lemmas hold for every such
  order.
- Logging and Java `assert` statements are not modelled. This includes
  the `parameters.isEmpty()` assert of the two view commands; their
  validators return true.
- The handlers keep their file in a static field shared by every
  instance. The model gives each handler its file and does not model
  that sharing or any other Java aliasing.
- The `FILE_ALREADY_EXISTS` path of the interview `createFile` is
  omitted. It follows a check that the file is absent and is unreachable
  without a concurrent writer.
- Commands other than delete and the two view commands are not part of
  this model.
- ViewSoftwareProjectsCommand.Execute: requires the "software" key.
  Every `ProjectList` holds it, since its constructor seeds it and
  nothing removes it. The NullPointerException without it is not
  modelled.
- Commands.Command.Execute: requires the "software" key for the software
  view, for the same reason.
- Projects.ProjectList.Contains: requires the project's type to be a
  key of the map. Without it the source throws a NullPointerException
  from `get`; every `ProjectList` holds exactly the three category keys.
- ProfileStorage.RolesLoseFirstCharacter: strings are sequences of
  Unicode code points, while Java's `substring` counts UTF-16 units. A
  first character outside the Basic Multilingual Plane is dropped whole
  in the model, while Java keeps its low surrogate. The other offsets
  cut right after ASCII prefixes, so they agree.
- Projects.ProjectList.AddProject: requires the project's type to be a
  key of the map. Without it the source throws a NullPointerException
  from `get`; the loader only adds projects of the three types.
- Internships.InternshipList.DeleteInternship: requires a valid category
  and position. `DeleteCommand.execute` checks both first
  (`DeleteSpec` throws otherwise).
