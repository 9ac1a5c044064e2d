/**
 * The delete command: validate the parameters, resolve the "/index"
 * argument to a category and a position, remove that internship, save
 * the list and report. A failed save is reported but the removal stays.
 */
module DeleteCommand {
  import opened Results
  import opened Internships

  type InternshipMap = map<string, seq<Internship>>

  /**
   * `CommandParser.validateIndex`, which is not part of this model: the
   * category and position an index text names in the current map, or the
   * message of the IllegalArgumentException it throws.
   */
  type Resolver = (string, InternshipMap) -> Result<(string, int), string>

  /** The usage text the command shows with a missing index. */
  const Usage: string :=
    "delete: Deletes an internship based on its category and index.\n"
    + "    Parameters: /index INDEX_OF_INTERNSHIP \n"
    + "    Example: delete /index 2"

  /** The parameters are valid exactly when "/index" is the one parameter. */
  function IsValidParameters(parameters: map<string, string>): (valid: bool)
    ensures valid <==> parameters.Keys == {"/index"}
  {
    SingleKey(parameters, "/index");
    |parameters| == 1 && "/index" in parameters
  }

  /** A map of size one holding `k` has `k` as its only key, and conversely. */
  lemma SingleKey(m: map<string, string>, k: string)
    ensures |m| == 1 && k in m <==> m.Keys == {k}
  {
    assert |m| == |m.Keys|;
    if |m| == 1 && k in m {
      var rest := m.Keys - {k};
      assert |rest| == 0;
      assert m.Keys == rest + {k};
    }
  }

  /** A resolver that only names positions that exist. */
  ghost predicate ResolverSound(resolve: Resolver)
  {
    forall text: string, m: InternshipMap {:trigger resolve(text, m)} ::
      resolve(text, m).Ok? ==>
        var (category, index) := resolve(text, m).value;
        category in m && 0 <= index < |m[category]|
  }

  /** What `execute` returns or throws, and the internship map it leaves. */
  datatype DeleteRun = DeleteRun(outcome: Outcome<CommandResult>, internshipMap: InternshipMap)

  /**
   * `execute` on parameters `parameters` and map `m`, when saving throws
   * `saveError` if anything. A category the map lacks or a position
   * outside its list throws before anything is removed.
   */
  function DeleteSpec(parameters: map<string, string>, m: InternshipMap, saveError: Option<Line>,
                      resolve: Resolver, show: Internship -> string): (r: DeleteRun)
    ensures r.internshipMap.Keys == m.Keys
    ensures r.outcome.Thrown? ==> r.internshipMap == m
    ensures r.outcome.Returned? && r.outcome.value.isSuccessful ==> IsValidParameters(parameters) && saveError.None?
  {
    if !IsValidParameters(parameters) then
      DeleteRun(Returned(CommandResult([Formatted(MissingIndex, []), Text(Usage)], false)), m)
    else match resolve(parameters["/index"], m)
      case Err(message) => DeleteRun(Returned(CommandResult([Text(message)], false)), m)
      case Ok((category, index)) =>
        if category !in m then DeleteRun(Thrown(NullPointer), m)
        else if index < 0 || index >= |m[category]| then DeleteRun(Thrown(IndexOutOfBounds), m)
        else
          var after := m[category := RemoveAt(m[category], index)];
          match saveError
          case Some(message) => DeleteRun(Returned(CommandResult([message], false)), after)
          case None => DeleteRun(Returned(CommandResult([Formatted(SuccessfulDelete, [show(m[category][index])])], true)), after)
  }

  /**
   * Without a valid "/index" or a resolved index, the map is left alone and
   * the result is unsuccessful: the missing-index line and the usage text,
   * or exactly the message of the resolver's exception.
   */
  lemma NothingDeletedBeforeResolution(parameters: map<string, string>, m: InternshipMap, saveError: Option<Line>,
                                       resolve: Resolver, show: Internship -> string)
    requires !IsValidParameters(parameters) || resolve(parameters["/index"], m).Err?
    ensures var run := DeleteSpec(parameters, m, saveError, resolve, show);
            run.internshipMap == m && run.outcome.Returned? && !run.outcome.value.isSuccessful
            && run.outcome.value.feedback
               == (if !IsValidParameters(parameters) then [Formatted(MissingIndex, []), Text(Usage)]
                   else [Text(resolve(parameters["/index"], m).error)])
  {
  }

  /**
   * A resolved position removes exactly that internship, and nothing else
   * in any category; the removal stands whether or not the save succeeds,
   * and only a successful save reports success, naming the removed
   * internship.
   */
  lemma ExactlyOneDeletion(parameters: map<string, string>, m: InternshipMap, saveError: Option<Line>,
                           resolve: Resolver, show: Internship -> string, category: string, index: int)
    requires IsValidParameters(parameters) && resolve(parameters["/index"], m) == Ok((category, index))
    requires category in m && 0 <= index < |m[category]|
    ensures var run := DeleteSpec(parameters, m, saveError, resolve, show);
            run.internshipMap.Keys == m.Keys
            && (forall c :: c in m && c != category ==> run.internshipMap[c] == m[c])
            && |run.internshipMap[category]| == |m[category]| - 1
            && multiset(run.internshipMap[category]) + multiset{m[category][index]} == multiset(m[category])
            && run.outcome.Returned?
            && (run.outcome.value.isSuccessful <==> saveError.None?)
            && (saveError.None? ==> run.outcome.value.feedback == [Formatted(SuccessfulDelete, [show(m[category][index])])])
            && (saveError.Some? ==> run.outcome.value.feedback == [saveError.value])
  {
    var s := m[category];
    assert s == s[..index] + [s[index]] + s[index + 1..];
  }

  /** With a resolver that names only existing positions, `execute` never throws. */
  lemma SoundResolverNeverThrows(parameters: map<string, string>, m: InternshipMap, saveError: Option<Line>,
                                 resolve: Resolver, show: Internship -> string)
    requires ResolverSound(resolve)
    ensures DeleteSpec(parameters, m, saveError, resolve, show).outcome.Returned?
  {
    if IsValidParameters(parameters) && resolve(parameters["/index"], m).Ok? {
      var (category, index) := resolve(parameters["/index"], m).value;
      assert category in m && 0 <= index < |m[category]|;
    }
  }

  /** `execute`: validate, resolve, capture the internship, remove it, save, report. */
  method Execute(parameters: map<string, string>, internships: InternshipList,
                 resolve: Resolver, show: Internship -> string) returns (out: Outcome<CommandResult>)
    modifies internships
    ensures var run := DeleteSpec(parameters, old(internships.internshipMap), internships.saveError, resolve, show);
            out == run.outcome
            && internships.internshipMap == run.internshipMap
            && internships.interviews == old(internships.interviews)
  {
    var feedback: seq<Line> := [];
    if !IsValidParameters(parameters) {
      feedback := feedback + [Formatted(MissingIndex, [])];
      feedback := feedback + [Text(Usage)];
      assert feedback == [Formatted(MissingIndex, []), Text(Usage)];
      return Returned(CommandResult(feedback, false));
    }
    var validIndex := resolve(parameters["/index"], internships.internshipMap);
    if validIndex.Err? {
      feedback := feedback + [Text(validIndex.error)];
      assert feedback == [Text(validIndex.error)];
      return Returned(CommandResult(feedback, false));
    }
    var index := validIndex.value.1;
    var category := validIndex.value.0;
    if category !in internships.internshipMap {
      return Thrown(NullPointer);
    }
    if index < 0 || index >= |internships.internshipMap[category]| {
      return Thrown(IndexOutOfBounds);
    }
    var internshipToDelete := internships.internshipMap[category][index];
    internships.DeleteInternship(category, index);
    var failure := internships.SaveInternships();
    if failure.Some? {
      feedback := feedback + [failure.value.message];
      assert feedback == [internships.saveError.value];
      return Returned(CommandResult(feedback, false));
    }
    feedback := feedback + [Formatted(SuccessfulDelete, [show(internshipToDelete)])];
    assert feedback == [Formatted(SuccessfulDelete, [show(internshipToDelete)])];
    return Returned(CommandResult(feedback, true));
  }
}
