/**
 * The internship store as the commands and the interview loader see it.
 * Its own code is not part of this model: each operation the core calls
 * is given the smallest body that meets the contract the callers rely on.
 */
module Internships {
  import opened Results

  /** An internship: the category it is filed under and its other fields. */
  datatype Internship = Internship(category: string, details: map<string, string>)

  /** An interview, with its fields. */
  datatype Interview = Interview(details: map<string, string>)

  /** The list with the element at `index` removed. */
  function RemoveAt<T>(s: seq<T>, index: nat): (r: seq<T>)
    requires index < |s|
    ensures |r| == |s| - 1
    ensures forall i :: 0 <= i < index ==> r[i] == s[i]
    ensures forall i :: index <= i < |r| ==> r[i] == s[i + 1]
  {
    s[..index] + s[index + 1..]
  }

  class InternshipList {
    var internshipMap: map<string, seq<Internship>>
    var interviews: seq<Interview>
    /** What `saveInternships` throws, if anything: the disk's answer, fixed for the run. */
    const saveError: Option<Line>

    constructor (internshipMap: map<string, seq<Internship>>, interviews: seq<Interview>, saveError: Option<Line>)
      ensures this.internshipMap == internshipMap && this.interviews == interviews && this.saveError == saveError
    {
      this.internshipMap := internshipMap;
      this.interviews := interviews;
      this.saveError := saveError;
    }

    /** `deleteInternship(type, index)`: remove the internship at that position of its category. */
    method DeleteInternship(category: string, index: nat)
      requires category in internshipMap && index < |internshipMap[category]|
      modifies this
      ensures internshipMap == old(internshipMap)[category := RemoveAt(old(internshipMap)[category], index)]
      ensures interviews == old(interviews)
    {
      internshipMap := internshipMap[category := RemoveAt(internshipMap[category], index)];
    }

    /** `saveInternships`: throws an IOException with the store's message when the write fails. */
    method SaveInternships() returns (failure: Option<Failure>)
      ensures failure == if saveError.Some? then Some(Io(saveError.value)) else None
    {
      failure := if saveError.Some? then Some(Io(saveError.value)) else None;
    }

    /** `addInterview`: the interview joins the list `getInterviewList` returns, at the end. */
    method AddInterview(interview: Interview)
      modifies this
      ensures interviews == old(interviews) + [interview]
      ensures internshipMap == old(internshipMap)
    {
      interviews := interviews + [interview];
    }
  }
}
