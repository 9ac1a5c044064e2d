/**
 * The interview storage handler: it writes every interview of the
 * internship list to one JSON array file and reads that file back at
 * start-up. Unlike the project loader it tolerates bad records: a record
 * that cannot be turned into an interview is skipped and reported, with
 * its one-based position and its text, and the other records are kept.
 */
module InterviewStorage {
  import opened Results
  import opened Files
  import opened Json
  import opened Internships

  /**
   * The interview's JSON conversion. `fromJson` is None when building the
   * interview or adding it to the list throws a RuntimeException.
   */
  datatype InterviewJson = InterviewJson(
    toJson: Interview -> JsonObject,
    fromJson: JsonObject -> Option<Interview>)

  /** What the loader needs of the conversion to read back what `save` wrote. */
  ghost predicate InterviewJsonRoundTrips(ij: InterviewJson)
  {
    forall iv: Interview {:trigger ij.toJson(iv)} :: ij.fromJson(ij.toJson(iv)) == Some(iv)
  }

  /** The array `save` builds: each interview's object, in list order. */
  function InterviewRecords(ivs: seq<Interview>, ij: InterviewJson): (records: seq<JsonElement>)
    ensures |records| == |ivs|
    ensures forall i :: 0 <= i < |ivs| ==> records[i] == JObject(ij.toJson(ivs[i]))
  {
    if ivs == [] then [] else InterviewRecords(ivs[..|ivs| - 1], ij) + [JObject(ij.toJson(ivs[|ivs| - 1]))]
  }

  // ---------------------------------------------------------------------------
  // The record loop

  /** A skipped record: its zero-based position in the array and its object. */
  datatype Fault = Fault(position: nat, entry: JsonObject)

  /**
   * Where the record loop stands: the interviews added so far, the records
   * skipped so far, and whether a record that is not an object ended it.
   */
  datatype Scan = Scan(added: seq<Interview>, faults: seq<Fault>, aborted: bool)

  /**
   * The record loop of `load` over `records`: an object that converts is
   * added, one that does not is skipped and remembered, and the first
   * element that is not an object throws out of the loop.
   */
  function ScanRecords(records: seq<JsonElement>, ij: InterviewJson): (s: Scan)
    ensures |s.added| + |s.faults| <= |records|
    ensures !s.aborted ==> |s.added| + |s.faults| == |records|
  {
    if records == [] then Scan([], [], false)
    else
      var n := |records| - 1;
      var s := ScanRecords(records[..n], ij);
      if s.aborted then s
      else match records[n]
        case JNonObject(_) => Scan(s.added, s.faults, true)
        case JObject(o) =>
          match ij.fromJson(o)
          case Some(iv) => Scan(s.added + [iv], s.faults, false)
          case None => Scan(s.added, s.faults + [Fault(n, o)], false)
  }

  /** Every fault in `fs` is a record of `records` that is an object whose conversion fails. */
  predicate FaultsFail(records: seq<JsonElement>, fs: seq<Fault>, ij: InterviewJson)
  {
    forall j :: 0 <= j < |fs| ==>
      fs[j].position < |records|
      && records[fs[j].position] == JObject(fs[j].entry)
      && ij.fromJson(fs[j].entry).None?
  }

  /** Every reported fault is a record of the array that is an object whose conversion fails. */
  lemma {:induction false} FaultsAreFailures(records: seq<JsonElement>, ij: InterviewJson)
    ensures FaultsFail(records, ScanRecords(records, ij).faults, ij)
  {
    if records != [] {
      var n := |records| - 1;
      FaultsAreFailures(records[..n], ij);
      var front := ScanRecords(records[..n], ij).faults;
      var fs := ScanRecords(records, ij).faults;
      assert FaultsFail(records[..n], front, ij);
      assert fs == front || fs == front + [Fault(n, records[n].fields)];
      forall j | 0 <= j < |fs|
        ensures fs[j].position < |records| && records[fs[j].position] == JObject(fs[j].entry)
                && ij.fromJson(fs[j].entry).None?
      {
        if j < |front| {
          assert fs[j] == front[j];
          assert records[..n][front[j].position] == records[front[j].position];
        }
      }
    }
  }

  predicate Increasing(fs: seq<Fault>)
  {
    forall i, j :: 0 <= i < j < |fs| ==> fs[i].position < fs[j].position
  }

  /** Increasing positions spread at least one apart per fault. */
  lemma {:induction false} IncreasingSpread(fs: seq<Fault>)
    requires Increasing(fs) && fs != []
    ensures fs[|fs| - 1].position >= fs[0].position + |fs| - 1
  {
    if |fs| > 1 {
      var front := fs[..|fs| - 1];
      assert Increasing(front);
      IncreasingSpread(front);
      assert fs[|fs| - 2].position < fs[|fs| - 1].position;
    }
  }

  /** The skipped records are reported in array order, each once. */
  lemma {:induction false} FaultPositionsIncrease(records: seq<JsonElement>, ij: InterviewJson)
    ensures Increasing(ScanRecords(records, ij).faults)
  {
    if records != [] {
      var n := |records| - 1;
      FaultPositionsIncrease(records[..n], ij);
      FaultsAreFailures(records[..n], ij);
      var front := ScanRecords(records[..n], ij).faults;
      var fs := ScanRecords(records, ij).faults;
      assert fs == front || fs == front + [Fault(n, records[n].fields)];
      forall i, j | 0 <= i < j < |fs|
        ensures fs[i].position < fs[j].position
      {
        if fs == front {
          assert Increasing(front);
        } else {
          assert fs == front + [Fault(n, records[n].fields)];
          assert FaultsFail(records[..n], front, ij);
          assert fs[i] == front[i] && front[i].position < n;
          if j < |front| {
            assert fs[j] == front[j] && front[i].position < front[j].position;
          } else {
            assert fs[j].position == n;
          }
        }
      }
    }
  }

  /** The loop completes exactly when every element of the array is an object. */
  lemma {:induction false} AbortsIffNonObject(records: seq<JsonElement>, ij: InterviewJson)
    ensures ScanRecords(records, ij).aborted <==> exists k :: 0 <= k < |records| && records[k].JNonObject?
  {
    if records != [] {
      var n := |records| - 1;
      AbortsIffNonObject(records[..n], ij);
      if exists k :: 0 <= k < n && records[..n][k].JNonObject? {
        var k :| 0 <= k < n && records[..n][k].JNonObject?;
        assert records[k].JNonObject?;
      }
    }
  }

  /** A completed loop skips every record that does not convert: none is lost silently. */
  lemma {:induction false} FailingRecordsReported(records: seq<JsonElement>, ij: InterviewJson, k: nat)
    requires !ScanRecords(records, ij).aborted
    requires k < |records| && records[k].JObject? && ij.fromJson(records[k].fields).None?
    ensures exists j :: 0 <= j < |ScanRecords(records, ij).faults| && ScanRecords(records, ij).faults[j] == Fault(k, records[k].fields)
  {
    var n := |records| - 1;
    var s := ScanRecords(records[..n], ij);
    if k == n {
      assert ScanRecords(records, ij).faults[|s.faults|] == Fault(k, records[k].fields);
    } else {
      FailingRecordsReported(records[..n], ij, k);
      var j :| 0 <= j < |s.faults| && s.faults[j] == Fault(k, records[k].fields);
      assert ScanRecords(records, ij).faults[j] == s.faults[j];
    }
  }

  /** Once a non-object has ended the loop, later elements change nothing. */
  lemma {:induction false} ScanStaysAborted(records: seq<JsonElement>, n: nat, ij: InterviewJson)
    requires n <= |records| && ScanRecords(records[..n], ij).aborted
    ensures ScanRecords(records, ij) == ScanRecords(records[..n], ij)
    decreases |records|
  {
    if n < |records| {
      var front := records[..|records| - 1];
      assert front[..n] == records[..n];
      ScanStaysAborted(front, n, ij);
    } else {
      assert records[..n] == records;
    }
  }

  /** The element at `k` is the first non-object: the loop throws there, keeping what it added before. */
  lemma ScanAbortsAt(records: seq<JsonElement>, k: nat, ij: InterviewJson)
    requires k < |records| && records[k].JNonObject?
    requires !ScanRecords(records[..k], ij).aborted
    ensures ScanRecords(records, ij) ==
            Scan(ScanRecords(records[..k], ij).added, ScanRecords(records[..k], ij).faults, true)
  {
    assert records[..k + 1][..k] == records[..k];
    ScanStaysAborted(records, k + 1, ij);
  }

  /** One more object: its interview is added, or it becomes the next fault. */
  lemma ScanStep(records: seq<JsonElement>, i: nat, ij: InterviewJson)
    requires i < |records| && records[i].JObject?
    requires !ScanRecords(records[..i], ij).aborted
    ensures var before := ScanRecords(records[..i], ij);
            ScanRecords(records[..i + 1], ij) ==
              match ij.fromJson(records[i].fields)
              case Some(iv) => Scan(before.added + [iv], before.faults, false)
              case None => Scan(before.added, before.faults + [Fault(i, records[i].fields)], false)
  {
    assert records[..i + 1][..i] == records[..i];
  }

  /** Records written by `save` all convert back: the loop adds them all, in order. */
  lemma {:induction false} ScanRoundTrip(ivs: seq<Interview>, ij: InterviewJson)
    requires InterviewJsonRoundTrips(ij)
    ensures ScanRecords(InterviewRecords(ivs, ij), ij) == Scan(ivs, [], false)
  {
    if ivs != [] {
      var n := |ivs| - 1;
      var records := InterviewRecords(ivs, ij);
      assert records[..n] == InterviewRecords(ivs[..n], ij);
      ScanRoundTrip(ivs[..n], ij);
      assert ij.fromJson(ij.toJson(ivs[n])) == Some(ivs[n]);
      assert ivs[..n] + [ivs[n]] == ivs;
    }
  }

  // ---------------------------------------------------------------------------
  // Feedback

  /** The two lines reporting a skipped record: its one-based position, then its text. */
  function EntryLines(f: Fault, codec: Codec): seq<Line>
  {
    [Text("Error at JSON entry index: " + NatToString(f.position + 1)),
     Text("Faulty entry: " + codec.renderObject(f.entry))]
  }

  /** The report lines of the skipped records, in order. */
  function FaultReport(faults: seq<Fault>, codec: Codec): (lines: seq<Line>)
    ensures |lines| == 2 * |faults|
  {
    if faults == [] then [] else FaultReport(faults[..|faults| - 1], codec) + EntryLines(faults[|faults| - 1], codec)
  }

  /** Lines 2j and 2j+1 of the report are the two lines of the j-th skipped record. */
  lemma {:induction false} FaultReportAt(faults: seq<Fault>, codec: Codec, j: nat)
    requires j < |faults|
    ensures FaultReport(faults, codec)[2 * j] == Text("Error at JSON entry index: " + NatToString(faults[j].position + 1))
    ensures FaultReport(faults, codec)[2 * j + 1] == Text("Faulty entry: " + codec.renderObject(faults[j].entry))
  {
    var n := |faults| - 1;
    if j < n {
      FaultReportAt(faults[..n], codec, j);
    }
  }

  /** `errorReadingFile()`: one "unable to read" line naming the file, unsuccessful. */
  function ErrorReadingFile(path: string): (r: CommandResult)
    ensures r.feedback == [Formatted(UnableToReadFile, [path])] && !r.isSuccessful
  {
    CommandResult([Formatted(UnableToReadFile, [path])], false)
  }

  /** The result of a load that skipped records: a header, the record lines, then where the file is. */
  function CorruptionReport(faults: seq<Fault>, path: string, codec: Codec): (r: CommandResult)
    ensures !r.isSuccessful && |r.feedback| == 2 * |faults| + 2
  {
    CommandResult([Formatted(CorruptedInterviewFile, [])] + FaultReport(faults, codec)
                  + [Text("Please fix or delete the file at: " + path)], false)
  }

  /**
   * Where the loop of `load` stands after `prefix`: not thrown, the report
   * lines so far, the corruption flag, and the interviews added after `base`.
   */
  ghost predicate Scanned(prefix: seq<JsonElement>, ij: InterviewJson, codec: Codec, feedback: seq<Line>,
                          hasCorruption: bool, base: seq<Interview>, interviews: seq<Interview>)
  {
    var s := ScanRecords(prefix, ij);
    !s.aborted && feedback == FaultReport(s.faults, codec)
    && (hasCorruption <==> s.faults != []) && interviews == base + s.added
  }

  /** An object that converts: the loop adds its interview and reports nothing. */
  lemma ScannedAdd(records: seq<JsonElement>, i: nat, ij: InterviewJson, codec: Codec, feedback: seq<Line>,
                   hasCorruption: bool, base: seq<Interview>, interviews: seq<Interview>)
    requires i < |records| && records[i].JObject? && ij.fromJson(records[i].fields).Some?
    requires Scanned(records[..i], ij, codec, feedback, hasCorruption, base, interviews)
    ensures Scanned(records[..i + 1], ij, codec, feedback, hasCorruption, base,
                    interviews + [ij.fromJson(records[i].fields).value])
  {
    ScanStep(records, i, ij);
  }

  /** An object that does not convert: the loop reports it and sets the corruption flag. */
  lemma ScannedSkip(records: seq<JsonElement>, i: nat, ij: InterviewJson, codec: Codec, feedback: seq<Line>,
                    hasCorruption: bool, base: seq<Interview>, interviews: seq<Interview>)
    requires i < |records| && records[i].JObject? && ij.fromJson(records[i].fields).None?
    requires Scanned(records[..i], ij, codec, feedback, hasCorruption, base, interviews)
    ensures Scanned(records[..i + 1], ij, codec, feedback + EntryLines(Fault(i, records[i].fields), codec),
                    true, base, interviews)
  {
    ScanStep(records, i, ij);
    var before := ScanRecords(records[..i], ij);
    assert (before.faults + [Fault(i, records[i].fields)])[..|before.faults|] == before.faults;
  }

  // ---------------------------------------------------------------------------
  // Load and save outcomes

  datatype InterviewLoad = InterviewLoad(outcome: Outcome<CommandResult>, added: seq<Interview>)

  /**
   * What `load` returns or throws, and the interviews it adds in order, for
   * a file in state `st`. An array that parses empty is accepted only when
   * the text read is the two characters of "[]".
   */
  function LoadInterviewsSpec(st: FileState, readable: bool, path: string, codec: Codec, ij: InterviewJson): (r: InterviewLoad)
    ensures r.outcome.Thrown? ==> r.outcome.failure == JsonError
    ensures r.added != [] ==> readable && st.Present?
  {
    if HoldsNoData(st) then InterviewLoad(Returned(Single(LoadingDataFirstTime, true)), [])
    else if !readable then InterviewLoad(Returned(ErrorReadingFile(path)), [])
    else
      var data := Unbroken(st.content);
      match codec.parse(data)
      case None => InterviewLoad(Thrown(JsonError), [])
      case Some(records) =>
        if records == [] && |data| != 2 then InterviewLoad(Returned(ErrorReadingFile(path)), [])
        else
          var s := ScanRecords(records, ij);
          if s.aborted then InterviewLoad(Thrown(JsonError), s.added)
          else if s.faults != [] then InterviewLoad(Returned(CorruptionReport(s.faults, path, codec)), s.added)
          else InterviewLoad(Returned(Single(LoadingDataSuccess, true)), s.added)
  }

  /** The exception `save` raises on a file in this state, if any. */
  function InterviewSaveFailure(f: DataFile): Option<Failure>
    reads f
  {
    if f.state.Absent? && !f.parentExists && !f.canMakeDirectories then
      Some(Runtime(Formatted(UnableToCreateDirectory, [f.parentPath])))
    else if f.state.Absent? && !f.canCreate then Some(Runtime(Formatted(UnableToCreateFile, [f.absolutePath])))
    else if !f.writable then Some(Io(Formatted(UnableToCreateFile, [f.absolutePath])))
    else None
  }

  /** A parsed empty array is accepted exactly when the text read is "[]"'s two characters. */
  lemma EmptyArrayAcceptedOnlyAsBrackets(content: string, path: string, codec: Codec, ij: InterviewJson)
    requires content != [] && codec.parse(Unbroken(content)) == Some([])
    ensures var plan := LoadInterviewsSpec(Present(content), true, path, codec, ij);
            plan.added == []
            && (plan.outcome == Returned(Single(LoadingDataSuccess, true)) <==> |Unbroken(content)| == 2)
            && (|Unbroken(content)| != 2 ==> plan.outcome == Returned(ErrorReadingFile(path)))
  {
  }

  /**
   * A readable array of objects loads successfully exactly when no record
   * is skipped; otherwise the feedback opens with the corruption header,
   * closes with the file's path and reports two lines per skipped record.
   */
  lemma CorruptionBracket(content: string, path: string, codec: Codec, ij: InterviewJson, records: seq<JsonElement>)
    requires content != [] && codec.parse(Unbroken(content)) == Some(records) && records != []
    requires forall k :: 0 <= k < |records| ==> records[k].JObject?
    ensures var plan := LoadInterviewsSpec(Present(content), true, path, codec, ij);
            var s := ScanRecords(records, ij);
            plan.outcome.Returned?
            && |plan.added| + |s.faults| == |records|
            && (plan.outcome.value.isSuccessful <==> s.faults == [])
            && (s.faults != [] ==>
                  var lines := plan.outcome.value.feedback;
                  |lines| == 2 * |s.faults| + 2
                  && lines[0] == Formatted(CorruptedInterviewFile, [])
                  && lines[|lines| - 1] == Text("Please fix or delete the file at: " + path))
  {
    AbortsIffNonObject(records, ij);
  }

  /**
   * One bad record among objects: the load keeps the others and reports
   * that record alone, with its one-based position, which reads back as
   * k + 1.
   */
  lemma SingleFaultyRecord(content: string, path: string, codec: Codec, ij: InterviewJson,
                           records: seq<JsonElement>, k: nat)
    requires content != [] && codec.parse(Unbroken(content)) == Some(records)
    requires forall i :: 0 <= i < |records| ==> records[i].JObject?
    requires k < |records| && ij.fromJson(records[k].fields).None?
    requires forall i :: 0 <= i < |records| && i != k ==> ij.fromJson(records[i].fields).Some?
    ensures var plan := LoadInterviewsSpec(Present(content), true, path, codec, ij);
            plan.outcome == Returned(CommandResult(
              [Formatted(CorruptedInterviewFile, []),
               Text("Error at JSON entry index: " + NatToString(k + 1)),
               Text("Faulty entry: " + codec.renderObject(records[k].fields)),
               Text("Please fix or delete the file at: " + path)], false))
            && |plan.added| == |records| - 1
    ensures DecimalValue(NatToString(k + 1)) == k + 1
  {
    OnlyFault(records, ij, k);
    var f := Fault(k, records[k].fields);
    OneFaultReport(f, path, codec);
    var plan := LoadInterviewsSpec(Present(content), true, path, codec, ij);
    assert plan.added == ScanRecords(records, ij).added;
    assert plan.outcome == Returned(CorruptionReport([f], path, codec));
    DecimalRoundTrip(k + 1);
  }

  /** The corruption report of a single skipped record has four lines. */
  lemma OneFaultReport(f: Fault, path: string, codec: Codec)
    ensures CorruptionReport([f], path, codec) == CommandResult(
              [Formatted(CorruptedInterviewFile, []),
               Text("Error at JSON entry index: " + NatToString(f.position + 1)),
               Text("Faulty entry: " + codec.renderObject(f.entry)),
               Text("Please fix or delete the file at: " + path)], false)
  {
    assert [f][..0] == [];
    assert FaultReport([f], codec) == EntryLines(f, codec);
  }

  /** Among objects where only record `k` fails to convert, that record is the one fault. */
  lemma OnlyFault(records: seq<JsonElement>, ij: InterviewJson, k: nat)
    requires forall i :: 0 <= i < |records| ==> records[i].JObject?
    requires k < |records| && ij.fromJson(records[k].fields).None?
    requires forall i :: 0 <= i < |records| && i != k ==> ij.fromJson(records[i].fields).Some?
    ensures !ScanRecords(records, ij).aborted
    ensures ScanRecords(records, ij).faults == [Fault(k, records[k].fields)]
  {
    AbortsIffNonObject(records, ij);
    var s := ScanRecords(records, ij);
    FailingRecordsReported(records, ij, k);
    FaultPositionsIncrease(records, ij);
    FaultsAreFailures(records, ij);
    assert FaultsFail(records, s.faults, ij);
    assert forall j :: 0 <= j < |s.faults| ==> s.faults[j].position == k;
    IncreasingSpread(s.faults);
    assert s.faults[|s.faults| - 1].position == k;
  }

  /** The first element that is not an object throws; the interviews before it stay added. */
  lemma NonObjectAborts(content: string, path: string, codec: Codec, ij: InterviewJson,
                        records: seq<JsonElement>, k: nat)
    requires content != [] && codec.parse(Unbroken(content)) == Some(records)
    requires k < |records| && records[k].JNonObject?
    requires forall i :: 0 <= i < k ==> records[i].JObject?
    ensures var plan := LoadInterviewsSpec(Present(content), true, path, codec, ij);
            plan.outcome == Thrown(JsonError) && plan.added == ScanRecords(records[..k], ij).added
  {
    AbortsIffNonObject(records[..k], ij);
    ScanAbortsAt(records, k, ij);
  }

  /**
   * What `save` writes, `load` reads back: every interview, in order, and
   * a successful result, for an empty list too.
   */
  lemma SaveLoadRoundTrip(ivs: seq<Interview>, path: string, codec: Codec, ij: InterviewJson)
    requires ReadsBackRendered(codec) && RendersEmptyAsBrackets(codec) && InterviewJsonRoundTrips(ij)
    ensures LoadInterviewsSpec(Present(codec.render(InterviewRecords(ivs, ij))), true, path, codec, ij)
            == InterviewLoad(Returned(Single(LoadingDataSuccess, true)), ivs)
  {
    var records := InterviewRecords(ivs, ij);
    assert codec.render(records) != [] && codec.parse(Unbroken(codec.render(records))) == Some(records);
    if records == [] {
      assert codec.render(records) == "[]";
      assert Unbroken("[]") == "[]";
    }
    ScanRoundTrip(ivs, ij);
  }

  // ---------------------------------------------------------------------------
  // The storage handler

  class InterviewStorageHandler {
    /** The handler's file; the source keeps it in a static field, so every handler shares it. */
    const file: DataFile
    const codec: Codec
    const interviewJson: InterviewJson

    constructor (file: DataFile, codec: Codec, interviewJson: InterviewJson)
      ensures this.file == file && this.codec == codec && this.interviewJson == interviewJson
    {
      this.file := file;
      this.codec := codec;
      this.interviewJson := interviewJson;
    }

    /**
     * `createFile`: make the parent directory if it is missing, then the
     * file if it is missing; when both exist nothing changes.
     */
    method CreateFile() returns (failure: Option<Failure>)
      modifies file
      ensures failure == (if !old(file.parentExists) && !file.canMakeDirectories then
                            Some(Runtime(Formatted(UnableToCreateDirectory, [file.parentPath])))
                          else if old(file.state).Absent? && !file.canCreate then
                            Some(Runtime(Formatted(UnableToCreateFile, [file.absolutePath])))
                          else None)
      ensures file.parentExists == (old(file.parentExists) || file.canMakeDirectories)
      ensures file.state == (if old(file.state).Absent? && failure.None? then Present([]) else old(file.state))
    {
      if !file.parentExists {
        if !file.canMakeDirectories {
          return Some(Runtime(Formatted(UnableToCreateDirectory, [file.parentPath])));
        }
        file.parentExists := true;
      }
      if file.state.Absent? {
        if !file.canCreate {
          return Some(Runtime(Formatted(UnableToCreateFile, [file.absolutePath])));
        }
        file.state := Present([]);
      }
      failure := None;
    }

    /** `save`: overwrite the file with the array of every interview, creating the file first if needed. */
    method Save(internships: InternshipList) returns (failure: Option<Failure>)
      modifies file
      ensures failure == old(InterviewSaveFailure(file))
      ensures failure.None? ==> file.state == Present(codec.render(InterviewRecords(internships.interviews, interviewJson)))
    {
      var records := BuildRecords(internships.interviews);
      if file.state.Absent? {
        failure := CreateFile();
        if failure.Some? {
          return;
        }
      }
      if !file.writable {
        var unknown: FileState :| true;
        file.state := unknown;
        return Some(Io(Formatted(UnableToCreateFile, [file.absolutePath])));
      }
      file.state := Present(codec.render(records));
      failure := None;
    }

    /** The `forEach` of `save`: each interview's object, in list order. */
    method BuildRecords(ivs: seq<Interview>) returns (records: seq<JsonElement>)
      ensures records == InterviewRecords(ivs, interviewJson)
    {
      records := [];
      var i := 0;
      while i < |ivs|
        invariant 0 <= i <= |ivs|
        invariant records == InterviewRecords(ivs[..i], interviewJson)
      {
        assert ivs[..i + 1][..i] == ivs[..i];
        records := records + [JObject(interviewJson.toJson(ivs[i]))];
        i := i + 1;
      }
      assert ivs[..i] == ivs;
    }

    /**
     * `load`: read the whole file, parse it as one array, and add each
     * record's interview to the list, skipping and reporting those that
     * fail.
     */
    method Load(internships: InternshipList) returns (out: Outcome<CommandResult>)
      modifies internships
      ensures var plan := LoadInterviewsSpec(file.state, file.readable, file.absolutePath, codec, interviewJson);
              out == plan.outcome
              && internships.interviews == old(internships.interviews) + plan.added
              && internships.internshipMap == old(internships.internshipMap)
    {
      if HoldsNoData(file.state) {
        return Returned(Single(LoadingDataFirstTime, true));
      }
      if !file.readable {
        return Returned(ErrorReadingFile(file.absolutePath));
      }
      var data := ReadJoined(file.state.content);
      var parsed := codec.parse(data);
      if parsed.None? {
        return Thrown(JsonError);
      }
      var records := parsed.value;
      if records == [] && |data| != 2 {
        return Returned(ErrorReadingFile(file.absolutePath));
      }
      out := AddRecords(internships, records);
    }

    /** The loop of `load` over the parsed array, and the result it builds. */
    method AddRecords(internships: InternshipList, records: seq<JsonElement>) returns (out: Outcome<CommandResult>)
      modifies internships
      ensures var s := ScanRecords(records, interviewJson);
              out == (if s.aborted then Thrown(JsonError)
                      else if s.faults != [] then Returned(CorruptionReport(s.faults, file.absolutePath, codec))
                      else Returned(Single(LoadingDataSuccess, true)))
              && internships.interviews == old(internships.interviews) + s.added
              && internships.internshipMap == old(internships.internshipMap)
    {
      var aborted, feedback, hasCorruption := ScanInto(internships, records);
      if aborted {
        return Thrown(JsonError);
      }
      if hasCorruption {
        feedback := [Formatted(CorruptedInterviewFile, [])] + feedback;
        feedback := feedback + [Text("Please fix or delete the file at: " + file.absolutePath)];
        return Returned(CommandResult(feedback, false));
      }
      return Returned(Single(LoadingDataSuccess, true));
    }

    /**
     * The loop itself: each object's interview is added or its report
     * lines appended; a non-object ends the loop with an exception.
     */
    method ScanInto(internships: InternshipList, records: seq<JsonElement>)
        returns (aborted: bool, feedback: seq<Line>, hasCorruption: bool)
      modifies internships
      ensures var s := ScanRecords(records, interviewJson);
              aborted == s.aborted
              && (!aborted ==> feedback == FaultReport(s.faults, codec) && (hasCorruption <==> s.faults != []))
              && internships.interviews == old(internships.interviews) + s.added
              && internships.internshipMap == old(internships.internshipMap)
    {
      feedback := [];
      hasCorruption := false;
      var i := 0;
      ghost var base := internships.interviews;
      assert records[..0] == [];
      while i < |records|
        invariant 0 <= i <= |records|
        invariant Scanned(records[..i], interviewJson, codec, feedback, hasCorruption, base, internships.interviews)
        invariant internships.internshipMap == old(internships.internshipMap)
      {
        if records[i].JNonObject? {
          ScanAbortsAt(records, i, interviewJson);
          return true, feedback, hasCorruption;
        }
        feedback, hasCorruption := AddRecord(internships, records, i, feedback, hasCorruption, base);
        i := i + 1;
      }
      assert records[..i] == records;
      aborted := false;
    }

    /** One turn of the loop of `load` on an object: add its interview, or skip it and report it. */
    method AddRecord(internships: InternshipList, records: seq<JsonElement>, i: nat,
                     feedback: seq<Line>, hasCorruption: bool, ghost base: seq<Interview>)
        returns (feedback': seq<Line>, hasCorruption': bool)
      requires i < |records| && records[i].JObject?
      requires Scanned(records[..i], interviewJson, codec, feedback, hasCorruption, base, internships.interviews)
      modifies internships
      ensures Scanned(records[..i + 1], interviewJson, codec, feedback', hasCorruption', base, internships.interviews)
      ensures internships.internshipMap == old(internships.internshipMap)
    {
      var entry := records[i].fields;
      var interview := interviewJson.fromJson(entry);
      if interview.Some? {
        ScannedAdd(records, i, interviewJson, codec, feedback, hasCorruption, base, internships.interviews);
        internships.AddInterview(interview.value);
        feedback', hasCorruption' := feedback, hasCorruption;
      } else {
        ScannedSkip(records, i, interviewJson, codec, feedback, hasCorruption, base, internships.interviews);
        feedback' := feedback + [Text("Error at JSON entry index: " + NatToString(i + 1)),
                                 Text("Faulty entry: " + codec.renderObject(entry))];
        hasCorruption' := true;
      }
    }
  }
}
