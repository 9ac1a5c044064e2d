/**
 * The project store and its persistence: `ProjectList` keeps the user's
 * portfolio projects in three categories and saves the whole list after
 * every addition; `ProjectStorageHandler` writes the list as one JSON
 * array and reads it back, adding each record through `addProject`.
 *
 * Both classes live in one module because each calls the other: adding a
 * project saves through the handler, and loading adds through the list.
 */
module Projects {
  import opened Results
  import opened Files
  import opened Json

  /** A portfolio project: `projectType` is what `getType()` returns; its other fields are not part of this model. */
  datatype Project = Project(projectType: string, details: map<string, string>)

  /**
   * `Project.toJson`, and the `fromJson` of the variant a type names: the
   * variant fixes the type, the object gives the other fields (None when
   * the variant's `fromJson` throws).
   */
  datatype ProjectJson = ProjectJson(
    toJson: Project -> JsonObject,
    fromJson: (string, JsonObject) -> Option<map<string, string>>)

  /** The category keys a new `ProjectList` seeds, in the order its constructor puts them. */
  const Categories: seq<string> := ["software", "hardware", "general"]

  const CategorySet: set<string> := {"software", "hardware", "general"}

  /** The map a new `ProjectList` holds: every category present and empty. */
  function SeededMap(): (m: map<string, seq<Project>>)
    ensures m.Keys == CategorySet
  {
    map["software" := [], "hardware" := [], "general" := []]
  }

  /** An order in which a HashMap over the three keys may iterate them: each key exactly once. */
  ghost predicate IsIterationOrder(order: seq<string>)
  {
    multiset(order) == multiset(Categories)
  }

  type IterationOrder = order: seq<string> | IsIterationOrder(order) witness Categories

  /** Every project of `s` has type `c`. */
  predicate OfType(s: seq<Project>, c: string)
  {
    forall i :: 0 <= i < |s| ==> s[i].projectType == c
  }

  /** Every project is filed under its own type. */
  predicate WellFiled(m: map<string, seq<Project>>)
  {
    && OfType(Category(m, "software"), "software")
    && OfType(Category(m, "hardware"), "hardware")
    && OfType(Category(m, "general"), "general")
  }

  lemma CategoryOfType(m: map<string, seq<Project>>, k: string)
    requires m.Keys == CategorySet && WellFiled(m)
    ensures OfType(Category(m, k), k)
  {
  }

  /** What loading needs of the project encoding to read back what saving wrote. */
  ghost predicate ProjectJsonRoundTrips(pj: ProjectJson)
  {
    forall p: Project {:trigger pj.toJson(p)} :: p.projectType in CategorySet ==>
      GetString(pj.toJson(p), "type") == Some(p.projectType) && pj.fromJson(p.projectType, pj.toJson(p)) == Some(p.details)
  }

  lemma OrderKeys(order: seq<string>)
    requires IsIterationOrder(order)
    ensures forall k <- order :: k in CategorySet
    ensures forall k <- CategorySet :: multiset(order)[k] == 1
  {
    forall k <- order ensures k in CategorySet {
      assert k in multiset(order);
    }
  }

  // ---------------------------------------------------------------------------
  // Counting and flattening the category map

  /** The projects filed under key `k`; none when the map has no such key. */
  function Category(m: map<string, seq<Project>>, k: string): seq<Project>
  {
    if k in m then m[k] else []
  }

  function SumLengths(m: map<string, seq<Project>>, keys: seq<string>): nat
  {
    if keys == [] then 0 else SumLengths(m, keys[..|keys| - 1]) + |Category(m, keys[|keys| - 1])|
  }

  /** The number of projects across the three categories. */
  function TotalProjects(m: map<string, seq<Project>>): nat
    requires CategorySet <= m.Keys
  {
    |m["software"]| + |m["hardware"]| + |m["general"]|
  }

  lemma TotalIsSumOfCategories(m: map<string, seq<Project>>)
    requires CategorySet <= m.Keys
    ensures SumLengths(m, Categories) == TotalProjects(m)
  {
    var two: seq<string> := ["software", "hardware"];
    var one: seq<string> := ["software"];
    assert Categories[..2] == two && two[..1] == one && one[..0] == [];
    assert SumLengths(m, one) == |m["software"]|;
    assert SumLengths(m, two) == SumLengths(m, one) + |m["hardware"]|;
    assert SumLengths(m, Categories) == SumLengths(m, two) + |m["general"]|;
  }

  /** The projects of every category, categories in `order`, each in its list order: what `saveProjects` emits. */
  function Flatten(m: map<string, seq<Project>>, order: seq<string>): seq<Project>
  {
    if order == [] then [] else Flatten(m, order[..|order| - 1]) + Category(m, order[|order| - 1])
  }

  /** The JSON array `saveProjects` builds: one object per project, in flattening order. */
  function ToRecords(ps: seq<Project>, pj: ProjectJson): (records: seq<JsonElement>)
    ensures |records| == |ps|
  {
    if ps == [] then [] else ToRecords(ps[..|ps| - 1], pj) + [JObject(pj.toJson(ps[|ps| - 1]))]
  }

  lemma {:induction false} ToRecordsAppend(a: seq<Project>, b: seq<Project>, pj: ProjectJson)
    ensures ToRecords(a + b, pj) == ToRecords(a, pj) + ToRecords(b, pj)
    decreases |b|
  {
    if b == [] {
      assert a + b == a;
    } else {
      var ab := a + b;
      assert ab[..|ab| - 1] == a + b[..|b| - 1];
      ToRecordsAppend(a, b[..|b| - 1], pj);
    }
  }

  function Records(m: map<string, seq<Project>>, order: seq<string>, pj: ProjectJson): seq<JsonElement>
  {
    ToRecords(Flatten(m, order), pj)
  }

  /** The projects of type `c`, in order. */
  function Filter(ps: seq<Project>, c: string): seq<Project>
  {
    if ps == [] then []
    else Filter(ps[..|ps| - 1], c) + (if ps[|ps| - 1].projectType == c then [ps[|ps| - 1]] else [])
  }

  lemma {:induction false} SumAppend(m: map<string, seq<Project>>, a: seq<string>, b: seq<string>)
    ensures SumLengths(m, a + b) == SumLengths(m, a) + SumLengths(m, b)
    decreases |b|
  {
    if b != [] {
      var ab := a + b;
      assert ab[..|ab| - 1] == a + b[..|b| - 1];
      assert ab[|ab| - 1] == b[|b| - 1];
      SumAppend(m, a, b[..|b| - 1]);
      assert SumLengths(m, ab) == SumLengths(m, a + b[..|b| - 1]) + |Category(m, b[|b| - 1])|;
    } else {
      assert a + b == a;
    }
  }

  /** Taking one key out of the middle of a key sequence takes its length out of the sum. */
  lemma SumRemove(m: map<string, seq<Project>>, ys: seq<string>, j: nat)
    requires j < |ys|
    ensures SumLengths(m, ys) == SumLengths(m, ys[..j] + ys[j + 1..]) + |Category(m, ys[j])|
  {
    assert ys == ys[..j] + [ys[j]] + ys[j + 1..];
    SumAppend(m, ys[..j] + [ys[j]], ys[j + 1..]);
    SumAppend(m, ys[..j], [ys[j]]);
    SumAppend(m, ys[..j], ys[j + 1..]);
    assert [ys[j]][..0] == [];
  }

  lemma MultisetRemove(xs: seq<string>, ys: seq<string>, j: nat)
    requires multiset(xs) == multiset(ys)
    requires xs != [] && j < |ys| && ys[j] == xs[|xs| - 1]
    ensures multiset(xs[..|xs| - 1]) == multiset(ys[..j] + ys[j + 1..])
  {
    var x := ys[j];
    assert xs == xs[..|xs| - 1] + [x];
    assert ys == ys[..j] + [x] + ys[j + 1..];
    var front := multiset(xs[..|xs| - 1]);
    var rest := multiset(ys[..j] + ys[j + 1..]);
    assert multiset(xs) == front + multiset{x};
    assert multiset(ys) == rest + multiset{x};
    forall e: string ensures front[e] == rest[e] {
      assert (front + multiset{x})[e] == (rest + multiset{x})[e];
    }
  }

  /** Summing the category lengths in any order of the same keys gives the same total. */
  lemma {:induction false} SumPermutation(m: map<string, seq<Project>>, xs: seq<string>, ys: seq<string>)
    requires multiset(xs) == multiset(ys)
    ensures SumLengths(m, xs) == SumLengths(m, ys)
    decreases |xs|
  {
    if xs == [] {
      assert |ys| == |multiset(ys)| == 0;
    } else {
      var x := xs[|xs| - 1];
      var front := xs[..|xs| - 1];
      assert xs == front + [x];
      assert x in multiset(ys);
      var j :| 0 <= j < |ys| && ys[j] == x;
      var rest := ys[..j] + ys[j + 1..];
      MultisetRemove(xs, ys, j);
      SumPermutation(m, front, rest);
      SumRemove(m, ys, j);
    }
  }

  lemma {:induction false} FlattenLength(m: map<string, seq<Project>>, order: seq<string>)
    ensures |Flatten(m, order)| == SumLengths(m, order)
    decreases |order|
  {
    if order != [] {
      FlattenLength(m, order[..|order| - 1]);
    }
  }

  /** `saveProjects` emits exactly one record per project, whatever order the HashMap iterates in. */
  lemma FlattenCountsEveryProject(m: map<string, seq<Project>>, order: seq<string>)
    requires m.Keys == CategorySet
    requires IsIterationOrder(order)
    ensures |Flatten(m, order)| == TotalProjects(m)
  {
    OrderKeys(order);
    FlattenLength(m, order);
    SumPermutation(m, order, Categories);
    TotalIsSumOfCategories(m);
  }

  lemma {:induction false} FilterAppend(a: seq<Project>, b: seq<Project>, c: string)
    ensures Filter(a + b, c) == Filter(a, c) + Filter(b, c)
    decreases |b|
  {
    if b != [] {
      var ab := a + b;
      assert ab[..|ab| - 1] == a + b[..|b| - 1];
      assert ab[|ab| - 1] == b[|b| - 1];
      FilterAppend(a, b[..|b| - 1], c);
    } else {
      assert a + b == a;
    }
  }

  /** A list whose projects all have type `k` filters to itself for `k` and to nothing otherwise. */
  lemma {:induction false} FilterUniform(s: seq<Project>, k: string, c: string)
    requires OfType(s, k)
    ensures Filter(s, c) == if c == k then s else []
    decreases |s|
  {
    if s != [] {
      assert s == s[..|s| - 1] + [s[|s| - 1]];
      FilterUniform(s[..|s| - 1], k, c);
    }
  }

  lemma {:induction false} FilterFlatten(m: map<string, seq<Project>>, xs: seq<string>, c: string)
    requires m.Keys == CategorySet && WellFiled(m)
    requires multiset(xs)[c] <= 1
    ensures Filter(Flatten(m, xs), c) == if c in xs then Category(m, c) else []
    decreases |xs|
  {
    if xs != [] {
      var x := xs[|xs| - 1];
      var front := xs[..|xs| - 1];
      assert xs == front + [x];
      assert multiset(xs)[c] == multiset(front)[c] + (if x == c then 1 else 0);
      FilterFlatten(m, front, c);
      FilterAppend(Flatten(m, front), Category(m, x), c);
      CategoryOfType(m, x);
      FilterUniform(Category(m, x), x, c);
      if x == c {
        assert c !in multiset(front);
      }
    }
  }

  /** Within each category the flattened records keep the category's list order, and nothing else is of that type. */
  lemma FlattenKeepsCategories(m: map<string, seq<Project>>, order: seq<string>)
    requires m.Keys == CategorySet && WellFiled(m)
    requires IsIterationOrder(order)
    ensures forall c <- CategorySet :: Filter(Flatten(m, order), c) == m[c]
  {
    OrderKeys(order);
    forall c <- CategorySet ensures Filter(Flatten(m, order), c) == m[c] {
      FilterFlatten(m, order, c);
      assert c in multiset(order);
    }
  }

  // ---------------------------------------------------------------------------
  // Adding

  function Add(m: map<string, seq<Project>>, p: Project): map<string, seq<Project>>
    requires p.projectType in m
  {
    m[p.projectType := m[p.projectType] + [p]]
  }

  /** The map after `addProject` of each project in turn. */
  function AddAll(m: map<string, seq<Project>>, ps: seq<Project>): (r: map<string, seq<Project>>)
    requires forall p <- ps :: p.projectType in m
    ensures r.Keys == m.Keys
  {
    if ps == [] then m else Add(AddAll(m, ps[..|ps| - 1]), ps[|ps| - 1])
  }

  /** Adding appends to the project's own category; the count goes up by one and the filing invariant holds. */
  lemma AddOne(m: map<string, seq<Project>>, p: Project)
    requires m.Keys == CategorySet && WellFiled(m)
    requires p.projectType in m
    ensures WellFiled(Add(m, p))
    ensures TotalProjects(Add(m, p)) == TotalProjects(m) + 1
  {
  }

  /** After adding a sequence of projects, each category is its old list followed by the added projects of that type. */
  lemma {:induction false} AddAllCategory(m: map<string, seq<Project>>, ps: seq<Project>, c: string)
    requires forall p <- ps :: p.projectType in m
    requires c in m
    ensures AddAll(m, ps)[c] == m[c] + Filter(ps, c)
    decreases |ps|
  {
    if ps != [] {
      AddAllCategory(m, ps[..|ps| - 1], c);
    }
  }

  lemma {:induction false} AddAllInvariant(m: map<string, seq<Project>>, ps: seq<Project>)
    requires m.Keys == CategorySet && WellFiled(m)
    requires forall p <- ps :: p.projectType in m
    ensures WellFiled(AddAll(m, ps))
    ensures TotalProjects(AddAll(m, ps)) == TotalProjects(m) + |ps|
    decreases |ps|
  {
    if ps != [] {
      AddAllInvariant(m, ps[..|ps| - 1]);
      AddOne(AddAll(m, ps[..|ps| - 1]), ps[|ps| - 1]);
    }
  }

  // ---------------------------------------------------------------------------
  // Decoding the records of the file

  /** `addProjectToList` on one object: dispatch on its "type" member to the matching variant's fromJson. */
  function ProjectFromJson(o: JsonObject, pj: ProjectJson): (r: Result<Project, Failure>)
    ensures r.Ok? ==> GetString(o, "type").Some? && GetString(o, "type").value in CategorySet
                      && r.value.projectType == GetString(o, "type").value
                      && pj.fromJson(r.value.projectType, o) == Some(r.value.details)
    ensures GetString(o, "type").Some? && GetString(o, "type").value !in CategorySet ==>
              r == Err(IllegalArgument("Unknown project type: " + GetString(o, "type").value))
  {
    match GetString(o, "type")
    case None => Err(JsonError)
    case Some(t) =>
      if t == "hardware" || t == "software" || t == "general" then
        match pj.fromJson(t, o)
        case None => Err(JsonError)
        case Some(details) => Ok(Project(t, details))
      else Err(IllegalArgument("Unknown project type: " + t))
  }

  /** One step of the load loop: `getJSONObject(i)`, then `addProjectToList`'s dispatch. */
  function ProjectFromElement(e: JsonElement, pj: ProjectJson): Result<Project, Failure>
  {
    match e
    case JNonObject(_) => Err(JsonError)
    case JObject(o) => ProjectFromJson(o, pj)
  }

  datatype Decoded = Decoded(projects: seq<Project>, error: Option<Failure>)

  /** The records decoded in order until the first one that throws, and that exception if any. */
  function DecodeProjects(es: seq<JsonElement>, pj: ProjectJson): (d: Decoded)
    ensures |d.projects| <= |es|
    ensures d.error.None? <==> |d.projects| == |es|
    ensures forall p <- d.projects :: p.projectType in CategorySet
  {
    if es == [] then Decoded([], None)
    else
      var before := DecodeProjects(es[..|es| - 1], pj);
      if before.error.Some? then before
      else match ProjectFromElement(es[|es| - 1], pj)
        case Ok(p) => Decoded(before.projects + [p], None)
        case Err(f) => Decoded(before.projects, Some(f))
  }

  /** Records after the first failing one are never looked at. */
  lemma {:induction false} DecodeStops(a: seq<JsonElement>, b: seq<JsonElement>, pj: ProjectJson)
    requires DecodeProjects(a, pj).error.Some?
    ensures DecodeProjects(a + b, pj) == DecodeProjects(a, pj)
    decreases |b|
  {
    if b != [] {
      var ab := a + b;
      assert ab[..|ab| - 1] == a + b[..|b| - 1];
      DecodeStops(a, b[..|b| - 1], pj);
    } else {
      assert a + b == a;
    }
  }

  /** Decoding more records only extends the projects decoded so far. */
  lemma {:induction false} DecodeExtends(a: seq<JsonElement>, b: seq<JsonElement>, pj: ProjectJson)
    ensures DecodeProjects(a, pj).projects <= DecodeProjects(a + b, pj).projects
    decreases |b|
  {
    if b != [] {
      var ab := a + b;
      assert ab[..|ab| - 1] == a + b[..|b| - 1];
      DecodeExtends(a, b[..|b| - 1], pj);
    } else {
      assert a + b == a;
    }
  }

  /** One saved project decodes back to itself. */
  lemma DecodeOneRecord(p: Project, pj: ProjectJson)
    requires ProjectJsonRoundTrips(pj)
    requires p.projectType in CategorySet
    ensures ProjectFromElement(JObject(pj.toJson(p)), pj) == Ok(p)
  {
    assert GetString(pj.toJson(p), "type") == Some(p.projectType);
  }

  /** Decoding one more record that decodes extends the decoded projects by it. */
  lemma DecodeSnoc(es: seq<JsonElement>, e: JsonElement, p: Project, pj: ProjectJson)
    requires DecodeProjects(es, pj).error.None?
    requires ProjectFromElement(e, pj) == Ok(p)
    ensures DecodeProjects(es + [e], pj) == Decoded(DecodeProjects(es, pj).projects + [p], None)
  {
    assert (es + [e])[..|es|] == es;
  }

  /** The records saved for a list of well-typed projects decode back to exactly those projects. */
  lemma {:induction false} DecodeRecordsRoundTrip(ps: seq<Project>, pj: ProjectJson)
    requires ProjectJsonRoundTrips(pj)
    requires forall p <- ps :: p.projectType in CategorySet
    ensures DecodeProjects(ToRecords(ps, pj), pj) == Decoded(ps, None)
    decreases |ps|
  {
    if ps != [] {
      var front := ps[..|ps| - 1];
      var last := ps[|ps| - 1];
      DecodeRecordsRoundTrip(front, pj);
      DecodeOneRecord(last, pj);
      DecodeSnoc(ToRecords(front, pj), JObject(pj.toJson(last)), last, pj);
      assert ps == front + [last];
    }
  }

  // ---------------------------------------------------------------------------
  // Load and save outcomes

  /** `errorReadingFile()`: the one unformatted "unable to read" line, unsuccessful. */
  function ErrorReadingFile(): (r: CommandResult)
    ensures r.feedback == [Formatted(UnableToReadFile, [])] && !r.isSuccessful
  {
    Single(UnableToReadFile, false)
  }

  function WriteFailure(path: string): Failure
  {
    Runtime(Formatted(UnableToWriteFile, [path]))
  }

  /** The exception `saveProjects` raises on a file in this state, if any. */
  function SaveFailure(f: DataFile): Option<Failure>
    reads f
  {
    if f.state.Absent? && !f.parentExists then
      if !f.canMakeDirectories then Some(Runtime(Formatted(UnableToCreateDirectory, [f.parentPath])))
      else if !f.canCreate then Some(Runtime(Formatted(UnableToCreateFile, [f.absolutePath])))
      else if !f.writable then Some(WriteFailure(f.absolutePath))
      else None
    else if !f.writable then Some(WriteFailure(f.absolutePath))
    else None
  }

  datatype ProjectLoad = ProjectLoad(outcome: Outcome<CommandResult>, added: seq<Project>)

  /**
   * What `loadProjects` returns or throws, and the projects it adds in order,
   * for a file in state `st`.
   */
  function LoadProjectsSpec(st: FileState, readable: bool, writable: bool, path: string,
                            codec: Codec, pj: ProjectJson): (r: ProjectLoad)
    ensures forall p <- r.added :: p.projectType in CategorySet
  {
    if HoldsNoData(st) then ProjectLoad(Returned(Single(LoadingDataFirstTime, true)), [])
    else if !readable then ProjectLoad(Returned(ErrorReadingFile()), [])
    else match codec.parse(Unbroken(st.content))
      case None => ProjectLoad(Thrown(JsonError), [])
      case Some(records) =>
        if records == [] then ProjectLoad(Returned(ErrorReadingFile()), [])
        else LoadRecords(records, writable, path, pj)
  }

  /**
   * The load loop over a non-empty parsed array. Every addition saves the
   * list, so on a file that rejects writes the first addition throws.
   */
  function LoadRecords(records: seq<JsonElement>, writable: bool, path: string, pj: ProjectJson): (r: ProjectLoad)
    ensures forall p <- r.added :: p.projectType in CategorySet
  {
    var decoded := DecodeProjects(records, pj);
    if !writable && decoded.projects != [] then
      ProjectLoad(Thrown(WriteFailure(path)), decoded.projects[..1])
    else if decoded.error.Some? then ProjectLoad(Thrown(decoded.error.value), decoded.projects)
    else ProjectLoad(Returned(Single(LoadingDataSuccess, true)), decoded.projects)
  }

  lemma DecodeStep(records: seq<JsonElement>, i: nat, added: seq<Project>, p: Project, pj: ProjectJson)
    requires i < |records|
    requires DecodeProjects(records[..i], pj) == Decoded(added, None)
    requires ProjectFromElement(records[i], pj) == Ok(p)
    ensures DecodeProjects(records[..i + 1], pj) == Decoded(added + [p], None)
  {
    assert records[..i + 1][..i] == records[..i];
  }

  lemma AddAllStep(m: map<string, seq<Project>>, ps: seq<Project>, p: Project)
    requires forall q <- ps :: q.projectType in m
    requires p.projectType in m
    ensures AddAll(m, ps + [p]) == Add(AddAll(m, ps), p)
  {
    assert (ps + [p])[..|ps|] == ps;
  }

  /** The loop throws what record `i` throws when the records before it were all added. */
  lemma LoadRecordsStops(records: seq<JsonElement>, i: nat, added: seq<Project>, f: Failure,
                         writable: bool, path: string, pj: ProjectJson)
    requires i < |records|
    requires DecodeProjects(records[..i], pj) == Decoded(added, None)
    requires ProjectFromElement(records[i], pj) == Err(f)
    requires i > 0 ==> writable
    ensures LoadRecords(records, writable, path, pj) == ProjectLoad(Thrown(f), added)
  {
    assert records[..i + 1][..i] == records[..i];
    assert DecodeProjects(records[..i + 1], pj) == Decoded(added, Some(f));
    assert records == records[..i + 1] + records[i + 1..];
    DecodeStops(records[..i + 1], records[i + 1..], pj);
  }

  /** On a file that rejects writes, the save inside the first addition throws. */
  lemma LoadRecordsWriteFails(records: seq<JsonElement>, p: Project, path: string, pj: ProjectJson)
    requires records != []
    requires ProjectFromElement(records[0], pj) == Ok(p)
    ensures LoadRecords(records, false, path, pj) == ProjectLoad(Thrown(WriteFailure(path)), [p])
  {
    assert records[..1][..0] == [];
    assert DecodeProjects(records[..1], pj) == Decoded([p], None);
    assert records == records[..1] + records[1..];
    DecodeExtends(records[..1], records[1..], pj);
  }

  /** An absent or empty file is a successful first run that adds nothing. */
  lemma LoadProjectsFirstRun(st: FileState, readable: bool, writable: bool, path: string, codec: Codec, pj: ProjectJson)
    requires HoldsNoData(st)
    ensures LoadProjectsSpec(st, readable, writable, path, codec, pj)
            == ProjectLoad(Returned(CommandResult([Formatted(LoadingDataFirstTime, [])], true)), [])
  {
  }

  /** A parsed array with no element, "[]" included, is rejected with the single "unable to read" line. */
  lemma LoadProjectsRejectsEmptyArray(st: FileState, readable: bool, writable: bool, path: string, codec: Codec, pj: ProjectJson)
    requires st.Present? && st.content != []
    requires codec.parse(Unbroken(st.content)) == Some([])
    ensures LoadProjectsSpec(st, readable, writable, path, codec, pj)
            == ProjectLoad(Returned(CommandResult([Formatted(UnableToReadFile, [])], false)), [])
  {
  }

  /** When every record decodes, all are added in array order and the load succeeds. */
  lemma LoadProjectsAllRecords(st: FileState, path: string, codec: Codec, pj: ProjectJson, records: seq<JsonElement>)
    requires st.Present? && st.content != []
    requires codec.parse(Unbroken(st.content)) == Some(records) && records != []
    requires DecodeProjects(records, pj).error.None?
    ensures var r := LoadProjectsSpec(st, true, true, path, codec, pj);
            r.outcome == Returned(CommandResult([Formatted(LoadingDataSuccess, [])], true))
            && |r.added| == |records|
            && forall i :: 0 <= i < |records| ==> ProjectFromElement(records[i], pj) == Ok(r.added[i])
  {
    DecodedAt(records, pj);
  }

  lemma {:induction false} DecodedAt(es: seq<JsonElement>, pj: ProjectJson)
    requires DecodeProjects(es, pj).error.None?
    ensures forall i :: 0 <= i < |es| ==> ProjectFromElement(es[i], pj) == Ok(DecodeProjects(es, pj).projects[i])
    decreases |es|
  {
    if es != [] {
      var front := es[..|es| - 1];
      DecodedAt(front, pj);
    }
  }

  /**
   * A record whose type is not one of the three throws out of the load:
   * the records before it stay added, the ones after it are not read.
   */
  lemma LoadProjectsUnknownType(st: FileState, path: string, codec: Codec, pj: ProjectJson,
                                records: seq<JsonElement>, k: nat, o: JsonObject, t: string)
    requires st.Present? && st.content != []
    requires codec.parse(Unbroken(st.content)) == Some(records)
    requires k < |records| && records[k] == JObject(o)
    requires DecodeProjects(records[..k], pj).error.None?
    requires GetString(o, "type") == Some(t) && t !in CategorySet
    ensures var r := LoadProjectsSpec(st, true, true, path, codec, pj);
            r.outcome == Thrown(IllegalArgument("Unknown project type: " + t))
            && r.added == DecodeProjects(records[..k], pj).projects
            && |r.added| == k
  {
    LoadRecordsStops(records, k, DecodeProjects(records[..k], pj).projects,
                     IllegalArgument("Unknown project type: " + t), true, path, pj);
  }

  /** Every flattened project has one of the three types. */
  lemma {:induction false} FlattenWellTyped(m: map<string, seq<Project>>, order: seq<string>)
    requires m.Keys == CategorySet && WellFiled(m)
    ensures forall p <- Flatten(m, order) :: p.projectType in CategorySet
    decreases |order|
  {
    if order != [] {
      FlattenWellTyped(m, order[..|order| - 1]);
      CategoryOfType(m, order[|order| - 1]);
    }
  }

  /**
   * Adding projects to a new list and flattening it keeps every project
   * once and, within each category, in the order they were added.
   */
  lemma SeededThenFlattened(ps: seq<Project>, order: seq<string>)
    requires forall p <- ps :: p.projectType in CategorySet
    requires IsIterationOrder(order)
    ensures var saved := Flatten(AddAll(SeededMap(), ps), order);
            |saved| == |ps| && forall c <- CategorySet :: Filter(saved, c) == Filter(ps, c)
  {
    OrderKeys(order);
    var m := AddAll(SeededMap(), ps);
    AddAllInvariant(SeededMap(), ps);
    FlattenCountsEveryProject(m, order);
    FlattenKeepsCategories(m, order);
    forall c <- CategorySet ensures Filter(Flatten(m, order), c) == Filter(ps, c) {
      AddAllCategory(SeededMap(), ps, c);
    }
  }

  /** Adding the flattened projects of a list to a new list rebuilds the list. */
  lemma SeededRebuilds(m: map<string, seq<Project>>, order: seq<string>)
    requires m.Keys == CategorySet && WellFiled(m)
    requires IsIterationOrder(order)
    ensures forall p <- Flatten(m, order) :: p.projectType in CategorySet
    ensures AddAll(SeededMap(), Flatten(m, order)) == m
  {
    FlattenKeepsCategories(m, order);
    FlattenWellTyped(m, order);
    var ps := Flatten(m, order);
    var seeded := SeededMap();
    AddAllCategory(seeded, ps, "software");
    AddAllCategory(seeded, ps, "hardware");
    AddAllCategory(seeded, ps, "general");
    SameCategories(AddAll(seeded, ps), m);
  }

  /** Two maps over the three categories that agree on each are equal. */
  lemma SameCategories(a: map<string, seq<Project>>, b: map<string, seq<Project>>)
    requires a.Keys == CategorySet && b.Keys == CategorySet
    requires a["software"] == b["software"] && a["hardware"] == b["hardware"] && a["general"] == b["general"]
    ensures a == b
  {
  }

  /**
   * Saving a list and loading the file into a new list gives back every
   * category with its projects in order, provided the list is not empty.
   */
  lemma SaveLoadRoundTrip(m: map<string, seq<Project>>, order: seq<string>, path: string,
                          codec: Codec, pj: ProjectJson)
    requires m.Keys == CategorySet && WellFiled(m)
    requires IsIterationOrder(order)
    requires ReadsBackRendered(codec) && ProjectJsonRoundTrips(pj)
    requires TotalProjects(m) > 0
    ensures var r := LoadProjectsSpec(Present(codec.render(Records(m, order, pj))), true, true, path, codec, pj);
            r.outcome == Returned(CommandResult([Formatted(LoadingDataSuccess, [])], true))
            && AddAll(SeededMap(), r.added) == m
  {
    FlattenCountsEveryProject(m, order);
    SeededRebuilds(m, order);
    var ps := Flatten(m, order);
    DecodeRecordsRoundTrip(ps, pj);
    var records := ToRecords(ps, pj);
    var text := codec.render(records);
    assert text != [] && codec.parse(Unbroken(text)) == Some(records);
    assert LoadRecords(records, true, path, pj) == ProjectLoad(Returned(Single(LoadingDataSuccess, true)), ps);
  }

  /** Saving an empty list writes an empty array, which the loader then rejects as unreadable. */
  lemma EmptySaveIsUnreadable(m: map<string, seq<Project>>, order: seq<string>, path: string,
                              codec: Codec, pj: ProjectJson)
    requires m.Keys == CategorySet
    requires IsIterationOrder(order)
    requires ReadsBackRendered(codec)
    requires TotalProjects(m) == 0
    ensures LoadProjectsSpec(Present(codec.render(Records(m, order, pj))), true, true, path, codec, pj).outcome
            == Returned(CommandResult([Formatted(UnableToReadFile, [])], false))
  {
    FlattenCountsEveryProject(m, order);
    assert Records(m, order, pj) == [];
    assert codec.render([]) != [] && codec.parse(Unbroken(codec.render([]))) == Some([]);
  }

  /**
   * When record `k` throws, the load has added exactly the `k` projects
   * decoded before it, and the list the last save flattened holds those
   * alone, each category in the order added. With `k == 0` nothing was
   * added and nothing saved, so `LoadProjects` leaves the file as it was;
   * with `k > 0` every addition rewrote the file (see
   * `AbortedLoadReloadsPrefix`).
   */
  lemma AbortedLoadTruncatesFile(st: FileState, path: string, codec: Codec, pj: ProjectJson,
                                 records: seq<JsonElement>, order: seq<string>, k: nat)
    requires IsIterationOrder(order)
    requires st.Present? && st.content != []
    requires codec.parse(Unbroken(st.content)) == Some(records)
    requires k < |records|
    requires DecodeProjects(records[..k], pj).error.None?
    requires ProjectFromElement(records[k], pj).Err?
    ensures var r := LoadProjectsSpec(st, true, true, path, codec, pj);
            var saved := Flatten(AddAll(SeededMap(), r.added), order);
            r.outcome == Thrown(ProjectFromElement(records[k], pj).error)
            && r.added == DecodeProjects(records[..k], pj).projects
            && |r.added| == k && |saved| == k
            && forall c <- CategorySet :: Filter(saved, c) == Filter(r.added, c)
  {
    var added := DecodeProjects(records[..k], pj).projects;
    LoadRecordsStops(records, k, added, ProjectFromElement(records[k], pj).error, true, path, pj);
    SeededThenFlattened(added, order);
  }

  /**
   * Loading into a new list rewrites the file after every addition, so
   * when record `k > 0` throws on a writable file, the file afterwards
   * loads back as exactly the `k` projects decoded before it: the records
   * from `k` on are gone from disk.
   */
  lemma AbortedLoadReloadsPrefix(st: FileState, path: string, codec: Codec, pj: ProjectJson,
                                 records: seq<JsonElement>, order: seq<string>, k: nat)
    requires IsIterationOrder(order)
    requires ReadsBackRendered(codec) && ProjectJsonRoundTrips(pj)
    requires st.Present? && st.content != []
    requires codec.parse(Unbroken(st.content)) == Some(records)
    requires 0 < k < |records|
    requires DecodeProjects(records[..k], pj).error.None?
    requires ProjectFromElement(records[k], pj).Err?
    ensures var prefix := DecodeProjects(records[..k], pj).projects;
            var r := LoadProjectsSpec(st, true, true, path, codec, pj);
            var written := Present(codec.render(Records(AddAll(SeededMap(), r.added), order, pj)));
            var reload := LoadProjectsSpec(written, true, true, path, codec, pj);
            r.added == prefix
            && reload.outcome == Returned(CommandResult([Formatted(LoadingDataSuccess, [])], true))
            && AddAll(SeededMap(), reload.added) == AddAll(SeededMap(), prefix)
            && |reload.added| == k
  {
    AbortedLoadTruncatesFile(st, path, codec, pj, records, order, k);
    var r := LoadProjectsSpec(st, true, true, path, codec, pj);
    var m := AddAll(SeededMap(), r.added);
    AddAllInvariant(SeededMap(), r.added);
    SaveLoadRoundTrip(m, order, path, codec, pj);
    FlattenCountsEveryProject(m, order);
    var reload := LoadProjectsSpec(Present(codec.render(Records(m, order, pj))), true, true, path, codec, pj);
    assert |reload.added| == TotalProjects(AddAll(SeededMap(), reload.added)) by {
      AddAllInvariant(SeededMap(), reload.added);
    }
  }

  // ---------------------------------------------------------------------------
  // The storage handler

  class ProjectStorageHandler {
    /** The handler's file; the source keeps it in a static field, so every handler shares it. */
    const file: DataFile
    const codec: Codec
    const projectJson: ProjectJson

    constructor (file: DataFile, codec: Codec, projectJson: ProjectJson)
      ensures this.file == file && this.codec == codec && this.projectJson == projectJson
    {
      this.file := file;
      this.codec := codec;
      this.projectJson := projectJson;
    }

    /**
     * `createFile`: only when the parent directory is missing does it make
     * the directory and then the file; when the directory exists it does
     * nothing, even if the file does not.
     */
    method CreateFile() returns (failure: Option<Failure>)
      modifies file
      ensures old(file.parentExists) ==> failure.None? && file.parentExists && file.state == old(file.state)
      ensures !old(file.parentExists) ==>
        failure == (if !file.canMakeDirectories then Some(Runtime(Formatted(UnableToCreateDirectory, [file.parentPath])))
                    else if old(file.state).Present? then Some(Runtime(Formatted(FileAlreadyExists, [file.absolutePath])))
                    else if !file.canCreate then Some(Runtime(Formatted(UnableToCreateFile, [file.absolutePath])))
                    else None)
        && file.parentExists == file.canMakeDirectories
        && file.state == (if failure.None? then Present([]) else old(file.state))
    {
      failure := None;
      if !file.parentExists {
        if !file.canMakeDirectories {
          return Some(Runtime(Formatted(UnableToCreateDirectory, [file.parentPath])));
        }
        file.parentExists := true;
        if file.state.Present? {
          return Some(Runtime(Formatted(FileAlreadyExists, [file.absolutePath])));
        }
        if !file.canCreate {
          return Some(Runtime(Formatted(UnableToCreateFile, [file.absolutePath])));
        }
        file.state := Present([]);
      }
    }

    /** `saveProjects`: flatten every category into one array and overwrite the file with it. */
    method SaveProjects(projectList: ProjectList) returns (failure: Option<Failure>)
      requires projectList.Valid()
      modifies file
      ensures failure == old(SaveFailure(file))
      ensures failure.None? ==>
        file.state == Present(codec.render(Records(projectList.projectMap, projectList.iterationOrder, projectJson)))
    {
      var records := BuildRecords(projectList.projectMap, projectList.iterationOrder);
      if file.state.Absent? {
        failure := CreateFile();
        if failure.Some? {
          return;
        }
      }
      if !file.writable {
        var unknown: FileState :| true;
        file.state := unknown;
        return Some(WriteFailure(file.absolutePath));
      }
      file.state := Present(codec.render(records));
      failure := None;
    }

    /** The nested `forEach` of `saveProjects`: each category's projects, category by category, as JSON objects. */
    method BuildRecords(projectMap: map<string, seq<Project>>, order: seq<string>) returns (records: seq<JsonElement>)
      ensures records == Records(projectMap, order, projectJson)
    {
      records := [];
      var i := 0;
      while i < |order|
        invariant 0 <= i <= |order|
        invariant records == ToRecords(Flatten(projectMap, order[..i]), projectJson)
      {
        var list := Category(projectMap, order[i]);
        records := AppendRecords(records, list);
        assert order[..i + 1][..i] == order[..i];
        ToRecordsAppend(Flatten(projectMap, order[..i]), list, projectJson);
        i := i + 1;
      }
      assert order[..i] == order;
    }

    /** The inner `forEach` of `saveProjects`: one category's projects appended as JSON objects. */
    method AppendRecords(records: seq<JsonElement>, list: seq<Project>) returns (records': seq<JsonElement>)
      ensures records' == records + ToRecords(list, projectJson)
    {
      records' := records;
      var j := 0;
      while j < |list|
        invariant 0 <= j <= |list|
        invariant records' == records + ToRecords(list[..j], projectJson)
      {
        assert list[..j + 1][..j] == list[..j];
        records' := records' + [JObject(projectJson.toJson(list[j]))];
        j := j + 1;
      }
      assert list[..j] == list;
    }

    /**
     * `loadProjects`: read the whole file, parse it as one array and add
     * each record through `addProject`; nothing catches a failing record.
     */
    method LoadProjects(projectList: ProjectList) returns (out: Outcome<CommandResult>)
      requires projectList.Valid() && projectList.storageHandler == this
      modifies projectList, file
      ensures projectList.Valid()
      ensures var plan := LoadProjectsSpec(old(file.state), file.readable, file.writable, file.absolutePath, codec, projectJson);
              out == plan.outcome
              && projectList.projectMap == AddAll(old(projectList.projectMap), plan.added)
              && projectList.projectCount == old(projectList.projectCount) + |plan.added|
              && (plan.added == [] ==> file.state == old(file.state))
              && (plan.added != [] && file.writable ==>
                    file.state == Present(codec.render(Records(projectList.projectMap, projectList.iterationOrder, projectJson))))
      ensures var plan := LoadProjectsSpec(old(file.state), file.readable, file.writable, file.absolutePath, codec, projectJson);
              old(projectList.projectMap) == SeededMap() && plan.added != [] && file.writable ==>
                file.state == Present(codec.render(Records(AddAll(SeededMap(), plan.added), projectList.iterationOrder, projectJson)))
    {
      if HoldsNoData(file.state) {
        return Returned(Single(LoadingDataFirstTime, true));
      }
      if !file.readable {
        return Returned(ErrorReadingFile());
      }
      var data := ReadJoined(file.state.content);
      var parsed := codec.parse(data);
      if parsed.None? {
        return Thrown(JsonError);
      }
      var records := parsed.value;
      if records == [] {
        return Returned(ErrorReadingFile());
      }
      out := AddRecords(projectList, records);
    }

    /**
     * The loop of `loadProjects` over a non-empty array: each record in turn
     * is decoded and added, which saves the list; the first record that
     * throws ends the load.
     */
    method AddRecords(projectList: ProjectList, records: seq<JsonElement>) returns (out: Outcome<CommandResult>)
      requires projectList.Valid() && projectList.storageHandler == this
      requires records != [] && file.state.Present?
      modifies projectList, file
      ensures projectList.Valid()
      ensures var plan := LoadRecords(records, file.writable, file.absolutePath, projectJson);
              out == plan.outcome
              && projectList.projectMap == AddAll(old(projectList.projectMap), plan.added)
              && projectList.projectCount == old(projectList.projectCount) + |plan.added|
              && (plan.added == [] ==> file.state == old(file.state))
              && (plan.added != [] && file.writable ==>
                    file.state == Present(codec.render(Records(projectList.projectMap, projectList.iterationOrder, projectJson))))
    {
      ghost var added: seq<Project> := [];
      var i := 0;
      while i < |records|
        invariant 0 <= i <= |records|
        invariant Listed(projectList, old(projectList.projectMap), old(projectList.projectCount), added)
        invariant DecodeProjects(records[..i], projectJson) == Decoded(added, None)
        invariant file.state.Present?
        invariant i == 0 ==> file.state == old(file.state)
        invariant i > 0 ==> file.writable && Mirrors(projectList)
      {
        var stop;
        stop, added := AddRecord(projectList, records, i, old(projectList.projectMap), old(projectList.projectCount), added);
        if stop.Some? {
          return Thrown(stop.value);
        }
        i := i + 1;
      }
      assert records[..i] == records;
      out := Returned(Single(LoadingDataSuccess, true));
    }

    /**
     * One turn of the load loop: `getJSONObject(i)` and `addProjectToList`.
     * `stop` is the exception that ends the load, if any.
     */
    method AddRecord(projectList: ProjectList, records: seq<JsonElement>, i: nat,
                     ghost m0: map<string, seq<Project>>, ghost c0: int, ghost added: seq<Project>)
      returns (stop: Option<Failure>, ghost added': seq<Project>)
      requires i < |records| && projectList.storageHandler == this
      requires Listed(projectList, m0, c0, added)
      requires DecodeProjects(records[..i], projectJson) == Decoded(added, None)
      requires file.state.Present?
      requires i > 0 ==> file.writable && Mirrors(projectList)
      modifies projectList, file
      ensures Listed(projectList, m0, c0, added')
      ensures stop.None? ==> DecodeProjects(records[..i + 1], projectJson) == Decoded(added', None)
                             && file.writable && file.state.Present? && Mirrors(projectList)
      ensures stop.Some? ==> LoadRecords(records, file.writable, file.absolutePath, projectJson) == ProjectLoad(Thrown(stop.value), added')
      ensures |added'| >= |added|
      ensures added' == [] ==> file.state == old(file.state)
      ensures added' != [] && file.writable ==> Mirrors(projectList)
    {
      var next := ProjectFromElement(records[i], projectJson);
      if next.Err? {
        LoadRecordsStops(records, i, added, next.error, file.writable, file.absolutePath, projectJson);
        return Some(next.error), added;
      }
      var project := next.value;
      DecodeStep(records, i, added, project, projectJson);
      var failure := AddLoaded(projectList, project, m0, c0, added);
      added' := added + [project];
      if failure.Some? {
        LoadRecordsWriteFails(records, project, file.absolutePath, projectJson);
      }
      stop := failure;
    }

    /** The file holds exactly what saving the list writes. */
    ghost predicate Mirrors(projectList: ProjectList)
      reads file, projectList
    {
      file.state == Present(codec.render(Records(projectList.projectMap, projectList.iterationOrder, projectJson)))
    }

    /** The list is a list that held `m0` and `c0` with `added` added in order. */
    ghost predicate Listed(projectList: ProjectList, m0: map<string, seq<Project>>, c0: int, added: seq<Project>)
      reads projectList
    {
      && projectList.Valid()
      && m0.Keys == CategorySet
      && (forall p <- added :: p.projectType in CategorySet)
      && projectList.projectMap == AddAll(m0, added)
      && projectList.projectCount == c0 + |added|
    }

    /** One addition of the load loop, on a file that exists. */
    method AddLoaded(projectList: ProjectList, project: Project, ghost m0: map<string, seq<Project>>, ghost c0: int,
                     ghost added: seq<Project>) returns (failure: Option<Failure>)
      requires Listed(projectList, m0, c0, added) && projectList.storageHandler == this
      requires file.state.Present? && project.projectType in CategorySet
      modifies projectList, file
      ensures Listed(projectList, m0, c0, added + [project])
      ensures failure == (if file.writable then None else Some(WriteFailure(file.absolutePath)))
      ensures file.writable ==> file.state.Present? && Mirrors(projectList)
    {
      failure := projectList.AddProject(project);
      AddAllStep(m0, added, project);
    }
  }

  // ---------------------------------------------------------------------------
  // The project list

  class ProjectList {
    var projectMap: map<string, seq<Project>>
    var projectCount: int
    const storageHandler: ProjectStorageHandler
    /** The order in which the HashMap iterates its keys: fixed for the list, not known to the program. */
    const iterationOrder: IterationOrder

    ghost predicate Valid()
      reads this
    {
      && projectMap.Keys == CategorySet
      && WellFiled(projectMap)
      && projectCount == TotalProjects(projectMap)
    }

    /** A new list: the three categories, each empty, and a count of zero. */
    constructor (storageHandler: ProjectStorageHandler, iterationOrder: IterationOrder)
      ensures Valid()
      ensures projectMap == map["software" := [], "hardware" := [], "general" := []]
      ensures projectCount == 0
      ensures this.storageHandler == storageHandler && this.iterationOrder == iterationOrder
    {
      projectMap := map["software" := [], "hardware" := [], "general" := []];
      projectCount := 0;
      this.storageHandler := storageHandler;
      this.iterationOrder := iterationOrder;
    }

    /** `contains`: membership in the project's own category only. */
    predicate Contains(project: Project)
      reads this
      requires project.projectType in projectMap
    {
      project in projectMap[project.projectType]
    }

    function GetProjectCount(): (n: int)
      reads this
      requires Valid()
      ensures n == TotalProjects(projectMap) && n >= 0
    {
      projectCount
    }

    /**
     * `addProject`: append to the project's own category, count it, then
     * save the whole list. The addition stays even when the save throws.
     */
    method AddProject(project: Project) returns (failure: Option<Failure>)
      requires Valid()
      requires project.projectType in projectMap
      modifies this, storageHandler.file
      ensures Valid()
      ensures projectMap == Add(old(projectMap), project)
      ensures projectCount == old(projectCount) + 1
      ensures Contains(project) && projectCount > 0
      ensures failure == old(SaveFailure(storageHandler.file))
      ensures failure.None? ==>
        storageHandler.file.state == Present(storageHandler.codec.render(
          Records(projectMap, iterationOrder, storageHandler.projectJson)))
    {
      AddOne(projectMap, project);
      var t := project.projectType;
      projectMap := projectMap[t := projectMap[t] + [project]];
      projectCount := projectCount + 1;
      failure := SaveProjects();
    }

    /** `saveProjects`: hand the whole list to the storage handler. */
    method SaveProjects() returns (failure: Option<Failure>)
      requires Valid()
      modifies storageHandler.file
      ensures failure == old(SaveFailure(storageHandler.file))
      ensures failure.None? ==>
        storageHandler.file.state == Present(storageHandler.codec.render(
          Records(projectMap, iterationOrder, storageHandler.projectJson)))
    {
      failure := storageHandler.SaveProjects(this);
    }
  }
}
