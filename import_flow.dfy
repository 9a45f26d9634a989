/** The import tool `snowflake_import_analyze_health_records_v2`
    (tools/health-mcp/src/health_mcp.py:504-642) and `extract_patient_info`
    (tools/health-mcp/src/health_mcp.py:100-117): file discovery, the patient-header
    search, the per-file record collection and the early exits, with the directory
    listing, the file contents and the database's failures given as inputs. */
module ImportFlow {
  import opened Wrappers
  import opened Text
  import opened PyJson
  import opened Dates
  import opened Records
  import opened Statistics

  // ----- file discovery -----

  /** A `glob` pattern of the tool: `prefix*suffix`, or one exact name. */
  datatype Pattern = Wildcard(prefix: string, suffix: string) | Exact(name: string)

  const FilePatterns: seq<Pattern> := [
    Wildcard("lab_results_", ".json"), Wildcard("vitals_", ".json"),
    Wildcard("medications_", ".json"), Exact("clinical_data_consolidated.json")]

  /** `fnmatch` of a file name: the `*` takes any run of characters, the empty one too. */
  predicate Matches(p: Pattern, name: string) {
    match p
    case Wildcard(prefix, suffix) =>
      |prefix| + |suffix| <= |name| && name[..|prefix|] == prefix && name[|name| - |suffix|..] == suffix
    case Exact(n) => name == n
  }

  /** `glob.glob(os.path.join(dir, pattern))`: the matching names, in listing order. */
  function GlobMatches(p: Pattern, listing: seq<string>): (r: seq<string>)
    ensures forall name :: name in r <==> name in listing && Matches(p, name)
  {
    if listing == [] then []
    else GlobMatches(p, listing[..|listing| - 1]) + (if Matches(p, listing[|listing| - 1]) then [listing[|listing| - 1]] else [])
  }

  /** The files found for the first patterns of `ps`, one pattern after the other. */
  function Discovered(ps: seq<Pattern>, listing: seq<string>): (r: seq<string>)
    ensures forall name :: name in r <==> name in listing && exists p :: p in ps && Matches(p, name)
  {
    if ps == [] then []
    else
      var front := Discovered(ps[..|ps| - 1], listing);
      assert forall p :: p in ps <==> p in ps[..|ps| - 1] || p == ps[|ps| - 1];
      front + GlobMatches(ps[|ps| - 1], listing)
  }

  lemma DiscoveredStep(ps: seq<Pattern>, i: nat, listing: seq<string>)
    requires i < |ps|
    ensures Discovered(ps[..i + 1], listing) == Discovered(ps[..i], listing) + GlobMatches(ps[i], listing)
  {
    assert ps[..i + 1][..i] == ps[..i];
  }

  /** The `source_files.extend(glob(...))` loop over the four patterns. */
  method DiscoverFiles(listing: seq<string>) returns (sourceFiles: seq<string>)
    ensures sourceFiles == Discovered(FilePatterns, listing)
  {
    sourceFiles := [];
    for i := 0 to |FilePatterns|
      invariant sourceFiles == Discovered(FilePatterns[..i], listing)
    {
      DiscoveredStep(FilePatterns, i, listing);
      var files := GlobMatches(FilePatterns[i], listing);
      sourceFiles := sourceFiles + files;
    }
    assert FilePatterns[..|FilePatterns|] == FilePatterns;
  }

  // ----- the patient header -----

  /** A data file as `open` and `json.load` leave it. */
  datatype FileContent = Parsed(data: Json) | Unreadable

  /** The dict `extract_patient_info` returns: `{}`, or the four header values. */
  datatype PatientInfo =
    | NoInfo
    | Info(identity: Json, dateOfBirth: Option<Date>, age: Json, reportDate: Option<Date>)

  const UnknownPatient: Json := JStr("Unknown Patient")

  /** `extract_patient_info`: any exception (an unreadable file, `in` or `[]` on a value
      that does not support them, `.get` on a header that is not a dict) gives `{}`. */
  function ExtractPatientInfo(content: FileContent, env: Oracles): PatientInfo {
    match content
    case Unreadable => NoInfo
    case Parsed(data) =>
      match Contains(data, "header_fields")
      case Done(true) =>
        (match Index(data, "header_fields")
         case Done(JObj(header)) =>
           Info(GetOr(header, "Patient_Name", UnknownPatient), ParseDate(Get(header, "Date_Of_Birth"), env.fromIso),
                Get(header, "Patient_Age"), ParseDate(Get(header, "Report_Date"), env.fromIso))
         case _ => NoInfo)
      case _ => NoInfo
  }

  /** `patient_info.get("patient_identity") and patient_info.get("date_of_birth")`. */
  predicate Usable(info: PatientInfo) {
    info.Info? && Truthy(info.identity) && info.dateOfBirth.Some?
  }

  function InfoOf(files: string -> FileContent, env: Oracles, name: string): PatientInfo {
    ExtractPatientInfo(files(name), env)
  }

  /** The header search loop: the first file whose header is usable, and otherwise the
      last file's (unusable) result; `{}` for no files. */
  function PatientSearch(names: seq<string>, files: string -> FileContent, env: Oracles): PatientInfo {
    if names == [] then NoInfo
    else
      var info := InfoOf(files, env, names[0]);
      if Usable(info) || |names| == 1 then info else PatientSearch(names[1..], files, env)
  }

  lemma {:induction false} PatientSearchSkips(names: seq<string>, i: nat, files: string -> FileContent, env: Oracles)
    requires i < |names|
    requires forall j :: 0 <= j < i ==> !Usable(InfoOf(files, env, names[j]))
    ensures PatientSearch(names, files, env) == PatientSearch(names[i..], files, env)
  {
    if i > 0 {
      assert names[1..][i - 1..] == names[i..];
      PatientSearchSkips(names[1..], i - 1, files, env);
    }
  }

  /** The `for file_path in source_files: ... break` loop. */
  method FindPatientInfo(names: seq<string>, files: string -> FileContent, env: Oracles) returns (info: PatientInfo)
    ensures info == PatientSearch(names, files, env)
  {
    info := NoInfo;
    var i := 0;
    while i < |names|
      invariant 0 <= i <= |names|
      invariant forall j :: 0 <= j < i ==> !Usable(InfoOf(files, env, names[j]))
      invariant i == 0 ==> info == NoInfo
      invariant 0 < i ==> info == InfoOf(files, env, names[i - 1])
    {
      info := InfoOf(files, env, names[i]);
      if Usable(info) {
        PatientSearchSkips(names, i, files, env);
        return;
      }
      assert forall j :: 0 <= j < i + 1 ==> !Usable(InfoOf(files, env, names[j]));
      i := i + 1;
    }
    if names != [] {
      PatientSearchSkips(names, |names| - 1, files, env);
    }
  }

  lemma {:induction false} PatientSearchSucceeds(names: seq<string>, files: string -> FileContent, env: Oracles)
    ensures Usable(PatientSearch(names, files, env)) <==> exists i :: 0 <= i < |names| && Usable(InfoOf(files, env, names[i]))
  {
    if names != [] && !Usable(InfoOf(files, env, names[0])) && |names| > 1 {
      var rest := names[1..];
      PatientSearchSucceeds(rest, files, env);
      assert PatientSearch(names, files, env) == PatientSearch(rest, files, env);
      if exists i :: 0 <= i < |names| && Usable(InfoOf(files, env, names[i])) {
        var i :| 0 <= i < |names| && Usable(InfoOf(files, env, names[i]));
        assert rest[i - 1] == names[i];
      }
      if Usable(PatientSearch(rest, files, env)) {
        var i :| 0 <= i < |rest| && Usable(InfoOf(files, env, rest[i]));
        assert names[i + 1] == rest[i];
      }
    }
  }

  lemma {:induction false} PatientSearchFirst(names: seq<string>, files: string -> FileContent, env: Oracles)
    requires Usable(PatientSearch(names, files, env))
    ensures exists i ::
      && 0 <= i < |names|
      && PatientSearch(names, files, env) == InfoOf(files, env, names[i])
      && forall j :: 0 <= j < i ==> !Usable(InfoOf(files, env, names[j]))
  {
    if Usable(InfoOf(files, env, names[0])) || |names| == 1 {
      assert PatientSearch(names, files, env) == InfoOf(files, env, names[0]);
    } else {
      var rest := names[1..];
      assert PatientSearch(names, files, env) == PatientSearch(rest, files, env);
      PatientSearchFirst(rest, files, env);
      var i :| 0 <= i < |rest| && PatientSearch(rest, files, env) == InfoOf(files, env, rest[i])
        && forall j :: 0 <= j < i ==> !Usable(InfoOf(files, env, rest[j]));
      assert names[i + 1] == rest[i];
      assert forall j :: 1 <= j < i + 1 ==> names[j] == rest[j - 1];
    }
  }

  /** The header search finds a usable header exactly when some file has one, and then
      it is the first such file's. */
  lemma PatientSearchFindsFirst(names: seq<string>, files: string -> FileContent, env: Oracles)
    ensures Usable(PatientSearch(names, files, env)) <==> exists i :: 0 <= i < |names| && Usable(InfoOf(files, env, names[i]))
    ensures Usable(PatientSearch(names, files, env)) ==>
      exists i :: 0 <= i < |names| && PatientSearch(names, files, env) == InfoOf(files, env, names[i])
        && forall j :: 0 <= j < i ==> !Usable(InfoOf(files, env, names[j]))
  {
    PatientSearchSucceeds(names, files, env);
    if Usable(PatientSearch(names, files, env)) {
      PatientSearchFirst(names, files, env);
    }
  }

  /** A file with a `header_fields` dict that has no `Patient_Name` still gives an
      identity: "Unknown Patient". */
  lemma HeaderWithoutNameIsUnknownPatient(fields: map<string, Json>, header: map<string, Json>, env: Oracles)
    requires "header_fields" in fields && fields["header_fields"] == JObj(header) && "Patient_Name" !in header
    ensures ExtractPatientInfo(Parsed(JObj(fields)), env).Info?
    ensures ExtractPatientInfo(Parsed(JObj(fields)), env).identity == UnknownPatient
  {
  }

  /** Only a dict with a `header_fields` dict yields patient information. */
  lemma PatientInfoNeedsHeader(content: FileContent, env: Oracles)
    ensures ExtractPatientInfo(content, env).Info? <==>
      content.Parsed? && content.data.JObj? && "header_fields" in content.data.fields
      && content.data.fields["header_fields"].JObj?
  {
  }

  // ----- collecting the records -----

  /** The records one file adds to `all_records`: none when it cannot be read or when a
      mapper raises. */
  function FileContribution(content: FileContent, ctx: Context, env: Oracles, next: nat): seq<HealthRecord> {
    match content
    case Unreadable => []
    case Parsed(data) =>
      match FileRecords(data, ctx, env, next)
      case Done(rs) => rs
      case Raised => []
  }

  function FileContext(patientId: string, importId: string, name: string): Context {
    Context(patientId, importId, name)
  }

  /** `all_records` after the loop has visited `names`, ids drawn from `next` on. */
  function Collected(names: seq<string>, files: string -> FileContent, patientId: string, importId: string,
                     env: Oracles, next: nat): seq<HealthRecord>
  {
    if names == [] then []
    else
      var before := Collected(names[..|names| - 1], files, patientId, importId, env, next);
      var name := names[|names| - 1];
      before + FileContribution(files(name), FileContext(patientId, importId, name), env, NextId(next, before))
  }

  lemma CollectedStep(names: seq<string>, i: nat, files: string -> FileContent, patientId: string, importId: string,
                      env: Oracles, next: nat)
    requires i < |names|
    ensures var before := Collected(names[..i], files, patientId, importId, env, next);
      Collected(names[..i + 1], files, patientId, importId, env, next)
        == before + FileContribution(files(names[i]), FileContext(patientId, importId, names[i]), env, NextId(next, before))
  {
    assert names[..i + 1][..i] == names[..i];
  }

  /** The `for file_path in source_files: try ... except: continue` loop. */
  method CollectRecords(names: seq<string>, files: string -> FileContent, patientId: string, importId: string,
                        env: Oracles, next: nat) returns (all: seq<HealthRecord>)
    ensures all == Collected(names, files, patientId, importId, env, next)
  {
    all := [];
    for i := 0 to |names|
      invariant all == Collected(names[..i], files, patientId, importId, env, next)
    {
      CollectedStep(names, i, files, patientId, importId, env, next);
      var content := files(names[i]);
      if content.Unreadable? {
        continue;
      }
      var recs := ProcessFile(content.data, FileContext(patientId, importId, names[i]), env, NextId(next, all));
      if recs.Raised? {
        continue;
      }
      all := all + recs.value;
    }
    assert names[..|names|] == names;
  }

  lemma ContributionIds(content: FileContent, patientId: string, importId: string, name: string, env: Oracles, next: nat)
    ensures DrawnInOrder(FileContribution(content, FileContext(patientId, importId, name), env, next), [name],
                         patientId, importId, env, next)
  {
    if content.Parsed? {
      FileRecordsInSectionOrder(content.data, FileContext(patientId, importId, name), env, next);
    }
  }

  /** Each of `all` has the id drawn `k` places after `next`, the patient, the import,
      and the name of one of `names` as its source file. */
  predicate DrawnInOrder(all: seq<HealthRecord>, names: seq<string>, patientId: string, importId: string,
                         env: Oracles, next: nat)
  {
    forall k :: 0 <= k < |all| ==>
      && all[k].recordId == env.uuid(next + k)
      && all[k].ctx.patientId == patientId && all[k].ctx.importId == importId
      && all[k].ctx.sourceFile in names
  }

  lemma DrawnAppend(before: seq<HealthRecord>, added: seq<HealthRecord>, front: seq<string>, name: string,
                    patientId: string, importId: string, env: Oracles, next: nat)
    requires DrawnInOrder(before, front, patientId, importId, env, next)
    requires DrawnInOrder(added, [name], patientId, importId, env, next + |before|)
    ensures DrawnInOrder(before + added, front + [name], patientId, importId, env, next)
  {
    var all := before + added;
    forall k | 0 <= k < |all|
      ensures all[k].recordId == env.uuid(next + k)
      ensures all[k].ctx.sourceFile in front + [name]
    {
      if k >= |before| {
        assert all[k] == added[k - |before|];
        assert next + |before| + (k - |before|) == next + k;
      }
    }
  }

  /** The collected records draw consecutive fresh ids from `next`, and each carries the
      patient, the import and the name of a file it came from. */
  lemma {:induction false} CollectedIds(names: seq<string>, files: string -> FileContent, patientId: string, importId: string,
                                        env: Oracles, next: nat)
    ensures DrawnInOrder(Collected(names, files, patientId, importId, env, next), names, patientId, importId, env, next)
  {
    if names != [] {
      var front := names[..|names| - 1];
      var name := names[|names| - 1];
      var before := Collected(front, files, patientId, importId, env, next);
      var from := NextId(next, before);
      var added := FileContribution(files(name), FileContext(patientId, importId, name), env, from);
      assert DrawnInOrder(before + added, front + [name], patientId, importId, env, next) by {
        CollectedIds(front, files, patientId, importId, env, next);
        ContributionIds(files(name), patientId, importId, name, env, from);
        assert from == next + |before|;
        DrawnAppend(before, added, front, name, patientId, importId, env, next);
      }
      assert Collected(names, files, patientId, importId, env, next) == before + added;
      assert front + [name] == names;
    }
  }

  /** With a `uuid4` that never repeats, the patient, the import and every record get
      distinct ids. */
  lemma DistinctIds(names: seq<string>, files: string -> FileContent, env: Oracles)
    requires forall a: nat, b: nat :: a != b ==> env.uuid(a) != env.uuid(b)
    ensures var all := Collected(names, files, env.uuid(0), env.uuid(1), env, 2);
      && (forall i, j :: 0 <= i < j < |all| ==> all[i].recordId != all[j].recordId)
      && (forall i :: 0 <= i < |all| ==> all[i].recordId != env.uuid(0) && all[i].recordId != env.uuid(1))
  {
    var all := Collected(names, files, env.uuid(0), env.uuid(1), env, 2);
    CollectedIds(names, files, env.uuid(0), env.uuid(1), env, 2);
    assert forall k :: 0 <= k < |all| ==> all[k].recordId == env.uuid(2 + k);
  }

  // ----- the tool -----

  /** How the database calls go: every call succeeds, or the first to raise. `AtClose`
      is the `finally` that closes the connection raising after every other call went
      through; a close that raises after an earlier failure changes nothing, that one
      is already `ImportFailed`. */
  datatype DbFault = NoFault | AtConnect | AtPatient | AtImport | AtInsert | AtUpdate | AtCommit | AtClose

  datatype Failure = DirectoryNotFound | NoDataFiles | NoPatientInfo | NoHealthRecords | ImportFailed

  /** The `error` text of a failure; an exception's own message is not modelled. */
  function ErrorMessage(f: Failure, directory: string): string {
    match f
    case DirectoryNotFound => "Directory not found: " + directory
    case NoDataFiles => "No health data JSON files found in directory: " + directory
    case NoPatientInfo => "Could not extract patient information from header_fields in JSON files"
    case NoHealthRecords => "No valid health records found in the provided files"
    case ImportFailed => "Import failed: "
  }

  datatype ImportResult =
    | Failed(failure: Failure)
    | Imported(patientName: Json, patientDob: string, patientId: string, importId: string,
               totalRecords: nat, statistics: ImportStatistics)

  /** What the tool returns. `uuid(0)` is the patient id, `uuid(1)` the import id, and
      the records draw theirs from `uuid(2)` on. */
  function Import(directoryExists: bool, listing: seq<string>, files: string -> FileContent,
                  env: Oracles, fault: DbFault): ImportResult
  {
    if !directoryExists then Failed(DirectoryNotFound)
    else
      var sourceFiles := Discovered(FilePatterns, listing);
      if sourceFiles == [] then Failed(NoDataFiles)
      else
        var info := PatientSearch(sourceFiles, files, env);
        if !Usable(info) then Failed(NoPatientInfo)
        else if fault == AtConnect then Failed(ImportFailed)
        else Closed(fault, Connected(sourceFiles, files, info, env, fault))
  }

  /** The body run on an open connection: everything from creating the patient row
      to the commit. */
  function Connected(sourceFiles: seq<string>, files: string -> FileContent, info: PatientInfo,
                     env: Oracles, fault: DbFault): ImportResult
    requires Usable(info)
  {
    if fault == AtPatient || fault == AtImport then Failed(ImportFailed)
    else
      var all := Collected(sourceFiles, files, env.uuid(0), env.uuid(1), env, 2);
      if all == [] then Failed(NoHealthRecords)
      else if fault == AtInsert then Failed(ImportFailed)
      else
        match StatisticsOf(all, sourceFiles)
        case Raised => Failed(ImportFailed)
        case Done(statistics) =>
          if fault == AtUpdate || fault == AtCommit then Failed(ImportFailed)
          else Imported(info.identity, IsoFormat(info.dateOfBirth.value), env.uuid(0), env.uuid(1), |all|, statistics)
  }

  /** The `finally`: a close that raises turns whatever the body returned into the
      outer handler's failure. */
  function Closed(fault: DbFault, body: ImportResult): ImportResult {
    if fault == AtClose then Failed(ImportFailed) else body
  }

  /** The tool, its steps in the source's order. */
  method ImportHealthRecords(directoryExists: bool, listing: seq<string>, files: string -> FileContent,
                             env: Oracles, fault: DbFault) returns (r: ImportResult)
    ensures r == Import(directoryExists, listing, files, env, fault)
  {
    if !directoryExists {
      return Failed(DirectoryNotFound);
    }
    var sourceFiles := DiscoverFiles(listing);
    if sourceFiles == [] {
      return Failed(NoDataFiles);
    }
    var info := FindPatientInfo(sourceFiles, files, env);
    if !Usable(info) {
      return Failed(NoPatientInfo);
    }
    if fault == AtConnect {
      return Failed(ImportFailed);
    }
    r := RunConnected(sourceFiles, files, info, env, fault);
    if fault == AtClose {
      r := Failed(ImportFailed);
    }
  }

  /** The `try` body on the open connection. */
  method RunConnected(sourceFiles: seq<string>, files: string -> FileContent, info: PatientInfo,
                      env: Oracles, fault: DbFault) returns (r: ImportResult)
    requires Usable(info)
    ensures r == Connected(sourceFiles, files, info, env, fault)
  {
    if fault == AtPatient || fault == AtImport {
      return Failed(ImportFailed);
    }
    var patientId, importId := env.uuid(0), env.uuid(1);
    var all := CollectRecords(sourceFiles, files, patientId, importId, env, 2);
    if all == [] {
      return Failed(NoHealthRecords);
    }
    if fault == AtInsert {
      return Failed(ImportFailed);
    }
    var statistics := CalculateImportStatistics(all, sourceFiles);
    if statistics.Raised? || fault == AtUpdate || fault == AtCommit {
      return Failed(ImportFailed);
    }
    return Imported(info.identity, IsoFormat(info.dateOfBirth.value), patientId, importId, |all|, statistics.value);
  }

  // ----- properties -----

  /** The checks before the connection come in order (directory, files, header) and
      do not depend on the database at all. */
  lemma EarlyExitsPrecedeConnection(directoryExists: bool, listing: seq<string>, files: string -> FileContent,
                                    env: Oracles, fault: DbFault, other: DbFault)
    ensures !directoryExists ==> Import(directoryExists, listing, files, env, fault) == Failed(DirectoryNotFound)
    ensures directoryExists && Discovered(FilePatterns, listing) == [] ==>
      Import(directoryExists, listing, files, env, fault) == Failed(NoDataFiles)
    ensures var sourceFiles := Discovered(FilePatterns, listing);
      directoryExists && sourceFiles != [] && (forall i :: 0 <= i < |sourceFiles| ==> !Usable(InfoOf(files, env, sourceFiles[i]))) ==>
        Import(directoryExists, listing, files, env, fault) == Failed(NoPatientInfo)
    ensures Import(directoryExists, listing, files, env, fault) in {Failed(DirectoryNotFound), Failed(NoDataFiles), Failed(NoPatientInfo)} ==>
      Import(directoryExists, listing, files, env, other) == Import(directoryExists, listing, files, env, fault)
  {
    var sourceFiles := Discovered(FilePatterns, listing);
    if directoryExists && sourceFiles != [] {
      var info := PatientSearch(sourceFiles, files, env);
      PatientSearchSucceeds(sourceFiles, files, env);
      if Usable(info) {
        var r := Import(directoryExists, listing, files, env, fault);
        assert r == Failed(ImportFailed) || r == Failed(NoHealthRecords) || r.Imported?;
      }
    }
  }

  /** No data file is found exactly when no listed name matches one of the patterns. */
  lemma NoDataFilesExactly(listing: seq<string>)
    ensures Discovered(FilePatterns, listing) == [] <==>
      forall name :: name in listing ==> forall p :: p in FilePatterns ==> !Matches(p, name)
  {
    if Discovered(FilePatterns, listing) != [] {
      var name := Discovered(FilePatterns, listing)[0];
      assert name in Discovered(FilePatterns, listing);
    }
  }

  /** A successful import reports the number of collected records, which is never zero,
      the statistics of exactly those records, and the first usable header's patient. */
  lemma SuccessReportsCollectedRecords(directoryExists: bool, listing: seq<string>, files: string -> FileContent,
                                       env: Oracles, fault: DbFault)
    requires Import(directoryExists, listing, files, env, fault).Imported?
    ensures var r := Import(directoryExists, listing, files, env, fault);
      var sourceFiles := Discovered(FilePatterns, listing);
      var all := Collected(sourceFiles, files, env.uuid(0), env.uuid(1), env, 2);
      && fault == NoFault
      && r.totalRecords == |all| > 0
      && StatisticsOf(all, sourceFiles) == Done(r.statistics)
      && r.patientId == env.uuid(0) && r.importId == env.uuid(1)
      && Usable(PatientSearch(sourceFiles, files, env))
      && r.patientName == PatientSearch(sourceFiles, files, env).identity
  {
    var sourceFiles := Discovered(FilePatterns, listing);
    var info := PatientSearch(sourceFiles, files, env);
    assert directoryExists && sourceFiles != [] && Usable(info) && fault != AtConnect;
    assert fault != AtClose;
    ConnectedImported(sourceFiles, files, info, env, fault);
  }

  lemma ConnectedImported(sourceFiles: seq<string>, files: string -> FileContent, info: PatientInfo,
                          env: Oracles, fault: DbFault)
    requires Usable(info) && Connected(sourceFiles, files, info, env, fault).Imported?
    ensures var r := Connected(sourceFiles, files, info, env, fault);
      var all := Collected(sourceFiles, files, env.uuid(0), env.uuid(1), env, 2);
      && (fault == NoFault || fault == AtConnect || fault == AtClose)
      && r.totalRecords == |all| > 0
      && StatisticsOf(all, sourceFiles) == Done(r.statistics)
      && r.patientId == env.uuid(0) && r.importId == env.uuid(1)
      && r.patientName == info.identity
  {
    var all := Collected(sourceFiles, files, env.uuid(0), env.uuid(1), env, 2);
    assert all != [] && fault != AtPatient && fault != AtImport && fault != AtInsert;
    assert fault != AtUpdate && fault != AtCommit;
    assert StatisticsOf(all, sourceFiles).Done?;
  }

  /** Files that cannot be read or whose mappers raise add no records, so an import of
      only such files fails with no health records. */
  lemma {:induction false} NothingCollectedFromBadFiles(names: seq<string>, files: string -> FileContent,
                                                        patientId: string, importId: string, env: Oracles, next: nat)
    requires forall name :: name in names ==>
      files(name).Unreadable? || FileRecords(files(name).data, FileContext(patientId, importId, name), env, next).Raised?
    ensures Collected(names, files, patientId, importId, env, next) == []
  {
    if names != [] {
      var front := names[..|names| - 1];
      assert forall name :: name in front ==> name in names;
      NothingCollectedFromBadFiles(front, files, patientId, importId, env, next);
    }
  }

  /** Once connected, a close that raises overrides the result: only the checks before
      the connection can still report their own failure, every other run fails with
      the outer handler's error, even one that had no health records. */
  lemma CloseFailureOverridesResult(directoryExists: bool, listing: seq<string>, files: string -> FileContent,
                                    env: Oracles)
    ensures var early := Import(directoryExists, listing, files, env, NoFault);
      Import(directoryExists, listing, files, env, AtClose)
        == if early in {Failed(DirectoryNotFound), Failed(NoDataFiles), Failed(NoPatientInfo)} then early
           else Failed(ImportFailed)
  {
    var sourceFiles := Discovered(FilePatterns, listing);
    if directoryExists && sourceFiles != [] {
      var info := PatientSearch(sourceFiles, files, env);
      if Usable(info) {
        var body := Connected(sourceFiles, files, info, env, NoFault);
        assert body == Failed(NoHealthRecords) || body == Failed(ImportFailed) || body.Imported?;
      }
    }
  }
}
