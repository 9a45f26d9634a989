/** The mapping of one parsed data file onto HEALTH_RECORDS rows
    (tools/health-mcp/src/health_mcp.py:173-333): the `process_*` mappers. */
module Records {
  import opened Wrappers
  import opened PyJson
  import opened Dates
  import opened LabValues

  /** The seven record kinds, in the order a file's sections are processed. */
  datatype Category = Lab | Medication | Vital | Condition | Procedure | Allergy | Immunization

  /** The `record_category` string. */
  function CategoryName(c: Category): string {
    match c
    case Lab => "LAB"
    case Medication => "MEDICATION"
    case Vital => "VITAL"
    case Condition => "CONDITION"
    case Procedure => "PROCEDURE"
    case Allergy => "ALLERGY"
    case Immunization => "IMMUNIZATION"
  }

  /** Position of a kind in the processing order. */
  function Rank(c: Category): nat {
    match c
    case Lab => 0
    case Medication => 1
    case Vital => 2
    case Condition => 3
    case Procedure => 4
    case Allergy => 5
    case Immunization => 6
  }

  /** The top-level key of the section holding records of kind `c`. */
  function SectionKey(c: Category): string {
    match c
    case Lab => "Lab_Results"
    case Medication => "Medications"
    case Vital => "Vitals"
    case Condition => "Conditions"
    case Procedure => "Procedures"
    case Allergy => "Allergies"
    case Immunization => "Immunizations"
  }

  /** The entry key holding the record date (for labs, the session's key). */
  function DateKey(c: Category): string {
    match c
    case Lab => "Test_Date"
    case Medication => "Prescription_Date"
    case Vital => "Measurement_Date"
    case Condition => "Diagnosis_Date"
    case Procedure => "Procedure_Date"
    case Allergy => "Record_Date"
    case Immunization => "Immunization_Date"
  }

  /** The entry key holding the item description. */
  function ItemKey(c: Category): string {
    match c
    case Lab => "Test_Name"
    case Medication => "Medication_Name"
    case Vital => "Vital_Type"
    case Condition => "Condition_Name"
    case Procedure => "Procedure_Name"
    case Allergy => "Allergy"
    case Immunization => "Vaccine_Name"
  }

  /** The fresh-id source and the library date parser, which the model takes as given. */
  datatype Oracles = Oracles(uuid: nat -> string, fromIso: string -> Option<Date>)

  /** What every record of one file shares: `patient_id`, `import_id`, `source_file`. */
  datatype Context = Context(patientId: string, importId: string, sourceFile: string)

  /** The columns only one kind of record sets; the kind is the constructor. */
  datatype Details =
    | LabDetails(valueText: Json, unit: Json, referenceRange: Json, flag: Json, testCategory: Json)
    | MedicationDetails(dosage: Json, form: Json, forCondition: Json, frequency: Json, status: Json)
    | VitalDetails(value: Json, unit: Json, vitalCategory: Json)
    | ConditionDetails(conditionStatus: Json)
    | ProcedureDetails(procedureCategory: Json)
    | AllergyDetails
    | ImmunizationDetails(vaccineCategory: Json)

  function Kind(d: Details): Category {
    match d
    case LabDetails(_, _, _, _, _) => Lab
    case MedicationDetails(_, _, _, _, _) => Medication
    case VitalDetails(_, _, _) => Vital
    case ConditionDetails(_) => Condition
    case ProcedureDetails(_) => Procedure
    case AllergyDetails => Allergy
    case ImmunizationDetails(_) => Immunization
  }

  /** A record dict as the mappers build it. */
  datatype HealthRecord = HealthRecord(
    recordId: string,
    ctx: Context,
    recordDate: Option<Date>,
    provider: Json,
    itemDescription: Json,
    details: Details)

  function CategoryOf(r: HealthRecord): Category {
    Kind(r.details)
  }

  const UnknownProvider: Json := JStr("Unknown Provider")

  // ----- one record -----

  function SessionDate(session: map<string, Json>, env: Oracles): Option<Date> {
    ParseDate(Get(session, DateKey(Lab)), env.fromIso)
  }

  function SessionProvider(session: map<string, Json>): Json {
    GetOr(session, "Provider", UnknownProvider)
  }

  /** `lab_session.get("Tests", [])`, iterated. */
  function TestsOf(session: map<string, Json>): Outcome<seq<map<string, Json>>> {
    IterObjects(GetOr(session, "Tests", JArr([])))
  }

  /** The lab columns of one test. */
  function TestDetails(test: map<string, Json>): Details {
    LabDetails(Get(test, "Test_Value"), Get(test, "Test_Unit"), Get(test, "Reference_Range"), Get(test, "Flag"), Get(test, "Test_Category"))
  }

  /** `value_numeric`: for a LAB record, set from `str(test.get("Test_Value", ""))`
      only when that text looks numeric, which depends on `value_text` alone (a missing
      value and `None` both give no number); for a VITAL record, `Vital_Value` as given. */
  function ValueNumeric(d: Details): Json {
    match d
    case LabDetails(valueText, _, _, _, _) => LabNumeric(valueText)
    case VitalDetails(value, _, _) => value
    case _ => JNull
  }

  /** The kind-specific columns of an entry of the section of kind `c`. */
  function EntryDetails(c: Category, entry: map<string, Json>): (d: Details)
    ensures Kind(d) == c
  {
    match c
    case Lab => TestDetails(entry)
    case Medication =>
      MedicationDetails(Get(entry, "Dosage"), Get(entry, "Form"), Get(entry, "For_Condition"),
                        Get(entry, "Frequency"), GetOr(entry, "Status", JStr("PRESCRIBED")))
    case Vital => VitalDetails(Get(entry, "Vital_Value"), Get(entry, "Vital_Unit"), Get(entry, "Vital_Type"))
    case Condition => ConditionDetails(Get(entry, "Status"))
    case Procedure => ProcedureDetails(Get(entry, "Procedure_Type"))
    case Allergy => AllergyDetails
    case Immunization => ImmunizationDetails(Get(entry, "Vaccine_Type"))
  }

  /** Where one record comes from: a test of a lab session, or an entry of a section. */
  datatype Source =
    | Test(session: map<string, Json>, test: map<string, Json>)
    | Entry(section: Category, entry: map<string, Json>)

  function SourceKind(src: Source): Category {
    match src
    case Test(_, _) => Lab
    case Entry(c, _) => c
  }

  /** The record dict one mapper builds for one source and one fresh id: a test takes
      its date and provider from its session, an entry from itself. */
  function MakeRecord(src: Source, ctx: Context, env: Oracles, id: string): (r: HealthRecord)
    ensures r.recordId == id && r.ctx == ctx && CategoryOf(r) == SourceKind(src)
  {
    match src
    case Test(session, test) =>
      HealthRecord(id, ctx, SessionDate(session, env), SessionProvider(session), Get(test, ItemKey(Lab)), TestDetails(test))
    case Entry(c, entry) =>
      HealthRecord(id, ctx, ParseDate(Get(entry, DateKey(c)), env.fromIso),
                   GetOr(entry, "Provider", UnknownProvider), Get(entry, ItemKey(c)), EntryDetails(c, entry))
  }

  /** The records built from `srcs` in order, the `k`-th taking the fresh id `uuid(next + k)`. */
  function Build(srcs: seq<Source>, ctx: Context, env: Oracles, next: nat): (r: seq<HealthRecord>)
    ensures |r| == |srcs|
  {
    seq(|srcs|, k requires 0 <= k < |srcs| => BuildAt(srcs, ctx, env, next, k))
  }

  /** The record built from the k-th source, with the (next + k)-th fresh id. */
  function BuildAt(srcs: seq<Source>, ctx: Context, env: Oracles, next: nat, k: nat): HealthRecord
    requires k < |srcs|
  {
    MakeRecord(srcs[k], ctx, env, env.uuid(next + k))
  }

  /** The k-th record is built from the k-th source with the (next + k)-th fresh id. */
  lemma BuildElements(srcs: seq<Source>, ctx: Context, env: Oracles, next: nat)
    ensures forall k :: 0 <= k < |srcs| ==>
      Build(srcs, ctx, env, next)[k] == MakeRecord(srcs[k], ctx, env, env.uuid(next + k))
  {
  }

  lemma BuildAppend(a: seq<Source>, b: seq<Source>, ctx: Context, env: Oracles, next: nat)
    ensures Build(a + b, ctx, env, next) == Build(a, ctx, env, next) + Build(b, ctx, env, next + |a|)
  {
    var lhs := Build(a + b, ctx, env, next);
    var rhs := Build(a, ctx, env, next) + Build(b, ctx, env, next + |a|);
    forall k | 0 <= k < |lhs| ensures lhs[k] == rhs[k] {
      if k < |a| {
        assert (a + b)[k] == a[k];
      } else {
        assert (a + b)[k] == b[k - |a|];
      }
    }
  }

  // ----- the sources of each section -----

  function SessionSources(session: map<string, Json>, tests: seq<map<string, Json>>): (r: seq<Source>)
    ensures |r| == |tests| && forall k :: 0 <= k < |tests| ==> r[k] == Test(session, tests[k])
  {
    seq(|tests|, k requires 0 <= k < |tests| => Test(session, tests[k]))
  }

  /** The tests of the sessions of `Lab_Results`, session by session. */
  function LabSources(sessions: seq<map<string, Json>>): Outcome<seq<Source>>
    decreases |sessions|
  {
    if sessions == [] then Done([])
    else
      var tests :- TestsOf(sessions[0]);
      var rest :- LabSources(sessions[1..]);
      Done(SessionSources(sessions[0], tests) + rest)
  }

  function EntrySources(c: Category, entries: seq<map<string, Json>>): (r: seq<Source>)
    ensures |r| == |entries| && forall k :: 0 <= k < |entries| ==> r[k] == Entry(c, entries[k])
  {
    seq(|entries|, k requires 0 <= k < |entries| => Entry(c, entries[k]))
  }

  /** The sources of the section of kind `c`: none when its key is absent (`if key not in
      data`), else one per test of each session (labs) or one per entry. */
  function SectionSources(data: Json, c: Category): Outcome<seq<Source>> {
    var present :- Contains(data, SectionKey(c));
    if !present then Done([])
    else
      var section :- Index(data, SectionKey(c));
      var items :- IterObjects(section);
      if c == Lab then LabSources(items) else Done(EntrySources(c, items))
  }

  function ClinicalSources(data: Json): Outcome<seq<Source>> {
    var conditions :- SectionSources(data, Condition);
    var procedures :- SectionSources(data, Procedure);
    var allergies :- SectionSources(data, Allergy);
    var immunizations :- SectionSources(data, Immunization);
    Done(conditions + procedures + allergies + immunizations)
  }

  function FileSources(data: Json): Outcome<seq<Source>> {
    var labs :- SectionSources(data, Lab);
    var meds :- SectionSources(data, Medication);
    var vitals :- SectionSources(data, Vital);
    var clinical :- ClinicalSources(data);
    Done(labs + meds + vitals + clinical)
  }

  // ----- the mappers -----

  /** Records built from sources that may have raised. */
  function BuildOutcome(srcs: Outcome<seq<Source>>, ctx: Context, env: Oracles, next: nat): Outcome<seq<HealthRecord>> {
    match srcs
    case Raised => Raised
    case Done(s) => Done(Build(s, ctx, env, next))
  }

  /** `process_lab_results` (c = Lab), `process_medications`, `process_vitals`, and each
      of the four blocks of `process_clinical_data`. */
  function SectionRecords(data: Json, c: Category, ctx: Context, env: Oracles, next: nat): Outcome<seq<HealthRecord>> {
    BuildOutcome(SectionSources(data, c), ctx, env, next)
  }

  /** The position of the next fresh id once the records `drawn` have taken theirs from `next`. */
  function NextId(next: nat, drawn: seq<HealthRecord>): nat {
    next + |drawn|
  }

  /** `process_clinical_data`: conditions, then procedures, allergies, immunizations. */
  function ClinicalData(data: Json, ctx: Context, env: Oracles, next: nat): Outcome<seq<HealthRecord>> {
    var conditions :- SectionRecords(data, Condition, ctx, env, next);
    var procedures :- SectionRecords(data, Procedure, ctx, env, NextId(next, conditions));
    var allergies :- SectionRecords(data, Allergy, ctx, env, NextId(next, conditions + procedures));
    var immunizations :- SectionRecords(data, Immunization, ctx, env, NextId(next, conditions + procedures + allergies));
    Done(conditions + procedures + allergies + immunizations)
  }

  /** The four mappers applied to one parsed file, as the import loop does, their
      lists concatenated. */
  function FileRecords(data: Json, ctx: Context, env: Oracles, next: nat): Outcome<seq<HealthRecord>> {
    var labs :- SectionRecords(data, Lab, ctx, env, next);
    var meds :- SectionRecords(data, Medication, ctx, env, NextId(next, labs));
    var vitals :- SectionRecords(data, Vital, ctx, env, NextId(next, labs + meds));
    var clinical :- ClinicalData(data, ctx, env, NextId(next, labs + meds + vitals));
    Done(labs + meds + vitals + clinical)
  }

  /** Four sections in a row draw consecutive ids, so they build from the concatenation
      of their sources. */
  lemma BuildFour(p: seq<Source>, q: seq<Source>, s: seq<Source>, t: seq<Source>, ctx: Context, env: Oracles, next: nat)
    ensures Build(p, ctx, env, next) + Build(q, ctx, env, next + |p|) + Build(s, ctx, env, next + |p| + |q|)
            + Build(t, ctx, env, next + |p| + |q| + |s|)
            == Build(p + q + s + t, ctx, env, next)
  {
    BuildAppend(p, q, ctx, env, next);
    BuildAppend(p + q, s, ctx, env, next);
    BuildAppend(p + q + s, t, ctx, env, next);
  }

  /** Four mappers run one after the other, each drawing its ids after the previous
      ones' and the first exception ending the run. */
  function Chain(p: Outcome<seq<Source>>, q: Outcome<seq<Source>>, s: Outcome<seq<Source>>, t: Outcome<seq<Source>>,
                 ctx: Context, env: Oracles, next: nat): Outcome<seq<HealthRecord>> {
    var first :- BuildOutcome(p, ctx, env, next);
    var second :- BuildOutcome(q, ctx, env, NextId(next, first));
    var third :- BuildOutcome(s, ctx, env, NextId(next, first + second));
    var fourth :- BuildOutcome(t, ctx, env, NextId(next, first + second + third));
    Done(first + second + third + fourth)
  }

  /** The four source lists joined, the first exception ending the join. */
  function JoinSources(p: Outcome<seq<Source>>, q: Outcome<seq<Source>>, s: Outcome<seq<Source>>, t: Outcome<seq<Source>>)
    : Outcome<seq<Source>> {
    var first :- p;
    var second :- q;
    var third :- s;
    var fourth :- t;
    Done(first + second + third + fourth)
  }

  lemma ChainBuild(p: Outcome<seq<Source>>, q: Outcome<seq<Source>>, s: Outcome<seq<Source>>, t: Outcome<seq<Source>>,
                   ctx: Context, env: Oracles, next: nat)
    ensures Chain(p, q, s, t, ctx, env, next) == BuildOutcome(JoinSources(p, q, s, t), ctx, env, next)
  {
    if p.Done? && q.Done? && s.Done? && t.Done? {
      BuildFour(p.value, q.value, s.value, t.value, ctx, env, next);
    }
  }

  /** `process_clinical_data` builds the records of the clinical sources in order. */
  lemma ClinicalDataBuild(data: Json, ctx: Context, env: Oracles, next: nat)
    ensures ClinicalData(data, ctx, env, next) == BuildOutcome(ClinicalSources(data), ctx, env, next)
  {
    var p, q, s, t := SectionSources(data, Condition), SectionSources(data, Procedure),
                      SectionSources(data, Allergy), SectionSources(data, Immunization);
    assert ClinicalData(data, ctx, env, next) == Chain(p, q, s, t, ctx, env, next);
    ChainBuild(p, q, s, t, ctx, env, next);
    assert ClinicalSources(data) == JoinSources(p, q, s, t);
  }

  /** A file's records are built from its sources in order, with consecutive ids. */
  lemma FileRecordsBuild(data: Json, ctx: Context, env: Oracles, next: nat)
    ensures FileRecords(data, ctx, env, next) == BuildOutcome(FileSources(data), ctx, env, next)
  {
    var p, q, s, t := SectionSources(data, Lab), SectionSources(data, Medication),
                      SectionSources(data, Vital), ClinicalSources(data);
    forall m: nat ensures ClinicalData(data, ctx, env, m) == BuildOutcome(t, ctx, env, m) {
      ClinicalDataBuild(data, ctx, env, m);
    }
    assert FileRecords(data, ctx, env, next) == Chain(p, q, s, t, ctx, env, next);
    ChainBuild(p, q, s, t, ctx, env, next);
    assert FileSources(data) == JoinSources(p, q, s, t);
  }

  // ----- order and ids -----

  /** Every source has a kind of rank `lo..hi`. */
  predicate KindsWithin(srcs: seq<Source>, lo: nat, hi: nat) {
    forall k :: 0 <= k < |srcs| ==> lo <= Rank(SourceKind(srcs[k])) <= hi
  }

  /** Kinds never go back in the processing order. */
  predicate SortedByKind(srcs: seq<Source>) {
    forall i, j :: 0 <= i < j < |srcs| ==> Rank(SourceKind(srcs[i])) <= Rank(SourceKind(srcs[j]))
  }

  lemma Uniform(srcs: seq<Source>, rank: nat)
    requires KindsWithin(srcs, rank, rank)
    ensures SortedByKind(srcs)
  {
  }

  /** Two lists of sources, the second's kinds not before the first's, join sorted. */
  lemma JoinSorted(a: seq<Source>, b: seq<Source>, aLo: nat, aHi: nat, bLo: nat, bHi: nat)
    requires aLo <= aHi <= bLo <= bHi
    requires KindsWithin(a, aLo, aHi) && KindsWithin(b, bLo, bHi)
    requires SortedByKind(a) && SortedByKind(b)
    ensures KindsWithin(a + b, aLo, bHi)
    ensures SortedByKind(a + b)
  {
    var ab := a + b;
    forall k | 0 <= k < |ab|
      ensures k < |a| ==> aLo <= Rank(SourceKind(ab[k])) <= aHi
      ensures |a| <= k ==> bLo <= Rank(SourceKind(ab[k])) <= bHi
    {
      if k < |a| {
        assert ab[k] == a[k];
      } else {
        assert ab[k] == b[k - |a|];
      }
    }
    forall i, j | 0 <= i < j < |ab| ensures Rank(SourceKind(ab[i])) <= Rank(SourceKind(ab[j])) {
      if j < |a| {
        assert ab[i] == a[i] && ab[j] == a[j];
      } else if |a| <= i {
        assert ab[i] == b[i - |a|] && ab[j] == b[j - |a|];
      }
    }
  }

  lemma {:induction false} LabSourcesKind(sessions: seq<map<string, Json>>)
    ensures LabSources(sessions).Done? ==> KindsWithin(LabSources(sessions).value, 0, 0)
    decreases |sessions|
  {
    if sessions != [] {
      LabSourcesKind(sessions[1..]);
    }
  }

  /** Every source of the section of kind `c` has kind `c`. */
  lemma SectionSourcesKind(data: Json, c: Category)
    ensures SectionSources(data, c).Done? ==> KindsWithin(SectionSources(data, c).value, Rank(c), Rank(c))
  {
    match Contains(data, SectionKey(c))
    case Raised =>
    case Done(present) =>
      if present {
        match Index(data, SectionKey(c))
        case Raised =>
        case Done(section) =>
          match IterObjects(section)
          case Raised =>
          case Done(items) =>
            if c == Lab {
              LabSourcesKind(items);
            }
      }
  }

  lemma ClinicalSourcesSorted(data: Json)
    ensures ClinicalSources(data).Done? ==>
      KindsWithin(ClinicalSources(data).value, 3, 6) && SortedByKind(ClinicalSources(data).value)
  {
    var p, q, s, t := SectionSources(data, Condition), SectionSources(data, Procedure),
                      SectionSources(data, Allergy), SectionSources(data, Immunization);
    if p.Done? && q.Done? && s.Done? && t.Done? {
      SectionSourcesKind(data, Condition);
      SectionSourcesKind(data, Procedure);
      SectionSourcesKind(data, Allergy);
      SectionSourcesKind(data, Immunization);
      Uniform(p.value, 3);
      Uniform(q.value, 4);
      Uniform(s.value, 5);
      Uniform(t.value, 6);
      JoinSorted(p.value, q.value, 3, 3, 4, 4);
      JoinSorted(p.value + q.value, s.value, 3, 4, 5, 5);
      JoinSorted(p.value + q.value + s.value, t.value, 3, 5, 6, 6);
    }
  }

  lemma FileSourcesSorted(data: Json)
    ensures FileSources(data).Done? ==>
      KindsWithin(FileSources(data).value, 0, 6) && SortedByKind(FileSources(data).value)
  {
    var p, q, s, t := SectionSources(data, Lab), SectionSources(data, Medication),
                      SectionSources(data, Vital), ClinicalSources(data);
    if p.Done? && q.Done? && s.Done? && t.Done? {
      SectionSourcesKind(data, Lab);
      SectionSourcesKind(data, Medication);
      SectionSourcesKind(data, Vital);
      ClinicalSourcesSorted(data);
      Uniform(p.value, 0);
      Uniform(q.value, 1);
      Uniform(s.value, 2);
      JoinSorted(p.value, q.value, 0, 0, 1, 1);
      JoinSorted(p.value + q.value, s.value, 0, 1, 2, 2);
      JoinSorted(p.value + q.value + s.value, t.value, 0, 2, 3, 6);
    }
  }

  /** Kinds never go back in the processing order. */
  predicate Sorted(rs: seq<HealthRecord>) {
    forall i, j :: 0 <= i < j < |rs| ==> Rank(CategoryOf(rs[i])) <= Rank(CategoryOf(rs[j]))
  }

  /** Building records keeps the order and the kinds of their sources, and hands out
      consecutive fresh ids. */
  lemma BuildKeepsOrder(srcs: seq<Source>, ctx: Context, env: Oracles, next: nat, lo: nat, hi: nat)
    requires KindsWithin(srcs, lo, hi) && SortedByKind(srcs)
    ensures var rs := Build(srcs, ctx, env, next);
      && (forall k :: 0 <= k < |rs| ==> rs[k].recordId == env.uuid(next + k) && rs[k].ctx == ctx)
      && (forall k :: 0 <= k < |rs| ==> lo <= Rank(CategoryOf(rs[k])) <= hi)
      && Sorted(rs)
  {
    var rs := Build(srcs, ctx, env, next);
    BuildElements(srcs, ctx, env, next);
    forall i, j | 0 <= i < j < |rs| ensures Rank(CategoryOf(rs[i])) <= Rank(CategoryOf(rs[j])) {
      assert CategoryOf(rs[i]) == SourceKind(srcs[i]) && CategoryOf(rs[j]) == SourceKind(srcs[j]);
    }
    forall k | 0 <= k < |rs| ensures lo <= Rank(CategoryOf(rs[k])) <= hi {
      assert CategoryOf(rs[k]) == SourceKind(srcs[k]);
    }
  }

  /** The records of one file draw consecutive fresh ids from `next`, all carry the file's
      patient, import and source file, and come out in section order: labs, medications,
      vitals, conditions, procedures, allergies, immunizations. */
  lemma FileRecordsInSectionOrder(data: Json, ctx: Context, env: Oracles, next: nat)
    ensures FileRecords(data, ctx, env, next).Done? ==>
      var rs := FileRecords(data, ctx, env, next).value;
      && (forall k :: 0 <= k < |rs| ==> rs[k].recordId == env.uuid(next + k) && rs[k].ctx == ctx)
      && Sorted(rs)
  {
    FileRecordsBuild(data, ctx, env, next);
    FileSourcesSorted(data);
    if FileSources(data).Done? {
      BuildKeepsOrder(FileSources(data).value, ctx, env, next, 0, 6);
    }
  }

  /** `process_clinical_data` yields conditions, then procedures, then allergies, then
      immunizations, and nothing else. */
  lemma ClinicalDataInOrder(data: Json, ctx: Context, env: Oracles, next: nat)
    ensures ClinicalData(data, ctx, env, next).Done? ==>
      var rs := ClinicalData(data, ctx, env, next).value;
      && (forall k :: 0 <= k < |rs| ==> CategoryOf(rs[k]) !in {Lab, Medication, Vital})
      && Sorted(rs)
  {
    ClinicalDataBuild(data, ctx, env, next);
    ClinicalSourcesSorted(data);
    if ClinicalSources(data).Done? {
      var rs := ClinicalData(data, ctx, env, next).value;
      BuildKeepsOrder(ClinicalSources(data).value, ctx, env, next, 3, 6);
      forall k | 0 <= k < |rs| ensures CategoryOf(rs[k]) !in {Lab, Medication, Vital} {
        assert 3 <= Rank(CategoryOf(rs[k]));
      }
    }
  }

  // ----- properties of the mappers -----

  /** A file without `Lab_Results` has no lab records. */
  lemma NoLabSectionNoLabs(fields: map<string, Json>, ctx: Context, env: Oracles, next: nat)
    requires "Lab_Results" !in fields
    ensures SectionRecords(JObj(fields), Lab, ctx, env, next) == Done([])
  {
  }

  /** Prefixes already collected sources to the outcome of the rest of the work. */
  function PrependSources(acc: seq<Source>, rest: Outcome<seq<Source>>): (r: Outcome<seq<Source>>)
    ensures r.Done? <==> rest.Done?
    ensures r.Done? ==> r.value == acc + rest.value
  {
    match rest
    case Raised => Raised
    case Done(s) => Done(acc + s)
  }

  /** The sessions of a concatenation are processed one after the other, and a session
      that raises ends the whole section. */
  lemma {:induction false} LabSourcesAppend(a: seq<map<string, Json>>, b: seq<map<string, Json>>)
    ensures LabSources(a + b) ==
      match LabSources(a)
      case Raised => Raised
      case Done(first) => PrependSources(first, LabSources(b))
    decreases |a|
  {
    if a == [] {
      assert a + b == b;
      if LabSources(b).Done? {
        assert [] + LabSources(b).value == LabSources(b).value;
      }
    } else {
      assert (a + b)[0] == a[0];
      assert (a + b)[1..] == a[1..] + b;
      LabSourcesAppend(a[1..], b);
      match TestsOf(a[0])
      case Raised =>
      case Done(tests) =>
        var head := SessionSources(a[0], tests);
        match LabSources(a[1..])
        case Raised =>
        case Done(rest) =>
          if LabSources(b).Done? {
            assert head + (rest + LabSources(b).value) == head + rest + LabSources(b).value;
          }
    }
  }

  /** A file whose `Lab_Results` holds one session yields exactly one LAB record per
      element of its `Tests`, in order, each carrying the session's parsed date, the
      session's provider ("Unknown Provider" when it has none) and the test's own name
      and value. */
  lemma OneLabSession(fields: map<string, Json>, session: map<string, Json>, ctx: Context, env: Oracles, next: nat)
    requires "Lab_Results" in fields && fields["Lab_Results"] == JArr([JObj(session)])
    ensures SectionRecords(JObj(fields), Lab, ctx, env, next).Done? <==> TestsOf(session).Done?
    ensures TestsOf(session).Done? ==>
      var rs := SectionRecords(JObj(fields), Lab, ctx, env, next).value;
      var tests := TestsOf(session).value;
      && |rs| == |tests|
      && forall k :: 0 <= k < |rs| ==>
           && CategoryOf(rs[k]) == Lab
           && rs[k].recordId == env.uuid(next + k)
           && rs[k].recordDate == ParseDate(Get(session, "Test_Date"), env.fromIso)
           && rs[k].provider == (if "Provider" in session then session["Provider"] else JStr("Unknown Provider"))
           && rs[k].itemDescription == Get(tests[k], "Test_Name")
           && rs[k].details.valueText == Get(tests[k], "Test_Value")
  {
    var sessions := [session];
    var iterated := IterObjects(JArr([JObj(session)]));
    assert iterated.Done? && |iterated.value| == 1 && iterated.value[0] == session;
    assert iterated.value == sessions;
    assert sessions[1..] == [];
    if TestsOf(session).Done? {
      var tests := TestsOf(session).value;
      var head := SessionSources(session, tests);
      assert LabSources(sessions) == Done(head + []);
      assert head + [] == head;
    }
  }

  /** A medication's `Status` defaults to "PRESCRIBED" and is kept when given. */
  lemma MedicationStatusDefault(entry: map<string, Json>)
    ensures "Status" !in entry ==> EntryDetails(Medication, entry).status == JStr("PRESCRIBED")
    ensures "Status" in entry ==> EntryDetails(Medication, entry).status == entry["Status"]
  {
  }

  /** The two files agree on whether `key` is present and on its value. */
  predicate SameSection(f: map<string, Json>, g: map<string, Json>, key: string) {
    (key in f <==> key in g) && (key in f ==> f[key] == g[key])
  }

  lemma SectionReadOnly(f: map<string, Json>, g: map<string, Json>, c: Category)
    requires SameSection(f, g, SectionKey(c))
    ensures SectionSources(JObj(f), c) == SectionSources(JObj(g), c)
  {
  }

  /** Two files that agree on the seven section keys give the same records:
      `header_fields` and every other key are ignored. */
  lemma FileRecordsReadOnlySections(f: map<string, Json>, g: map<string, Json>, ctx: Context, env: Oracles, next: nat)
    requires forall c: Category :: SameSection(f, g, SectionKey(c))
    ensures FileRecords(JObj(f), ctx, env, next) == FileRecords(JObj(g), ctx, env, next)
  {
    SectionReadOnly(f, g, Lab);
    SectionReadOnly(f, g, Medication);
    SectionReadOnly(f, g, Vital);
    SectionReadOnly(f, g, Condition);
    SectionReadOnly(f, g, Procedure);
    SectionReadOnly(f, g, Allergy);
    SectionReadOnly(f, g, Immunization);
    assert FileSources(JObj(f)) == FileSources(JObj(g));
    FileRecordsBuild(JObj(f), ctx, env, next);
    FileRecordsBuild(JObj(g), ctx, env, next);
  }

  /** A file holding none of the seven sections, such as one with only
      `header_fields`, yields no records. */
  lemma NoSectionsNoRecords(f: map<string, Json>, ctx: Context, env: Oracles, next: nat)
    requires forall c: Category :: SectionKey(c) !in f
    ensures FileRecords(JObj(f), ctx, env, next) == Done([])
  {
    var d := JObj(f);
    assert SectionKey(Lab) !in f && SectionKey(Medication) !in f && SectionKey(Vital) !in f;
    assert SectionKey(Condition) !in f && SectionKey(Procedure) !in f;
    assert SectionKey(Allergy) !in f && SectionKey(Immunization) !in f;
    var none: seq<Source> := [];
    assert none + none + none + none == none;
    assert ClinicalSources(d) == Done(none);
    assert FileSources(d) == Done(none);
    FileRecordsBuild(d, ctx, env, next);
  }

  // ----- the loops -----

  lemma BuildSnoc(s: seq<Source>, x: Source, ctx: Context, env: Oracles, next: nat)
    ensures Build(s + [x], ctx, env, next) == Build(s, ctx, env, next) + [MakeRecord(x, ctx, env, env.uuid(next + |s|))]
  {
    BuildAppend(s, [x], ctx, env, next);
  }

  /** The inner loop of `process_lab_results`: one record appended per test of a session,
      all sharing the session's parsed date and provider. */
  method AppendTests(session: map<string, Json>, tests: seq<map<string, Json>>, ctx: Context, env: Oracles, next: nat,
                     records: seq<HealthRecord>, ghost done: seq<Source>)
    returns (grown: seq<HealthRecord>)
    requires records == Build(done, ctx, env, next)
    ensures grown == Build(done + SessionSources(session, tests), ctx, env, next)
  {
    var testDate := SessionDate(session, env);
    var provider := SessionProvider(session);
    grown := records;
    var j := 0;
    assert tests[..0] == [];
    assert done + SessionSources(session, tests[..0]) == done;
    while j < |tests|
      invariant 0 <= j <= |tests|
      invariant grown == Build(done + SessionSources(session, tests[..j]), ctx, env, next)
    {
      var test := tests[j];
      var record := HealthRecord(env.uuid(next + |grown|), ctx, testDate, provider, Get(test, "Test_Name"), TestDetails(test));
      ghost var s := done + SessionSources(session, tests[..j]);
      assert SessionSources(session, tests[..j + 1]) == SessionSources(session, tests[..j]) + [Test(session, test)];
      assert done + SessionSources(session, tests[..j + 1]) == s + [Test(session, test)];
      BuildSnoc(s, Test(session, test), ctx, env, next);
      grown := grown + [record];
      j := j + 1;
    }
    assert tests[..j] == tests;
  }

  lemma LabSourcesUnfold(sessions: seq<map<string, Json>>)
    requires sessions != []
    ensures LabSources(sessions) ==
      match TestsOf(sessions[0])
      case Raised => Raised
      case Done(tests) => PrependSources(SessionSources(sessions[0], tests), LabSources(sessions[1..]))
  {
  }

  lemma PrependTwice(a: seq<Source>, b: seq<Source>, rest: Outcome<seq<Source>>)
    ensures PrependSources(a, PrependSources(b, rest)) == PrependSources(a + b, rest)
  {
    if rest.Done? {
      assert a + (b + rest.value) == a + b + rest.value;
    }
  }

  /** One session of the outer loop of `process_lab_results`, on the sources: the
      session's tests join the sources collected so far, or it raises. */
  lemma LabSourcesStep(sessions: seq<map<string, Json>>, i: nat, done: seq<Source>)
    requires i < |sessions| && LabSources(sessions) == PrependSources(done, LabSources(sessions[i..]))
    ensures TestsOf(sessions[i]).Raised? ==> LabSources(sessions) == Raised
    ensures TestsOf(sessions[i]).Done? ==>
      LabSources(sessions) == PrependSources(done + SessionSources(sessions[i], TestsOf(sessions[i]).value), LabSources(sessions[i + 1..]))
  {
    var suffix := sessions[i..];
    assert suffix[0] == sessions[i] && suffix[1..] == sessions[i + 1..];
    LabSourcesUnfold(suffix);
    if TestsOf(sessions[i]).Done? {
      PrependTwice(done, SessionSources(sessions[i], TestsOf(sessions[i]).value), LabSources(sessions[i + 1..]));
    }
  }

  /** The outer loop of `process_lab_results`: the sessions in turn; a session whose
      `Tests` cannot be iterated ends the mapper with an exception. */
  method AppendSessions(sessions: seq<map<string, Json>>, ctx: Context, env: Oracles, next: nat)
    returns (r: Outcome<seq<HealthRecord>>)
    ensures r == BuildOutcome(LabSources(sessions), ctx, env, next)
  {
    var records: seq<HealthRecord> := [];
    ghost var done: seq<Source> := [];
    var i := 0;
    assert sessions[0..] == sessions;
    assert PrependSources([], LabSources(sessions)) == LabSources(sessions) by {
      if LabSources(sessions).Done? {
        assert [] + LabSources(sessions).value == LabSources(sessions).value;
      }
    }
    while i < |sessions|
      invariant 0 <= i <= |sessions|
      invariant LabSources(sessions) == PrependSources(done, LabSources(sessions[i..]))
      invariant records == Build(done, ctx, env, next)
    {
      var session := sessions[i];
      var testsOf := TestsOf(session);
      LabSourcesStep(sessions, i, done);
      if testsOf.Raised? {
        return Raised;
      }
      var tests := testsOf.value;
      records := AppendTests(session, tests, ctx, env, next, records, done);
      done := done + SessionSources(session, tests);
      i := i + 1;
    }
    assert sessions[i..] == [];
    assert done + [] == done;
    return Done(records);
  }

  /** `process_lab_results`: for each session, for each test, append a record. */
  method ProcessLabResults(data: Json, ctx: Context, env: Oracles, next: nat) returns (r: Outcome<seq<HealthRecord>>)
    ensures r == SectionRecords(data, Lab, ctx, env, next)
  {
    var present := Contains(data, SectionKey(Lab));
    if present.Raised? {
      return Raised;
    }
    if !present.value {
      return Done([]);
    }
    var section := Index(data, SectionKey(Lab));
    if section.Raised? {
      return Raised;
    }
    var sessions := IterObjects(section.value);
    if sessions.Raised? {
      return Raised;
    }
    r := AppendSessions(sessions.value, ctx, env, next);
  }

  /** The loop of one non-lab mapper: one record appended per entry. */
  method AppendEntries(c: Category, entries: seq<map<string, Json>>, ctx: Context, env: Oracles, next: nat)
    returns (records: seq<HealthRecord>)
    ensures records == Build(EntrySources(c, entries), ctx, env, next)
  {
    records := [];
    var i := 0;
    assert entries[..0] == [];
    while i < |entries|
      invariant 0 <= i <= |entries|
      invariant records == Build(EntrySources(c, entries[..i]), ctx, env, next)
    {
      var entry := entries[i];
      var record := HealthRecord(env.uuid(next + i), ctx, ParseDate(Get(entry, DateKey(c)), env.fromIso),
                                 GetOr(entry, "Provider", UnknownProvider), Get(entry, ItemKey(c)), EntryDetails(c, entry));
      assert EntrySources(c, entries[..i + 1]) == EntrySources(c, entries[..i]) + [Entry(c, entry)];
      BuildSnoc(EntrySources(c, entries[..i]), Entry(c, entry), ctx, env, next);
      records := records + [record];
      i := i + 1;
    }
    assert entries[..i] == entries;
  }

  /** `process_medications`, `process_vitals` and each block of `process_clinical_data`. */
  method ProcessSection(data: Json, c: Category, ctx: Context, env: Oracles, next: nat) returns (r: Outcome<seq<HealthRecord>>)
    requires c != Lab
    ensures r == SectionRecords(data, c, ctx, env, next)
  {
    var present := Contains(data, SectionKey(c));
    if present.Raised? {
      return Raised;
    }
    if !present.value {
      return Done([]);
    }
    var section := Index(data, SectionKey(c));
    if section.Raised? {
      return Raised;
    }
    var entries := IterObjects(section.value);
    if entries.Raised? {
      return Raised;
    }
    var records := AppendEntries(c, entries.value, ctx, env, next);
    return Done(records);
  }

  /** `process_clinical_data`: the four section blocks in turn, appended to one list. */
  method ProcessClinicalData(data: Json, ctx: Context, env: Oracles, next: nat) returns (r: Outcome<seq<HealthRecord>>)
    ensures r == ClinicalData(data, ctx, env, next)
  {
    var conditions := ProcessSection(data, Condition, ctx, env, next);
    if conditions.Raised? {
      return Raised;
    }
    var a := conditions.value;
    var procedures := ProcessSection(data, Procedure, ctx, env, NextId(next, a));
    if procedures.Raised? {
      return Raised;
    }
    var b := procedures.value;
    var allergies := ProcessSection(data, Allergy, ctx, env, NextId(next, a + b));
    if allergies.Raised? {
      return Raised;
    }
    var c := allergies.value;
    var immunizations := ProcessSection(data, Immunization, ctx, env, NextId(next, a + b + c));
    if immunizations.Raised? {
      return Raised;
    }
    return Done(a + b + c + immunizations.value);
  }

  /** The body of the import loop for one parsed file: the four mappers in turn; an
      exception in any of them abandons the file. */
  method ProcessFile(data: Json, ctx: Context, env: Oracles, next: nat) returns (r: Outcome<seq<HealthRecord>>)
    ensures r == FileRecords(data, ctx, env, next)
  {
    var labs :- ProcessLabResults(data, ctx, env, next);
    var meds :- ProcessSection(data, Medication, ctx, env, NextId(next, labs));
    var vitals :- ProcessSection(data, Vital, ctx, env, NextId(next, labs + meds));
    var clinical :- ProcessClinicalData(data, ctx, env, NextId(next, labs + meds + vitals));
    return Done(labs + meds + vitals + clinical);
  }
}
