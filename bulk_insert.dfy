/** The rows `bulk_insert_health_records` hands to `executemany`
    (tools/health-mcp/src/health_mcp.py:335-398): one 23-value tuple per record dict,
    each value being `record.get(column)`. */
module BulkInsert {
  import opened Wrappers
  import opened PyJson
  import opened Dates
  import opened Records

  /** The HEALTH_RECORDS columns of the INSERT statement, in placeholder order. */
  const InsertColumns: seq<string> := [
    "RECORD_ID", "PATIENT_ID", "IMPORT_ID", "RECORD_CATEGORY", "RECORD_DATE", "PROVIDER",
    "ITEM_DESCRIPTION", "VALUE_TEXT", "VALUE_NUMERIC", "MEASUREMENT_DIMENSION",
    "REFERENCE_RANGE", "FLAG", "TEST_CATEGORY", "DOSAGE", "FORM", "FOR_CONDITION",
    "FREQUENCY", "MEDICATION_STATUS", "VITAL_CATEGORY", "CONDITION_STATUS",
    "VACCINE_CATEGORY", "PROCEDURE_CATEGORY", "ALLERGY_CATEGORY"]

  /** One bound parameter: a JSON value taken from the record dict (`None` is `JNull`),
      or the `date` object `parse_date` produced. */
  datatype Cell = Val(json: Json) | Day(date: Date)

  const NullCell: Cell := Val(JNull)

  function DateCell(d: Option<Date>): Cell {
    match d
    case Some(day) => Day(day)
    case None => NullCell
  }

  /** `record.get(column)` of the kind-specific columns VALUE_TEXT .. ALLERGY_CATEGORY
      (positions 7 to 22); a key the mapper did not set reads as `None`. */
  function DetailCells(d: Details): (cells: seq<Cell>)
    ensures |cells| == 16
  {
    var n := NullCell;
    match d
    case LabDetails(valueText, unit, referenceRange, flag, testCategory) =>
      [Val(valueText), Val(ValueNumeric(d)), Val(unit), Val(referenceRange), Val(flag), Val(testCategory),
       n, n, n, n, n, n, n, n, n, n]
    case MedicationDetails(dosage, form, forCondition, frequency, status) =>
      [n, n, n, n, n, n, Val(dosage), Val(form), Val(forCondition), Val(frequency), Val(status),
       n, n, n, n, n]
    case VitalDetails(value, unit, vitalCategory) =>
      [n, Val(ValueNumeric(d)), Val(unit), n, n, n, n, n, n, n, n, Val(vitalCategory), n, n, n, n]
    case ConditionDetails(conditionStatus) =>
      [n, n, n, n, n, n, n, n, n, n, n, n, Val(conditionStatus), n, n, n]
    case ProcedureDetails(procedureCategory) =>
      [n, n, n, n, n, n, n, n, n, n, n, n, n, n, Val(procedureCategory), n]
    case AllergyDetails =>
      [n, n, n, n, n, n, n, n, n, n, n, n, n, n, n, Val(JStr("ALLERGY"))]
    case ImmunizationDetails(vaccineCategory) =>
      [n, n, n, n, n, n, n, n, n, n, n, n, n, Val(vaccineCategory), n, n]
  }

  /** The tuple of one record dict, one value per column of `InsertColumns`. */
  function InsertRow(r: HealthRecord): (row: seq<Cell>)
    ensures |row| == |InsertColumns|
  {
    [Val(JStr(r.recordId)), Val(JStr(r.ctx.patientId)), Val(JStr(r.ctx.importId)),
     Val(JStr(CategoryName(CategoryOf(r)))), DateCell(r.recordDate), Val(r.provider), Val(r.itemDescription)]
    + DetailCells(r.details)
  }

  /** Whether position `i` among 7 .. 22 is one a record of kind `c` sets. */
  predicate KindColumn(c: Category, i: nat) {
    match c
    case Lab => 7 <= i <= 12
    case Medication => 13 <= i <= 17
    case Vital => i == 8 || i == 9 || i == 18
    case Condition => i == 19
    case Procedure => i == 21
    case Allergy => i == 22
    case Immunization => i == 20
  }

  // ----- reading a row back -----

  function CategoryFromName(s: string): Option<Category> {
    if s == "LAB" then Some(Lab)
    else if s == "MEDICATION" then Some(Medication)
    else if s == "VITAL" then Some(Vital)
    else if s == "CONDITION" then Some(Condition)
    else if s == "PROCEDURE" then Some(Procedure)
    else if s == "ALLERGY" then Some(Allergy)
    else if s == "IMMUNIZATION" then Some(Immunization)
    else None
  }

  function TextOf(c: Cell): Option<string> {
    if c.Val? && c.json.JStr? then Some(c.json.s) else None
  }

  function JsonOf(c: Cell): Json {
    if c.Val? then c.json else JNull
  }

  function DateOf(c: Cell): Option<Date> {
    if c.Day? then Some(c.date) else None
  }

  /** The kind-specific columns of a stored row of kind `c`. */
  function ParseDetails(c: Category, row: seq<Cell>): Details
    requires |row| == |InsertColumns|
  {
    match c
    case Lab => LabDetails(JsonOf(row[7]), JsonOf(row[9]), JsonOf(row[10]), JsonOf(row[11]), JsonOf(row[12]))
    case Medication => MedicationDetails(JsonOf(row[13]), JsonOf(row[14]), JsonOf(row[15]), JsonOf(row[16]), JsonOf(row[17]))
    case Vital => VitalDetails(JsonOf(row[8]), JsonOf(row[9]), JsonOf(row[18]))
    case Condition => ConditionDetails(JsonOf(row[19]))
    case Procedure => ProcedureDetails(JsonOf(row[21]))
    case Allergy => AllergyDetails
    case Immunization => ImmunizationDetails(JsonOf(row[20]))
  }

  /** The record a stored row describes; SOURCE_FILE is not a column, so it is supplied. */
  function ParseRow(row: seq<Cell>, sourceFile: string): Option<HealthRecord> {
    if |row| != |InsertColumns| then None
    else
      var id, patientId, importId, name := TextOf(row[0]), TextOf(row[1]), TextOf(row[2]), TextOf(row[3]);
      if id.None? || patientId.None? || importId.None? || name.None? then None
      else
        match CategoryFromName(name.value)
        case Some(c) =>
          Some(HealthRecord(id.value, Context(patientId.value, importId.value, sourceFile), DateOf(row[4]),
                            JsonOf(row[5]), JsonOf(row[6]), ParseDetails(c, row)))
        case None => None
  }

  lemma CategoryNameRoundTrip(c: Category)
    ensures CategoryFromName(CategoryName(c)) == Some(c)
  {
  }

  lemma DetailsRoundTrip(d: Details, row: seq<Cell>)
    requires |row| == |InsertColumns| && row[7..] == DetailCells(d)
    ensures ParseDetails(Kind(d), row) == d
  {
    assert forall i :: 0 <= i < 16 ==> row[7 + i] == DetailCells(d)[i];
  }

  /** The inserted row of a record holds the whole record but its source file. */
  lemma InsertRowRoundTrip(r: HealthRecord)
    ensures ParseRow(InsertRow(r), r.ctx.sourceFile) == Some(r)
  {
    var row := InsertRow(r);
    CategoryNameRoundTrip(CategoryOf(r));
    assert row[7..] == DetailCells(r.details);
    DetailsRoundTrip(r.details, row);
  }

  lemma DetailCellsNull(d: Details, j: nat)
    requires j < 16 && !KindColumn(Kind(d), j + 7)
    ensures DetailCells(d)[j] == NullCell
  {
    match d
    case LabDetails(_, _, _, _, _) =>
    case MedicationDetails(_, _, _, _, _) =>
    case VitalDetails(_, _, _) =>
    case ConditionDetails(_) =>
    case ProcedureDetails(_) =>
    case AllergyDetails =>
    case ImmunizationDetails(_) =>
  }

  /** Every kind-specific column a record's kind does not set goes in as NULL. */
  lemma ForeignColumnsNull(r: HealthRecord, i: nat)
    requires 7 <= i < |InsertColumns| && !KindColumn(CategoryOf(r), i)
    ensures InsertRow(r)[i] == NullCell
  {
    assert InsertRow(r)[i] == DetailCells(r.details)[i - 7];
    DetailCellsNull(r.details, i - 7);
  }

  lemma AllergyCategoryColumn(src: Source, ctx: Context, env: Oracles, id: string)
    requires SourceKind(src) == Allergy
    ensures InsertRow(MakeRecord(src, ctx, env, id))[22] == Val(JStr("ALLERGY"))
  {
    var r := MakeRecord(src, ctx, env, id);
    assert r.details == EntryDetails(Allergy, src.entry) == AllergyDetails;
    assert InsertRow(r)[22] == DetailCells(r.details)[15];
  }

  lemma MedicationStatusColumn(src: Source, ctx: Context, env: Oracles, id: string)
    requires src.Entry? && src.section == Medication && "Status" !in src.entry
    ensures InsertRow(MakeRecord(src, ctx, env, id))[17] == Val(JStr("PRESCRIBED"))
  {
    var r := MakeRecord(src, ctx, env, id);
    assert r.details == EntryDetails(Medication, src.entry);
    assert r.details.MedicationDetails? && r.details.status == JStr("PRESCRIBED");
    assert InsertRow(r)[17] == DetailCells(r.details)[10];
  }

  /** An ALLERGY record's ALLERGY_CATEGORY is the constant "ALLERGY"; a MEDICATION
      record's MEDICATION_STATUS is the entry's `Status`, "PRESCRIBED" when absent. */
  lemma ConstantColumns(src: Source, ctx: Context, env: Oracles, id: string)
    ensures SourceKind(src) == Allergy ==> InsertRow(MakeRecord(src, ctx, env, id))[22] == Val(JStr("ALLERGY"))
    ensures src.Entry? && src.section == Medication && "Status" !in src.entry ==>
      InsertRow(MakeRecord(src, ctx, env, id))[17] == Val(JStr("PRESCRIBED"))
  {
    if SourceKind(src) == Allergy {
      AllergyCategoryColumn(src, ctx, env, id);
    }
    if src.Entry? && src.section == Medication && "Status" !in src.entry {
      MedicationStatusColumn(src, ctx, env, id);
    }
  }

  /** `bulk_insert_health_records`: nothing at all for an empty list; otherwise the one
      `executemany` batch of rows, in record order. */
  method BulkInsertHealthRecords(records: seq<HealthRecord>) returns (batch: Option<seq<seq<Cell>>>)
    ensures batch.None? <==> records == []
    ensures batch.Some? ==>
      |batch.value| == |records| && forall i :: 0 <= i < |records| ==> batch.value[i] == InsertRow(records[i])
    ensures batch.Some? ==>
      forall i :: 0 <= i < |records| ==> ParseRow(batch.value[i], records[i].ctx.sourceFile) == Some(records[i])
  {
    if records == [] {
      return None;
    }
    var data: seq<seq<Cell>> := [];
    for k := 0 to |records|
      invariant |data| == k
      invariant forall i :: 0 <= i < k ==> data[i] == InsertRow(records[i])
    {
      data := data + [InsertRow(records[k])];
    }
    forall i | 0 <= i < |records|
      ensures ParseRow(data[i], records[i].ctx.sourceFile) == Some(records[i])
    {
      InsertRowRoundTrip(records[i]);
    }
    return Some(data);
  }
}
