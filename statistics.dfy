/** `calculate_import_statistics` (tools/health-mcp/src/health_mcp.py:395-474): the
    category buckets, the per-year timeline, the data-quality counts and the key-insight
    lines of one import. */
module Statistics {
  import opened Wrappers
  import opened Text
  import opened PyJson
  import opened Dates
  import opened Records
  import opened OrderedDict

  // ----- category buckets -----

  /** The bucket a `record_category` string is counted under: three named kinds
      have their own bucket, every other string counts as clinical data. */
  function BucketName(category: string): string {
    if category == "LAB" then "Lab Results"
    else if category == "MEDICATION" then "Medications"
    else if category == "VITAL" then "Vitals"
    else "Clinical Data"
  }

  const BucketNames: seq<string> := ["Lab Results", "Medications", "Vitals", "Clinical Data"]

  function RecordBucket(r: HealthRecord): string {
    BucketName(CategoryName(CategoryOf(r)))
  }

  /** The bucket of every record, in record order. */
  function Buckets(rs: seq<HealthRecord>): (b: seq<string>)
    ensures |b| == |rs|
  {
    if rs == [] then [] else Buckets(rs[..|rs| - 1]) + [RecordBucket(rs[|rs| - 1])]
  }

  /** The year of every dated record, in record order. */
  function DatedYears(rs: seq<HealthRecord>): (ys: seq<int>)
    ensures |ys| <= |rs|
  {
    if rs == [] then []
    else
      var r := rs[|rs| - 1];
      DatedYears(rs[..|rs| - 1]) + (if r.recordDate.Some? then [r.recordDate.value.year] else [])
  }

  // ----- data quality -----

  predicate IsLab(r: HealthRecord) {
    CategoryName(CategoryOf(r)) == "LAB"
  }

  predicate IsMedication(r: HealthRecord) {
    CategoryName(CategoryOf(r)) == "MEDICATION"
  }

  /** `r.get("reference_range")`: only a LAB record sets it. */
  function ReferenceRange(r: HealthRecord): Json {
    if r.details.LabDetails? then r.details.referenceRange else JNull
  }

  /** `r.get("medication_status")`: only a MEDICATION record sets it. */
  function MedicationStatus(r: HealthRecord): Json {
    if r.details.MedicationDetails? then r.details.status else JNull
  }

  predicate IsDated(r: HealthRecord) {
    r.recordDate.Some?
  }

  predicate HasRange(r: HealthRecord) {
    Truthy(ReferenceRange(r))
  }

  predicate HasStatus(r: HealthRecord) {
    Truthy(MedicationStatus(r))
  }

  /** `[r for r in rs if p(r)]`. */
  function Filter(rs: seq<HealthRecord>, p: HealthRecord -> bool): (kept: seq<HealthRecord>)
    ensures |kept| <= |rs|
    ensures forall r :: r in kept <==> r in rs && p(r)
  {
    if rs == [] then []
    else Filter(rs[..|rs| - 1], p) + (if p(rs[|rs| - 1]) then [rs[|rs| - 1]] else [])
  }

  /** The comprehension keeps the records' order: filtering a concatenation filters
      each part, and a single record is kept exactly when `p` holds of it. */
  lemma {:induction false} FilterAppend(a: seq<HealthRecord>, b: seq<HealthRecord>, p: HealthRecord -> bool)
    ensures Filter(a + b, p) == Filter(a, p) + Filter(b, p)
    decreases |b|
  {
    if b == [] {
      assert a + b == a;
    } else {
      var init, last := b[..|b| - 1], b[|b| - 1];
      var tail := if p(last) then [last] else [];
      assert (a + b)[..|a + b| - 1] == a + init;
      assert (a + b)[|a + b| - 1] == last;
      assert Filter(a + b, p) == Filter(a + init, p) + tail;
      assert Filter(b, p) == Filter(init, p) + tail;
      FilterAppend(a, init, p);
    }
  }

  lemma FilterSingle(x: HealthRecord, p: HealthRecord -> bool)
    ensures Filter([x], p) == if p(x) then [x] else []
  {
    assert [x][..0] == [];
  }

  /** The comprehension keeps each record as often as it occurs when `p` holds of it,
      and drops every occurrence otherwise. */
  lemma {:induction false} FilterMultiplicity(rs: seq<HealthRecord>, p: HealthRecord -> bool, r: HealthRecord)
    ensures multiset(Filter(rs, p))[r] == if p(r) then multiset(rs)[r] else 0
  {
    if rs != [] {
      var n := |rs|;
      assert rs == rs[..n - 1] + [rs[n - 1]];
      FilterMultiplicity(rs[..n - 1], p, r);
    }
  }

  /** A data-quality entry: `count` of `total` records; the percentage is derived. */
  datatype Quality = Quality(count: nat, total: nat)

  /** The unrounded percentage: `count / total * 100`, or 0 for an empty total. */
  function Percentage(q: Quality): real {
    if q.total == 0 then 0.0 else (q.count as real) * 100.0 / (q.total as real)
  }

  // ----- key insights -----

  /** `max(dates)`. */
  function MaxDate(ds: seq<Date>): (m: Date)
    requires ds != []
    ensures m in ds && forall d :: d in ds ==> NotAfter(d, m)
  {
    if |ds| == 1 then ds[0]
    else
      var rest := MaxDate(ds[1..]);
      assert forall d :: d in ds[1..] ==> d in ds;
      assert forall d :: d in ds ==> d == ds[0] || d in ds[1..];
      if NotAfter(rest, ds[0]) then ds[0] else rest
  }

  /** The dates of the dated records among `rs`. */
  function DatesOf(rs: seq<HealthRecord>): (ds: seq<Date>)
    ensures |ds| <= |rs|
    ensures forall r :: r in rs && r.recordDate.Some? ==> r.recordDate.value in ds
  {
    if rs == [] then []
    else
      var r := rs[|rs| - 1];
      DatesOf(rs[..|rs| - 1]) + (if r.recordDate.Some? then [r.recordDate.value] else [])
  }

  /** The cutoff of the recent-medications estimate. */
  const RecentCutoff: Date := Date(2024, 1, 1)

  predicate IsRecent(r: HealthRecord) {
    r.recordDate.Some? && NotAfter(RecentCutoff, r.recordDate.value)
  }

  /** The position among the first `n` entries, other than `skip`, with the largest
      count; ties go to the earliest; -1 when there is none. */
  function Best(d: Dict<int, nat>, n: nat, skip: int): (b: int)
    requires n <= |d|
    ensures -1 <= b < n && (0 <= b ==> b != skip)
    ensures b < 0 <==> n == 0 || (n == 1 && skip == 0)
    ensures 0 <= b ==> forall j :: 0 <= j < n && j != skip ==> d[j].1 <= d[b].1
    ensures 0 <= b ==> forall j :: 0 <= j < b && j != skip ==> d[j].1 < d[b].1
  {
    if n == 0 then -1
    else
      var b := Best(d, n - 1, skip);
      if n - 1 == skip then b
      else if b < 0 || d[n - 1].1 > d[b].1 then n - 1
      else b
  }

  /** `sorted(timeline.items(), key=count, reverse=True)[:2]`: the sort is stable, so
      this is the first entry with the largest count, then the first entry of the rest
      with the largest count. */
  function TopIndices(d: Dict<int, nat>): (ix: seq<int>)
    ensures forall t :: t in ix ==> 0 <= t < |d|
  {
    var first := Best(d, |d|, -1);
    if first < 0 then []
    else
      var second := Best(d, |d|, first);
      [first] + (if second < 0 then [] else [second])
  }

  /** The years of `TopIndices`. */
  function TopYears(d: Dict<int, nat>): seq<int> {
    var ix := TopIndices(d);
    seq(|ix|, i requires 0 <= i < |ix| => d[ix[i]].0)
  }

  function YearStrings(ys: seq<int>): (r: seq<string>)
    ensures |r| == |ys|
  {
    seq(|ys|, i requires 0 <= i < |ys| => IntToString(ys[i]))
  }

  /** `set(r.get("item_description") for r in labs if r.get("item_description"))`;
      a truthy list or dict description is unhashable and raises. */
  function UniqueTests(labs: seq<HealthRecord>): Outcome<set<Json>> {
    if labs == [] then Done({})
    else
      var front :- UniqueTests(labs[..|labs| - 1]);
      var item := labs[|labs| - 1].itemDescription;
      if !Truthy(item) then Done(front)
      else
        var key :- HashKey(item);
        Done(front + {key})
  }

  function RecentMedicationsLine(n: nat): string {
    "Recent medications: " + NatToString(n)
  }

  function UniqueTestsLine(n: nat): string {
    "Total unique lab tests tracked: " + NatToString(n)
  }

  function TopYearsLine(ys: seq<int>): string {
    "Years with most complete data: " + Join(YearStrings(ys), ", ")
  }

  function MostRecentLabLine(d: Date): string {
    "Most recent lab test: " + IsoFormat(d)
  }

  // ----- the result -----

  datatype ImportStatistics = ImportStatistics(
    totalRecords: nat,
    recordsByCategory: Dict<string, nat>,
    timelineCoverage: Dict<int, nat>,
    labResultsWithRanges: Quality,
    medicationsWithStatus: Quality,
    recordsWithDates: Quality,
    keyInsights: seq<string>,
    sourceFiles: seq<string>)

  function KeyInsights(records: seq<HealthRecord>, timeline: Dict<int, nat>, uniqueTests: nat): seq<string> {
    var labDates := DatesOf(Filter(records, IsLab));
    var recent := Filter(Filter(records, IsMedication), IsRecent);
    (if labDates != [] then [MostRecentLabLine(MaxDate(labDates))] else [])
    + [RecentMedicationsLine(|recent|)]
    + (if timeline != [] then [TopYearsLine(TopYears(timeline))] else [])
    + [UniqueTestsLine(uniqueTests)]
  }

  /** The statistics of one import: `Raised` exactly when a lab description is unhashable. */
  function StatisticsOf(records: seq<HealthRecord>, sourceFiles: seq<string>): Outcome<ImportStatistics> {
    var labs := Filter(records, IsLab);
    var meds := Filter(records, IsMedication);
    var unique :- UniqueTests(labs);
    var timeline := Tally(DatedYears(records));
    Done(ImportStatistics(
      |records|,
      Tally(Buckets(records)),
      timeline,
      Quality(|Filter(labs, HasRange)|, |labs|),
      Quality(|Filter(meds, HasStatus)|, |meds|),
      Quality(|Filter(records, IsDated)|, |records|),
      KeyInsights(records, timeline, |unique|),
      sourceFiles))
  }

  // ----- the computation, with its two counting loops -----

  lemma BucketsStep(rs: seq<HealthRecord>, k: nat)
    requires k < |rs|
    ensures Tally(Buckets(rs[..k + 1])) == Increment(Tally(Buckets(rs[..k])), RecordBucket(rs[k]))
  {
    assert rs[..k + 1][..k] == rs[..k];
    TallySnoc(Buckets(rs[..k]), RecordBucket(rs[k]));
  }

  lemma DatedYearsStep(rs: seq<HealthRecord>, k: nat)
    requires k < |rs|
    ensures rs[k].recordDate.Some? ==>
      Tally(DatedYears(rs[..k + 1])) == Increment(Tally(DatedYears(rs[..k])), rs[k].recordDate.value.year)
    ensures rs[k].recordDate.None? ==> DatedYears(rs[..k + 1]) == DatedYears(rs[..k])
  {
    assert rs[..k + 1][..k] == rs[..k];
    if rs[k].recordDate.Some? {
      TallySnoc(DatedYears(rs[..k]), rs[k].recordDate.value.year);
    }
  }

  /** The `records_by_category` loop of `calculate_import_statistics`. */
  method CountBuckets(records: seq<HealthRecord>) returns (byCategory: Dict<string, nat>)
    ensures byCategory == Tally(Buckets(records))
  {
    byCategory := [];
    for k := 0 to |records|
      invariant byCategory == Tally(Buckets(records[..k]))
    {
      var category := CategoryName(CategoryOf(records[k]));
      BucketsStep(records, k);
      assert RecordBucket(records[k]) == BucketName(category);
      if category == "LAB" {
        byCategory := Increment(byCategory, "Lab Results");
      } else if category == "MEDICATION" {
        byCategory := Increment(byCategory, "Medications");
      } else if category == "VITAL" {
        byCategory := Increment(byCategory, "Vitals");
      } else {
        byCategory := Increment(byCategory, "Clinical Data");
      }
    }
    assert records[..|records|] == records;
  }

  /** The `timeline_coverage` loop of `calculate_import_statistics`. */
  method CountYears(records: seq<HealthRecord>) returns (timeline: Dict<int, nat>)
    ensures timeline == Tally(DatedYears(records))
  {
    timeline := [];
    for k := 0 to |records|
      invariant timeline == Tally(DatedYears(records[..k]))
    {
      DatedYearsStep(records, k);
      var recordDate := records[k].recordDate;
      if recordDate.Some? {
        timeline := Increment(timeline, recordDate.value.year);
      }
    }
    assert records[..|records|] == records;
  }

  /** `calculate_import_statistics`. */
  method CalculateImportStatistics(records: seq<HealthRecord>, sourceFiles: seq<string>) returns (r: Outcome<ImportStatistics>)
    ensures r == StatisticsOf(records, sourceFiles)
  {
    var byCategory := CountBuckets(records);
    var timeline := CountYears(records);
    var labs := Filter(records, IsLab);
    var meds := Filter(records, IsMedication);
    var labWithRanges := |Filter(labs, HasRange)|;
    var medWithStatus := |Filter(meds, HasStatus)|;
    var withDates := |Filter(records, IsDated)|;
    var unique := UniqueTests(labs);
    if unique.Raised? {
      return Raised;
    }
    var insights := KeyInsights(records, timeline, |unique.value|);
    return Done(ImportStatistics(
      |records|, byCategory, timeline,
      Quality(labWithRanges, |labs|), Quality(medWithStatus, |meds|), Quality(withDates, |records|),
      insights, sourceFiles));
  }

  // ----- properties -----

  /** Every record lands in exactly one of the four buckets, each bucket counts its
      records, and the bucket counts add up to `total_records`. */
  lemma BucketsPartitionRecords(records: seq<HealthRecord>, sourceFiles: seq<string>)
    requires StatisticsOf(records, sourceFiles).Done?
    ensures var s := StatisticsOf(records, sourceFiles).value;
      && SumValues(s.recordsByCategory) == s.totalRecords == |records|
      && (forall k :: k in Keys(s.recordsByCategory) ==> k in BucketNames)
  {
    StatisticsFields(records, sourceFiles);
    BucketCounts(records);
  }

  /** Where each field of the statistics comes from. */
  lemma StatisticsFields(records: seq<HealthRecord>, sourceFiles: seq<string>)
    requires StatisticsOf(records, sourceFiles).Done?
    ensures var s := StatisticsOf(records, sourceFiles).value;
      && s.totalRecords == |records| && s.sourceFiles == sourceFiles
      && s.recordsByCategory == Tally(Buckets(records))
      && s.timelineCoverage == Tally(DatedYears(records))
      && s.recordsWithDates == Quality(|Filter(records, IsDated)|, |records|)
      && s.keyInsights == KeyInsights(records, s.timelineCoverage, |UniqueTests(Filter(records, IsLab)).value|)
  {
  }

  /** Each bucket counts the records whose category maps to it. */
  lemma BucketCounts(records: seq<HealthRecord>)
    ensures var byCategory := Tally(Buckets(records));
      && SumValues(byCategory) == |records|
      && (forall k :: k in Keys(byCategory) ==> k in BucketNames)
      && (forall b :: Lookup(byCategory, b) == if Count(Buckets(records), b) == 0 then None else Some(Count(Buckets(records), b)))
  {
    var bs := Buckets(records);
    TallySum(bs);
    TallyCounts(bs);
    TallyKeys(bs);
    BucketsNamed(records);
  }

  lemma {:induction false} BucketsNamed(rs: seq<HealthRecord>)
    ensures forall b :: b in Buckets(rs) ==> b in BucketNames
  {
    if rs != [] {
      BucketsNamed(rs[..|rs| - 1]);
    }
  }

  /** The three named kinds have buckets of their own; the four clinical kinds share one. */
  lemma BucketOfKind(r: HealthRecord)
    ensures RecordBucket(r) == match CategoryOf(r)
      case Lab => "Lab Results"
      case Medication => "Medications"
      case Vital => "Vitals"
      case _ => "Clinical Data"
  {
  }

  lemma {:induction false} DatedYearsCount(rs: seq<HealthRecord>)
    ensures |DatedYears(rs)| == |Filter(rs, IsDated)|
  {
    if rs != [] {
      DatedYearsCount(rs[..|rs| - 1]);
    }
  }

  /** The timeline counts add up to the number of dated records. */
  lemma TimelineCountsDatedRecords(records: seq<HealthRecord>, sourceFiles: seq<string>)
    requires StatisticsOf(records, sourceFiles).Done?
    ensures var s := StatisticsOf(records, sourceFiles).value;
      SumValues(s.timelineCoverage) == s.recordsWithDates.count
  {
    TallySum(DatedYears(records));
    DatedYearsCount(records);
  }

  /** Each data-quality count is at most its total, and an empty total gives 0%. */
  lemma QualityBounded(records: seq<HealthRecord>, sourceFiles: seq<string>)
    requires StatisticsOf(records, sourceFiles).Done?
    ensures var s := StatisticsOf(records, sourceFiles).value;
      && s.labResultsWithRanges.count <= s.labResultsWithRanges.total
      && s.medicationsWithStatus.count <= s.medicationsWithStatus.total
      && s.recordsWithDates.count <= s.recordsWithDates.total == |records|
      && (forall q :: q in [s.labResultsWithRanges, s.medicationsWithStatus, s.recordsWithDates] && q.total == 0 ==> Percentage(q) == 0.0)
  {
  }

  /** The percentage lies between 0 and 100 whenever the count is within its total. */
  lemma PercentageWithinRange(q: Quality)
    requires q.count <= q.total
    ensures 0.0 <= Percentage(q) <= 100.0
    ensures q.total > 0 ==> (Percentage(q) == 100.0 <==> q.count == q.total)
  {
    if q.total > 0 {
      var c, t := q.count as real, q.total as real;
      assert c * 100.0 <= t * 100.0;
    }
  }

  /** The insights always hold the recent-medications and unique-tests lines, the
      unique-tests line last, and one more line for each of a dated lab record and a
      non-empty timeline. */
  lemma InsightsFixedLines(records: seq<HealthRecord>, timeline: Dict<int, nat>, uniqueTests: nat)
    ensures var lines := KeyInsights(records, timeline, uniqueTests);
      && |lines| == 2 + (if DatesOf(Filter(records, IsLab)) != [] then 1 else 0) + (if timeline != [] then 1 else 0)
      && RecentMedicationsLine(|Filter(Filter(records, IsMedication), IsRecent)|) in lines
      && lines[|lines| - 1] == UniqueTestsLine(uniqueTests)
  {
  }

  /** The most-recent-lab line comes first when there is one, the recent-medications
      line otherwise. */
  lemma InsightsFirstLine(records: seq<HealthRecord>, timeline: Dict<int, nat>, uniqueTests: nat)
    ensures var lines := KeyInsights(records, timeline, uniqueTests);
      && (DatesOf(Filter(records, IsLab)) != [] ==>
            lines[0] == MostRecentLabLine(MaxDate(DatesOf(Filter(records, IsLab)))))
      && (DatesOf(Filter(records, IsLab)) == [] ==>
            lines[0] == RecentMedicationsLine(|Filter(Filter(records, IsMedication), IsRecent)|))
  {
  }

  /** The years line comes just before the unique-tests line when the timeline has a year. */
  lemma InsightsYearsLine(records: seq<HealthRecord>, timeline: Dict<int, nat>, uniqueTests: nat)
    requires timeline != []
    ensures var lines := KeyInsights(records, timeline, uniqueTests);
      |lines| >= 3 && lines[|lines| - 2] == TopYearsLine(TopYears(timeline))
  {
  }

  /** The most recent lab date is a lab record's date and no lab record is later. */
  lemma MostRecentLab(records: seq<HealthRecord>)
    requires DatesOf(Filter(records, IsLab)) != []
    ensures var m := MaxDate(DatesOf(Filter(records, IsLab)));
      forall r :: r in records && IsLab(r) && r.recordDate.Some? ==> NotAfter(r.recordDate.value, m)
  {
  }

  /** Two years are named once the timeline has two; no year left out has a larger
      count than a named one, nor an equal count at an earlier position; the first named
      year has the largest count. */
  lemma TopYearsAreMostFrequent(d: Dict<int, nat>)
    ensures |TopIndices(d)| == if |d| < 2 then |d| else 2
    ensures forall i, t :: 0 <= i < |d| && i !in TopIndices(d) && t in TopIndices(d) ==> d[i].1 <= d[t].1
    ensures forall i, t :: 0 <= i < t && i !in TopIndices(d) && t in TopIndices(d) ==> d[i].1 < d[t].1
    ensures |TopIndices(d)| == 2 ==> d[TopIndices(d)[1]].1 <= d[TopIndices(d)[0]].1
    ensures |TopYears(d)| == |TopIndices(d)|
  {
  }

  /** Statistics fail exactly when a lab record carries a truthy list or dict description. */
  lemma {:induction false} UniqueTestsRaised(labs: seq<HealthRecord>)
    ensures UniqueTests(labs).Raised? <==>
      exists r :: r in labs && Truthy(r.itemDescription) && (r.itemDescription.JArr? || r.itemDescription.JObj?)
  {
    if labs != [] {
      var front, last := labs[..|labs| - 1], labs[|labs| - 1];
      UniqueTestsRaised(front);
      assert labs == front + [last];
      forall r | r in front ensures r in labs { }
    }
  }

  /** A hashable description becomes one set element; the set has at most one element
      per lab record. */
  lemma {:induction false} UniqueTestsBounded(labs: seq<HealthRecord>)
    requires UniqueTests(labs).Done?
    ensures |UniqueTests(labs).value| <= |labs|
  {
    if labs != [] {
      UniqueTestsBounded(labs[..|labs| - 1]);
    }
  }

  lemma StatisticsRaised(records: seq<HealthRecord>, sourceFiles: seq<string>)
    ensures StatisticsOf(records, sourceFiles).Raised? <==>
      exists r :: r in records && IsLab(r) && Truthy(r.itemDescription) && (r.itemDescription.JArr? || r.itemDescription.JObj?)
  {
    UniqueTestsRaised(Filter(records, IsLab));
  }
}
