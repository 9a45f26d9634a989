# Health records MCP server — a Dafny model

This project models the core of the health-intelligence MCP server
(`tools/health-mcp/src/health_mcp.py`), together with the properties proved about it.

The server offers two tools:

- **The import tool.** It reads a patient's exported health-data JSON files from a directory and picks out the patient header. It splits each file's clinical sections into flat HEALTH_RECORDS rows, and bulk-inserts them in one import batch. It then reports statistics computed over the inserted rows.
- **The query tool.** It sends a natural-language question to the Cortex Analyst REST API, authenticated by a key-pair JWT. It takes the generated SQL out of the answer, runs it, converts every row into JSON-safe values, and adds a few health metrics.

The model takes the same shape as the source:

- Python values are an explicit `Json` datatype.
- An exception is the `Raised` case of an `Outcome`.
- The loops of the source are `method`s with invariants. Each is proved equal to a specification function, and the properties are stated as lemmas about those functions.
- Everything outside the program's own logic is an input:
  - the database;
  - the HTTP call;
  - the file system;
  - the clock;
  - `uuid4`;
  - `datetime.fromisoformat`;
  - RS256 signing.

Modules, one per concern of the source:

| module | models |
|---|---|
| `Wrappers` | `Option`, and `Outcome` (a value, or an exception raised) |
| `Text` | the `str` operations the source uses (`find`, `replace`, `upper`, `lower`, `strip`, `in`) |
| `PyJson` | JSON values with Python's truthiness, `in`, `[]`, `.get` and iteration over parsed JSON |
| `OrderedDict` | insertion-ordered `dict`s: `dict(zip(...))` and the `defaultdict(int)` counters |
| `Dates` | `parse_date` and `date.isoformat` |
| `Auth` | the configuration, the JWT claim set and the Cortex Analyst request |
| `Records` | `process_lab_results`, `process_medications`, `process_vitals`, `process_clinical_data` |
| `LabValues` | the `value_numeric` parse of a lab value |
| `BulkInsert` | the rows `bulk_insert_health_records` binds |
| `Statistics` | `calculate_import_statistics` |
| `ImportFlow` | the import tool: file discovery, the patient search, record collection, early exits |
| `Query` | `execute_query`, `calculate_health_metrics` and the query tool |

Some behaviours of the code that a reader might not expect, all followed by the model:

- The patient search stops at the first file whose header gives a truthy identity and a date of birth. The age is not needed.
- The stage path always names the `RAW_DATA` stage.
- A file that fails while being processed is skipped, even after its patient header was used.
- An account naming a `.global` region keeps its suffix: every dot becomes `-` and the whole is upper-cased, so `xy.global` becomes `XY-GLOBAL` (tools/health-mcp/src/health_mcp.py:666-670). Nothing is stripped.
- Files holding only metadata sections give no records, and the tool then fails with "No valid health records found in the provided files" (tools/health-mcp/src/health_mcp.py:601-605). It does not report a success with zero records (ImportFlow.Connected, `Failed(NoHealthRecords)`).
- The patient row is always a new one with a fresh `uuid4` (tools/health-mcp/src/health_mcp.py:119-140): an already known patient is not looked up, so the model draws `uuid(0)` on every import.

## Model

| member | source | states |
|---|---|---|
| Auth.CleanAccountIdentifier | tools/health-mcp/src/health_mcp.py:665-671 | the cleaned account identifier never contains a dot |
| Auth.CleanRegionalAccount | tools/health-mcp/src/health_mcp.py:665-671 | for a non-global `name.region` account, only the upper-cased organisation part before the first dot is kept |
| Auth.CleanGlobalAccount | tools/health-mcp/src/health_mcp.py:665-671 | a `.global` account keeps every character: each is upper-cased and each dot becomes `-` (`xy.global` gives `XY-GLOBAL`) |
| Auth.CleanAccountWithoutG | tools/health-mcp/src/health_mcp.py:665-671 | a `name.region` account with no 'g' in it, such as `abc123.us-east-1`, cannot name `.global` and is cut to its upper-cased name |
| Auth.CleanAccountWithoutDot | tools/health-mcp/src/health_mcp.py:665-671 | an account without a dot is only upper-cased |
| Auth.ClaimsStructure | tools/health-mcp/src/health_mcp.py:673-694 | `sub` is `ACCOUNT.USER` (cleaned account, upper-cased user) and a prefix of `iss`; the rest of `iss` is `.SHA256:` followed by the key fingerprint |
| Auth.ExpiryWindow | tools/health-mcp/src/health_mcp.py:686-694 | for any instant at or after the epoch, `exp - iat` is exactly 3540 seconds (59 minutes) |
| Auth.TokenWindow | tools/health-mcp/src/health_mcp.py:686-694 | for every instant, `exp - iat` is 3539 seconds when the clock is at a fractional second less than 3540 seconds before the epoch, and 3540 seconds otherwise |
| Auth.PreEpochWindow | tools/health-mcp/src/health_mcp.py:686-694 | at a fractional second within 3540 seconds before the epoch the window is 3539 seconds: `int()` rounds the negative issue time up and the positive expiry down |
| Auth.StagePathRoundTrip | tools/health-mcp/src/health_mcp.py:710-712 | the stage path `@DB.SCHEMA.RAW_DATA/file` can be parsed back into its database, schema and file name when neither of the first two contains a dot |
| Auth.DefaultStagePath | tools/health-mcp/src/health_mcp.py:38-45 | with no environment variables set, the request names the default semantic model file in HEALTH_INTELLIGENCE.HEALTH_RECORDS |
| Auth.BuildAnalystRequest | tools/health-mcp/src/health_mcp.py:644-720 | the request is built exactly when the key path, the key, the account and the user are all present; it carries the configured stage path, a bearer token signed over the claim set, the lower-cased account's Cortex Analyst URL, the question as the user's text, the `KEYPAIR_JWT` token type and a 60000 ms timeout |
| Dates.CalendarRules | tools/health-mcp/src/health_mcp.py:90-94 | every month has days 1 to 28; day 31 exists only in the seven long months, day 30 in every month but February, day 32 never; February 29 exists in 2000 and 2024 but not in 1900 or 2023 |
| Dates.ParseDate | tools/health-mcp/src/health_mcp.py:82-98 | a non-string value has no date, and the empty string has none either |
| Dates.IsoFormatRoundTrip | tools/health-mcp/src/health_mcp.py:82-98 | every valid date written as `YYYY-MM-DD` parses back to itself |
| Dates.UsFormatRoundTrip | tools/health-mcp/src/health_mcp.py:82-98 | every valid date written as `MM/DD/YYYY` parses back to itself |
| Dates.MixedSeparatorsGiveNoDate | tools/health-mcp/src/health_mcp.py:91-92 | a 10-character text holding both `-` and `/` never gives a date, because the `%Y-%m-%d` branch is taken and fails |
| Dates.YearFirstIsCanonical | tools/health-mcp/src/health_mcp.py:91-92 | a 10-character text with a dash and no space that parses is exactly the ISO form of its date |
| Dates.MonthFirstIsCanonical | tools/health-mcp/src/health_mcp.py:93-94 | a 10-character slashed text with no space that parses is exactly the `MM/DD/YYYY` form of its date |
| LabValues.LabNumeric | tools/health-mcp/src/health_mcp.py:202-207 | `value_numeric` is a number or absent, and a text value gives a number only if its stripped text is non-empty and made of digits, `.` and `-` |
| LabValues.LabNumericOfDigits | tools/health-mcp/src/health_mcp.py:202-207 | a text of decimal digits gives the number those digits denote |
| LabValues.LabNumericOfNatural | tools/health-mcp/src/health_mcp.py:202-207 | the decimal text of any natural number gives back that number |
| Records.EntryDetails | tools/health-mcp/src/health_mcp.py:213-331 | the kind-specific fields built for an entry of a section belong to that section's kind |
| Records.MakeRecord | tools/health-mcp/src/health_mcp.py:173-331 | a record takes the id it is given, the file's patient, import and source file, and the category of its section |
| Records.FileRecordsBuild | tools/health-mcp/src/health_mcp.py:585-593 | the records of a file are the lab, medication, vital and clinical records in that order, with ids drawn in one sequence |
| Records.ClinicalDataBuild | tools/health-mcp/src/health_mcp.py:265-333 | clinical data yields conditions, procedures, allergies and immunizations in that order, with ids drawn in one sequence |
| Records.FileRecordsInSectionOrder | tools/health-mcp/src/health_mcp.py:585-593 | every record of a file has the file's context and its uuid in draw order, and the records are ordered by category |
| Records.ClinicalDataInOrder | tools/health-mcp/src/health_mcp.py:265-333 | clinical data never yields lab, medication or vital records, and its records are ordered by category |
| Records.NoLabSectionNoLabs | tools/health-mcp/src/health_mcp.py:177-178 | a file without `Lab_Results` has no lab records |
| Records.OneLabSession | tools/health-mcp/src/health_mcp.py:173-211 | one session gives one LAB record per test, with the session date and provider ("Unknown Provider" when absent) and the test's name and value |
| Records.MedicationStatusDefault | tools/health-mcp/src/health_mcp.py:233 | a medication's status is its `Status` field, and "PRESCRIBED" when there is none |
| Records.FileRecordsReadOnlySections | tools/health-mcp/src/health_mcp.py:173-333 | only the seven clinical sections matter: two files that agree on them give the same records, whatever their header or other metadata |
| Records.NoSectionsNoRecords | tools/health-mcp/src/health_mcp.py:173-333 | a file with none of the seven sections gives no records and raises nothing |
| Records.AppendTests | tools/health-mcp/src/health_mcp.py:184-209 | the inner tests loop extends the list with the records of one session's tests |
| Records.AppendSessions | tools/health-mcp/src/health_mcp.py:180-209 | the sessions loop builds the records of every test of every session, or raises as the source does |
| Records.ProcessLabResults | tools/health-mcp/src/health_mcp.py:173-211 | `process_lab_results` returns the lab records of the file |
| Records.AppendEntries | tools/health-mcp/src/health_mcp.py:217-236 | the entries loop builds one record per entry of a section, in order |
| Records.ProcessSection | tools/health-mcp/src/health_mcp.py:213-263 | `process_medications` and `process_vitals` (and each clinical sub-section) return that section's records |
| Records.ProcessClinicalData | tools/health-mcp/src/health_mcp.py:265-333 | `process_clinical_data` returns the four clinical sub-sections' records |
| Records.ProcessFile | tools/health-mcp/src/health_mcp.py:585-593 | one file's four processing calls return the file's records |
| BulkInsert.InsertRowRoundTrip | tools/health-mcp/src/health_mcp.py:358-383 | the bound 23-value row of a record holds the whole record: it reads back to the record, given its source file |
| BulkInsert.ForeignColumnsNull | tools/health-mcp/src/health_mcp.py:358-383 | every kind-specific column that a record's kind does not set is bound as NULL |
| BulkInsert.ConstantColumns | tools/health-mcp/src/health_mcp.py:213-315 | an allergy's ALLERGY_CATEGORY is bound as "ALLERGY", and a medication without a status is bound as "PRESCRIBED" |
| BulkInsert.BulkInsertHealthRecords | tools/health-mcp/src/health_mcp.py:335-386 | nothing is executed for no records; otherwise one batch with one row per record, in order, each reading back to its record |
| OrderedDict.TallyCounts | tools/health-mcp/src/health_mcp.py:399-417 | a `defaultdict(int)` counter maps each key to the number of its occurrences and has no other keys |
| OrderedDict.TallySum | tools/health-mcp/src/health_mcp.py:399-417 | a counter's counts add up to the number of items counted |
| OrderedDict.FromPairsLookup | tools/health-mcp/src/health_mcp.py:768 | `dict(zip(...))` has distinct keys, and each key holds the value last paired with it |
| OrderedDict.FromPairsDistinct | tools/health-mcp/src/health_mcp.py:768 | with distinct keys, `dict` of the pairs keeps every pair in order |
| OrderedDict.ZipDict | tools/health-mcp/src/health_mcp.py:768 | `dict(zip(keys, values))` of distinct keys and at least as many values has exactly those keys, in order, each holding the value at its position |
| Statistics.Filter | tools/health-mcp/src/health_mcp.py:421-426 | a record is in the comprehension's result exactly when it is in the input and satisfies the condition, and the result is never longer than the input |
| Statistics.FilterAppend | tools/health-mcp/src/health_mcp.py:421-426 | the comprehension keeps the input's order: filtering a concatenation concatenates the filtered parts |
| Statistics.FilterMultiplicity | tools/health-mcp/src/health_mcp.py:421-426 | a record satisfying the condition is kept as many times as it occurs, and one that does not is dropped entirely |
| Statistics.MaxDate | tools/health-mcp/src/health_mcp.py:434 | the maximum of a non-empty list of dates is one of them and no date is later |
| Statistics.Best | tools/health-mcp/src/health_mcp.py:443 | the next year chosen has the highest count, and the first such year in insertion order wins a tie, as the stable sort does |
| Statistics.CountBuckets | tools/health-mcp/src/health_mcp.py:398-409 | the category loop yields the bucket counter of the records |
| Statistics.CountYears | tools/health-mcp/src/health_mcp.py:411-417 | the timeline loop yields the counter of the dated records' years |
| Statistics.CalculateImportStatistics | tools/health-mcp/src/health_mcp.py:395-474 | the statistics are the ones specified for the records and source files, including the raising case |
| Statistics.BucketsPartitionRecords | tools/health-mcp/src/health_mcp.py:398-409 | the category counts add up to the total, and every bucket is one of the four names |
| Statistics.BucketCounts | tools/health-mcp/src/health_mcp.py:398-409 | each bucket holds the number of records falling in it, and an empty bucket is absent |
| Statistics.BucketOfKind | tools/health-mcp/src/health_mcp.py:401-409 | LAB, MEDICATION and VITAL records get their own buckets; every other category counts as "Clinical Data" |
| Statistics.DatedYearsCount | tools/health-mcp/src/health_mcp.py:411-417 | one year is counted for each and only each dated record |
| Statistics.TimelineCountsDatedRecords | tools/health-mcp/src/health_mcp.py:411-426 | the timeline's counts add up to the number of records with dates |
| Statistics.QualityBounded | tools/health-mcp/src/health_mcp.py:420-470 | each quality count is at most its total, and an empty total reports 0 % |
| Statistics.PercentageWithinRange | tools/health-mcp/src/health_mcp.py:459-469 | a percentage lies between 0 and 100, and reaches 100 exactly when every item qualifies |
| Statistics.InsightsFixedLines | tools/health-mcp/src/health_mcp.py:429-449 | the insights always have the recent-medications line and end with the unique-tests line; there is one line more each for lab dates and for a timeline |
| Statistics.InsightsFirstLine | tools/health-mcp/src/health_mcp.py:431-439 | the first insight names the most recent lab date when there is one, and is the recent-medications line otherwise |
| Statistics.InsightsYearsLine | tools/health-mcp/src/health_mcp.py:441-445 | with a non-empty timeline, the line before last names the top years |
| Statistics.MostRecentLab | tools/health-mcp/src/health_mcp.py:432-434 | no dated lab record is later than the reported most recent lab date |
| Statistics.TopYearsAreMostFrequent | tools/health-mcp/src/health_mcp.py:442-444 | at most two years are reported, none left out has a higher count, earlier years win ties, and the first reported year has at least the count of the second |
| Statistics.UniqueTestsRaised | tools/health-mcp/src/health_mcp.py:448 | the set of test names raises exactly when some lab record's truthy description is a list or dict, which cannot be hashed |
| Statistics.UniqueTestsBounded | tools/health-mcp/src/health_mcp.py:448 | there are never more unique tests than lab records |
| Statistics.StatisticsRaised | tools/health-mcp/src/health_mcp.py:395-474 | the statistics raise exactly when a lab record has an unhashable truthy description |
| ImportFlow.GlobMatches | tools/health-mcp/src/health_mcp.py:536-539 | one `glob` gives exactly the listed names that match the pattern |
| ImportFlow.Discovered | tools/health-mcp/src/health_mcp.py:529-539 | the discovered files are exactly the listed names that match one of the four patterns |
| ImportFlow.DiscoverFiles | tools/health-mcp/src/health_mcp.py:529-539 | the extend loop gathers the discovered files, pattern by pattern |
| ImportFlow.NoDataFilesExactly | tools/health-mcp/src/health_mcp.py:541-545 | the tool answers "no data files" exactly when no listed name matches any pattern |
| ImportFlow.FindPatientInfo | tools/health-mcp/src/health_mcp.py:549-554 | the header search loop stops at the first usable header, and otherwise keeps the last file's |
| ImportFlow.PatientSearchFindsFirst | tools/health-mcp/src/health_mcp.py:549-560 | the search succeeds exactly when some file has a usable header, and then returns the header of the first such file |
| ImportFlow.HeaderWithoutNameIsUnknownPatient | tools/health-mcp/src/health_mcp.py:106-109 | a header without `Patient_Name` still gives patient information, named "Unknown Patient" |
| ImportFlow.PatientInfoNeedsHeader | tools/health-mcp/src/health_mcp.py:100-117 | a file gives patient information exactly when it parses to an object whose `header_fields` is an object |
| ImportFlow.CollectRecords | tools/health-mcp/src/health_mcp.py:575-599 | the file loop collects every file's records in file order and skips a file that cannot be read or that raises |
| ImportFlow.CollectedIds | tools/health-mcp/src/health_mcp.py:575-599 | the collected records have fresh uuids in draw order, the patient's and the import's ids, and a discovered source file |
| ImportFlow.DistinctIds | tools/health-mcp/src/health_mcp.py:575-599 | with an injective uuid source, the record ids differ from each other and from the patient and import ids |
| ImportFlow.NothingCollectedFromBadFiles | tools/health-mcp/src/health_mcp.py:575-605 | when every file is unreadable or raises, nothing is collected |
| ImportFlow.ImportHealthRecords | tools/health-mcp/src/health_mcp.py:504-642 | the tool method gives the import result specified for the directory, its files and the database's behaviour |
| ImportFlow.RunConnected | tools/health-mcp/src/health_mcp.py:565-630 | the body on the open connection gives the result specified for the files, the patient and the database's behaviour |
| ImportFlow.CloseFailureOverridesResult | tools/health-mcp/src/health_mcp.py:562-641 | a close that raises in the `finally` turns every result after connecting, a success or no health records alike, into the import failure; only the checks before connecting keep their own failure |
| ImportFlow.EarlyExitsPrecedeConnection | tools/health-mcp/src/health_mcp.py:521-560 | a missing directory, no data files and no usable header fail in that order, before and regardless of any database behaviour |
| ImportFlow.SuccessReportsCollectedRecords | tools/health-mcp/src/health_mcp.py:601-630 | a success means no database failure, at least one collected record, the statistics of exactly those records, the generated ids and the found patient |
| ImportFlow.ConnectedImported | tools/health-mcp/src/health_mcp.py:601-630 | a success of the connected body means no failure of its own calls, at least one collected record, the statistics of exactly those records, the generated ids and the given patient |
| Query.Convert | tools/health-mcp/src/health_mcp.py:759-767 | a converted value is JSON-safe exactly when it was not a TIME or BINARY value; a decimal becomes a float, a date its ISO text, a datetime its `isoformat` text, and a safe, TIME or BINARY value is unchanged |
| Query.DateTimeIsoShape | tools/health-mcp/src/health_mcp.py:760-761 | a datetime's ISO text is the date, `T` and the zero-padded `HH:MM:SS`, 19 characters, and 26 with the `.ffffff` that appears exactly when there are microseconds |
| Query.ConvertIdempotent | tools/health-mcp/src/health_mcp.py:759-767 | converting a converted value changes nothing |
| Query.ConvertValues | tools/health-mcp/src/health_mcp.py:758-767 | the inner loop converts each value of a row, in order |
| Query.ExecuteQuery | tools/health-mcp/src/health_mcp.py:744-771 | the results hold one row dict per fetched row, in order |
| Query.RowDictOfDistinctColumns | tools/health-mcp/src/health_mcp.py:752-768 | with distinct column names, each row dict has the columns as its keys, in order, with the converted values |
| Query.RowDictLookup | tools/health-mcp/src/health_mcp.py:768 | a repeated column name keeps the value of its last occurrence, and in a row without TIME or BINARY values every value in the row dict is JSON-safe |
| Query.HealthMetrics | tools/health-mcp/src/health_mcp.py:782-792 | there are no metrics exactly when there are no results; otherwise the row count is the number of results |
| Query.FirstRowFlagsExactly | tools/health-mcp/src/health_mcp.py:787-792 | the columns are reported; the date flag is set exactly when some column name contains "date" in any case, and the numeric flag exactly when some converted value of the first row is an int, a float or a bool |
| Query.FirstRowFlags | tools/health-mcp/src/health_mcp.py:787-792 | in particular a decimal in the first row flags numeric data, once converted to a float, and a column name containing "date" flags date data |
| Query.FocusIsFirstMatchingRule | tools/health-mcp/src/health_mcp.py:795-810 | the category and focus come from the first keyword rule that matches the lower-cased query, and are "general" when none does |
| Query.ScanContent | tools/health-mcp/src/health_mcp.py:835-840 | the content loop gives the statement and interpretation specified for the blocks, or raises |
| Query.LastSqlBlock | tools/health-mcp/src/health_mcp.py:835-840 | it finds the last block whose type is "sql", and -1 when there is none |
| Query.LastSqlBlockWins | tools/health-mcp/src/health_mcp.py:835-840 | the captured SQL is the statement of the last "sql" block, and None without one |
| Query.ScanBlocksRaised | tools/health-mcp/src/health_mcp.py:835-840 | the scan raises exactly when some "text" block's text is not a string |
| Query.InterpretationOfTexts | tools/health-mcp/src/health_mcp.py:835-840 | the interpretation is every text block's text, each followed by a blank line, in block order |
| Query.SqlKeyShadowsCode | tools/health-mcp/src/health_mcp.py:842-847 | without SQL from the blocks, a top-level `sql` key is used even when `code` is present too |
| Query.CodeKeyIsLastResort | tools/health-mcp/src/health_mcp.py:842-847 | the `code` key is used only when there is neither SQL from the blocks nor a `sql` key |
| Query.ExecuteHealthQuery | tools/health-mcp/src/health_mcp.py:815-885 | the tool method gives the result specified for the question, the analyst's answer and the database |
| Query.NoSqlNeverRuns | tools/health-mcp/src/health_mcp.py:849-855 | when no SQL is obtained, the database plays no part: any other database gives the same result |
| Query.AnswerReportsRows | tools/health-mcp/src/health_mcp.py:857-876 | a successful answer comes from executing its SQL; it reports the converted rows, their number, the metrics of those rows and the stripped concatenation of the text blocks' pieces as the interpretation |

## Left out

- **The outside world.**
  - Every I/O call becomes an input to the model: the Snowflake connection and its cursor, the HTTP POST, reading the key file and the data files, and the directory test.
  - The database's failures are one input (`DbFault`): the first call to raise, or the closing of the connection.
  - The analyst's reply is the parsed response or `Raised`.
  - `execute_query` is a function of the SQL that returns columns and rows, or raises.
- **Interfaces to foreign libraries.**
  - The clock, `uuid4` and `datetime.fromisoformat` are inputs (`Instant`, `Oracles`).
  - PEM loading, SHA-256, base64 and RS256 signing are given as their results: a fingerprint and a `sign` function.
- **Not modelled at all:** the MCP server, async dispatch, logging and `traceback`.
- **The administrative rows.** The INSERT of `ensure_patient_exists` and `create_import_record`, and the UPDATE of `update_import_record` with its JSON-encoded statistics, are not modelled. Only their results are: the ids they generate, or their failure.
- **Messages.**
  - ImportFlow.ErrorMessage: for exceptions it leaves out the exception's own message text (`str(e)`) and the traceback.
  - ImportFlow.Imported: the success dict's `message` text ("Successfully imported health records for …") is not modelled; the patient's identity it names is the `patientName` field.
  - Query.Answer: it keeps the reason a query failed only as the failure case.
- **Floating point.**
  - Numbers are exact reals.
  - `float(Decimal)`, `float(str)` and `round(..., 1)` of the percentages are not modelled as binary rounding.
- **Text handling.**
  - Case mapping and digits are ASCII only. Python's `upper`, `lower` and `isdigit` also accept other Unicode letters and digits.
  - `str()` of a JSON number is not modelled.
  - For LabValues.LabNumeric, the value of a text with a `-` or a `.` is fixed only when it parses as a decimal.
- **The file listing.**
  - `glob` returns names in directory-listing order, and the model takes that order as given.
  - A directory is a list of base names, so `os.path.basename` is the identity.
- **ImportFlow.CollectedIds:** a file that raises while being processed is modelled as drawing no uuids. The uuids its earlier sections drew are not counted as consumed.
- **Dates.ParseDate:** the `fromisoformat` fallback is an oracle, so for texts outside the two fixed formats no date is stated. Timezone-aware datetimes therefore do not appear.
- **Query.Convert:** the `isoformat` of a datetime is modelled for naive datetimes only.
- **Query values.** A TIME or BINARY value is passed through unconverted, as in the source. The failure of the JSON encoding that follows is outside the model.
