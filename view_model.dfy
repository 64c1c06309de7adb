/**
 * ui/PartLookupViewModel.kt: the part-number normaliser, the UI state, the
 * lookup of a typed or scanned number and the CSV import that replaces the
 * whole table. Each coroutine the Kotlin code launches is modelled as a call
 * that runs to completion.
 */
module LookupViewModel {
  import opened Wrappers
  import opened Text
  import opened PartEntity
  import opened PartDaoModel
  import opened Sequences

  /**
   * `processPartNumber`: "PP…" and "P4…" lose their first character; "P0…",
   * any other "P?…", a lone "P" and everything not starting with 'P' are kept.
   * The result is the input or the input without its first character.
   */
  function ProcessPartNumber(value: string): (r: string)
    ensures |r| == |value| || |r| == |value| - 1
    ensures r == value[|value| - |r|..]
    ensures |r| < |value| <==> StartsWith(value, "PP") || StartsWith(value, "P4")
  {
    if StartsWith(value, "PP") then value[1..]
    else if StartsWith(value, "P") && |value| > 1 then
      match value[1]
      case '4' => value[1..]
      case '0' => value
      case _ => value
    else value
  }

  /** A value that does not start with 'P', the empty one too, is its own key. */
  lemma NoPrefixUnchanged(value: string)
    requires !StartsWith(value, "P")
    ensures ProcessPartNumber(value) == value
  {
  }

  lemma NormaliserExamples()
    ensures ProcessPartNumber("PP123") == "P123"
    ensures ProcessPartNumber("P4123") == "4123"
    ensures ProcessPartNumber("P0123") == "P0123"
    ensures ProcessPartNumber("PZ99") == "PZ99"
    ensures ProcessPartNumber("P") == "P"
    ensures ProcessPartNumber("") == ""
  {
    assert StartsWith("PP123", "PP");
    assert StartsWith("P4123", "P4");
  }

  /**
   * Normalising a key a second time changes it exactly when the input starts
   * with "PPP" or "PP4"; in particular "P4…" inputs are fixed after one step.
   */
  lemma {:induction false} NormaliseTwice(value: string)
    ensures ProcessPartNumber(ProcessPartNumber(value)) != ProcessPartNumber(value)
      <==> StartsWith(value, "PPP") || StartsWith(value, "PP4")
  {
    var once := ProcessPartNumber(value);
    if StartsWith(value, "PP") {
      assert once == value[1..];
      assert StartsWith(once, "PP") <==> StartsWith(value, "PPP");
      assert StartsWith(once, "P4") <==> StartsWith(value, "PP4");
    } else if StartsWith(value, "P4") {
      assert once == value[1..] && once[0] == '4';
      assert !StartsWith(once, "PP") && !StartsWith(once, "P4");
    } else {
      assert once == value;
      assert !StartsWith(value, "PPP") && !StartsWith(value, "PP4");
    }
  }

  lemma NotIdempotent()
    ensures ProcessPartNumber("PPP") == "PP"
    ensures ProcessPartNumber(ProcessPartNumber("PPP")) == "P"
  {
    assert StartsWith("PPP", "PP");
    assert StartsWith("PP", "PP");
  }

  /** `PartLookupUiState` */
  datatype UiState = Initial | Loading | Success(part: Option<Part>) | Error(message: string)

  const NOT_FOUND_PREFIX := "Part not found.\nNumber scanned: "
  const UNKNOWN_ERROR := "Unknown error occurred"
  const CSV_HEADER := "PartNumber,EMP_Location"
  const INVALID_FORMAT := "Invalid CSV format. Expected header: PartNumber,EMP_Location"
  const IMPORT_FAILED_PREFIX := "Failed to import CSV: "

  /** An exception thrown by the store or the file reader, with its nullable message. */
  datatype Fault = Fault(message: Option<string>)

  /** The state `searchPart` ends in, given the table and whether the lookup throws. */
  function SearchOutcome(rows: map<string, Part>, partNumber: string, fault: Option<Fault>): UiState {
    var key := ProcessPartNumber(partNumber);
    match fault
    case Some(e) => Error(e.message.GetOr(UNKNOWN_ERROR))
    case None =>
      if key in rows then Success(Some(rows[key])) else Error(NOT_FOUND_PREFIX + key)
  }

  /**
   * A lookup ends in `Success` with the row stored under the normalised key,
   * or in the not-found `Error` naming that key, or, when the store throws, in
   * an `Error` carrying the exception's message; it never ends in `Initial`,
   * `Loading` or `Success(null)`.
   */
  lemma SearchOutcomeCases(rows: map<string, Part>, partNumber: string, fault: Option<Fault>)
    requires KeyedBy(rows)
    ensures var r := SearchOutcome(rows, partNumber, fault);
      var key := ProcessPartNumber(partNumber);
      && (r.Success? || r.Error?)
      && (r.Success? ==> fault.None? && r.part.Some? && r.part.value.partNumber == key
                         && key in rows && rows[key] == r.part.value)
      && (fault.None? && key !in rows ==> r == Error(NOT_FOUND_PREFIX + key))
      && (fault.None? && key in rows ==> r == Success(Some(rows[key])))
      && (r.Success? <==> fault.None? && key in rows)
      && (fault.Some? ==> r == Error(if fault.value.message.Some? then fault.value.message.value else UNKNOWN_ERROR))
  {
  }

  /**
   * Only the normalised key is queried: two tables that agree on that key give
   * the same outcome, whatever else they hold.
   */
  lemma SearchReadsOnlyKey(m1: map<string, Part>, m2: map<string, Part>, partNumber: string, fault: Option<Fault>)
    requires var key := ProcessPartNumber(partNumber);
      (key in m1 <==> key in m2) && (key in m1 ==> m1[key] == m2[key])
    ensures SearchOutcome(m1, partNumber, fault) == SearchOutcome(m2, partNumber, fault)
  {
  }

  /** There is no second lookup with the raw input: a row stored as "P4123" is not found by "P4123". */
  lemma NoFallbackLookup(p: Part)
    requires p.partNumber == "P4123"
    ensures SearchOutcome(map["P4123" := p], "P4123", None) == Error(NOT_FOUND_PREFIX + "4123")
  {
    assert StartsWith("P4123", "P4");
    assert ProcessPartNumber("P4123") == "4123";
  }

  /**
   * `searchPart("")`, which the screen uses for an unsupported file, is an
   * ordinary lookup of the key "": it reports "not found" with an empty
   * number, or succeeds when the table holds a row with an empty part number.
   */
  lemma EmptySearch(rows: map<string, Part>)
    requires KeyedBy(rows)
    ensures "" !in rows ==> SearchOutcome(rows, "", None) == Error(NOT_FOUND_PREFIX)
    ensures "" in rows ==> SearchOutcome(rows, "", None) == Success(Some(rows[""])) && rows[""].partNumber == ""
  {
    assert NOT_FOUND_PREFIX + "" == NOT_FOUND_PREFIX;
  }

  /**
   * The record a data line yields: a line with at least two comma-separated
   * fields gives its first two fields, trimmed, as part number and location.
   */
  function RecordOf(line: string): Option<Part> {
    if ',' in line then
      Some(Part(Trim(FirstField(line, ',')), "", Trim(FirstField(AfterFirst(line, ','), ',')), 0))
    else None
  }

  /**
   * `RecordOf` is what the loop computes from `line.split(",")`: two or more
   * pieces give `Part(trim(values[0]), "", trim(values[1]), 0)`, one piece
   * gives nothing.
   */
  lemma {:induction false} RecordOfSplit(line: string)
    ensures |Split(line, ',')| >= 2 <==> RecordOf(line).Some?
    ensures |Split(line, ',')| >= 2 ==>
      RecordOf(line) == Some(Part(partNumber := Trim(Split(line, ',')[0]), location := Trim(Split(line, ',')[1]),
                                  description := "", quantity := 0))
  {
    SplitFields(line, ',');
  }

  /**
   * Fields after the second are ignored: a line `a,b,rest` with separator-free
   * `a` and `b` yields the record of `a` and `b` trimmed, whatever `rest` is.
   */
  lemma {:induction false} RecordOfExtraFields(a: string, b: string, rest: string)
    requires ',' !in a && ',' !in b
    ensures RecordOf(a + "," + b + "," + rest) == Some(Part(Trim(a), "", Trim(b), 0))
    ensures RecordOf(a + "," + b) == Some(Part(Trim(a), "", Trim(b), 0))
  {
    var line := a + "," + b + "," + rest;
    assert line[..|a|] == a;
    IndexOfAt(line, ',', |a|);
    assert FirstField(line, ',') == a;
    var after := line[|a| + 1..];
    assert after == b + "," + rest;
    assert after[..|b|] == b;
    IndexOfAt(after, ',', |b|);
    assert AfterFirst(line, ',') == after;
    assert FirstField(after, ',') == b;
    var short := a + "," + b;
    assert short[..|a|] == a;
    IndexOfAt(short, ',', |a|);
    assert FirstField(short, ',') == a;
    assert AfterFirst(short, ',') == b;
    assert FirstField(b, ',') == b;
  }

  /** A data line with an empty first field yields a record whose part number is empty. */
  lemma {:induction false} RecordWithEmptyKey(location: string)
    requires ',' !in location
    ensures RecordOf("," + location) == Some(Part("", "", Trim(location), 0))
  {
    var line := "," + location;
    assert line[..0] == [];
    IndexOfAt(line, ',', 0);
    assert FirstField(line, ',') == [];
    assert AfterFirst(line, ',') == location;
    assert FirstField(location, ',') == location;
    TrimKeeps([]);
  }

  lemma RecordOfShortLines()
    ensures RecordOf("OnlyOneField") == None
    ensures RecordOf("") == None
  {
    var line := "OnlyOneField";
    assert ',' !in line by {
      assert forall i :: 0 <= i < |line| ==> line[i] != ',';
    }
    var empty := "";
    assert ',' !in empty;
  }

  /** The records the data lines yield, in line order, skipping short lines. */
  function ParseRecords(lines: seq<string>): seq<Part> {
    FilterMap(RecordOf, lines)
  }

  /** One more line adds its record, if it has one, after the records of the lines before it. */
  lemma {:induction false} ParseRecordsStep(lines: seq<string>, i: nat)
    requires i < |lines|
    ensures ParseRecords(lines[..i + 1]) == ParseRecords(lines[..i]) +
      (if RecordOf(lines[i]).Some? then [RecordOf(lines[i]).value] else [])
  {
    assert lines[..i + 1] == lines[..i] + [lines[i]];
    FilterMapAppend(RecordOf, lines[..i], [lines[i]]);
    assert FilterMap(RecordOf, [lines[i]]) == (if RecordOf(lines[i]).Some? then [RecordOf(lines[i]).value] else []) by {
      assert [lines[i]][..0] == [];
    }
  }

  /** The body of the line loop: split at ',' and keep the first two fields, trimmed. */
  method LineRecord(line: string) returns (record: Option<Part>)
    ensures record == RecordOf(line)
  {
    var values := Split(line, ',');
    RecordOfSplit(line);
    if |values| >= 2 {
      record := Some(Part(partNumber := Trim(values[0]), location := Trim(values[1]), description := "", quantity := 0));
    } else {
      record := None;
    }
  }

  /** The `reader.forEachLine` loop collecting the records of the data lines. */
  method CollectParts(lines: seq<string>) returns (parts: seq<Part>)
    ensures parts == ParseRecords(lines)
  {
    parts := [];
    var i := 0;
    while i < |lines|
      invariant 0 <= i <= |lines|
      invariant parts == ParseRecords(lines[..i])
    {
      var record := LineRecord(lines[i]);
      ParseRecordsStep(lines, i);
      if record.Some? {
        parts := parts + [record.value];
      }
      i := i + 1;
    }
    assert lines[..i] == lines;
  }

  /** The records of a CSV file, or None when its header is missing or wrong. */
  function ParseCsv(lines: seq<string>): Option<seq<Part>> {
    if |lines| == 0 || !EqualsIgnoreCase(lines[0], CSV_HEADER) then None
    else Some(ParseRecords(lines[1..]))
  }

  /** The line yields a record whose key is `k`. */
  predicate YieldsKey(line: string, k: string) {
    RecordOf(line).Some? && RecordOf(line).value.partNumber == k
  }

  /** Some parsed record has key `k` exactly when some data line yields one. */
  lemma {:induction false} ParsedKey(data: seq<string>, k: string)
    ensures LastWithKey(ParseRecords(data), k).Some? <==> exists i :: 0 <= i < |data| && YieldsKey(data[i], k)
  {
    var ps := ParseRecords(data);
    if LastWithKey(ps, k).Some? {
      var j := LastWithKey(ps, k).value;
      FilterMapMembers(RecordOf, data, ps[j]);
      var i :| 0 <= i < |data| && RecordOf(data[i]) == Some(ps[j]);
      assert YieldsKey(data[i], k);
    }
    if exists i :: 0 <= i < |data| && YieldsKey(data[i], k) {
      var i :| 0 <= i < |data| && YieldsKey(data[i], k);
      FilterMapMembers(RecordOf, data, RecordOf(data[i]).value);
      assert RecordOf(data[i]).value in ps;
    }
  }

  /**
   * The table a successful import leaves, given the lines after the header: a
   * key is present exactly when some data line yields a record with that key,
   * and it holds the last such record; nothing from before the import survives.
   */
  lemma {:induction false} ImportedTable(data: seq<string>, k: string)
    ensures k in UpsertAll(map[], ParseRecords(data)) <==> exists i :: 0 <= i < |data| && YieldsKey(data[i], k)
    ensures k in UpsertAll(map[], ParseRecords(data)) <==> LastWithKey(ParseRecords(data), k).Some?
    ensures LastWithKey(ParseRecords(data), k).Some? ==>
      && k in UpsertAll(map[], ParseRecords(data))
      && UpsertAll(map[], ParseRecords(data))[k] == ParseRecords(data)[LastWithKey(ParseRecords(data), k).value]
  {
    UpsertAllLookup(map[], ParseRecords(data), k);
    ParsedKey(data, k);
  }

  /**
   * The header is compared ignoring case: a file is accepted exactly when it
   * has a first line that lowers to the same text as `CSV_HEADER`, and then
   * its records are those of the lines after the header.
   */
  lemma {:induction false} HeaderIgnoresCase(lines: seq<string>)
    ensures ParseCsv(lines).Some? <==> |lines| > 0 && Lower(lines[0]) == Lower(CSV_HEADER)
    ensures ParseCsv(lines).Some? ==> ParseCsv(lines).value == ParseRecords(lines[1..])
  {
    if |lines| > 0 {
      EqualsIgnoreCaseLower(lines[0], CSV_HEADER);
    }
  }

  /** An empty file and a file with another header are refused. */
  lemma HeaderRejected(data: seq<string>)
    ensures ParseCsv([]) == None
    ensures ParseCsv(["Foo,Bar"] + data) == None
  {
    assert (["Foo,Bar"] + data)[0] == "Foo,Bar";
  }

  /**
   * What the content resolver hands over: `NoStream` when `openInputStream`
   * returns null, `ReadFailure` when opening or reading throws (a URI that
   * cannot be opened throws too), or the file's lines.
   */
  datatype CsvSource = NoStream | ReadFailure(message: Option<string>) | Lines(lines: seq<string>)

  /**
   * The states `importCsv` goes through. A thrown exception's message goes
   * through a string template, so a null message reads "null".
   */
  function ImportStates(source: CsvSource): seq<UiState> {
    [Loading] +
    match source
    case NoStream => []
    case ReadFailure(message) => [Error(IMPORT_FAILED_PREFIX + message.GetOr("null"))]
    case Lines(lines) => if ParseCsv(lines).None? then [Error(INVALID_FORMAT)] else [Success(None)]
  }

  /** The table after `importCsv`: replaced by the parsed records, or left as it was. */
  function ImportedRows(rows: map<string, Part>, source: CsvSource): map<string, Part> {
    match source
    case Lines(lines) => if ParseCsv(lines).Some? then UpsertAll(map[], ParseCsv(lines).value) else rows
    case _ => rows
  }

  /**
   * An import either ends in `Success(null)` with a table that depends only on
   * the file, or leaves the table exactly as it was. A wrong header reports
   * `INVALID_FORMAT`, a read failure reports its message after
   * `IMPORT_FAILED_PREFIX`, and a null stream leaves the state at `Loading`.
   */
  lemma ImportAllOrNothing(rows: map<string, Part>, source: CsvSource)
    ensures var states := ImportStates(source);
      && states[0] == Loading && 1 <= |states| <= 2
      && (states[|states| - 1] == Success(None) <==> ParseCsvAccepts(source))
      && (!ParseCsvAccepts(source) ==> ImportedRows(rows, source) == rows)
      && (ParseCsvAccepts(source) ==> ImportedRows(rows, source) == ImportedRows(map[], source))
      && (|states| == 1 <==> source.NoStream?)
      && (|states| == 2 && states[1] != Success(None) ==> states[1].Error?)
      && (source.Lines? && !ParseCsvAccepts(source) ==> states == [Loading, Error(INVALID_FORMAT)])
      && (source.ReadFailure? ==> states == [Loading, Error(IMPORT_FAILED_PREFIX + source.message.GetOr("null"))])
      && (ParseCsvAccepts(source) ==> states == [Loading, Success(None)])
  {
  }

  /** The file was read and its header is the expected one. */
  predicate ParseCsvAccepts(source: CsvSource) {
    source.Lines? && ParseCsv(source.lines).Some?
  }

  class PartLookupViewModel {
    const partDao: PartDao
    /** `_uiState.value` */
    var uiState: UiState
    /** Every value `_uiState` has held, oldest first. */
    ghost var history: seq<UiState>

    ghost predicate Valid()
      reads this, partDao
    {
      partDao.Valid() && history != [] && history[|history| - 1] == uiState
    }

    constructor (partDao: PartDao)
      requires partDao.Valid()
      ensures Valid() && this.partDao == partDao
      ensures uiState == Initial && history == [Initial]
    {
      this.partDao := partDao;
      uiState := Initial;
      history := [Initial];
    }

    method SetState(s: UiState)
      modifies this
      ensures uiState == s && history == old(history) + [s]
    {
      uiState := s;
      history := history + [s];
    }

    /**
     * `searchPart`: `Loading`, then the outcome of looking up the normalised
     * key; the table is not touched.
     */
    method SearchPart(partNumber: string, fault: Option<Fault>)
      requires Valid()
      modifies this
      ensures Valid()
      ensures uiState == SearchOutcome(partDao.rows, partNumber, fault)
      ensures history == old(history) + [Loading, uiState]
    {
      SetState(Loading);
      var processedPartNumber := ProcessPartNumber(partNumber);
      if fault.Some? {
        SetState(Error(fault.value.message.GetOr(UNKNOWN_ERROR)));
        return;
      }
      var part := partDao.GetPartByNumber(processedPartNumber);
      if part.Some? {
        SetState(Success(part));
      } else {
        assert processedPartNumber in partDao.rows ==> partDao.Stored(partDao.rows[processedPartNumber]);
        SetState(Error(NOT_FOUND_PREFIX + processedPartNumber));
      }
    }

    /**
     * `importCsv`: `Loading`, then either the table replaced by the parsed
     * records and `Success(null)`, or an `Error` with the table untouched. When
     * `openInputStream` returns null the state stays `Loading`.
     */
    method ImportCsv(source: CsvSource)
      requires Valid()
      modifies this, partDao
      ensures Valid()
      ensures history == old(history) + ImportStates(source)
      ensures partDao.rows == ImportedRows(old(partDao.rows), source)
    {
      SetState(Loading);
      match source
      case NoStream =>
      case ReadFailure(message) =>
        SetState(Error(IMPORT_FAILED_PREFIX + message.GetOr("null")));
      case Lines(lines) =>
        if |lines| == 0 || !EqualsIgnoreCase(lines[0], CSV_HEADER) {
          SetState(Error(INVALID_FORMAT));
          return;
        }
        var parts := CollectParts(lines[1..]);
        partDao.DeleteAllParts();
        partDao.InsertParts(parts);
        SetState(Success(None));
    }
  }
}
