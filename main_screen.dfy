/**
 * The decisions ui/MainScreen.kt takes around the Compose layout: which
 * importer a picked file goes to, which result card is shown, how a part's
 * description is laid out line by line, and how its callbacks drive the
 * view model.
 */
module MainScreen {
  import opened Wrappers
  import opened Text
  import opened Sequences
  import opened PartEntity
  import opened PartDaoModel
  import opened LookupViewModel
  import opened BarcodeScanner

  /**
   * The extension of a file name: the text after its last '.', lowered, or ""
   * when the name has no '.'.
   */
  function FileExtension(fileName: string): (r: string)
    ensures '.' !in r
    ensures '.' !in fileName ==> r == ""
    ensures '.' in fileName ==>
      |r| < |fileName| && fileName[|fileName| - |r| - 1] == '.' && r == Lower(fileName[|fileName| - |r|..])
  {
    if '.' in fileName then
      var suffix := fileName[LastIndexOf(fileName, '.') + 1..];
      LowerKeepsPunctuation(suffix, '.');
      Lower(suffix)
    else ""
  }

  /** A name `stem.ext` whose `ext` has no dot has extension `ext` lowered, whatever the stem. */
  lemma {:induction false} ExtensionOfNamedFile(stem: string, ext: string)
    requires '.' !in ext
    ensures FileExtension(stem + "." + ext) == Lower(ext)
  {
    var name := stem + "." + ext;
    assert name[|stem|] == '.';
    var r := FileExtension(name);
    assert name[|name| - |r|..] == ext;
  }

  /** The file kinds the picker callback tells apart. */
  datatype FileKind = CsvFile | XlsxFile | Unsupported

  const XLSX_MIME := "application/vnd.openxmlformats-officedocument.spreadsheetml.sheet"
  const UNKNOWN_FILE := "Unknown file"

  /** The `when` of the picker callback: CSV first, then XLSX, else unsupported. */
  function KindOf(extension: string, mimeType: Option<string>): FileKind {
    if extension == "csv" || mimeType == Some("text/csv") || mimeType == Some("text/comma-separated-values") then CsvFile
    else if extension == "xlsx" || mimeType == Some(XLSX_MIME) then XlsxFile
    else Unsupported
  }

  /**
   * A file goes to the CSV importer when its extension or its MIME type says
   * CSV, even if the other one says XLSX; to the XLSX importer when only XLSX
   * matches; and nowhere else otherwise.
   */
  lemma KindOfCases(extension: string, mimeType: Option<string>)
    ensures var csv := extension == "csv" || mimeType == Some("text/csv") || mimeType == Some("text/comma-separated-values");
      var xlsx := extension == "xlsx" || mimeType == Some(XLSX_MIME);
      && (KindOf(extension, mimeType) == CsvFile <==> csv)
      && (KindOf(extension, mimeType) == XlsxFile <==> !csv && xlsx)
      && (KindOf(extension, mimeType) == Unsupported <==> !csv && !xlsx)
  {
  }

  /** "Parts.CSV" is a CSV file whatever its MIME type; a name the cursor could not give is unsupported without a MIME type. */
  lemma {:induction false} KindExamples(stem: string, mimeType: Option<string>)
    ensures KindOf(FileExtension(stem + "." + "CSV"), mimeType) == CsvFile
    ensures KindOf(FileExtension(UNKNOWN_FILE), None) == Unsupported
  {
    ExtensionOfNamedFile(stem, "CSV");
    assert Lower("CSV") == "csv";
    assert '.' !in UNKNOWN_FILE;
  }

  /** What `MainScreen` shows under the buttons. */
  datatype ResultCard = NoCard | ProgressIndicator | PartDetails(part: Part) | ErrorCard(message: string)

  /** The `when (uiState)` of the results section. */
  function ResultView(showScanner: bool, state: UiState): ResultCard {
    if showScanner then NoCard
    else
      match state
      case Loading => ProgressIndicator
      case Success(part) => if part.Some? then PartDetails(part.value) else NoCard
      case Error(message) => ErrorCard(message)
      case Initial => NoCard
  }

  /**
   * Nothing is shown while the scanner is open, before the first operation or
   * after an import; otherwise the card matches the state.
   */
  lemma ResultViewCases(showScanner: bool, state: UiState)
    ensures ResultView(showScanner, state) == NoCard <==> showScanner || state == Initial || state == Success(None)
    ensures forall p :: ResultView(showScanner, state) == PartDetails(p) <==> !showScanner && state == Success(Some(p))
    ensures forall m :: ResultView(showScanner, state) == ErrorCard(m) <==> !showScanner && state == Error(m)
    ensures ResultView(showScanner, state) == ProgressIndicator <==> !showScanner && state == Loading
  {
  }

  /**
   * How `PartDetailsCard` lays out one line of a description. `labelText` is
   * the text before the first ':'; the card draws it followed by ':'.
   */
  datatype DescriptionLine = Title(text: string) | LabelValue(labelText: string, value: string) | PlainLine(text: string)

  const TITLE_MARKER := "Part details"

  /**
   * One description line: empty lines are dropped, lines starting with the
   * title marker are titles, other lines are split at their first ':' into a
   * label and a trimmed value, and lines with no ':' are shown as they are.
   */
  function ClassifyLine(line: string): (r: Option<DescriptionLine>)
    ensures r.None? <==> line == ""
    ensures r.Some? && r.value.Title? ==> r.value.text == line && StartsWith(line, TITLE_MARKER)
    ensures r.Some? && r.value.LabelValue? ==>
      && !StartsWith(line, TITLE_MARKER) && ':' !in r.value.labelText
      && |r.value.labelText| < |line| && line[..|r.value.labelText|] == r.value.labelText && line[|r.value.labelText|] == ':'
      && r.value.value == Trim(line[|r.value.labelText| + 1..])
    ensures r.Some? && r.value.PlainLine? ==> r.value.text == line && !StartsWith(line, TITLE_MARKER) && ':' !in line
    ensures line != "" && !StartsWith(line, TITLE_MARKER) ==> (r.value.LabelValue? <==> ':' in line)
  {
    if line == "" then None
    else if StartsWith(line, TITLE_MARKER) then Some(Title(line))
    else if ':' in line then
      var i := IndexOf(line, ':');
      Some(LabelValue(line[..i], Trim(line[i + 1..])))
    else Some(PlainLine(line))
  }

  /** The lines `PartDetailsCard` shows for a description, in order. */
  function DescriptionView(description: string): seq<DescriptionLine> {
    FilterMap(ClassifyLine, Split(description, '\n'))
  }

  /**
   * A description assembled from newline-free lines is shown line by line: each
   * line classified on its own, empty ones dropped, so no more entries than lines.
   */
  lemma {:induction false} DescriptionOfLines(lines: seq<string>)
    requires |lines| >= 1
    requires forall i :: 0 <= i < |lines| ==> '\n' !in lines[i]
    ensures DescriptionView(Join(lines, '\n')) == FilterMap(ClassifyLine, lines)
    ensures |DescriptionView(Join(lines, '\n'))| <= |lines|
  {
    SplitJoin(lines, '\n');
    FilterMapMembers(ClassifyLine, lines, Title(""));
  }

  /** Every entry shown comes from a non-empty line of the description. */
  lemma {:induction false} DescriptionEntriesFromLines(description: string, e: DescriptionLine)
    ensures e in DescriptionView(description) <==>
      exists i :: 0 <= i < |Split(description, '\n')| && ClassifyLine(Split(description, '\n')[i]) == Some(e)
  {
    var lines := Split(description, '\n');
    FilterMapMembers(ClassifyLine, lines, e);
    if e in DescriptionView(description) {
      var i :| 0 <= i < |lines| && ClassifyLine(lines[i]) == Some(e);
      assert ClassifyLine(Split(description, '\n')[i]) == Some(e);
    }
  }

  /** The file the picker returned, with what the content resolver says about it. */
  datatype PickedFile = PickedFile(displayName: Option<string>, mimeType: Option<string>, content: CsvSource)

  /** The state `MainScreen` keeps with `remember`, and the view model it drives. */
  class MainScreenState {
    const viewModel: PartLookupViewModel
    var showScanner: bool
    var manualPartNumber: string
    var uploadedFileName: Option<string>

    ghost predicate Valid()
      reads this, viewModel, viewModel.partDao
    {
      viewModel.Valid()
    }

    constructor (viewModel: PartLookupViewModel)
      requires viewModel.Valid()
      ensures Valid() && this.viewModel == viewModel
      ensures !showScanner && manualPartNumber == "" && uploadedFileName == None
    {
      this.viewModel := viewModel;
      showScanner := false;
      manualPartNumber := "";
      uploadedFileName := None;
    }

    /** The result card currently on screen. */
    function Shown(): ResultCard
      reads this, viewModel
    {
      ResultView(showScanner, viewModel.uiState)
    }

    /**
     * The file picker's callback. A null uri does nothing. Otherwise the file
     * name (or "Unknown file") is remembered and the file is dispatched by
     * extension and MIME type: CSV to `importCsv`, XLSX to `importXlsx`,
     * anything else to `searchPart("")`, which may throw `fault`. The view
     * model declares no `importXlsx`, so what that branch does to the view
     * model is left unspecified.
     */
    method OnFilePicked(file: Option<PickedFile>, fault: Option<Fault>) returns (kind: Option<FileKind>)
      requires Valid()
      modifies this`uploadedFileName, viewModel, viewModel.partDao
      ensures Valid()
      ensures file.None? ==>
        && kind.None? && uploadedFileName == old(uploadedFileName)
        && viewModel.history == old(viewModel.history) && viewModel.partDao.rows == old(viewModel.partDao.rows)
      ensures file.Some? ==>
        var name := file.value.displayName.GetOr(UNKNOWN_FILE);
        uploadedFileName == Some(name) && kind == Some(KindOf(FileExtension(name), file.value.mimeType))
      ensures kind == Some(CsvFile) ==>
        && viewModel.history == old(viewModel.history) + ImportStates(file.value.content)
        && viewModel.partDao.rows == ImportedRows(old(viewModel.partDao.rows), file.value.content)
      ensures kind == Some(Unsupported) ==>
        && viewModel.history == old(viewModel.history) + [Loading, SearchOutcome(old(viewModel.partDao.rows), "", fault)]
        && viewModel.partDao.rows == old(viewModel.partDao.rows)
    {
      if file.None? {
        return None;
      }
      var fileName := file.value.displayName.GetOr(UNKNOWN_FILE);
      uploadedFileName := Some(fileName);
      var fileExtension := FileExtension(fileName);
      var k := KindOf(fileExtension, file.value.mimeType);
      if k == CsvFile {
        viewModel.ImportCsv(file.value.content);
      } else if k == Unsupported {
        viewModel.SearchPart("", fault);
      }
      kind := Some(k);
    }

    /** The scanner's `onBarcodeDetected`: look the value up and close the scanner. */
    method OnBarcodeDetected(barcode: string, fault: Option<Fault>)
      requires Valid()
      modifies this`showScanner, viewModel
      ensures Valid() && !showScanner
      ensures viewModel.history == old(viewModel.history) + [Loading, SearchOutcome(viewModel.partDao.rows, barcode, fault)]
    {
      viewModel.SearchPart(barcode, fault);
      showScanner := false;
    }

    /** The scanner's `onError`, also used by its close button. */
    method OnScannerError()
      modifies this`showScanner
      ensures !showScanner
    {
      showScanner := false;
    }

    /** Typing in the part-number field closes the scanner. */
    method OnManualInput(text: string)
      modifies this`manualPartNumber, this`showScanner
      ensures manualPartNumber == text && !showScanner
    {
      manualPartNumber := text;
      if showScanner {
        showScanner := false;
      }
    }

    /** "Search Part": look up the typed number and close the scanner. */
    method OnSearchClicked(fault: Option<Fault>)
      requires Valid()
      modifies this`showScanner, viewModel
      ensures Valid() && !showScanner
      ensures viewModel.history == old(viewModel.history) + [Loading, SearchOutcome(viewModel.partDao.rows, manualPartNumber, fault)]
    {
      viewModel.SearchPart(manualPartNumber, fault);
      if showScanner {
        showScanner := false;
      }
    }

    /** "Scan Barcode" opens the scanner, which hides the result card. */
    method OnScanClicked()
      modifies this`showScanner
      ensures showScanner && Shown() == NoCard
    {
      showScanner := true;
    }
  }

  /**
   * A barcode travels from the scanner to the table through both copies of
   * the rule: the key looked up is `processPartNumber(processScannedValue(raw))`,
   * so a scanned "PP4123" finds the row stored under "4123".
   */
  lemma ScannedLookup(rows: map<string, Part>)
    ensures SearchOutcome(rows, ProcessScannedValue("PP4123"), None) ==
      if "4123" in rows then Success(Some(rows["4123"])) else Error(NOT_FOUND_PREFIX + "4123")
  {
    ScannedKey("PP4123");
  }
}
