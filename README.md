# PartLookup: part-number normalisation, lookup and CSV import

A model in Dafny of the Android app that turns a scanned or typed part number
into the storage location kept in a local Room table. The table can be
replaced from an uploaded CSV file. Modelled:

- **Part-number rule.** `processPartNumber` in the view model and its copy
  `processScannedValue` in the scanner: "PP…" and "P4…" lose their first
  character, and everything else is kept.
- **View model** (`PartLookupViewModel`).
  - Its UI state runs `Initial → Loading → Success(part?) | Error(message)`.
  - `searchPart` looks up the normalised key.
  - `importCsv` checks the header, parses the data lines, then clears the
    table and bulk-inserts the records.
- **DAO** (`PartDao`). A table keyed by `partNumber`, with
  insert-or-replace, delete-by-key and delete-all.
- **Scanner gate.** The part of the image analyser that accepts at most one
  barcode per scanner.
- **Main screen decisions.** File-kind dispatch from the extension and MIME
  type, which result card is shown, how a description is laid out line by
  line, and what the screen's callbacks do to the view model.

Modules follow the source files:

| module | file |
|---|---|
| `PartEntity` | part.dfy |
| `PartDaoModel` | part_dao.dfy |
| `LookupViewModel` | view_model.dfy |
| `BarcodeScanner` | barcode_scanner.dfy |
| `MainScreen` | main_screen.dfy |

Helper modules:

- `Text`: Kotlin's `split`, `trim`, `lowercase` and
  `equals(ignoreCase = true)`.
- `Sequences`: a filter-map over sequences.
- `Wrappers`: `Option`, standing for Kotlin's nullable types.

State that the source updates in place is modelled as classes:

- `PartDao` wraps a `map` from key to row.
- `PartLookupViewModel` holds the state and the history of every state it
  has held.
- `ScannerGate` holds the analyser's flags.
- `MainScreenState` holds the screen's remembered variables.

Each such method is tied to a pure function of the old state, and the
properties are proved about those functions.

Behaviour worth noting:

- **One lookup.** `searchPart` makes one lookup, with the
  normalised key only. It never retries with the raw input (`NoFallbackLookup`).
- **Empty input is an ordinary lookup.** `searchPart("")` is an ordinary
  lookup of the key "". The screen uses it for unsupported files.
  - It reports "Part not found.\nNumber scanned: " with an empty number.
  - It *succeeds* when the table holds a row with an empty part number
    (`EmptySearch`).
  - A CSV line such as ",Shelf9" creates such a row (`RecordWithEmptyKey`).
- **Records.** A part carries only a part number, a description, a
  location and a quantity. Every data line with at least two fields becomes
  a record, also when its location is empty.
- **Exceptions are inputs.**
  - A store exception is the `fault` parameter of `SearchPart`. It ends in
    `Error(message ?: "Unknown error occurred")`.
  - A read exception is `CsvSource.ReadFailure`. It ends in
    `Error("Failed to import CSV: " + message)`. A null message prints as
    "null", because the message goes through a string template.
  - When `openInputStream` returns null, the `?.use` block is skipped and
    the state stays `Loading` (`CsvSource.NoStream`). A URI that cannot be
    opened throws instead, which is a `ReadFailure`.

In the scanner, `lastScannedBarcode` is set only together with
`isScanning`, which nothing clears. So the check that a raw value differs
from the last one never rejects anything the `isScanning` check has not
already rejected. `ScannerGate.Valid` records this.

## Model

| member | source | states |
|---|---|---|
| LookupViewModel.ProcessPartNumber | app/src/main/java/com/example/partlookup/ui/PartLookupViewModel.kt:24-41 | the result is the input or the input minus its first character (a suffix of length \|s\| or \|s\|-1), and it is shorter exactly when the input starts with "PP" or "P4" |
| LookupViewModel.NoPrefixUnchanged | app/src/main/java/com/example/partlookup/ui/PartLookupViewModel.kt:38-39 | a value not starting with 'P', "" included, is returned unchanged |
| LookupViewModel.NormaliserExamples | app/src/main/java/com/example/partlookup/ui/PartLookupViewModel.kt:27-34 | "PP123"→"P123", "P4123"→"4123", "P0123", "PZ99", "P" and "" unchanged |
| LookupViewModel.NormaliseTwice | app/src/main/java/com/example/partlookup/ui/PartLookupViewModel.kt:27-39 | a second application changes the key exactly when the input starts with "PPP" or "PP4"; in particular inputs starting "P4" are fixed after one step |
| LookupViewModel.NotIdempotent | app/src/main/java/com/example/partlookup/ui/PartLookupViewModel.kt:27 | "PPP"→"PP"→"P": the rule is not idempotent |
| LookupViewModel.UiState | app/src/main/java/com/example/partlookup/ui/PartLookupViewModel.kt:126-131 | the four UI states: Initial, Loading, Success with a part or null, Error with a message |
| LookupViewModel.SearchOutcome | app/src/main/java/com/example/partlookup/ui/PartLookupViewModel.kt:49-71 | the state a lookup ends in, given the table, the input and whether the store throws; its properties are SearchOutcomeCases, SearchReadsOnlyKey, NoFallbackLookup and EmptySearch |
| LookupViewModel.SearchOutcomeCases | app/src/main/java/com/example/partlookup/ui/PartLookupViewModel.kt:47-71 | with no exception, a key stored in the table gives Success(row under the normalised key), whose partNumber is that key, and a missing key gives the not-found Error naming the key; Success happens exactly when there is no exception and the key is stored; an exception gives Error(message ?: "Unknown error occurred"); never Initial, Loading or Success(null) |
| LookupViewModel.SearchReadsOnlyKey | app/src/main/java/com/example/partlookup/ui/PartLookupViewModel.kt:52-57 | tables that agree on the normalised key give the same outcome: only that key is queried |
| LookupViewModel.NoFallbackLookup | app/src/main/java/com/example/partlookup/ui/PartLookupViewModel.kt:52-66 | a row stored as "P4123" is not found by searching "P4123": there is no retry with the raw input |
| LookupViewModel.EmptySearch | app/src/main/java/com/example/partlookup/ui/PartLookupViewModel.kt:47-66 | searching "" is the lookup of key "": not found with an empty number, or the row with empty part number |
| LookupViewModel.PartLookupViewModel.SetState | app/src/main/java/com/example/partlookup/ui/PartLookupViewModel.kt:49-110 | one assignment to the UI state: the new state is current and is appended to the history of states |
| LookupViewModel.PartLookupViewModel.SearchPart | app/src/main/java/com/example/partlookup/ui/PartLookupViewModel.kt:47-73 | appends Loading then the lookup outcome to the state history, the final state being SearchOutcome of the table and input; the table is untouched |
| LookupViewModel.RecordOf | app/src/main/java/com/example/partlookup/ui/PartLookupViewModel.kt:91-100 | the record a data line yields, if any; RecordOfSplit ties it to the source's split-and-index form |
| LookupViewModel.RecordOfSplit | app/src/main/java/com/example/partlookup/ui/PartLookupViewModel.kt:91-100 | a line yields a record exactly when its split on "," has at least two pieces, and the record is Part(trim(piece 0), "", trim(piece 1), 0) |
| LookupViewModel.RecordOfExtraFields | app/src/main/java/com/example/partlookup/ui/PartLookupViewModel.kt:91-100 | a line a,b,rest yields Part(trim a, "", trim b, 0) whatever rest is: extra fields are ignored |
| LookupViewModel.RecordWithEmptyKey | app/src/main/java/com/example/partlookup/ui/PartLookupViewModel.kt:91-100 | a line ",loc" yields a record with an empty part number |
| LookupViewModel.RecordOfShortLines | app/src/main/java/com/example/partlookup/ui/PartLookupViewModel.kt:92 | "OnlyOneField" and "" yield no record |
| LookupViewModel.ParseRecords | app/src/main/java/com/example/partlookup/ui/PartLookupViewModel.kt:81-102 | the parts list the import builds: the records of the data lines, in line order, short lines skipped; CollectParts is proved equal to it, and ParsedKey and ImportedTable state its contents |
| LookupViewModel.CollectParts | app/src/main/java/com/example/partlookup/ui/PartLookupViewModel.kt:81-102 | the line loop collects exactly the records of the lines with at least two fields, in line order |
| LookupViewModel.LineRecord | app/src/main/java/com/example/partlookup/ui/PartLookupViewModel.kt:91-100 | one turn of the loop: split the line at ',' and, with two fields or more, build the record of the first two trimmed; it is RecordOf(line) |
| LookupViewModel.ParseRecordsStep | app/src/main/java/com/example/partlookup/ui/PartLookupViewModel.kt:90-102 | one more line appends its record, when it has one, to the records of the lines before it |
| LookupViewModel.ParseCsv | app/src/main/java/com/example/partlookup/ui/PartLookupViewModel.kt:84-102 | the records of a file, or none when the header is missing or wrong; HeaderIgnoresCase and HeaderRejected state when it accepts |
| LookupViewModel.ParsedKey | app/src/main/java/com/example/partlookup/ui/PartLookupViewModel.kt:90-102 | some parsed record has key k exactly when some data line yields a record with key k |
| LookupViewModel.ImportedTable | app/src/main/java/com/example/partlookup/ui/PartLookupViewModel.kt:104-105 | after clear-and-insert a key is present exactly when some data line yields it, and holds the last such record; nothing from before survives |
| LookupViewModel.HeaderIgnoresCase | app/src/main/java/com/example/partlookup/ui/PartLookupViewModel.kt:84-88 | a file is accepted exactly when it has a first line equal to "PartNumber,EMP_Location" after ASCII lowering of both, and then its records are those of the lines after the header |
| LookupViewModel.HeaderRejected | app/src/main/java/com/example/partlookup/ui/PartLookupViewModel.kt:84-88 | an empty file and a file with header "Foo,Bar" are refused |
| LookupViewModel.ImportAllOrNothing | app/src/main/java/com/example/partlookup/ui/PartLookupViewModel.kt:75-112 | an import starts with Loading; a file with an accepted header ends in Success(null) and gives a table that does not depend on the old one; a bad header ends in Error("Invalid CSV format. Expected header: PartNumber,EMP_Location"); a read failure ends in Error("Failed to import CSV: " + message, "null" for no message); a null stream (openInputStream returning null) stops at Loading; every failure leaves the table unchanged |
| LookupViewModel.ImportStates | app/src/main/java/com/example/partlookup/ui/PartLookupViewModel.kt:75-113 | the UI states an import goes through; ImportAllOrNothing states each case |
| LookupViewModel.ImportedRows | app/src/main/java/com/example/partlookup/ui/PartLookupViewModel.kt:104-105 | the table an import leaves; ImportAllOrNothing and ImportedTable state its contents |
| LookupViewModel.PartLookupViewModel.ImportCsv | app/src/main/java/com/example/partlookup/ui/PartLookupViewModel.kt:75-113 | appends ImportStates(source) to the state history and leaves the table equal to ImportedRows(old table, source) |
| LookupViewModel.PartLookupViewModel.constructor | app/src/main/java/com/example/partlookup/ui/PartLookupViewModel.kt:43-45 | the state starts as Initial |
| PartEntity.Part | app/src/main/java/com/example/partlookup/data/Part.kt:7-13 | the part record: primary key partNumber, description, location and a quantity that defaults to 0 |
| PartEntity.DefaultQuantity | app/src/main/java/com/example/partlookup/data/Part.kt:7-12 | a record built without a quantity has quantity 0 |
| PartDaoModel.PartDao.GetPartByNumber | app/src/main/java/com/example/partlookup/data/PartDao.kt:8-9 | returns a stored row whose partNumber is the key, or null when no stored row has that key |
| PartDaoModel.PartDao.GetAllParts | app/src/main/java/com/example/partlookup/data/PartDao.kt:11-12 | returns exactly the stored rows, no primary key twice |
| PartDaoModel.PartDao.InsertPart | app/src/main/java/com/example/partlookup/data/PartDao.kt:14-15 | the row under p's key becomes p, every other key unchanged; the table stays keyed by partNumber |
| PartDaoModel.PartDao.InsertParts | app/src/main/java/com/example/partlookup/data/PartDao.kt:17-18 | the table becomes UpsertAll(old table, list): each row inserted with replace, in list order |
| PartDaoModel.Upsert | app/src/main/java/com/example/partlookup/data/PartDao.kt:14-15 | insert with REPLACE on conflict: the row under the part's primary key becomes the part, all other rows stay; InsertPart is proved against it |
| PartDaoModel.UpsertAll | app/src/main/java/com/example/partlookup/data/PartDao.kt:17-18 | a bulk insert with replace on conflict, row by row in list order; InsertParts is proved equal to it, and UpsertAllLookup, UpsertAllKeyedBy and UpsertAllFresh state its contents |
| PartDaoModel.UpsertAllLookup | app/src/main/java/com/example/partlookup/data/PartDao.kt:17-18 | after a bulk insert a key holds the last list element with that key; other keys keep their old rows or stay absent |
| PartDaoModel.UpsertAllKeyedBy | app/src/main/java/com/example/partlookup/data/Part.kt:8-9 | bulk insert keeps every row under its own primary key, so two rows never share a partNumber |
| PartDaoModel.UpsertAllFresh | app/src/main/java/com/example/partlookup/ui/PartLookupViewModel.kt:104-105 | bulk insert into an empty table holds exactly the keys of the list, the last duplicate winning |
| PartDaoModel.LastWithKey | app/src/main/java/com/example/partlookup/data/PartDao.kt:17-18 | the index returned is the last element with the key, or there is none |
| PartDaoModel.PartDao.DeletePart | app/src/main/java/com/example/partlookup/data/PartDao.kt:20-21 | removes only the row with p's primary key |
| PartDaoModel.PartDao.DeleteAllParts | app/src/main/java/com/example/partlookup/data/PartDao.kt:23-24 | the table is empty |
| BarcodeScanner.ProcessScannedValue | app/src/main/java/com/example/partlookup/ui/BarcodeScanner.kt:47-64 | the scanner's own copy of the prefix rule; SameRuleAsViewModel proves it equal to processPartNumber |
| BarcodeScanner.SameRuleAsViewModel | app/src/main/java/com/example/partlookup/ui/BarcodeScanner.kt:47-64 | processScannedValue equals processPartNumber on every input |
| BarcodeScanner.ScannedKey | app/src/main/java/com/example/partlookup/ui/BarcodeScanner.kt:176-183 | the key looked up for a scan is a suffix of the raw value at most two characters shorter; "PP4123" becomes "4123" |
| BarcodeScanner.ScannerGate.constructor | app/src/main/java/com/example/partlookup/ui/BarcodeScanner.kt:82-85 | not scanning, no last barcode, time 0, in the initial delay, nothing detected |
| BarcodeScanner.ScannerGate.EndInitialDelay | app/src/main/java/com/example/partlookup/ui/BarcodeScanner.kt:99-105 | the initial delay is over, nothing else changes |
| BarcodeScanner.ScannerGate.SubmitsFrame | app/src/main/java/com/example/partlookup/ui/BarcodeScanner.kt:132-134 | a frame is decoded exactly when the initial delay is over, no barcode has yet been passed on, and there is an image; so frames stop once one barcode has been passed on |
| BarcodeScanner.ScannerGate.OnBarcodes | app/src/main/java/com/example/partlookup/ui/BarcodeScanner.kt:132-183 | runs only after the initial delay, because only frames submitted then reach the listener; only the first barcode counts; it is accepted exactly when nothing was accepted before, its raw value is present, differs from the last one and is in frame; acceptance stores the raw value and time, sets isScanning and passes on processScannedValue(raw); once scanning, nothing more is accepted |
| MainScreen.FileExtension | app/src/main/java/com/example/partlookup/ui/MainScreen.kt:65-69 | the lowered text after the last '.', containing no '.', or "" when the name has no '.' |
| MainScreen.ExtensionOfNamedFile | app/src/main/java/com/example/partlookup/ui/MainScreen.kt:65-69 | the extension of stem.ext is ext lowered, whatever the stem |
| MainScreen.KindOf | app/src/main/java/com/example/partlookup/ui/MainScreen.kt:74-87 | the importer a file goes to; KindOfCases states each case |
| MainScreen.KindOfCases | app/src/main/java/com/example/partlookup/ui/MainScreen.kt:74-87 | CSV exactly when the extension is "csv" or the MIME type is a CSV type, even if XLSX also matches; XLSX exactly when only XLSX matches; otherwise unsupported |
| MainScreen.KindExamples | app/src/main/java/com/example/partlookup/ui/MainScreen.kt:51-82 | "x.CSV" goes to CSV whatever its MIME type; "Unknown file" with no MIME type is unsupported |
| MainScreen.ResultView | app/src/main/java/com/example/partlookup/ui/MainScreen.kt:310-328 | the card shown under the buttons; ResultViewCases states each case |
| MainScreen.ResultViewCases | app/src/main/java/com/example/partlookup/ui/MainScreen.kt:310-328 | no card while the scanner is open, for Initial or for Success(null); otherwise progress for Loading, details for Success(part), error card for Error |
| MainScreen.ClassifyLine | app/src/main/java/com/example/partlookup/ui/MainScreen.kt:347-392 | empty lines dropped; lines starting "Part details" are titles; other lines with ':' become label (the text before the first ':') and trimmed value; lines without ':' are shown verbatim |
| MainScreen.DescriptionView | app/src/main/java/com/example/partlookup/ui/MainScreen.kt:347-394 | the entries PartDetailsCard shows for a description, in line order; DescriptionOfLines and DescriptionEntriesFromLines state its contents |
| MainScreen.DescriptionOfLines | app/src/main/java/com/example/partlookup/ui/MainScreen.kt:347 | a description made of newline-free lines is classified line by line, with at most one entry per line |
| MainScreen.DescriptionEntriesFromLines | app/src/main/java/com/example/partlookup/ui/MainScreen.kt:347-348 | every entry shown comes from a non-empty line of the description |
| MainScreen.MainScreenState.constructor | app/src/main/java/com/example/partlookup/ui/MainScreen.kt:39-41 | the remembered defaults: the scanner is closed, the typed number is empty and no file name is known |
| MainScreen.MainScreenState.OnFilePicked | app/src/main/java/com/example/partlookup/ui/MainScreen.kt:45-89 | a null uri does nothing; otherwise the name (or "Unknown file") is remembered and the kind follows the extension and MIME type; CSV runs the import, anything other than CSV or XLSX runs searchPart(""); XLSX calls importXlsx, which is not modelled |
| MainScreen.MainScreenState.OnBarcodeDetected | app/src/main/java/com/example/partlookup/ui/MainScreen.kt:116-120 | the detected value is looked up and the scanner closes |
| MainScreen.MainScreenState.OnScannerError | app/src/main/java/com/example/partlookup/ui/MainScreen.kt:121-124 | the scanner closes |
| MainScreen.MainScreenState.OnManualInput | app/src/main/java/com/example/partlookup/ui/MainScreen.kt:266-270 | the typed text is remembered and the scanner closes |
| MainScreen.MainScreenState.OnSearchClicked | app/src/main/java/com/example/partlookup/ui/MainScreen.kt:280-285 | the typed number is looked up and the scanner closes |
| MainScreen.MainScreenState.OnScanClicked | app/src/main/java/com/example/partlookup/ui/MainScreen.kt:298 | the scanner opens and no result card is shown |
| MainScreen.ScannedLookup | app/src/main/java/com/example/partlookup/ui/MainScreen.kt:116-118 | a scanned "PP4123" is looked up, after both normalisations, under "4123" |
| Text.Split | app/src/main/java/com/example/partlookup/ui/PartLookupViewModel.kt:91 | split on one character gives at least one piece, none containing the separator |
| Text.JoinSplit | app/src/main/java/com/example/partlookup/ui/PartLookupViewModel.kt:91 | joining the pieces of a split with the separator gives back the string |
| Text.SplitJoin | app/src/main/java/com/example/partlookup/ui/MainScreen.kt:347 | splitting separator-free pieces joined by the separator gives back the pieces |
| Text.SplitAtFirst | app/src/main/java/com/example/partlookup/ui/PartLookupViewModel.kt:91 | a split is the text before the first separator followed by the split of the rest; no separator gives one piece |
| Text.SplitFields | app/src/main/java/com/example/partlookup/ui/PartLookupViewModel.kt:91-92 | there are two pieces or more exactly when the separator occurs; the first two pieces run to the first and second separators |
| Text.IsWhitespace | app/src/main/java/com/example/partlookup/ui/PartLookupViewModel.kt:95-96 | Kotlin's Char.isWhitespace, which trim() uses: Java's Character.isWhitespace or Character.isSpaceChar, listed by code point |
| Text.Trim | app/src/main/java/com/example/partlookup/ui/PartLookupViewModel.kt:95-96 | trim's result is a slice of the input with only whitespace before and after it, and it neither starts nor ends with whitespace, which fixes it |
| Text.TrimBounds | app/src/main/java/com/example/partlookup/ui/PartLookupViewModel.kt:95-96 | the bounds trim settles on: only whitespace lies between the old and the new bounds, and a non-empty range has non-whitespace at both ends |
| Text.TrimKeeps | app/src/main/java/com/example/partlookup/ui/PartLookupViewModel.kt:95-96 | a string that neither starts nor ends with whitespace is its own trim |
| Text.TrimIdempotent | app/src/main/java/com/example/partlookup/ui/PartLookupViewModel.kt:95-96 | trimming twice is trimming once |
| Text.EqualsIgnoreCase | app/src/main/java/com/example/partlookup/ui/PartLookupViewModel.kt:85 | equality of two strings ignoring the case of ASCII letters; EqualsIgnoreCaseLower ties it to lowering |
| Text.EqualsIgnoreCaseLower | app/src/main/java/com/example/partlookup/ui/PartLookupViewModel.kt:85 | case-insensitive equality is equality after lowering both strings |
| Text.Lower | app/src/main/java/com/example/partlookup/ui/MainScreen.kt:66 | lowering keeps the length and lowers each ASCII letter |
| Text.LastIndexOf | app/src/main/java/com/example/partlookup/ui/MainScreen.kt:66 | the index is an occurrence with none after it |
| Text.IndexOf | app/src/main/java/com/example/partlookup/ui/MainScreen.kt:359 | the index is an occurrence with none before it |
| Sequences.FilterMapAppend | app/src/main/java/com/example/partlookup/ui/PartLookupViewModel.kt:90-102 | lines are parsed one at a time: a skipped line does not abort or disturb the others |
| Sequences.FilterMapMembers | app/src/main/java/com/example/partlookup/ui/PartLookupViewModel.kt:90-102 | a record is collected exactly when some line yields it; no more records than lines |

## Left out

- Camera, ML Kit decoding, the permission launcher, the tone generator and
  the torch are platform I/O. The decoder's result is an input of
  `ScannerGate.OnBarcodes`.
- The float test of whether the barcode's box lies inside the frame, and the
  presence of a box, are one boolean input, `inFrame`.
- ui/components/BarcodeScanner.kt is not part of this model. The main screen
  uses the scanner in the `ui` package.
- The Room singleton, the database builder and destructive migration
  (data/PartDatabase.kt) are library code and concurrency.
- Coroutines and `StateFlow` observation are not modelled. Every
  view-model call runs to completion in sequence. The state history stands
  for what an observer could see.
- The clear-and-insert of an import is one sequential step, not a
  transaction. An exception thrown by `deleteAllParts` or
  `insertParts` is not modelled: it could leave a half-replaced table.
  Only exceptions while opening or reading the file (`ReadFailure`) are
  modelled.
- Content-resolver streams and cursors are not modelled.
  - A file is the sequence of its lines, already split by the reader.
  - A picked file's display name and MIME type are inputs.
  - A null cursor appears as an absent display name.
- MainScreen.MainScreenState.OnFilePicked: PartLookupViewModel.kt defines
  no `importXlsx`, which MainScreen.kt calls for an XLSX file. The method
  reports the XLSX kind and promises nothing about the view model in that
  case.
- PartDaoModel.PartDao.GetAllParts: the DAO returns a `Flow` that emits the
  list again after every change to the table. The model returns one snapshot
  of the table at the time of the call.
- The `Factory` reflection, logging, Compose layout, styling and the Canvas
  overlay are not modelled.
- Each time the scanner is shown again it is a new scanner with fresh state.
  The screen does not hold a `ScannerGate`.
- Text.EqualsIgnoreCase: folds ASCII letters only. Kotlin also matches some
  non-ASCII characters whose upper case is an ASCII letter, such as the
  dotless 'ı' against 'i'.
- MainScreen.FileExtension: lowers ASCII letters only, where Kotlin's
  `lowercase()` lowers every Unicode letter.
- `quantity` is a 32-bit `Int32`. No operation computes with it.
