/**
 * The data-management screen: exports the assets or the categories as a file and counts the
 * records of an imported file, keeping a list of jobs with their status and progress.
 */
module DataManagement {
  import opened Wrappers
  import opened Strings
  import opened Seqs
  import opened Types
  import AssetsInUse

  datatype JobKind = ExportJob | ImportJob
  datatype JobStatus = Pending | Processing | Completed | Failed

  datatype Job = Job(
    id: string,
    kind: JobKind,
    format: string,
    status: JobStatus,
    progress: int,
    createdAt: int,
    fileName: Option<string>,
    recordCount: Option<int>,
    error: Option<string>)

  /** A job as it is listed on start: processing, at progress 0. */
  function NewJob(id: string, kind: JobKind, format: string, now: int): (r: Job)
    ensures r.id == id && r.kind == kind && r.format == format && r.createdAt == now
    ensures r.status == Processing && r.progress == 0
    ensures r.fileName.None? && r.recordCount.None? && r.error.None?
  {
    Job(id, kind, format, Processing, 0, now, None, None, None)
  }

  // ---------------------------------------------------------------- job list updates

  /** `prev.map(job => job.id === jobId ? { ...job, progress: p } : job)`. */
  function SetProgress(jobs: seq<Job>, id: string, p: int): (r: seq<Job>)
    ensures |r| == |jobs|
    ensures forall i :: 0 <= i < |jobs| && jobs[i].id == id ==> r[i] == jobs[i].(progress := p)
    ensures forall i :: 0 <= i < |jobs| && jobs[i].id != id ==> r[i] == jobs[i]
  {
    Map(jobs, (j: Job) => if j.id == id then j.(progress := p) else j)
  }

  /** The job with the id completes, with the record count and, for an export, the file name. */
  function Complete(jobs: seq<Job>, id: string, fileName: Option<string>, count: int): (r: seq<Job>)
    ensures |r| == |jobs|
    ensures forall i :: 0 <= i < |jobs| && jobs[i].id == id ==>
      r[i] == jobs[i].(status := Completed, recordCount := Some(count), fileName := if fileName.Some? then fileName else jobs[i].fileName)
    ensures forall i :: 0 <= i < |jobs| && jobs[i].id != id ==> r[i] == jobs[i]
  {
    Map(jobs, (j: Job) =>
      if j.id == id then j.(status := Completed, recordCount := Some(count), fileName := if fileName.Some? then fileName else j.fileName)
      else j)
  }

  /** The message a job that could not be processed shows. */
  const FailureMessage: string := "Failed to process file"

  /** The job with the id fails with the message. */
  function Fail(jobs: seq<Job>, id: string): (r: seq<Job>)
    ensures |r| == |jobs|
    ensures forall i :: 0 <= i < |jobs| && jobs[i].id == id ==> r[i] == jobs[i].(status := Failed, error := Some(FailureMessage))
    ensures forall i :: 0 <= i < |jobs| && jobs[i].id != id ==> r[i] == jobs[i]
  {
    Map(jobs, (j: Job) => if j.id == id then j.(status := Failed, error := Some(FailureMessage)) else j)
  }

  /** Only the last of a run of progress updates is seen. */
  lemma SetProgressLast(jobs: seq<Job>, id: string, p: int, q: int)
    ensures SetProgress(SetProgress(jobs, id, p), id, q) == SetProgress(jobs, id, q)
  {
  }

  /** A freshly started job is first in the list, and the older jobs follow unchanged. */
  lemma StartedFirst(jobs: seq<Job>, job: Job, p: int)
    requires forall i :: 0 <= i < |jobs| ==> jobs[i].id != job.id
    ensures SetProgress([job] + jobs, job.id, p) == [job.(progress := p)] + jobs
  {
    var r := SetProgress([job] + jobs, job.id, p);
    assert forall i :: 1 <= i < |r| ==> r[i] == ([job] + jobs)[i] == jobs[i - 1];
  }

  // ---------------------------------------------------------------- export

  /** `${x}` of an optional text: the text, or "undefined". */
  function Shown(x: Option<string>): (r: string)
    ensures x.Some? ==> r == x.value
    ensures x.None? ==> r == "undefined"
  {
    if x.Some? then x.value else "undefined"
  }

  const AssetHeader: string := "ID,Name,Category," + "Status,Location," + "Purchase Date,Value"
  const CategoryHeader: string := "ID,Name,Description,Color"

  /**
   * One asset's line. An asset record has no `category` and no `value` member, so those two
   * columns always read "undefined"; the purchase date is printed as stored, given by dateText.
   */
  function AssetLine(a: Asset, dateText: Option<int> -> string): (r: string)
    ensures |r| > |a.id| && r[..|a.id|] == a.id && r[|a.id|] == ','
    ensures |r| >= 10 && r[|r| - 10..] == ",undefined"
  {
    a.id + ",\"" + a.name + "\",\"undefined\",\"" + Shown(a.status) + "\",\"" + Shown(a.location) + "\",\"" + dateText(a.purchaseDate) + "\",undefined"
  }

  /** One category's line; a category has no `color` member, so the last column reads "undefined". */
  function CategoryLine(c: AssetCategory): (r: string)
    ensures |r| > |c.id| && r[..|c.id|] == c.id && r[|c.id|] == ','
    ensures |r| >= 12 && r[|r| - 12..] == ",\"undefined\""
  {
    c.id + ",\"" + c.name + "\",\"" + Shown(c.description) + "\",\"undefined\""
  }

  /** The header, a newline, then the lines joined by newlines. */
  function CsvText(header: string, lines: seq<string>): string {
    header + "\n" + Join(lines, '\n')
  }

  /** Read back line by line, a CSV text is its header followed by its lines (one empty line when there are none). */
  lemma CsvTextLines(header: string, lines: seq<string>)
    requires '\n' !in header && forall i :: 0 <= i < |lines| ==> '\n' !in lines[i]
    ensures Split(CsvText(header, lines), '\n') == [header] + (if |lines| == 0 then [""] else lines)
  {
    var body := if |lines| == 0 then [""] else lines;
    var parts := [header] + body;
    assert parts[1..] == body;
    assert Join(body, '\n') == Join(lines, '\n');
    assert Join(parts, '\n') == CsvText(header, lines);
    SplitJoin(parts, '\n');
  }

  function AssetsCsv(assets: seq<Asset>, dateText: Option<int> -> string): string {
    CsvText(AssetHeader, Map(assets, (a: Asset) => AssetLine(a, dateText)))
  }

  function CategoriesCsv(categories: seq<AssetCategory>): string {
    CsvText(CategoryHeader, Map(categories, CategoryLine))
  }

  /** The asset export has the header line and then one line per asset, in list order. */
  lemma AssetsCsvLines(assets: seq<Asset>, dateText: Option<int> -> string)
    requires |assets| > 0
    requires forall i :: 0 <= i < |assets| ==> '\n' !in AssetLine(assets[i], dateText)
    ensures var lines := Split(AssetsCsv(assets, dateText), '\n');
      |lines| == |assets| + 1 && lines[0] == AssetHeader
      && forall i :: 0 <= i < |assets| ==> lines[i + 1] == AssetLine(assets[i], dateText)
  {
    var lines := Map(assets, (a: Asset) => AssetLine(a, dateText));
    assert forall i :: 0 <= i < |lines| ==> lines[i] == AssetLine(assets[i], dateText);
    assert '\n' !in "ID,Name,Category," && '\n' !in "Status,Location," && '\n' !in "Purchase Date,Value";
    CsvTextLines(AssetHeader, lines);
  }

  /** The first comma-separated cell of an asset's line is its id, when the id holds no comma. */
  lemma AssetLineStartsWithId(a: Asset, dateText: Option<int> -> string)
    requires ',' !in a.id
    ensures Split(AssetLine(a, dateText), ',')[0] == a.id
  {
    var t := AssetLine(a, dateText)[|a.id|..];
    assert AssetLine(a, dateText) == a.id + t;
    assert t[0] == ',';
    SplitPrefix(a.id, t, ',');
    assert a.id + Split(t, ',')[0] == a.id;
  }

  /** The file's content: CSV for "csv", the JSON text for "json", and nothing for any other format. */
  function ExportContent(format: string, kind: string, assets: seq<Asset>, categories: seq<AssetCategory>,
                         dateText: Option<int> -> string, jsonText: string): (r: string)
    ensures format == "csv" && kind == "assets" ==> r == AssetsCsv(assets, dateText)
    ensures format == "csv" && kind != "assets" ==> r == CategoriesCsv(categories)
    ensures format == "json" ==> r == jsonText
    ensures format != "csv" && format != "json" ==> r == ""
  {
    if format == "csv" then (if kind == "assets" then AssetsCsv(assets, dateText) else CategoriesCsv(categories))
    else if format == "json" then jsonText
    else ""
  }

  /** `data.length`: the number of assets, or of categories for any other kind. */
  function RecordCount(kind: string, assets: seq<Asset>, categories: seq<AssetCategory>): (r: nat)
    ensures kind == "assets" ==> r == |assets|
    ensures kind != "assets" ==> r == |categories|
  {
    if kind == "assets" then |assets| else |categories|
  }

  function ExportFileName(kind: string, today: string, format: string): string {
    kind + "_export_" + today + "." + format
  }

  /** The job list after an export: the new job first, at progress 100, completed with its file and count. */
  function ExportedJobs(jobs: seq<Job>, id: string, format: string, now: int, fileName: string, count: nat): seq<Job> {
    Complete(SetProgress([NewJob(id, ExportJob, format, now)] + jobs, id, 100), id, Some(fileName), count)
  }

  /**
   * When the clock's id is new, an export leaves the older jobs as they were, after one new first
   * job that is complete at progress 100 with the file name and the record count.
   */
  lemma ExportedJobsShape(jobs: seq<Job>, id: string, format: string, now: int, fileName: string, count: nat)
    requires forall i :: 0 <= i < |jobs| ==> jobs[i].id != id
    ensures var r := ExportedJobs(jobs, id, format, now, fileName, count);
      |r| == |jobs| + 1 && r[1..] == jobs
      && r[0] == Job(id, ExportJob, format, Completed, 100, now, Some(fileName), Some(count), None)
  {
    var job := NewJob(id, ExportJob, format, now);
    StartedFirst(jobs, job, 100);
    var r := ExportedJobs(jobs, id, format, now, fileName, count);
    assert forall i :: 1 <= i < |r| ==> r[i] == jobs[i - 1];
  }

  // ---------------------------------------------------------------- import

  datatype ImportFile = ImportFile(name: string, text: string)

  /** What `JSON.parse` gives: an array of so many elements, or something else. */
  datatype JsonShape = JsonArray(length: nat) | JsonOther

  /** `name.split(".").pop() || "unknown"`: the text after the last dot, or "unknown" when that is empty. */
  function FormatOf(name: string): (r: string)
    ensures r != "" && '.' !in r
    ensures '.' !in name && name != "" ==> r == name
  {
    var parts := Split(name, '.');
    SplitSingle(name, '.');
    var last := parts[|parts| - 1];
    if last != "" then last else "unknown"
  }

  /** A file named base.ext with a non-empty extension is of format ext. */
  lemma FormatOfExtension(base: string, ext: string)
    requires ext != "" && '.' !in ext
    ensures FormatOf(base + "." + ext) == ext
  {
    SplitAppendLast(base, ext, '.');
    assert base + "." + ext == base + ['.'] + ext;
  }

  predicate EndsWith(s: string, suffix: string) {
    |s| >= |suffix| && s[|s| - |suffix|..] == suffix
  }

  function NonBlankLine(line: string): bool {
    Trim(line) != ""
  }

  /** `headers.indexOf(x)` for a header that is present. */
  function IndexOf(headers: seq<string>, x: string): (r: nat)
    requires x in headers
    ensures r < |headers| && headers[r] == x
    ensures forall j :: 0 <= j < r ==> headers[j] != x
    decreases |headers|
  {
    if headers[0] == x then 0
    else
      assert x in headers[1..];
      1 + IndexOf(headers[1..], x)
  }

  /** The cell at an index, or the empty text past the end of the row (undefined, which is false). */
  function CellAt(values: seq<string>, k: nat): (r: string)
    ensures k < |values| ==> r == values[k]
    ensures k >= |values| ==> r == ""
  {
    if k < |values| then values[k] else ""
  }

  /** The headers carry both "Name" and "Category". */
  predicate HasRecordHeaders(headers: seq<string>) {
    "Name" in headers && "Category" in headers
  }

  /** A data line counts when both its Name and its Category cells are non-empty. */
  predicate IsRecord(headers: seq<string>, line: string)
    requires HasRecordHeaders(headers)
  {
    var values := AssetsInUse.RowCells(line);
    CellAt(values, IndexOf(headers, "Name")) != "" && CellAt(values, IndexOf(headers, "Category")) != ""
  }

  function RecordLine(headers: seq<string>): string -> bool
    requires HasRecordHeaders(headers)
  {
    (line: string) => IsRecord(headers, line)
  }

  /** The records a CSV file's content holds: the data lines that count, after the first non-blank line. */
  function CsvRecords(lines: seq<string>): (r: nat)
    requires |lines| > 0
    ensures r <= |lines| - 1
    ensures !HasRecordHeaders(AssetsInUse.RowCells(lines[0])) ==> r == 0
  {
    var headers := AssetsInUse.RowCells(lines[0]);
    if HasRecordHeaders(headers) then Count(lines[1..], RecordLine(headers)) else 0
  }

  /** One more data line adds one to the count exactly when its Name and Category cells are filled. */
  lemma RecordStep(lines: seq<string>, i: nat, headers: seq<string>)
    requires 1 <= i < |lines| && HasRecordHeaders(headers)
    ensures var values := AssetsInUse.RowCells(lines[i]);
      Count(lines[1..i + 1], RecordLine(headers)) == Count(lines[1..i], RecordLine(headers))
        + (if CellAt(values, IndexOf(headers, "Name")) != "" && CellAt(values, IndexOf(headers, "Category")) != "" then 1 else 0)
  {
    CountSliceStep(lines, 1, i, RecordLine(headers));
    assert RecordLine(headers)(lines[i]) == IsRecord(headers, lines[i]);
  }

  /**
   * The loop of `handleImport` over the non-blank lines after the header: it counts the lines
   * whose Name and Category cells are both filled, and none without those headers.
   */
  method CountCsvRecords(lines: seq<string>) returns (count: nat)
    requires |lines| > 0
    ensures count == CsvRecords(lines)
  {
    var headers := AssetsInUse.RowCells(lines[0]);
    count := 0;
    var i := 1;
    while i < |lines|
      invariant 1 <= i <= |lines|
      invariant HasRecordHeaders(headers) ==> count == Count(lines[1..i], RecordLine(headers))
      invariant !HasRecordHeaders(headers) ==> count == 0
    {
      var values := AssetsInUse.RowCells(lines[i]);
      if "Name" in headers && "Category" in headers {
        var nameIndex := IndexOf(headers, "Name");
        var categoryIndex := IndexOf(headers, "Category");
        RecordStep(lines, i, headers);
        if CellAt(values, nameIndex) != "" && CellAt(values, categoryIndex) != "" {
          count := count + 1;
        }
      }
      i := i + 1;
    }
    assert lines[1..|lines|] == lines[1..];
  }

  /**
   * The count a completed import records, or None when processing throws: a CSV file with no
   * non-blank line (its header line is missing) or a JSON file that does not parse. A JSON
   * array counts its elements, any other JSON value 0, and a file of another type 0.
   */
  function ImportCount(file: ImportFile, parseJson: string -> Option<JsonShape>): (r: Option<nat>)
    ensures EndsWith(file.name, ".csv") ==> (r.None? <==> Filter(Split(file.text, '\n'), NonBlankLine) == [])
    ensures !EndsWith(file.name, ".csv") && EndsWith(file.name, ".json") ==>
      (r.None? <==> parseJson(file.text).None?)
      && (parseJson(file.text) == Some(JsonOther) ==> r == Some(0))
      && (forall n: nat :: parseJson(file.text) == Some(JsonArray(n)) ==> r == Some(n))
    ensures !EndsWith(file.name, ".csv") && !EndsWith(file.name, ".json") ==> r == Some(0)
  {
    if EndsWith(file.name, ".csv") then
      var lines := Filter(Split(file.text, '\n'), NonBlankLine);
      if |lines| > 0 then Some(CsvRecords(lines)) else None
    else if EndsWith(file.name, ".json") then
      var data := parseJson(file.text);
      if data.None? then None
      else if data.value.JsonArray? then Some(data.value.length)
      else Some(0)
    else Some(0)
  }

  /** Blank lines play no part: adding blank lines anywhere leaves a CSV import's count as it was. */
  lemma BlankLinesIgnored(a: seq<string>, blank: seq<string>, b: seq<string>)
    requires forall i :: 0 <= i < |blank| ==> Trim(blank[i]) == ""
    ensures Filter(a + blank + b, NonBlankLine) == Filter(a + b, NonBlankLine)
  {
    FilterNone(blank, NonBlankLine);
    assert Filter(a + blank, NonBlankLine) == Filter(a, NonBlankLine) by {
      FilterAppend(a, blank, NonBlankLine);
    }
    FilterAppend(a + blank, b, NonBlankLine);
    FilterAppend(a, b, NonBlankLine);
  }

  /** The job list after an import: the new job first, at progress 100, then completed with its count or failed. */
  function ImportedJobs(jobs: seq<Job>, id: string, file: ImportFile, now: int, outcome: Option<nat>): seq<Job> {
    var started := SetProgress([NewJob(id, ImportJob, FormatOf(file.name), now)] + jobs, id, 100);
    if outcome.Some? then Complete(started, id, None, outcome.value) else Fail(started, id)
  }

  /**
   * When the clock's id is new, an import leaves the older jobs as they were, after one new first
   * job at progress 100 that has completed with the count or failed with the message.
   */
  lemma ImportedJobsShape(jobs: seq<Job>, id: string, file: ImportFile, now: int, outcome: Option<nat>)
    requires forall i :: 0 <= i < |jobs| ==> jobs[i].id != id
    ensures var r := ImportedJobs(jobs, id, file, now, outcome);
      |r| == |jobs| + 1 && r[1..] == jobs
      && r[0].id == id && r[0].kind == ImportJob && r[0].format == FormatOf(file.name) && r[0].progress == 100
      && r[0].createdAt == now && r[0].fileName.None?
      && (outcome.Some? ==> r[0].status == Completed && r[0].recordCount == Some(outcome.value) && r[0].error.None?)
      && (outcome.None? ==> r[0].status == Failed && r[0].error == Some(FailureMessage) && r[0].recordCount.None?)
  {
    var job := NewJob(id, ImportJob, FormatOf(file.name), now);
    StartedFirst(jobs, job, 100);
    var r := ImportedJobs(jobs, id, file, now, outcome);
    assert forall i :: 1 <= i < |r| ==> r[i] == jobs[i - 1];
  }

  // ---------------------------------------------------------------- the component

  class DataManagementPanel {
    var exportFormat: string
    var exportType: string
    var importFile: Option<ImportFile>
    var jobs: seq<Job>
    var isProcessing: bool

    constructor ()
      ensures exportFormat == "csv" && exportType == "assets" && importFile.None?
      ensures jobs == [] && !isProcessing
    {
      exportFormat := "csv";
      exportType := "assets";
      importFile := None;
      jobs := [];
      isProcessing := false;
    }

    /**
     * The simulated processing loop of both handlers: the job's progress is set to 0, step, 2 step,
     * ... up to 100 (steps of 10 on export, of 20 on import) (the timer between the steps is left out); only the last value remains.
     */
    method RunProgress(jobId: string, step: nat)
      requires step == 10 || step == 20
      modifies this`jobs
      ensures jobs == SetProgress(old(jobs), jobId, 100)
    {
      var start := jobs;
      var i := 0;
      while i <= 100
        invariant 0 <= i <= 100 + step
        invariant i % 10 == 0
        invariant step == 20 ==> i % 20 == 0
        invariant i == 0 ==> jobs == start
        invariant i > 0 ==> jobs == SetProgress(start, jobId, i - step)
      {
        if i > 0 {
          SetProgressLast(start, jobId, i - step, i);
        }
        jobs := SetProgress(jobs, jobId, i);
        i := i + step;
      }
    }

    /**
     * `handleExport`: the new job goes first, its progress runs 0, 10, ..., 100, the content is
     * built and the job completes with the file name and the number of records. The clock gives
     * the id and the start time, today's ISO date the file name.
     */
    method Export(clock: nat, now: int, today: string, assets: seq<Asset>, categories: seq<AssetCategory>,
                  dateText: Option<int> -> string, jsonText: string) returns (content: string)
      modifies this`jobs, this`isProcessing
      ensures content == ExportContent(exportFormat, exportType, assets, categories, dateText, jsonText)
      ensures jobs == ExportedJobs(old(jobs), NatToString(clock), exportFormat, now,
                                   ExportFileName(exportType, today, exportFormat), RecordCount(exportType, assets, categories))
      ensures !isProcessing
    {
      var jobId := NatToString(clock);
      jobs := [NewJob(jobId, ExportJob, exportFormat, now)] + jobs;
      isProcessing := true;
      RunProgress(jobId, 10);
      var fileName := ExportFileName(exportType, today, exportFormat);
      content := ExportContent(exportFormat, exportType, assets, categories, dateText, jsonText);
      jobs := Complete(jobs, jobId, Some(fileName), RecordCount(exportType, assets, categories));
      isProcessing := false;
    }

    /**
     * `handleImport`: without a file nothing happens. Otherwise the new job goes first, its
     * progress runs 0, 20, ..., 100, the records are counted, and the job completes with the count
     * or fails; the file is then cleared. The assets and categories are never touched.
     */
    method Import(clock: nat, now: int, parseJson: string -> Option<JsonShape>)
      modifies this`jobs, this`isProcessing, this`importFile
      ensures importFile.None?
      ensures old(importFile).None? ==> jobs == old(jobs) && isProcessing == old(isProcessing)
      ensures old(importFile).Some? ==> !isProcessing
      ensures old(importFile).Some? ==>
        jobs == ImportedJobs(old(jobs), NatToString(clock), old(importFile).value, now, ImportCount(old(importFile).value, parseJson))
    {
      if importFile.None? {
        return;
      }
      var file := importFile.value;
      isProcessing := true;
      ProcessImport(NatToString(clock), file, now, parseJson);
      isProcessing := false;
      importFile := None;
    }

    /**
     * The job-list part of `handleImport`: the new job goes first, runs to 100, then completes with
     * the count or fails where counting threw.
     */
    method ProcessImport(jobId: string, file: ImportFile, now: int, parseJson: string -> Option<JsonShape>)
      modifies this`jobs
      ensures jobs == ImportedJobs(old(jobs), jobId, file, now, ImportCount(file, parseJson))
    {
      jobs := [NewJob(jobId, ImportJob, FormatOf(file.name), now)] + jobs;
      RunProgress(jobId, 20);
      var outcome := CountImported(file, parseJson);
      if outcome.Some? {
        jobs := Complete(jobs, jobId, None, outcome.value);
      } else {
        jobs := Fail(jobs, jobId);
      }
    }
  }

  /** The counting part of `handleImport`, None where it throws. */
  method CountImported(file: ImportFile, parseJson: string -> Option<JsonShape>) returns (outcome: Option<nat>)
    ensures outcome == ImportCount(file, parseJson)
  {
    if EndsWith(file.name, ".csv") {
      var lines := Filter(Split(file.text, '\n'), NonBlankLine);
      if |lines| == 0 {
        outcome := None;
      } else {
        var n := CountCsvRecords(lines);
        outcome := Some(n);
      }
    } else if EndsWith(file.name, ".json") {
      var data := parseJson(file.text);
      if data.None? {
        outcome := None;
      } else if data.value.JsonArray? {
        outcome := Some(data.value.length);
      } else {
        outcome := Some(0);
      }
    } else {
      outcome := Some(0);
    }
  }
}
