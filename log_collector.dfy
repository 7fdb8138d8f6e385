/** The log flow's collector, `lambda_log_collector`: the log files under
    a prefix are listed (non-empty `.log` and `.txt` objects, newest first),
    the first ten are read and their lines classified by level, and the
    totals become the aggregated statistics and the evidence.

    The listing (`None` when it raised), the reading of an object (`None`
    when it raised, else its text), the clock (`stamp` for the default
    batch id, `now` for the evidence) are parameters. */
module LogCollector {
  import opened Results
  import opened Text
  import opened JsonValue
  import opened StringOrder

  /** An entry of the object listing. */
  datatype S3Object = S3Object(key: string, size: int, lastModified: string)

  /** A log file as `list_log_files` returns it. */
  datatype LogFile = LogFile(key: string, size: int, lastModified: string)

  const MaxFiles: nat := 10

  /** The listing filter: a `.log` or `.txt` name and a positive size. */
  predicate IsLogFile(o: S3Object) {
    (EndsWith(o.key, ".log") || EndsWith(o.key, ".txt")) && o.size > 0
  }

  /** The files the filter keeps, in listing order. */
  function Kept(objects: seq<S3Object>): (fs: seq<LogFile>)
    ensures |fs| <= |objects|
    decreases |objects|
  {
    if objects == [] then []
    else
      var o := objects[|objects| - 1];
      Kept(objects[..|objects| - 1]) + (if IsLogFile(o) then [LogFile(o.key, o.size, o.lastModified)] else [])
  }

  /** `f` is at least as new as `g` (timestamps are ISO strings). */
  predicate NotOlder(f: LogFile, g: LogFile) {
    !LexLess(f.lastModified, g.lastModified)
  }

  predicate NewestFirst(fs: seq<LogFile>) {
    forall i, j :: 0 <= i < j < |fs| ==> NotOlder(fs[i], fs[j])
  }

  /** Places `f` after every file at least as new, so files with equal
      timestamps keep their order (Python's sort is stable). */
  function InsertNewest(f: LogFile, sorted: seq<LogFile>): (r: seq<LogFile>)
    ensures multiset(r) == multiset(sorted) + multiset{f}
    decreases |sorted|
  {
    if sorted == [] then [f]
    else if LexLess(sorted[0].lastModified, f.lastModified) then [f] + sorted
    else
      assert sorted == [sorted[0]] + sorted[1..];
      [sorted[0]] + InsertNewest(f, sorted[1..])
  }

  /** `sorted(files, key=last_modified, reverse=True)` */
  function SortNewest(fs: seq<LogFile>): (r: seq<LogFile>)
    ensures multiset(r) == multiset(fs)
    decreases |fs|
  {
    if fs == [] then []
    else
      assert fs == fs[..|fs| - 1] + [fs[|fs| - 1]];
      InsertNewest(fs[|fs| - 1], SortNewest(fs[..|fs| - 1]))
  }

  lemma {:induction false} InsertNewestSorted(f: LogFile, sorted: seq<LogFile>)
    requires NewestFirst(sorted)
    ensures NewestFirst(InsertNewest(f, sorted))
    decreases |sorted|
  {
    if sorted != [] {
      var r := InsertNewest(f, sorted);
      if LexLess(sorted[0].lastModified, f.lastModified) {
        forall j | 0 <= j < |sorted|
          ensures NotOlder(f, sorted[j])
        {
          if j > 0 && LexLess(f.lastModified, sorted[j].lastModified) {
            LexLessTransitive(sorted[0].lastModified, f.lastModified, sorted[j].lastModified);
          }
          if j == 0 {
            LexLessAsymmetric(sorted[0].lastModified, f.lastModified);
          }
        }
      } else {
        var rest := InsertNewest(f, sorted[1..]);
        InsertNewestSorted(f, sorted[1..]);
        forall j | 0 <= j < |rest|
          ensures NotOlder(sorted[0], rest[j])
        {
          assert rest[j] in multiset(rest);
          if rest[j] != f {
            assert rest[j] in multiset(sorted[1..]);
            var k :| 0 <= k < |sorted[1..]| && sorted[1..][k] == rest[j];
            assert sorted[k + 1] == rest[j];
          }
        }
        assert r == [sorted[0]] + rest;
      }
    }
  }

  lemma {:induction false} SortNewestSorted(fs: seq<LogFile>)
    ensures NewestFirst(SortNewest(fs))
    decreases |fs|
  {
    if fs != [] {
      SortNewestSorted(fs[..|fs| - 1]);
      InsertNewestSorted(fs[|fs| - 1], SortNewest(fs[..|fs| - 1]));
    }
  }

  /** `list_log_files(bucket, prefix)`: a failed listing gives nothing. */
  function ListLogFiles(listing: Option<seq<S3Object>>): seq<LogFile> {
    if listing.None? then [] else SortNewest(Kept(listing.value))
  }

  /** The listed files are exactly the non-empty `.log`/`.txt` objects,
      each once, newest first. */
  lemma {:induction false} ListLogFilesMeaning(listing: Option<seq<S3Object>>)
    ensures listing.None? ==> ListLogFiles(listing) == []
    ensures listing.Some? ==> multiset(ListLogFiles(listing)) == multiset(Kept(listing.value))
    ensures NewestFirst(ListLogFiles(listing))
    ensures forall f :: f in ListLogFiles(listing) ==>
      exists o :: o in listing.value && IsLogFile(o) && f == LogFile(o.key, o.size, o.lastModified)
  {
    if listing.Some? {
      SortNewestSorted(Kept(listing.value));
      forall f | f in ListLogFiles(listing)
        ensures exists o :: o in listing.value && IsLogFile(o) && f == LogFile(o.key, o.size, o.lastModified)
      {
        assert f in multiset(Kept(listing.value));
        KeptFrom(listing.value, f);
      }
    }
  }

  lemma {:induction false} KeptFrom(objects: seq<S3Object>, f: LogFile)
    requires f in Kept(objects)
    ensures exists o :: o in objects && IsLogFile(o) && f == LogFile(o.key, o.size, o.lastModified)
    decreases |objects|
  {
    var n := |objects| - 1;
    var o := objects[n];
    if IsLogFile(o) && f == LogFile(o.key, o.size, o.lastModified) {
      assert o in objects;
    } else {
      KeptFrom(objects[..n], f);
      var p :| p in objects[..n] && IsLogFile(p) && f == LogFile(p.key, p.size, p.lastModified);
      assert p in objects;
    }
  }

  /** The filtering loop of `list_log_files`. */
  method ListLoop(objects: seq<S3Object>) returns (fs: seq<LogFile>)
    ensures fs == Kept(objects)
  {
    fs := [];
    for i := 0 to |objects|
      invariant fs == Kept(objects[..i])
    {
      assert objects[..i + 1][..i] == objects[..i];
      var o := objects[i];
      if IsLogFile(o) {
        fs := fs + [LogFile(o.key, o.size, o.lastModified)];
      }
    }
    assert objects[..|objects|] == objects;
  }

  /** The level a line is counted under; `Blank` lines are not counted. */
  datatype Level = Error | Warn | Info | Debug | Other | Blank

  function LevelOf(line: string): (l: Level)
    ensures l == Error <==> Contains(Upper(line), "ERROR")
    ensures l == Warn ==> Contains(Upper(line), "WARN")
    ensures l == Info ==> Contains(Upper(line), "INFO")
    ensures l == Debug ==> Contains(Upper(line), "DEBUG")
    ensures l == Other || l == Blank <==>
      !Contains(Upper(line), "ERROR") && !Contains(Upper(line), "WARN")
      && !Contains(Upper(line), "INFO") && !Contains(Upper(line), "DEBUG")
  {
    var up := Upper(line);
    if Contains(up, "ERROR") then Error
    else if Contains(up, "WARN") then Warn
    else if Contains(up, "INFO") then Info
    else if Contains(up, "DEBUG") then Debug
    else if !IsBlank(line) then Other
    else Blank
  }

  /** A line holding a level word in any case is not blank. */
  lemma WordNotBlank(line: string, word: string)
    requires word != [] && 'A' <= word[0] <= 'Z' && Contains(Upper(line), word)
    ensures !IsBlank(line)
  {
    ContainsFirstChar(Upper(line), word);
    var i :| 0 <= i < |Upper(line)| && Upper(line)[i] == word[0];
    assert UpperChar(line[i]) == word[0];
    assert !IsSpace(line[i]);
  }

  /** A line is left uncounted exactly when it is blank. */
  lemma LevelBlank(line: string)
    ensures LevelOf(line) == Blank <==> IsBlank(line)
  {
    if IsBlank(line) {
      if Contains(Upper(line), "ERROR") { WordNotBlank(line, "ERROR"); }
      if Contains(Upper(line), "WARN") { WordNotBlank(line, "WARN"); }
      if Contains(Upper(line), "INFO") { WordNotBlank(line, "INFO"); }
      if Contains(Upper(line), "DEBUG") { WordNotBlank(line, "DEBUG"); }
    }
  }

  /** The `log_levels` counters. */
  datatype Levels = Levels(error: nat, warn: nat, info: nat, debug: nat, other: nat)

  function Count(c: Levels, level: Level): Levels {
    match level
    case Error => c.(error := c.error + 1)
    case Warn => c.(warn := c.warn + 1)
    case Info => c.(info := c.info + 1)
    case Debug => c.(debug := c.debug + 1)
    case Other => c.(other := c.other + 1)
    case Blank => c
  }

  function Classify(lines: seq<string>): Levels
    decreases |lines|
  {
    if lines == [] then Levels(0, 0, 0, 0, 0)
    else Count(Classify(lines[..|lines| - 1]), LevelOf(lines[|lines| - 1]))
  }

  /** `len([line for line in lines if line.strip()])` */
  function NonBlank(lines: seq<string>): nat
    decreases |lines|
  {
    if lines == [] then 0 else NonBlank(lines[..|lines| - 1]) + (if IsBlank(lines[|lines| - 1]) then 0 else 1)
  }

  function Total(c: Levels): nat {
    c.error + c.warn + c.info + c.debug + c.other
  }

  /** Every non-blank line is counted under exactly one level, so the five
      counters add up to the number of non-blank lines. */
  lemma {:induction false} ClassifyTotal(lines: seq<string>)
    ensures Total(Classify(lines)) == NonBlank(lines)
    decreases |lines|
  {
    if lines != [] {
      ClassifyTotal(lines[..|lines| - 1]);
      LevelBlank(lines[|lines| - 1]);
    }
  }

  /** What `process_log_file` reports for one file. */
  datatype FileReport = FileReport(lines: nat, errors: nat, summary: Option<Levels>)

  /** `process_log_file(bucket, key)`, given the text read (`None` when the
      read raised: zero counts and an empty summary). */
  function Process(content: Option<string>): FileReport {
    if content.None? then FileReport(0, 0, None)
    else
      var lines := Split(content.value, '\n');
      var c := Classify(lines);
      FileReport(NonBlank(lines), c.error + c.warn, Some(c))
  }

  /** The line loop of `process_log_file`. */
  method ClassifyLines(lines: seq<string>) returns (c: Levels)
    ensures c == Classify(lines)
  {
    c := Levels(0, 0, 0, 0, 0);
    for i := 0 to |lines|
      invariant c == Classify(lines[..i])
    {
      assert lines[..i + 1][..i] == lines[..i];
      var up := Upper(lines[i]);
      if Contains(up, "ERROR") {
        c := c.(error := c.error + 1);
      } else if Contains(up, "WARN") {
        c := c.(warn := c.warn + 1);
      } else if Contains(up, "INFO") {
        c := c.(info := c.info + 1);
      } else if Contains(up, "DEBUG") {
        c := c.(debug := c.debug + 1);
      } else if !IsBlank(lines[i]) {
        c := c.(other := c.other + 1);
      }
    }
    assert lines[..|lines|] == lines;
  }

  /** The report's line count is the number of non-blank lines, every one
      of them counted under exactly one level, and its error count is the
      ERROR lines plus the WARN lines. */
  lemma ProcessMeaning(content: string)
    ensures var r := Process(Some(content));
      r.summary.Some? && r.lines == Total(r.summary.value)
      && r.errors == r.summary.value.error + r.summary.value.warn
  {
    ClassifyTotal(Split(content, '\n'));
  }

  function LevelsJson(c: Option<Levels>): Json {
    if c.None? then EmptyObj
    else JObj(map["ERROR" := JInt(c.value.error), "WARN" := JInt(c.value.warn), "INFO" := JInt(c.value.info),
                  "DEBUG" := JInt(c.value.debug), "OTHER" := JInt(c.value.other)])
  }

  /** An entry of `processed_logs`. */
  function EntryJson(f: LogFile, r: FileReport): Json {
    JObj(map["file" := JStr(f.key), "size" := JInt(f.size), "lines" := JInt(r.lines), "errors" := JInt(r.errors),
             "summary" := LevelsJson(r.summary)])
  }

  /** The reports of the files processed, in order. */
  function Reports(files: seq<LogFile>, read: string -> Option<string>): (rs: seq<FileReport>)
    ensures |rs| == |files|
  {
    seq(|files|, i requires 0 <= i < |files| => Process(read(files[i].key)))
  }

  function SumLines(rs: seq<FileReport>): nat
    decreases |rs|
  {
    if rs == [] then 0 else SumLines(rs[..|rs| - 1]) + rs[|rs| - 1].lines
  }

  function SumErrors(rs: seq<FileReport>): nat
    decreases |rs|
  {
    if rs == [] then 0 else SumErrors(rs[..|rs| - 1]) + rs[|rs| - 1].errors
  }

  /** The files processed: the first ten of the listing. */
  function FirstFiles(files: seq<LogFile>): (fs: seq<LogFile>)
    ensures |fs| == if |files| <= MaxFiles then |files| else MaxFiles
    ensures fs <= files
  {
    if |files| <= MaxFiles then files else files[..MaxFiles]
  }

  function Location(bucket: Json, prefix: Json): string {
    "s3://" + Show(bucket) + "/" + Show(prefix)
  }

  /** `create_evidence(batch_id, 'log_collect', success, details)` for the
      success path (with counts) and the not-found path (`files == 0`, no
      input location). */
  function EvidenceJson(batchId: Json, success: bool, input: string, files: nat, lines: nat, errors: nat, now: string): (e: Json)
    ensures Field(e, "ok") == JBool(success) && Field(e, "step") == JStr("log_collect")
    ensures Field(Field(e, "input"), "files") == JInt(files) && Field(Field(e, "output"), "lines") == JInt(lines)
  {
    JObj(map[
      "batch_id" := batchId,
      "test_id" := JStr(""),
      "flow" := JStr("log-aggregation-athena-pipeline"),
      "step" := JStr("log_collect"),
      "input" := JObj(map["s3" := JStr(input), "files" := JInt(files)]),
      "output" := JObj(map["lines" := JInt(lines), "errors" := JInt(errors)]),
      "load" := EmptyObj,
      "ok" := JBool(success),
      "ts" := JStr(now),
      "note" := JStr("ログ収集" + (if success then "成功" else "失敗")
                     + (if files != 0 then ": " + NatToString(files) + "ファイル" else "")
                     + (if lines != 0 then ", " + NatToString(lines) + "行処理" else ""))])
  }

  function NotFoundResponse(batchId: Json, bucket: Json, prefix: Json, now: string): (r: Json)
    ensures Field(r, "statusCode") == JInt(404) && Field(r, "success") == JBool(false)
  {
    JObj(map["statusCode" := JInt(404), "batch_id" := batchId, "success" := JBool(false),
             "error" := JStr("ログファイルが見つかりません: " + Location(bucket, prefix)),
             "evidence" := EvidenceJson(batchId, false, "", 0, 0, 0, now)])
  }

  /** The error rate: error lines over all lines, 0 when there are none. */
  function ErrorRate(errors: nat, lines: nat): Json {
    if lines > 0 then JFloat(errors, lines) else JInt(0)
  }

  function CollectedResponse(batchId: Json, bucket: Json, prefix: Json, all: seq<LogFile>, entries: seq<Json>,
                             lines: nat, errors: nat, now: string): (r: Json)
    ensures Field(r, "statusCode") == JInt(200) && Field(r, "success") == JBool(true)
    ensures Field(r, "processed_logs") == JArr(entries)
    ensures Field(Field(r, "aggregated_stats"), "processed_files") == JInt(|entries|)
    ensures Field(Field(r, "aggregated_stats"), "total_files") == JInt(|all|)
    ensures Field(Field(r, "aggregated_stats"), "total_log_lines") == JInt(lines)
    ensures Field(Field(r, "aggregated_stats"), "error_log_lines") == JInt(errors)
    ensures Field(Field(r, "aggregated_stats"), "error_rate") == ErrorRate(errors, lines)
  {
    JObj(map["statusCode" := JInt(200), "batch_id" := batchId, "success" := JBool(true),
             "source_bucket" := bucket, "log_prefix" := prefix, "processed_logs" := JArr(entries),
             "aggregated_stats" := JObj(map["total_files" := JInt(|all|), "processed_files" := JInt(|entries|),
                                            "total_log_lines" := JInt(lines), "error_log_lines" := JInt(errors),
                                            "error_rate" := ErrorRate(errors, lines)]),
             "evidence" := EvidenceJson(batchId, true, Location(bucket, prefix), |entries|, lines, errors, now)])
  }

  function BatchId(event: map<string, Json>, stamp: string): Json {
    Lookup(event, "batch_id", JStr("LOG_" + stamp))
  }

  function Bucket(event: map<string, Json>): Json {
    Lookup(event, "source_bucket", JStr("log-processing-dev-source"))
  }

  function Prefix(event: map<string, Json>): Json {
    Lookup(event, "log_prefix", JStr("application-logs/"))
  }

  /** The `processed_logs` entries, one per file processed. */
  function Entries(first: seq<LogFile>, reports: seq<FileReport>): (es: seq<Json>)
    requires |reports| == |first|
    ensures |es| == |first|
    ensures forall i :: 0 <= i < |first| ==> es[i] == EntryJson(first[i], reports[i])
  {
    seq(|first|, i requires 0 <= i < |first| => EntryJson(first[i], reports[i]))
  }

  /** `lambda_handler(event, context)` */
  function Collect(event: map<string, Json>, stamp: string, listing: Option<seq<S3Object>>,
                   read: string -> Option<string>, now: string): Json
  {
    var batchId, bucket, prefix := BatchId(event, stamp), Bucket(event), Prefix(event);
    var files := ListLogFiles(listing);
    if files == [] then NotFoundResponse(batchId, bucket, prefix, now)
    else
      var first := FirstFiles(files);
      var reports := Reports(first, read);
      CollectedResponse(batchId, bucket, prefix, files, Entries(first, reports), SumLines(reports), SumErrors(reports), now)
  }

  /** No log file gives 404; otherwise the first ten files (at most) are
      processed in listing order, the line and error totals are sums over
      them, and every processed file counts as processed, since a failed
      read is reported with zero counts rather than an error. */
  lemma CollectMeaning(event: map<string, Json>, stamp: string, listing: Option<seq<S3Object>>,
                       read: string -> Option<string>, now: string)
    ensures var r := Collect(event, stamp, listing, read, now);
      ListLogFiles(listing) == [] <==> Field(r, "statusCode") == JInt(404)
    ensures var r := Collect(event, stamp, listing, read, now);
      var files := ListLogFiles(listing);
      files != [] ==>
        var reports := Reports(FirstFiles(files), read);
        Field(r, "statusCode") == JInt(200)
        && Field(Field(r, "aggregated_stats"), "processed_files") == JInt(if |files| <= MaxFiles then |files| else MaxFiles)
        && Field(Field(r, "aggregated_stats"), "total_log_lines") == JInt(SumLines(reports))
        && Field(Field(r, "aggregated_stats"), "error_log_lines") == JInt(SumErrors(reports))
        && Field(Field(r, "aggregated_stats"), "total_files") == JInt(|files|)
  {
  }

  /** `lambda_handler`, with the loop over the first ten files. */
  method LambdaHandler(event: map<string, Json>, stamp: string, listing: Option<seq<S3Object>>,
                       read: string -> Option<string>, now: string) returns (r: Json)
    ensures r == Collect(event, stamp, listing, read, now)
  {
    var batchId, bucket, prefix := BatchId(event, stamp), Bucket(event), Prefix(event);
    var kept: seq<LogFile> := [];
    if listing.Some? {
      kept := ListLoop(listing.value);
    }
    var files := if listing.None? then [] else SortNewest(kept);
    if files == [] {
      return NotFoundResponse(batchId, bucket, prefix, now);
    }
    var first := FirstFiles(files);
    var entries, totalLines, errorLines := ProcessFiles(first, read);
    return CollectedResponse(batchId, bucket, prefix, files, entries, totalLines, errorLines, now);
  }

  /** The loop over the first ten files of `lambda_handler`. */
  method ProcessFiles(first: seq<LogFile>, read: string -> Option<string>)
    returns (entries: seq<Json>, totalLines: nat, errorLines: nat)
    ensures entries == Entries(first, Reports(first, read))
    ensures totalLines == SumLines(Reports(first, read)) && errorLines == SumErrors(Reports(first, read))
  {
    ghost var reports := Reports(first, read);
    entries, totalLines, errorLines := [], 0, 0;
    for i := 0 to |first|
      invariant |entries| == i
      invariant forall k :: 0 <= k < i ==> entries[k] == EntryJson(first[k], reports[k])
      invariant totalLines == SumLines(reports[..i]) && errorLines == SumErrors(reports[..i])
    {
      assert reports[..i + 1][..i] == reports[..i];
      var report := ProcessLogFile(read(first[i].key));
      entries := entries + [EntryJson(first[i], report)];
      totalLines := totalLines + report.lines;
      errorLines := errorLines + report.errors;
    }
    assert reports[..|first|] == reports;
  }

  /** `process_log_file`, with its line loop. */
  method ProcessLogFile(content: Option<string>) returns (r: FileReport)
    ensures r == Process(content)
  {
    if content.None? {
      return FileReport(0, 0, None);
    }
    var lines := Split(content.value, '\n');
    var c := ClassifyLines(lines);
    return FileReport(NonBlank(lines), c.error + c.warn, Some(c));
  }
}
