/** The CSV flow's prevalidation, `lambda_prevalidate`: every file entry
    of the batch is looked up in the object store and either accepted (it
    exists, is at most 1 GiB and has a `.csv` name in any letter case) or
    rejected with a message; the batch succeeds when nothing was rejected
    and something was accepted.

    The metadata lookup `head(bucket, key)` is a parameter, as are the clock
    reading `now` and the text `errText` of an exception. */
module Prevalidate {
  import opened Results
  import opened Text
  import opened JsonValue

  /** The answer of `head_object`: the size and modification time of the
      object, or the text of the exception it raised. */
  datatype HeadResult = Found(size: nat, lastModified: string) | HeadFailed(message: string)

  /** 1024 * 1024 * 1024 bytes. */
  const SizeLimit: nat := 1073741824

  /** What one file entry contributes: the bytes added to the total, and
      either the accepted entry or the error message. */
  datatype Check = Check(size: nat, validated: Option<Json>, error: Option<string>)

  /** `key.lower().endswith('.csv')`.  Only ASCII capitals lower-case to
      the letters of `.csv`, so ASCII case mapping decides this exactly. */
  predicate CsvName(key: string) {
    EndsWith(Lower(key), ".csv")
  }

  /** The body of the loop for one entry.  An entry without `bucket` or
      `key` raises out of the loop; every other failure is caught and
      recorded as an error. */
  function CheckFile(f: Json, head: (Json, Json) -> HeadResult): (r: Result<Check>)
    ensures r.Ok? <==> f.JObj? && "bucket" in f.fields && "key" in f.fields
    ensures r.Ok? ==> (r.value.validated.Some? <==> r.value.error.None?)
  {
    if !(f.JObj? && "bucket" in f.fields && "key" in f.fields) then Raised
    else
      var key := f.fields["key"];
      match head(f.fields["bucket"], key)
      case HeadFailed(message) =>
        Ok(Check(0, None, Some("Error accessing " + Show(key) + ": " + message)))
      case Found(size, lastModified) =>
        if size > SizeLimit then
          Ok(Check(size, None, Some("File too large: " + Show(key) + " (" + NatToString(size) + " bytes)")))
        else if !key.JStr? then
          Ok(Check(size, None, Some("Error accessing " + Show(key) + ": '" + TypeName(key) + "' object has no attribute 'lower'")))
        else if !CsvName(key.s) then
          Ok(Check(size, None, Some("Not a CSV file: " + key.s)))
        else
          Ok(Check(size, Some(JObj(f.fields["file_size" := JInt(size)]["last_modified" := JStr(lastModified)])), None))
  }

  /** The size limit is checked before the name: an oversized object is
      rejected as too large whatever its name; an existing object within the
      limit whose name ends in `.csv` in any case is accepted with its size
      and modification time added. */
  lemma CheckOrder(f: Json, head: (Json, Json) -> HeadResult)
    requires f.JObj? && "bucket" in f.fields && "key" in f.fields
    ensures var h := head(f.fields["bucket"], f.fields["key"]);
      h.Found? && h.size > SizeLimit ==>
        CheckFile(f, head).value.error == Some("File too large: " + Show(f.fields["key"]) + " (" + NatToString(h.size) + " bytes)")
    ensures var h := head(f.fields["bucket"], f.fields["key"]);
      h.Found? && h.size <= SizeLimit && f.fields["key"].JStr? && CsvName(f.fields["key"].s) ==>
        CheckFile(f, head).value.validated == Some(JObj(f.fields["file_size" := JInt(h.size)]["last_modified" := JStr(h.lastModified)]))
    ensures CheckFile(f, head).value.validated.Some? ==>
      f.fields["key"].JStr? && CsvName(f.fields["key"].s) && CheckFile(f, head).value.size <= SizeLimit
  {
  }

  /** An upper-case extension passes the name check. */
  lemma UpperCaseExtension(stem: string)
    ensures CsvName(stem + ".CSV")
  {
    var key := stem + ".CSV";
    assert Lower(key)[|key| - 4..] == ".csv";
  }

  /** What the loop has gathered. */
  datatype Tally = Tally(validated: seq<Json>, errors: seq<string>, totalSize: nat)

  function Gather(files: seq<Json>, head: (Json, Json) -> HeadResult): Result<Tally>
    decreases |files|
  {
    if files == [] then Ok(Tally([], [], 0))
    else
      var t :- Gather(files[..|files| - 1], head);
      var c :- CheckFile(files[|files| - 1], head);
      Ok(Add(t, c))
  }

  /** The tally after one more entry. */
  function Add(t: Tally, c: Check): Tally {
    Tally(t.validated + (if c.validated.Some? then [c.validated.value] else []),
          t.errors + (if c.error.Some? then [c.error.value] else []),
          t.totalSize + c.size)
  }

  lemma GatherNext(files: seq<Json>, i: nat, head: (Json, Json) -> HeadResult, t: Tally, c: Check)
    requires i < |files| && Gather(files[..i], head) == Ok(t) && CheckFile(files[i], head) == Ok(c)
    ensures Gather(files[..i + 1], head) == Ok(Add(t, c))
  {
    assert files[..i + 1][..i] == files[..i];
  }

  /** The bytes the lookup reports for an entry, 0 when it failed. */
  function LookedUpSize(f: Json, head: (Json, Json) -> HeadResult): nat
    requires f.JObj? && "bucket" in f.fields && "key" in f.fields
  {
    match head(f.fields["bucket"], f.fields["key"])
    case Found(size, _) => size
    case HeadFailed(_) => 0
  }

  function SizeSum(files: seq<Json>, head: (Json, Json) -> HeadResult): nat
    requires forall i :: 0 <= i < |files| ==> files[i].JObj? && "bucket" in files[i].fields && "key" in files[i].fields
    decreases |files|
  {
    if files == [] then 0 else SizeSum(files[..|files| - 1], head) + LookedUpSize(files[|files| - 1], head)
  }

  /** The loop finishes exactly when every entry has a bucket and a key;
      then each entry is either accepted or rejected, never both, and the
      total size counts every object the lookup found, rejected ones
      included. */
  lemma {:induction false} GatherMeaning(files: seq<Json>, head: (Json, Json) -> HeadResult)
    ensures Gather(files, head).Ok? <==>
      forall i :: 0 <= i < |files| ==> files[i].JObj? && "bucket" in files[i].fields && "key" in files[i].fields
    ensures Gather(files, head).Ok? ==>
      |Gather(files, head).value.validated| + |Gather(files, head).value.errors| == |files|
      && Gather(files, head).value.totalSize == SizeSum(files, head)
    decreases |files|
  {
    if files != [] {
      var n := |files| - 1;
      GatherMeaning(files[..n], head);
      assert forall i :: 0 <= i < n ==> files[..n][i] == files[i];
      if Gather(files, head).Ok? {
        var c := CheckFile(files[n], head).value;
        assert c.size == LookedUpSize(files[n], head);
      }
    }
  }

  /** `for file_input in files`: a list's elements; an empty string or
      dict gives nothing; the elements of a non-empty string or dict are
      no dicts and raise, and anything else is not iterable. */
  function Entries(files: Json): Result<seq<Json>> {
    match files
    case JArr(a) => Ok(a)
    case JStr(s) => if s == [] then Ok([]) else Raised
    case JObj(m) => if m == map[] then Ok([]) else Raised
    case _ => Raised
  }

  /** The batch succeeds when nothing was rejected and something accepted. */
  predicate Success(t: Tally) {
    t.errors == [] && t.validated != []
  }

  function EvidenceJson(batchId: Json, filesCount: nat, t: Tally, now: string): (e: Json)
    ensures Field(e, "ok") == JBool(Success(t)) && Field(e, "step") == JStr("prevalidate")
    ensures Field(Field(e, "input"), "files_count") == JInt(filesCount)
    ensures Field(Field(e, "input"), "total_size_bytes") == JInt(t.totalSize)
    ensures Field(Field(e, "output"), "validated_files") == JInt(|t.validated|)
    ensures Field(e, "note") == JStr("Validated " + NatToString(|t.validated|) + " files, " + NatToString(|t.errors|) + " errors")
  {
    JObj(map[
      "batch_id" := batchId,
      "test_id" := JStr(""),
      "flow" := JStr("csv-to-parquet-pipeline"),
      "step" := JStr("prevalidate"),
      "input" := JObj(map["files_count" := JInt(filesCount), "total_size_bytes" := JInt(t.totalSize)]),
      "output" := JObj(map["validated_files" := JInt(|t.validated|),
                           "errors" := JArr(seq(|t.errors|, i requires 0 <= i < |t.errors| => JStr(t.errors[i])))]),
      "load" := EmptyObj,
      "ok" := JBool(Success(t)),
      "ts" := JStr(now),
      "note" := JStr("Validated " + NatToString(|t.validated|) + " files, " + NatToString(|t.errors|) + " errors")])
  }

  function ErrorResponse(batchId: Json, errText: string, now: string): (r: Json)
    ensures Field(r, "statusCode") == JInt(500) && Field(Field(r, "evidence"), "ok") == JBool(false)
  {
    JObj(map["statusCode" := JInt(500), "error" := JStr(errText),
             "evidence" := JObj(map["batch_id" := batchId, "step" := JStr("prevalidate"), "ok" := JBool(false),
                                    "error" := JStr(errText), "ts" := JStr(now)])])
  }

  function SuccessResponse(batchId: Json, filesCount: nat, t: Tally, now: string): (r: Json)
    ensures Field(r, "statusCode") == JInt(200) && Field(r, "success") == JBool(Success(t))
    ensures Field(r, "validated_files") == JArr(t.validated)
  {
    JObj(map["statusCode" := JInt(200), "batch_id" := batchId, "validated_files" := JArr(t.validated),
             "validation_errors" := JArr(seq(|t.errors|, i requires 0 <= i < |t.errors| => JStr(t.errors[i]))),
             "success" := JBool(Success(t)), "evidence" := EvidenceJson(batchId, filesCount, t, now)])
  }

  /** `lambda_handler(event, context)` */
  function Handler(event: map<string, Json>, head: (Json, Json) -> HeadResult, now: string, errText: string): Json {
    var batchId := Lookup(event, "batch_id", JNull);
    var files := Lookup(event, "files", JArr([]));
    match Entries(files)
    case Raised => ErrorResponse(batchId, errText, now)
    case Ok(entries) =>
      match Gather(entries, head)
      case Raised => ErrorResponse(batchId, errText, now)
      case Ok(t) => SuccessResponse(batchId, |entries|, t, now)
  }

  /** A list of well-formed entries gets 200, with every entry accepted or
      rejected and success exactly when none was rejected and one accepted;
      an entry missing its bucket or key aborts the call with 500. */
  lemma HandlerMeaning(event: map<string, Json>, head: (Json, Json) -> HeadResult, now: string, errText: string)
    ensures var files := Lookup(event, "files", JArr([]));
      files.JArr? ==>
        var r := Handler(event, head, now, errText);
        ((exists i :: 0 <= i < |files.items| && !(files.items[i].JObj? && "bucket" in files.items[i].fields && "key" in files.items[i].fields))
          <==> Field(r, "statusCode") == JInt(500))
    ensures var files := Lookup(event, "files", JArr([]));
      files.JArr? && Gather(files.items, head).Ok? ==>
        var r := Handler(event, head, now, errText);
        var t := Gather(files.items, head).value;
        Field(r, "statusCode") == JInt(200)
        && |t.validated| + |t.errors| == |files.items|
        && (Field(r, "success") == JBool(true) <==> t.errors == [] && t.validated != [])
        && Field(Field(Field(r, "evidence"), "input"), "files_count") == JInt(|files.items|)
  {
    var files := Lookup(event, "files", JArr([]));
    if files.JArr? {
      GatherMeaning(files.items, head);
    }
  }

  /** `lambda_handler` */
  method LambdaHandler(event: map<string, Json>, head: (Json, Json) -> HeadResult, now: string, errText: string)
    returns (r: Json)
    ensures r == Handler(event, head, now, errText)
  {
    var batchId := Lookup(event, "batch_id", JNull);
    var files := Entries(Lookup(event, "files", JArr([])));
    if files.Raised? {
      return ErrorResponse(batchId, errText, now);
    }
    var t := GatherLoop(files.value, head);
    if t.Raised? {
      return ErrorResponse(batchId, errText, now);
    }
    return SuccessResponse(batchId, |files.value|, t.value, now);
  }

  /** The loop over the entries. */
  method GatherLoop(entries: seq<Json>, head: (Json, Json) -> HeadResult) returns (r: Result<Tally>)
    ensures r == Gather(entries, head)
  {
    var validated: seq<Json> := [];
    var errors: seq<string> := [];
    var totalSize: nat := 0;
    for i := 0 to |entries|
      invariant Gather(entries[..i], head) == Ok(Tally(validated, errors, totalSize))
    {
      var f := entries[i];
      if !(f.JObj? && "bucket" in f.fields && "key" in f.fields) {
        assert entries[..i + 1][..i] == entries[..i];
        GatherRaised(entries, i + 1, head);
        return Raised;
      }
      var c := CheckEntry(f, head);
      ghost var before := Tally(validated, errors, totalSize);
      GatherNext(entries, i, head, before, c);
      totalSize := totalSize + c.size;
      if c.error.Some? {
        errors := errors + [c.error.value];
      } else {
        validated := validated + [c.validated.value];
      }
      assert Tally(validated, errors, totalSize) == Add(before, c);
      assert Gather(entries[..i + 1], head) == Ok(Tally(validated, errors, totalSize));
    }
    assert entries[..|entries|] == entries;
    return Ok(Tally(validated, errors, totalSize));
  }

  /** The `try` block of the loop body for a well-formed entry; each early
      return is one of its `continue`s or its `except`. */
  method CheckEntry(f: Json, head: (Json, Json) -> HeadResult) returns (c: Check)
    requires f.JObj? && "bucket" in f.fields && "key" in f.fields
    ensures Ok(c) == CheckFile(f, head)
  {
    var key := f.fields["key"];
    var response := head(f.fields["bucket"], key);
    if response.HeadFailed? {
      return Check(0, None, Some("Error accessing " + Show(key) + ": " + response.message));
    }
    var fileSize := response.size;
    if fileSize > SizeLimit {
      return Check(fileSize, None, Some("File too large: " + Show(key) + " (" + NatToString(fileSize) + " bytes)"));
    }
    if !key.JStr? {
      return Check(fileSize, None, Some("Error accessing " + Show(key) + ": '" + TypeName(key) + "' object has no attribute 'lower'"));
    }
    if !CsvName(key.s) {
      return Check(fileSize, None, Some("Not a CSV file: " + key.s));
    }
    return Check(fileSize, Some(JObj(f.fields["file_size" := JInt(fileSize)]["last_modified" := JStr(response.lastModified)])), None);
  }

  /** A malformed entry makes the whole loop raise. */
  lemma {:induction false} GatherRaised(files: seq<Json>, k: nat, head: (Json, Json) -> HeadResult)
    requires k <= |files| && Gather(files[..k], head).Raised?
    ensures Gather(files, head).Raised?
    decreases |files| - k
  {
    if k < |files| {
      assert files[..k + 1][..k] == files[..k];
      GatherRaised(files, k + 1, head);
    } else {
      assert files[..k] == files;
    }
  }
}
